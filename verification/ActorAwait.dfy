/**
 `ActorAwait::join`: a receive moves itself to another dispatcher by enqueuing a continuation
 there that wakes it. What becomes of the continuation is in `JoinModel`.
 */
module ActorAwait {
  import opened Basics

  predicate Ready(target: nat, current: Option<nat>) { current == Some(target) }

  predicate Enqueues(target: nat, scheduled: bool, current: Option<nat>) { !Ready(target, current) && !scheduled }

  class ActorAwaiter {
    const dispatcher: nat
    var isScheduled: bool

    constructor (dispatcher: nat)
      ensures this.dispatcher == dispatcher && !isScheduled
    {
      this.dispatcher := dispatcher;
      isScheduled := false;
    }

    /** `current` is the dispatcher whose worker polls, if any; `enqueued` says whether a
        continuation was handed to the target dispatcher. */
    method Poll(current: Option<nat>) returns (ready: bool, enqueued: bool)
      modifies this
      ensures ready <==> Ready(dispatcher, current)
      ensures enqueued <==> Enqueues(dispatcher, old(isScheduled), current)
      ensures isScheduled == (old(isScheduled) || enqueued)
    {
      enqueued := false;
      if current.Some? {
        if current.value == dispatcher { return true, false; }
      }
      if !isScheduled {
        isScheduled := true;
        enqueued := true;
      }
      ready := false;
    }
  }

  /** How many continuations a series of polls enqueues, by the contract of `Poll`. */
  ghost function Enqueued(target: nat, scheduled: bool, polls: seq<Option<nat>>): nat
    decreases |polls|
  {
    if polls == [] then 0 else
    var enqueued := Enqueues(target, scheduled, polls[0]);
    (if enqueued then 1 else 0) + Enqueued(target, scheduled || enqueued, polls[1..])
  }

  /** However often and wherever it is polled, an awaiter enqueues one continuation, and none
      if it never leaves its dispatcher. */
  lemma {:induction false} EnqueuesOnce(target: nat, scheduled: bool, polls: seq<Option<nat>>)
    ensures Enqueued(target, scheduled, polls) ==
            if scheduled || (forall i :: 0 <= i < |polls| ==> Ready(target, polls[i])) then 0 else 1
    decreases |polls|
  {
    if polls != [] {
      EnqueuesOnce(target, scheduled || Enqueues(target, scheduled, polls[0]), polls[1..]);
      if Ready(target, polls[0]) {
        assert forall i :: 0 < i < |polls| ==> polls[i] == polls[1..][i - 1];
      }
    }
  }
}
