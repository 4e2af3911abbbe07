/**
 Whole runs of the runner: what holds in every state that any interleaving of posts,
 kills, wakes and dispatcher workers can reach.
 */
module RunnerRuns {
  import opened Basics
  import opened MailboxRing
  import opened RunnerModel
  import opened RunnerInvariant

  /** `acts` is a run from `s` to `s'`; `oneShot` asks every poll to keep the wake contract. */
  ghost predicate Leads(s: State, acts: seq<Action>, s': State, oneShot: bool)
    decreases |acts|
  {
    if acts == [] then s == s' else
      && Shape(s) && Enabled(s, acts[0])
      && (oneShot ==> Contract(s, acts[0]))
      && Leads(Step(s, acts[0]), acts[1..], s', oneShot)
  }

  ghost predicate ReachableBy(owner: nat, dispatchers: nat, capacity: nat, acts: seq<Action>, s: State) {
    owner < dispatchers && capacity >= 2 && Leads(Initial(owner, dispatchers, capacity), acts, s, true)
  }

  /** Reached from a fresh actor, with receives that keep the one-shot wake contract. */
  ghost predicate Reachable(s: State) {
    exists owner, dispatchers, capacity, acts :: ReachableBy(owner, dispatchers, capacity, acts, s)
  }

  lemma {:induction false} LeadsKeeps(s: State, h: Holder, acts: seq<Action>, s': State) returns (h': Holder)
    requires Inv(s, h) && Leads(s, acts, s', true)
    ensures var kept := Inv(s', h'); kept
    decreases |acts|
  {
    if acts == [] {
      h' := h;
    } else {
      var h1 := StepKeeps(s, h, acts[0]);
      h' := LeadsKeeps(Step(s, acts[0]), h1, acts[1..], s');
    }
  }

  lemma ReachableInv(s: State) returns (h: Holder)
    requires Reachable(s)
    ensures var kept := Inv(s, h); kept
  {
    var owner, dispatchers, capacity, acts :| ReachableBy(owner, dispatchers, capacity, acts, s);
    InitialInv(owner, dispatchers, capacity);
    h := LeadsKeeps(Initial(owner, dispatchers, capacity), Nobody, acts, s);
  }

  lemma {:induction false} LeadsOn(s: State, acts: seq<Action>, mid: State, more: seq<Action>, s': State, oneShot: bool)
    requires Leads(s, acts, mid, oneShot) && Leads(mid, more, s', oneShot)
    ensures Leads(s, acts + more, s', oneShot)
    decreases |acts|
  {
    if acts == [] {
      assert acts + more == more;
    } else {
      assert (acts + more)[1..] == acts[1..] + more;
      LeadsOn(Step(s, acts[0]), acts[1..], mid, more, s', oneShot);
    }
  }

  lemma LeadsOne(s: State, a: Action, oneShot: bool)
    requires Shape(s) && Enabled(s, a) && (oneShot ==> Contract(s, a))
    ensures Leads(s, [a], Step(s, a), oneShot)
  {
    assert [a][1..] == [];
    assert Leads(Step(s, a), [], Step(s, a), oneShot);
  }

  /** What a reachable state leads to is reachable. */
  lemma ReachableOn(s: State, more: seq<Action>, s': State)
    requires Reachable(s) && Leads(s, more, s', true)
    ensures Reachable(s')
  {
    var owner, dispatchers, capacity, acts :| ReachableBy(owner, dispatchers, capacity, acts, s);
    LeadsOn(Initial(owner, dispatchers, capacity), acts, s, more, s', true);
    assert ReachableBy(owner, dispatchers, capacity, acts + more, s');
  }

  // ------------------------------------------------------------- single holder

  /** What in the state amounts to the right to run the actor. */
  predicate Permits(s: State, p: Holder) {
    match p
    case APoster(t) => t in s.posters && s.posters[t].at.Push?
    case AKiller(t) => t in s.killers && s.killers[t].KillPushToken?
    case AToken(d) => d < |s.queue| && s.queue[d] > 0
    case AFrame(d) => d < |s.frames| && Holding(s.frames[d])
    case AWake(w) => w in s.wakers
    case _ => false
  }

  /** `is_scheduled` is set exactly when one permission exists, and there is never a second. */
  lemma SingleHolder(s: State)
    requires Reachable(s) && !s.life.Stopped?
    ensures s.flag <==> exists p :: Permits(s, p)
    ensures forall p, q :: Permits(s, p) && Permits(s, q) ==> p == q
    ensures forall d :: 0 <= d < |s.queue| ==> s.queue[d] <= 1
  {
    var h := ReachableInv(s);
    assert forall p :: Permits(s, p) ==> p == h;
    if s.flag { assert Permits(s, h); }
  }

  /** Frames inside the actor's own code, or reading the unsynchronised consumer index. */
  predicate Touches(pc: Pc) {
    pc.Receiving? || pc.Polling? || pc.OnKill? || pc.Deq? || pc.PeekIndex? || pc.PeekLoad?
  }

  /** No two threads ever touch the actor or the consumer index at once, not even with the
      peek that follows the flag clear or the tail of a poll that was already woken. */
  lemma ExclusiveAccess(s: State, d: nat, e: nat)
    requires Reachable(s) && d < |s.frames| && e < |s.frames|
    requires Touches(s.frames[d]) && Touches(s.frames[e])
    ensures d == e
  {
    var h := ReachableInv(s);
    TouchingFrame(s, h, d);
    TouchingFrame(s, h, e);
  }

  lemma TouchingFrame(s: State, h: Holder, d: nat)
    requires Inv(s, h) && d < |s.frames| && Touches(s.frames[d])
    ensures h == AFrame(d)
            || (Leaving(s.frames[d]) && s.driver.lock == Some(d) && (h.AFrame? ==> Resuming(HolderPc(s.frames, h))))
            || (Peeking(s.frames[d]) && d == s.owner && !h.AFrame? && Off(s.driver))
  {
  }

  // ---------------------------------------------------------------- no lost work

  /** A readable mail is never forgotten: someone may run the actor, a post is between
      publishing and its flag check, or the runner is between clearing the flag and peeking. */
  lemma NoLostMail(s: State)
    requires Reachable(s) && !s.life.Stopped?
    ensures Shape(s)
    ensures HeadPublished(s.ring) ==>
              || (exists p :: Permits(s, p))
              || (exists t :: t in s.posters && AboutToCheckFlag(s.posters[t]))
              || Peeking(s.frames[s.owner])
  {
    var h := ReachableInv(s);
    if !h.Nobody? { assert Permits(s, h); }
  }

  /** A wake, fired or not, always finds the driver active and unmarked, so it is never
      dropped; at most one is out; and each becomes exactly one token and then one poll. */
  lemma NoLostWake(s: State)
    requires Reachable(s)
    ensures forall w :: w in s.wakers ==>
              s.driver.slot && s.driver.active && (s.driver.marked ==> s.wakers[w].PushWake?)
    ensures forall w, v :: w in s.wakers && v in s.wakers ==> w == v
    ensures s.log.registered == s.log.woken + (if s.wakers == map[] then 0 else 1)
    ensures s.log.woken == s.log.resumed + (if ResumePending(s) then 1 else 0)
  {
    var h := ReachableInv(s);
    if s.wakers != map[] {
      var w :| w in s.wakers;
      assert h == AWake(w);
    }
    ResumePendingIs(s, h);
  }

  /** A wake's token is queued, or the frame that took it has not locked the future yet. */
  ghost predicate ResumePending(s: State) {
    && s.driver.active
    && (|| (exists d :: 0 <= d < |s.queue| && s.queue[d] > 0)
        || (exists d :: 0 <= d < |s.frames| && Resuming(s.frames[d])))
  }

  lemma ResumePendingIs(s: State, h: Holder)
    requires Inv(s, h)
    ensures ResumePending(s) <==> (h.AToken? || Resuming(HolderPc(s.frames, h))) && s.driver.active
  {
    if h.AToken? { assert s.queue[h.d] > 0; }
    if Resuming(HolderPc(s.frames, h)) { assert Resuming(s.frames[h.d]); }
    forall d | 0 <= d < |s.frames| && Resuming(s.frames[d]) ensures h == AFrame(d) {
    }
    forall d | 0 <= d < |s.queue| && s.queue[d] > 0 ensures h == AToken(d) {
    }
  }

  /** The driver never finds its slot empty, and a panicking receive never schedules twice. */
  lemma IdleUnreachable(s: State, d: nat)
    requires Reachable(s) && d < |s.frames|
    ensures !s.frames[d].PollIdle? && !s.frames[d].OwnKillPush?
  {
    var h := ReachableInv(s);
  }

  /** A suspended receive is resumed on the dispatcher its wake chose; a fresh one starts on
      the owner, where all mailbox work and finalization happens. */
  lemma ResumesWhereWoken(s: State, d: nat)
    requires Reachable(s) && d < |s.frames|
    ensures s.frames[d] == Polling(false, false) ==> d == s.log.resumeOn
    ensures s.frames[d] == Polling(true, false) ==> d == s.owner
    ensures var pc := s.frames[d]; pc.Deq? || pc.Receiving? || pc.OnKill? || pc.OnFinalize? ==> d == s.owner
  {
    var h := ReachableInv(s);
    if Holding(s.frames[d]) { FrameHolds(s, h, d); }
  }

  // ---------------------------------------------------------------- finalization

  function Rank(life: Life): nat {
    match life case Running => 0 case Killing => 1 case Stopped => 2
  }

  /** `on_kill` and `on_finalize` run at most once, in this order, on the owner dispatcher,
      with no receive suspended and no wake out. */
  lemma FinalizedOnce(s: State, d: nat)
    requires Reachable(s)
    ensures s.log.finals <= s.log.kills <= 1
    ensures s.log.kills > 0 ==> s.life.Stopped?
    ensures d < |s.frames| && (s.frames[d].OnKill? || s.frames[d].OnFinalize?) ==>
              && d == s.owner && Off(s.driver) && s.wakers == map[]
              && s.log.kills == (if s.frames[d].OnKill? then 0 else 1)
  {
    var h := ReachableInv(s);
    if d < |s.frames| && (s.frames[d].OnKill? || s.frames[d].OnFinalize?) {
      assert h == AFrame(d);
      assert s.wakers == map[];
    }
  }

  lemma FinalizesKilling(s: State, d: nat)
    requires Reachable(s) && d < |s.frames| && s.frames[d].FinSwap?
    ensures s.life.Killing?
  {
    var h := ReachableInv(s);
    FrameHolds(s, h, d);
  }

  lemma FrameMovesForward(s: State, d: nat)
    requires Reachable(s) && Shape(s) && Enabled(s, FrameStep(d))
    ensures Rank(s.life) <= Rank(FrameAdvance(s, d).life) <= Rank(s.life) + 1
  {
    var s' := FrameAdvance(s, d);
    assert Disciplined(s, d, s');
    if s.frames[d].FinSwap? { FinalizesKilling(s, d); }
  }

  lemma PostKeepsLife(s: State, t: nat)
    requires Shape(s) && Enabled(s, PostStep(t))
    ensures PostAdvance(s, t).life == s.life
  {
  }

  lemma KillMovesForward(s: State, t: nat)
    requires Shape(s) && Enabled(s, KillStep(t))
    ensures Rank(s.life) <= Rank(KillAdvance(s, t).life) <= Rank(s.life) + 1
  {
  }

  lemma WakeKeepsLife(s: State, w: nat)
    requires Shape(s) && Enabled(s, WakeStep(w))
    ensures WakeAdvance(s, w).life == s.life
  {
  }

  /** The lifecycle only ever moves one place forward. */
  lemma LifeMovesForward(s: State, a: Action)
    requires Reachable(s) && Shape(s) && Enabled(s, a)
    ensures Rank(s.life) <= Rank(Step(s, a).life) <= Rank(s.life) + 1
  {
    match a
    case FrameStep(d) => FrameMovesForward(s, d);
    case PostStep(t) => PostKeepsLife(s, t);
    case KillStep(t) => KillMovesForward(s, t);
    case WakeStep(w) => WakeKeepsLife(s, w);
    case _ => assert Step(s, a).life == s.life;
  }

  lemma StoppedStep(s: State, a: Action)
    requires Shape(s) && Enabled(s, a) && s.life.Stopped?
    ensures Step(s, a).life.Stopped? && Step(s, a).log.received == s.log.received
  {
    if a.FrameStep? { assert Disciplined(s, a.d, FrameAdvance(s, a.d)); }
  }

  /** Once stopped, nothing is received, whatever runs afterwards. */
  lemma {:induction false} NothingAfterStop(s: State, acts: seq<Action>, s': State, oneShot: bool)
    requires s.life.Stopped? && Leads(s, acts, s', oneShot)
    ensures s'.life.Stopped? && s'.log.received == s.log.received
    decreases |acts|
  {
    if acts != [] {
      StoppedStep(s, acts[0]);
      NothingAfterStop(Step(s, acts[0]), acts[1..], s', oneShot);
    }
  }

  // ----------------------------------------------------------------- mail order

  /** What `on_receive` saw is a prefix of the accepted mails in ticket order: no mail twice,
      and the mails of one thread in the order in which it posted them. */
  lemma ReceivedInOrder(s: State)
    requires Reachable(s)
    ensures |s.log.received| <= |s.ring.claimed|
    ensures forall i :: 0 <= i < |s.log.received| ==> s.log.received[i] == Some(s.ring.claimed[i])
    ensures forall i, j :: 0 <= i < j < |s.log.received| ==> s.log.received[i] != s.log.received[j]
    ensures forall i, j :: 0 <= i < j < |s.log.received| ==>
              s.log.received[i].value.producer == s.log.received[j].value.producer ==>
                s.log.received[i].value.number < s.log.received[j].value.number
  {
    var h := ReachableInv(s);
    forall i | 0 <= i < |s.log.received| ensures s.log.received[i] == Some(s.ring.claimed[i]) {
      assert s.log.received[i] == s.ring.taken[i];
    }
  }
}
