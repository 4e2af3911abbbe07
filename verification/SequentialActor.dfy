/**
 The actor as its users think of it: a queue of accepted mails, handled one after the
 other, each to its end before the next begins, then finalized once. The runner refines
 this machine step by step.
 */
module SequentialActor {
  import opened Basics
  import opened MailboxRing
  import opened RunnerModel
  import opened RunnerInvariant
  import opened RunnerRuns

  datatype Actor = Actor(accepted: seq<Mail>, begun: nat, busy: bool, killed: bool, finalized: bool)

  /** The only things a sequential actor ever does. */
  ghost predicate ActorStep(a: Actor, a': Actor) {
    || a' == a
    || (exists m :: a' == a.(accepted := a.accepted + [m]))
    || (!a.busy && !a.killed && a.begun < |a.accepted| && a' == a.(begun := a.begun + 1, busy := true))
    || (a.busy && a' == a.(busy := false))
    || (!a.killed && a' == a.(killed := true))
    || (a.killed && !a.busy && !a.finalized && a' == a.(finalized := true))
  }

  predicate BusyPc(pc: Pc) { pc.Receiving? || pc.ArmSlot? }

  /** A receive has begun and not ended: in `on_receive`, about to be parked, or parked. */
  ghost predicate Busy(s: State) {
    s.driver.slot || exists d :: 0 <= d < |s.frames| && BusyPc(s.frames[d])
  }

  ghost function Abstract(s: State): Actor {
    Actor(s.ring.claimed, |s.log.received|, Busy(s), !s.life.Running?, s.log.kills > 0)
  }

  lemma BusyIs(s: State, h: Holder)
    requires FramesOk(s.frames, h)
    ensures Busy(s) <==> s.driver.slot || BusyPc(HolderPc(s.frames, h))
  {
    if BusyPc(HolderPc(s.frames, h)) { assert BusyPc(s.frames[h.d]); }
    forall d | 0 <= d < |s.frames| && BusyPc(s.frames[d]) ensures h == AFrame(d) {
    }
  }

  /** Busy-ness changes only through the frame that moved. */
  lemma BusyMoves(s: State, h: Holder, d: nat, s': State)
    requires FramesOk(s.frames, h) && d < |s.frames| && |s'.frames| == |s.frames|
    requires s'.frames == s.frames[d := s'.frames[d]]
    requires Holding(s.frames[d]) || !BusyPc(s'.frames[d])
    ensures Holding(s.frames[d]) ==> (Busy(s') <==> s'.driver.slot || BusyPc(s'.frames[d]))
    ensures !Holding(s.frames[d]) && s'.driver.slot == s.driver.slot ==> Busy(s') == Busy(s)
  {
    if BusyPc(s'.frames[d]) { assert Busy(s'); }
    forall e | 0 <= e < |s.frames| && e != d ensures s'.frames[e] == s.frames[e] {
    }
  }

  /** A frame step that the sequential actor does not notice. */
  predicate Silent(s: State, d: nat, s': State)
    requires d < |s.frames| == |s'.frames|
  {
    && s'.ring.claimed == s.ring.claimed && s'.driver.slot == s.driver.slot && s'.life == s.life
    && s'.log.received == s.log.received && s'.log.kills == s.log.kills
    && !BusyPc(s.frames[d]) && !BusyPc(s'.frames[d])
  }

  lemma PollIsSilent(s: State, d: nat)
    requires Shape(s) && Enabled(s, FrameStep(d)) && InPoll(s.frames[d])
    ensures Silent(s, d, PollAdvance(s, d))
  {
  }

  lemma DequeueIsSilent(s: State, d: nat)
    requires Shape(s) && Enabled(s, FrameStep(d)) && s.frames[d].Deq?
    ensures Silent(s, d, DequeueAdvance(s, d))
  {
  }

  lemma DrainIsSilent(s: State, d: nat)
    requires Shape(s) && Enabled(s, FrameStep(d)) && InDrain(s.frames[d])
    ensures s.frames[d].ArmSlot? || (s.frames[d].CheckLife? && s.life.Running?) || Silent(s, d, DrainAdvance(s, d))
  {
  }

  lemma PeekIsSilent(s: State, d: nat)
    requires Shape(s) && Enabled(s, FrameStep(d)) && InPeek(s.frames[d])
    ensures Silent(s, d, PeekAdvance(s, d))
  {
  }

  lemma PushIsSilent(s: State, d: nat)
    requires Shape(s) && Enabled(s, FrameStep(d)) && InPush(s.frames[d])
    ensures Silent(s, d, PushAdvance(s, d))
  {
  }

  lemma SilentRefines(s: State, h: Holder, d: nat, s': State)
    requires FramesOk(s.frames, h) && d < |s.frames| == |s'.frames| && OwnFrameOnly(s, d, s') && Silent(s, d, s')
    ensures Abstract(s') == Abstract(s)
  {
    BusyMoves(s, h, d, s');
    BusyIs(s, h);
  }

  lemma LoudDrainRefines(s: State, h: Holder, d: nat)
    requires Inv(s, h) && Enabled(s, FrameStep(d))
    requires s.frames[d].ArmSlot? || (s.frames[d].CheckLife? && s.life.Running?)
    ensures var seen := ActorStep(Abstract(s), Abstract(DrainAdvance(s, d))); seen
  {
    FrameHolds(s, h, d);
    BusyIs(s, h);
    BusyMoves(s, h, d, DrainAdvance(s, d));
  }

  lemma OwnKillRefines(s: State, h: Holder, d: nat)
    requires Inv(s, h) && Enabled(s, FrameStep(d)) && InOwnKill(s.frames[d])
    ensures var seen := ActorStep(Abstract(s), Abstract(OwnKillAdvance(s, d))); seen
  {
    FrameHolds(s, h, d);
    BusyIs(s, h);
    BusyMoves(s, h, d, OwnKillAdvance(s, d));
  }

  lemma FinalizeRefines(s: State, h: Holder, d: nat)
    requires Inv(s, h) && Enabled(s, FrameStep(d)) && InFinalize(s.frames[d])
    ensures var seen := ActorStep(Abstract(s), Abstract(FinAdvance(s, d))); seen
  {
    FrameHolds(s, h, d);
    BusyIs(s, h);
    BusyMoves(s, h, d, FinAdvance(s, d));
  }

  lemma QuietFrameRefines(s: State, h: Holder, d: nat)
    requires Inv(s, h) && Enabled(s, FrameStep(d))
    requires var pc := s.frames[d]; pc.Deq? || InPoll(pc) || InPeek(pc) || InPush(pc)
    ensures Abstract(Step(s, FrameStep(d))) == Abstract(s)
  {
    var pc := s.frames[d];
    var s' := FrameAdvance(s, d);
    assert OwnFrameOnly(s, d, s');
    if pc.Deq? { DequeueIsSilent(s, d);
    } else if InPoll(pc) { PollIsSilent(s, d);
    } else if InPeek(pc) { PeekIsSilent(s, d);
    } else { PushIsSilent(s, d); }
    SilentRefines(s, h, d, s');
  }

  lemma DrainRefines(s: State, h: Holder, d: nat)
    requires Inv(s, h) && Enabled(s, FrameStep(d)) && InDrain(s.frames[d])
    ensures var seen := ActorStep(Abstract(s), Abstract(DrainAdvance(s, d))); seen
  {
    var s' := DrainAdvance(s, d);
    DrainIsSilent(s, d);
    if Silent(s, d, s') { SilentRefines(s, h, d, s'); } else { LoudDrainRefines(s, h, d); }
  }

  lemma AdvanceIs(s: State, d: nat)
    requires Shape(s) && Enabled(s, FrameStep(d))
    ensures var pc := s.frames[d];
            && (InOwnKill(pc) ==> Step(s, FrameStep(d)) == OwnKillAdvance(s, d))
            && (InFinalize(pc) ==> Step(s, FrameStep(d)) == FinAdvance(s, d))
            && (InDrain(pc) ==> Step(s, FrameStep(d)) == DrainAdvance(s, d))
            && (InOwnKill(pc) || InFinalize(pc) || InDrain(pc) || pc.Deq? || InPoll(pc) || InPeek(pc) || InPush(pc))
  {
  }

  lemma FrameStepRefines(s: State, h: Holder, d: nat)
    requires Inv(s, h) && Enabled(s, FrameStep(d))
    ensures var seen := ActorStep(Abstract(s), Abstract(Step(s, FrameStep(d)))); seen
  {
    var pc := s.frames[d];
    AdvanceIs(s, d);
    if InOwnKill(pc) { OwnKillRefines(s, h, d);
    } else if InFinalize(pc) { FinalizeRefines(s, h, d);
    } else if InDrain(pc) { DrainRefines(s, h, d);
    } else { QuietFrameRefines(s, h, d); }
  }

  /** A receive that returns, or a poll that ends, ends the abstract receive or goes unseen. */
  lemma UserCodeRefines(s: State, h: Holder, a: Action)
    requires Inv(s, h) && Enabled(s, a) && Contract(s, a)
    requires a.ReceiveReturns? || a.RegisterWake? || a.PollReturns?
    ensures ActorStep(Abstract(s), Abstract(Step(s, a)))
  {
    if a.PollReturns? { PollRefines(s, h, a.d, a.polled); return; }
    var s' := Step(s, a);
    BusyIs(s, h);
    BusyMoves(s, h, a.d, s');
    FrameHolds(s, h, a.d);
  }

  lemma PollRefines(s: State, h: Holder, d: nat, polled: PollResult)
    requires Inv(s, h) && Enabled(s, PollReturns(d, polled)) && Contract(s, PollReturns(d, polled))
    ensures ActorStep(Abstract(s), Abstract(Step(s, PollReturns(d, polled))))
  {
    BusyIs(s, h);
    BusyMoves(s, h, d, Step(s, PollReturns(d, polled)));
    if Holding(s.frames[d]) { FrameHolds(s, h, d); }
  }

  lemma PostRefines(s: State, t: nat)
    requires Shape(s) && Enabled(s, PostStep(t))
    ensures ActorStep(Abstract(s), Abstract(Step(s, PostStep(t))))
  {
    var s' := Step(s, PostStep(t));
    assert s'.frames == s.frames && s'.driver == s.driver;
    assert Busy(s') == Busy(s);
  }

  /** A step that leaves frames and parked receive alone leaves the abstract receive alone. */
  lemma Unbusied(s: State, s': State)
    requires s'.frames == s.frames && s'.driver.slot == s.driver.slot
    ensures Busy(s') == Busy(s)
  {
  }

  lemma KillRefines(s: State, t: nat)
    requires Shape(s) && Enabled(s, KillStep(t))
    ensures var seen := ActorStep(Abstract(s), Abstract(KillAdvance(s, t))); seen
  {
    Unbusied(s, KillAdvance(s, t));
  }

  lemma WakeRefines(s: State, w: nat)
    requires Shape(s) && Enabled(s, WakeStep(w))
    ensures Abstract(WakeAdvance(s, w)) == Abstract(s)
  {
    Unbusied(s, WakeAdvance(s, w));
  }

  lemma OthersRefine(s: State, a: Action)
    requires Shape(s) && Enabled(s, a)
    requires a.BeginPost? || a.BeginKill? || a.KillStep? || a.FireWake? || a.WakeStep?
    ensures var seen := ActorStep(Abstract(s), Abstract(Step(s, a))); seen
  {
    if a.KillStep? { KillRefines(s, a.t); }
    else if a.WakeStep? { WakeRefines(s, a.w); }
    else { Unbusied(s, Step(s, a)); }
  }

  /** Every step of the runner is a step of the sequential actor. */
  lemma StepRefines(s: State, h: Holder, a: Action)
    requires Inv(s, h) && Enabled(s, a) && Contract(s, a)
    ensures ActorStep(Abstract(s), Abstract(Step(s, a)))
  {
    if a.PostStep? { PostRefines(s, a.t); }
    else if a.FrameStep? { FrameStepRefines(s, h, a.d); }
    else if a.ReceiveReturns? || a.RegisterWake? || a.PollReturns? { UserCodeRefines(s, h, a); }
    else if a.Execute? { BusyMoves(s, h, a.d, Step(s, a)); BusyIs(s, h); }
    else { OthersRefine(s, a); }
  }

  ghost predicate ActorRun(trace: seq<Actor>) {
    |trace| > 0 && forall i :: 0 <= i < |trace| - 1 ==> ActorStep(trace[i], trace[i + 1])
  }

  lemma {:induction false} LeadsRefine(s: State, h: Holder, acts: seq<Action>, s': State) returns (trace: seq<Actor>)
    requires Inv(s, h) && Leads(s, acts, s', true)
    ensures ActorRun(trace) && trace[0] == Abstract(s) && trace[|trace| - 1] == Abstract(s')
    ensures |trace| == |acts| + 1
    decreases |acts|
  {
    if acts == [] {
      trace := [Abstract(s)];
    } else {
      var next := Step(s, acts[0]);
      StepRefines(s, h, acts[0]);
      var h1 := StepKeeps(s, h, acts[0]);
      var rest := LeadsRefine(next, h1, acts[1..], s');
      trace := [Abstract(s)] + rest;
    }
  }

  /** Every run of the runner, seen from outside, is a run of a sequential actor that starts
      fresh, and the mails begun are the first `begun` accepted ones. */
  lemma RunnerIsSequential(owner: nat, dispatchers: nat, capacity: nat, acts: seq<Action>, s: State)
      returns (trace: seq<Actor>)
    requires ReachableBy(owner, dispatchers, capacity, acts, s)
    ensures ActorRun(trace) && |trace| == |acts| + 1
    ensures trace[0] == Actor([], 0, false, false, false)
    ensures trace[|trace| - 1] == Abstract(s)
    ensures |s.log.received| <= |s.ring.claimed|
    ensures forall i :: 0 <= i < Abstract(s).begun ==> s.log.received[i] == Some(Abstract(s).accepted[i])
  {
    InitialInv(owner, dispatchers, capacity);
    trace := LeadsRefine(Initial(owner, dispatchers, capacity), Nobody, acts, s);
    assert Reachable(s);
    ReceivedInOrder(s);
  }
}
