/**
 After a stop: which asks can still time out. A registration that checks the stop flag before
 the stop and takes its slot after the stop has passed it is never settled but by a reply.
 */
module AskStop {
  import opened Basics
  import opened AskSweep
  import opened AskModel

  /** How many slots the stop has passed. */
  function PassedBy(stopper: Stopper): nat {
    match stopper
    case NotStopping => 0
    case Emptying(i, _, _) => i
    case Holding(i, _, _, _) => i + 1
  }

  /** The stop has passed the ask's slot, and nobody has the ask in hand. */
  predicate Missed(s: State, ask: nat) {
    && ask in s.home && s.home[ask] < PassedBy(s.stopper)
    && !InSweep(s.sweeper, ask) && !InStop(s.stopper, ask)
  }

  predicate HasTimedOut(s: State, ask: nat) { ask in s.outcomes && s.outcomes[ask].TimedOut? }

  ghost predicate CanTimeOut(s: State, ask: nat) {
    exists acts, s' :: Leads(s, acts, s') && HasTimedOut(s', ask)
  }

  // ------------------------------------------------------------ missed for ever

  lemma MissedStep(s: State, a: Action, ask: nat)
    requires Inv(s) && Enabled(s, a) && Missed(s, ask) && !HasTimedOut(s, ask)
    ensures Missed(Step(s, a), ask) && !HasTimedOut(Step(s, a), ask)
  {
    match a
    case SweepStep => MissedSweep(s, ask);
    case StopStep => MissedStop(s, ask);
    case _ =>
  }

  lemma MissedSweep(s: State, ask: nat)
    requires Inv(s) && Enabled(s, SweepStep) && Missed(s, ask) && !HasTimedOut(s, ask)
    ensures Missed(SweepAdvance(s), ask) && !HasTimedOut(SweepAdvance(s), ask)
  {
  }

  lemma MissedStop(s: State, ask: nat)
    requires Inv(s) && Enabled(s, StopStep) && Missed(s, ask) && !HasTimedOut(s, ask)
    ensures Missed(StopAdvance(s), ask) && !HasTimedOut(StopAdvance(s), ask)
  {
  }

  lemma {:induction false} MissedForever(s: State, acts: seq<Action>, s': State, ask: nat)
    requires Inv(s) && Leads(s, acts, s') && Missed(s, ask) && !HasTimedOut(s, ask)
    ensures !HasTimedOut(s', ask)
    decreases |acts|
  {
    if acts != [] {
      StepKeeps(s, acts[0]);
      MissedStep(s, acts[0], ask);
      MissedForever(Step(s, acts[0]), acts[1..], s', ask);
    }
  }

  // ------------------------------------------------------- otherwise it is reached

  /** Awaited, not displaced, not answered. */
  predicate Open(s: State, ask: nat) {
    ask in s.deadlines && ask in s.alive && ask !in s.overwritten && (ask in s.outcomes ==> s.outcomes[ask].TimedOut?)
  }

  function SweeperRank(sweeper: Sweeper, n: nat): nat {
    match sweeper
    case Left => 0
    case Resting => 1
    case Sampling => 4 + 3 * n
    case Firing(_, found, _) => 2 + |found|
    case Scanning(i, _, found, _) => 3 + |found| + 3 * (if i < n then n - i else 0)
    case Upgrading(i, _, found, _, _) => 2 + |found| + 3 * (if i < n then n - i else 0)
  }

  function StopperRank(stopper: Stopper, n: nat): nat {
    match stopper
    case NotStopping => 0
    case Emptying(i, _, _) => 2 * (if i < n then n - i else 0)
    case Holding(i, _, _, _) => 2 * (if i < n then n - i else 0) - (if i < n then 1 else 0)
  }

  function Rank(s: State, ask: nat): nat {
    (if ask in s.placed then 0 else 1) + SweeperRank(s.sweeper, |s.slots|) + StopperRank(s.stopper, |s.slots|)
  }

  /** One step closer to its timeout. */
  ghost predicate Closer(s: State, ask: nat, s': State) {
    && Inv(s') && Open(s', ask) && s'.stopped
    && (HasTimedOut(s', ask) || (!Missed(s', ask) && Rank(s', ask) < Rank(s, ask)))
  }

  ghost predicate Waiting(s: State, ask: nat) {
    Inv(s) && Open(s, ask) && s.stopped && !Missed(s, ask) && !HasTimedOut(s, ask)
  }

  lemma PlaceCloser(s: State, ask: nat)
    requires Waiting(s, ask) && ask !in s.placed
    ensures Enabled(s, Place(ask))
    ensures var closer := Closer(s, ask, Step(s, Place(ask))); closer
  {
    PlaceKeeps(s, ask);
  }

  lemma SweepCloser(s: State, ask: nat)
    requires Waiting(s, ask) && ask in s.placed && Enabled(s, SweepStep)
    ensures var closer := Closer(s, ask, Step(s, SweepStep)); closer
  {
    StepKeeps(s, SweepStep);
    assert Kept(s, ask);
    if s.sweeper.Firing? && ask in s.sweeper.found {
      assert s.sweeper.found[0] == ask || ask in s.sweeper.found[1..];
    }
  }

  lemma StopCloser(s: State, ask: nat)
    requires Waiting(s, ask) && ask in s.placed && !Enabled(s, SweepStep)
    ensures Enabled(s, StopStep)
    ensures var closer := Closer(s, ask, Step(s, StopStep)); closer
  {
    assert Kept(s, ask);
    StopKeeps(s);
  }

  lemma StepsToTimeOut(s: State, a: Action, ask: nat)
    requires Enabled(s, a) && CanTimeOut(Step(s, a), ask)
    ensures CanTimeOut(s, ask)
  {
    var acts, s' :| Leads(Step(s, a), acts, s') && HasTimedOut(s', ask);
    assert ([a] + acts)[1..] == acts;
    assert Leads(s, [a] + acts, s');
  }

  lemma {:induction false} Reached(s: State, ask: nat)
    requires Waiting(s, ask)
    ensures CanTimeOut(s, ask)
    decreases Rank(s, ask)
  {
    var a := StopStep;
    if ask !in s.placed {
      a := Place(ask);
      PlaceCloser(s, ask);
    } else if Enabled(s, SweepStep) {
      a := SweepStep;
      SweepCloser(s, ask);
    } else {
      StopCloser(s, ask);
    }
    var s' := Step(s, a);
    if HasTimedOut(s', ask) { assert Leads(s', [], s'); } else { Reached(s', ask); }
    StepsToTimeOut(s, a, ask);
  }

  /** The exact condition. An ask that is awaited, not displaced and not settled can still time
      out if and only if the stop has not passed its slot, or somebody has it in hand. */
  lemma TimesOutExactlyUnlessMissed(s: State, ask: nat)
    requires Reachable(s) && ask in s.deadlines && ask in s.alive && ask !in s.overwritten && ask !in s.outcomes
    ensures CanTimeOut(s, ask) <==> !Missed(s, ask)
  {
    ReachableInv(s);
    if Missed(s, ask) {
      forall acts, s' | Leads(s, acts, s') ensures !HasTimedOut(s', ask) { MissedForever(s, acts, s', ask); }
    } else if s.stopped {
      Reached(s, ask);
    } else {
      BeginStopKeeps(s, false);
      Reached(Step(s, BeginStop(false)), ask);
      StepsToTimeOut(s, BeginStop(false), ask);
    }
  }

  // ------------------------------------------------- a registration that is late

  /** The stop has emptied every slot, and the sweeper has left. */
  predicate Over(s: State) { s.sweeper.Left? && s.stopper.Emptying? && s.stopper.i >= |s.slots| }

  /** From then on only a reply settles an ask. */
  lemma {:induction false} OnlyRepliesAfterStop(s: State, acts: seq<Action>, s': State, ask: nat)
    requires Over(s) && Leads(s, acts, s') && ask !in s.outcomes && Reply(ask) !in acts
    ensures ask !in s'.outcomes && Over(s')
    decreases |acts|
  {
    if acts != [] {
      assert acts[0] in acts;
      OnlyRepliesAfterStop(Step(s, acts[0]), acts[1..], s', ask);
    }
  }

  /** A registration that checks the stop flag before the stop and takes its slot after it: it is
      placed, awaited and not displaced, the stop was called on another thread, and it is missed. */
  lemma LateRegistrationHangs(ask: nat, timeout: nat)
    ensures exists s :: Reachable(s) && Over(s) && !s.stopper.own && ask in s.placed && ask in s.alive
                        && ask !in s.overwritten && ask !in s.outcomes && Missed(s, ask)
  {
    var start, s5 := Initial(1), LateEnd(ask, timeout);
    var acts := [CheckStop(ask), BeginStop(false)] + LATE_STOP + [Register(ask, timeout, 0), Place(ask)];
    LateRun(ask, timeout);
    assert acts[1..][1..] == LATE_STOP + [Register(ask, timeout, 0), Place(ask)];
    assert Leads(Step(start, acts[0]), acts[1..], s5);
    assert Leads(start, acts, s5);
  }

  /** The sweeper leaves, and the stop passes the only slot. */
  const LATE_STOP := [SweepStep, StopStep]

  /** Where that run ends. */
  function LateEnd(ask: nat, timeout: nat): State {
    State([Some(Slot(ask, timeout))], 0, true, {ask}, map[ask := timeout], map[ask := 0], {ask}, {ask}, {}, map[],
          Left, Emptying(1, {}, false))
  }

  lemma LateRun(ask: nat, timeout: nat)
    ensures var admitted := Step(Initial(1), CheckStop(ask));
            Leads(Step(admitted, BeginStop(false)), LATE_STOP + [Register(ask, timeout, 0), Place(ask)],
                  LateEnd(ask, timeout))
  {
    var s2 := Step(Step(Initial(1), CheckStop(ask)), BeginStop(false));
    var s3 := Step(s2, SweepStep);
    var s4 := Step(s3, StopStep);
    var acts := LATE_STOP + [Register(ask, timeout, 0), Place(ask)];
    assert acts[1..][1..] == [Register(ask, timeout, 0), Place(ask)];
    LatePlace(ask, timeout, s4);
    assert Leads(s3, acts[1..], LateEnd(ask, timeout));
  }

  lemma LatePlace(ask: nat, timeout: nat, s: State)
    requires s == State([None], 0, true, {ask}, map[], map[], {}, {}, {}, map[], Left, Emptying(1, {}, false))
    ensures Leads(s, [Register(ask, timeout, 0), Place(ask)], LateEnd(ask, timeout))
  {
    var registered := Step(s, Register(ask, timeout, 0));
    var placed := Step(registered, Place(ask));
    assert placed.slots == LateEnd(ask, timeout).slots;
    assert placed == LateEnd(ask, timeout);
    assert Leads(registered, [Place(ask)], placed);
    assert [Register(ask, timeout, 0), Place(ask)][1..] == [Place(ask)];
  }
}
