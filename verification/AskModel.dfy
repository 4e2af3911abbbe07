/**
 The ask system at run time: registrations, replies and drops on any threads, the sweeper
 thread, and one `stop`. A step is one look at the stop flag, one look at the clock, one slot's
 critical section, one upgrade of a weak reference, or one completion. Time is a counter that the environment advances.
 */
module AskModel {
  import opened Basics
  import opened AskSweep

  /** History with each outcome: when it came about, and whether it was the stop. */
  datatype Outcome = Replied | TimedOut(at: nat, byStop: bool)

  /** `Sampling` has found the stop flag clear and not looked at the clock yet. `now` is the clock
      the sweep sampled, `before` (history) the asks placed by then. */
  datatype Sweeper =
    | Resting
    | Sampling
    | Scanning(i: nat, now: nat, found: seq<nat>, before: set<nat>)
    | Upgrading(i: nat, now: nat, found: seq<nat>, before: set<nat>, ask: nat)
    | Firing(now: nat, found: seq<nat>, before: set<nat>)
    | Left

  /** `own` says that `stop` was called on the sweeper's own thread, by something that a timeout
      woke: then it cannot wait for the sweeper, and the sweeper waits for it. */
  datatype Stopper =
    | NotStopping
    | Emptying(i: nat, before: set<nat>, own: bool)
    | Holding(i: nat, before: set<nat>, own: bool, ask: nat)

  /** `admitted` are the asks whose registration has found the stop flag clear; `deadlines` of
      every ask ever registered, `home` its slot once it is `placed`; `alive`
      those whose future still exists; `overwritten` those another registration displaced. */
  datatype State = State(
    slots: seq<Option<Slot>>,
    clock: nat,
    stopped: bool,
    admitted: set<nat>,
    deadlines: map<nat, nat>,
    home: map<nat, nat>,
    alive: set<nat>,
    placed: set<nat>,
    overwritten: set<nat>,
    outcomes: map<nat, Outcome>,
    sweeper: Sweeper,
    stopper: Stopper)

  function Initial(count: nat): State {
    State(seq(count, _ => None), 0, false, {}, map[], map[], {}, {}, {}, map[], Resting, NotStopping)
  }

  datatype Action =
    | CheckStop(ask: nat)
    | Register(ask: nat, timeout: nat, slot: nat)
    | Place(ask: nat)
    | Reply(ask: nat)
    | Drop(ask: nat)
    | Tick
    | SweepStep
    | BeginStop(own: bool)
    | StopStep

  /** `stop` has not come back from its pass over the slots. */
  predicate InPass(s: State) { s.stopper.Holding? || (s.stopper.Emptying? && s.stopper.i < |s.slots|) }

  predicate Enabled(s: State, a: Action) {
    match a
    case CheckStop(ask) => ask !in s.admitted && !s.stopped
    case Register(ask, _, slot) => ask in s.admitted && ask !in s.deadlines && slot < |s.slots|
    case Place(ask) => ask in s.deadlines && ask in s.home && s.home[ask] < |s.slots| && ask !in s.placed
    case Reply(ask) => ask in s.deadlines && ask in s.alive
    case Drop(ask) => ask in s.alive
    case Tick => true
    case SweepStep => !s.sweeper.Left? && !(InPass(s) && s.stopper.own)
    case BeginStop(own) => s.stopper.NotStopping? && (own ==> s.sweeper.Firing?)
    case StopStep => InPass(s) && (s.stopper.own || s.sweeper.Left?)
  }

  /** Only the first completion takes effect (see `AskAwaiter`). */
  function Complete(outcomes: map<nat, Outcome>, ask: nat, outcome: Outcome): (r: map<nat, Outcome>)
    ensures forall a :: a in outcomes ==> a in r && r[a] == outcomes[a]
    ensures ask in r && r.Keys == outcomes.Keys + {ask}
  {
    if ask in outcomes then outcomes else outcomes[ask := outcome]
  }

  function Displaced(slot: Option<Slot>): set<nat> { if slot.Some? then {slot.value.ask} else {} }

  function SweepAdvance(s: State): State
    requires Enabled(s, SweepStep)
  {
    match s.sweeper
    case Resting => s.(sweeper := if s.stopped then Left else Sampling)
    case Sampling => s.(sweeper := Scanning(0, s.clock, [], s.placed))
    case Scanning(i, now, found, before) =>
      if i >= |s.slots| then s.(sweeper := Firing(now, found, before)) else
      if Swept(s.slots[i], now, s.alive) then
        s.(slots := s.slots[i := None], sweeper := Upgrading(i, now, found, before, s.slots[i].value.ask))
      else s.(sweeper := Scanning(i + 1, now, found, before))
    case Upgrading(i, now, found, before, ask) =>
      s.(sweeper := Scanning(i + 1, now, if ask in s.alive then found + [ask] else found, before))
    case Firing(now, found, before) =>
      if found == [] then s.(sweeper := Resting) else
      s.(outcomes := Complete(s.outcomes, found[0], TimedOut(s.clock, false)),
         sweeper := Firing(now, found[1..], before))
    case Left => s
  }

  function StopAdvance(s: State): State
    requires Enabled(s, StopStep)
  {
    match s.stopper
    case Emptying(i, before, own) =>
      if s.slots[i].None? then s.(stopper := Emptying(i + 1, before, own))
      else s.(slots := s.slots[i := None], stopper := Holding(i, before, own, s.slots[i].value.ask))
    case Holding(i, before, own, ask) =>
      s.(stopper := Emptying(i + 1, before, own),
         outcomes := if ask in s.alive then Complete(s.outcomes, ask, TimedOut(s.clock, true)) else s.outcomes)
  }

  function Step(s: State, a: Action): State
    requires Enabled(s, a)
  {
    match a
    case CheckStop(ask) => s.(admitted := s.admitted + {ask})
    case Register(ask, timeout, slot) =>
      s.(deadlines := s.deadlines[ask := s.clock + timeout], home := s.home[ask := slot], alive := s.alive + {ask})
    case Place(ask) =>
      s.(slots := s.slots[s.home[ask] := Some(Slot(ask, s.deadlines[ask]))], placed := s.placed + {ask},
         overwritten := s.overwritten + Displaced(s.slots[s.home[ask]]))
    case Reply(ask) => s.(outcomes := Complete(s.outcomes, ask, Replied))
    case Drop(ask) => s.(alive := s.alive - {ask})
    case Tick => s.(clock := s.clock + 1)
    case SweepStep => SweepAdvance(s)
    case BeginStop(own) => s.(stopped := true, stopper := Emptying(0, s.placed, own))
    case StopStep => StopAdvance(s)
  }

  // ---------------------------------------------------------------- invariant

  ghost predicate Registered(s: State) {
    && s.home.Keys == s.deadlines.Keys
    && s.placed <= s.deadlines.Keys && s.alive <= s.deadlines.Keys
    && (forall a :: a in s.home ==> s.home[a] < |s.slots|)
  }

  ghost predicate SlotsOk(slots: seq<Option<Slot>>, deadlines: map<nat, nat>, home: map<nat, nat>, placed: set<nat>) {
    forall k :: 0 <= k < |slots| && slots[k].Some? ==>
      var a := slots[k].value.ask;
      a in placed && a in home && home[a] == k && a in deadlines && slots[k].value.deadline == deadlines[a]
  }

  predicate InSlot(slots: seq<Option<Slot>>, home: map<nat, nat>, a: nat) {
    a in home && home[a] < |slots| && slots[home[a]].Some? && slots[home[a]].value.ask == a
  }

  predicate InSweep(sweeper: Sweeper, a: nat) {
    match sweeper
    case Resting => false
    case Sampling => false
    case Scanning(_, _, found, _) => a in found
    case Upgrading(_, _, found, _, ask) => a in found || a == ask
    case Firing(_, found, _) => a in found
    case Left => false
  }

  predicate InStop(stopper: Stopper, a: nat) { stopper.Holding? && stopper.ask == a }

  /** A placed ask is settled, given up, displaced, or in somebody's hands. */
  ghost predicate Kept(s: State, a: nat) {
    || a in s.outcomes || a !in s.alive || a in s.overwritten
    || InSlot(s.slots, s.home, a) || InSweep(s.sweeper, a) || InStop(s.stopper, a)
  }

  ghost predicate AllKept(s: State) { forall a :: a in s.placed ==> Kept(s, a) }

  predicate Due(deadlines: map<nat, nat>, a: nat, now: nat) { a in deadlines && deadlines[a] <= now }

  /** What the sweep holds has run out (or was abandoned, while it is not upgraded yet). */
  ghost predicate FoundOk(s: State) {
    match s.sweeper
    case Resting => true
    case Sampling => true
    case Left => true
    case Scanning(_, now, found, _) => now <= s.clock && (forall a :: a in found ==> Due(s.deadlines, a, now))
    case Upgrading(_, now, found, _, ask) =>
      && now <= s.clock && (forall a :: a in found ==> Due(s.deadlines, a, now))
      && ask in s.deadlines && (ask in s.alive ==> Due(s.deadlines, ask, now))
    case Firing(now, found, _) => now <= s.clock && (forall a :: a in found ==> Due(s.deadlines, a, now))
  }

  /** Slots below `upto` no longer hold an ask of `before` that is due by `now`. */
  ghost predicate Passed(s: State, upto: nat, before: set<nat>, now: nat) {
    before <= s.placed
    && forall a :: a in before && a in s.home && s.home[a] < upto && Due(s.deadlines, a, now) ==>
        !InSlot(s.slots, s.home, a)
  }

  ghost predicate SweepOk(s: State) {
    match s.sweeper
    case Resting => true
    case Sampling => true
    case Left => true
    case Scanning(i, now, _, before) => Passed(s, i, before, now)
    case Upgrading(i, now, _, before, _) => i < |s.slots| && Passed(s, i + 1, before, now)
    case Firing(now, _, before) => Passed(s, |s.slots|, before, now)
  }

  ghost predicate Emptied(s: State, upto: nat, before: set<nat>) {
    before <= s.placed && forall a :: a in before && a in s.home && s.home[a] < upto ==> !InSlot(s.slots, s.home, a)
  }

  ghost predicate StopOk(s: State) {
    match s.stopper
    case NotStopping => !s.stopped
    case Emptying(i, before, _) => s.stopped && Emptied(s, i, before)
    case Holding(i, before, _, _) => s.stopped && i < |s.slots| && Emptied(s, i + 1, before)
  }

  /** Sweep and stop never work on the slots at the same time: the stop waits until the sweeper
      has left, or runs inside the sweeper's own last round of completions. */
  predicate JoinOk(s: State) {
    match s.stopper
    case NotStopping => !s.sweeper.Left?
    case Emptying(i, _, own) =>
      if own then s.sweeper.Firing? || (!InPass(s) && (s.sweeper.Resting? || s.sweeper.Left?))
      else i > 0 ==> s.sweeper.Left?
    case Holding(_, _, own, _) => if own then s.sweeper.Firing? else s.sweeper.Left?
  }

  /** Outcomes: a timeout that the stop did not cause came no earlier than the deadline. */
  ghost predicate NotEarly(s: State) {
    forall a :: a in s.outcomes && s.outcomes[a].TimedOut? ==>
      if s.outcomes[a].byStop then s.stopped
      else a in s.deadlines && s.deadlines[a] <= s.outcomes[a].at <= s.clock
  }

  ghost predicate Inv(s: State) {
    && Registered(s)
    && SlotsOk(s.slots, s.deadlines, s.home, s.placed)
    && AllKept(s)
    && FoundOk(s)
    && SweepOk(s)
    && StopOk(s)
    && JoinOk(s)
    && NotEarly(s)
  }

  lemma RegisterKeeps(s: State, ask: nat, timeout: nat, slot: nat)
    requires Inv(s) && Enabled(s, Register(ask, timeout, slot))
    ensures var kept := Inv(Step(s, Register(ask, timeout, slot))); kept
  {
  }

  lemma PlaceKeeps(s: State, ask: nat)
    requires Inv(s) && Enabled(s, Place(ask))
    ensures var kept := Inv(Step(s, Place(ask))); kept
  {
  }

  lemma OtherKeeps(s: State, a: Action)
    requires Inv(s) && Enabled(s, a) && (a.CheckStop? || a.Reply? || a.Drop? || a.Tick?)
    ensures var kept := Inv(Step(s, a)); kept
  {
  }

  lemma RestKeeps(s: State)
    requires Inv(s) && Enabled(s, SweepStep) && (s.sweeper.Resting? || s.sweeper.Sampling?)
    ensures var kept := Inv(SweepAdvance(s)); kept
  {
  }

  lemma ScanKeeps(s: State)
    requires Inv(s) && Enabled(s, SweepStep) && s.sweeper.Scanning?
    ensures var kept := Inv(SweepAdvance(s)); kept
  {
    var i, now := s.sweeper.i, s.sweeper.now;
    if i < |s.slots| && Swept(s.slots[i], now, s.alive) {
      TakeKeeps(s);
    }
  }

  /** An expired or abandoned ask passes from its slot into the sweeper's hand. */
  lemma TakeKeeps(s: State)
    requires Inv(s) && s.sweeper.Scanning? && s.sweeper.i < |s.slots| && Enabled(s, SweepStep)
    requires Swept(s.slots[s.sweeper.i], s.sweeper.now, s.alive)
    ensures var kept := Inv(SweepAdvance(s)); kept
  {
  }

  lemma FireKeeps(s: State)
    requires Inv(s) && Enabled(s, SweepStep) && (s.sweeper.Upgrading? || s.sweeper.Firing?)
    ensures var kept := Inv(SweepAdvance(s)); kept
  {
    var found := s.sweeper.found;
    if s.sweeper.Firing? && found != [] {
      assert found[0] in found && forall a :: a in found ==> a == found[0] || a in found[1..];
      assert forall a :: a in found[1..] ==> a in found;
    }
  }

  lemma StopKeeps(s: State)
    requires Inv(s) && Enabled(s, StopStep)
    ensures var kept := Inv(StopAdvance(s)); kept
  {
  }

  lemma BeginStopKeeps(s: State, own: bool)
    requires Inv(s) && Enabled(s, BeginStop(own))
    ensures var kept := Inv(Step(s, BeginStop(own))); kept
  {
  }

  lemma StepKeeps(s: State, a: Action)
    requires Inv(s) && Enabled(s, a)
    ensures var kept := Inv(Step(s, a)); kept
  {
    match a
    case CheckStop(_) => OtherKeeps(s, a);
    case Register(ask, timeout, slot) => RegisterKeeps(s, ask, timeout, slot);
    case Place(ask) => PlaceKeeps(s, ask);
    case Reply(_) => OtherKeeps(s, a);
    case Drop(_) => OtherKeeps(s, a);
    case Tick => OtherKeeps(s, a);
    case SweepStep =>
      if s.sweeper.Resting? || s.sweeper.Sampling? { RestKeeps(s); }
      else if s.sweeper.Scanning? { ScanKeeps(s); }
      else { FireKeeps(s); }
    case BeginStop(own) => BeginStopKeeps(s, own);
    case StopStep => StopKeeps(s);
  }

  // --------------------------------------------------------------------- runs

  ghost predicate Leads(s: State, acts: seq<Action>, s': State)
    decreases |acts|
  {
    if acts == [] then s == s' else Enabled(s, acts[0]) && Leads(Step(s, acts[0]), acts[1..], s')
  }

  ghost predicate Reachable(s: State) {
    exists count, acts :: Leads(Initial(count), acts, s)
  }

  lemma {:induction false} LeadsKeeps(s: State, acts: seq<Action>, s': State)
    requires Inv(s) && Leads(s, acts, s')
    ensures Inv(s')
    decreases |acts|
  {
    if acts != [] {
      StepKeeps(s, acts[0]);
      LeadsKeeps(Step(s, acts[0]), acts[1..], s');
    }
  }

  lemma ReachableInv(s: State)
    requires Reachable(s)
    ensures Inv(s)
  {
    var count, acts :| Leads(Initial(count), acts, s);
    LeadsKeeps(Initial(count), acts, s);
  }

  /** Only the first completion of an ask takes effect, whatever happens later. */
  lemma {:induction false} OutcomesStand(s: State, acts: seq<Action>, s': State, ask: nat)
    requires Leads(s, acts, s') && ask in s.outcomes
    ensures ask in s'.outcomes && s'.outcomes[ask] == s.outcomes[ask]
    decreases |acts|
  {
    if acts != [] { OutcomesStand(Step(s, acts[0]), acts[1..], s', ask); }
  }

  /** An ask times out before its own deadline only through the stop. */
  lemma NoEarlyTimeout(s: State, ask: nat)
    requires Reachable(s) && ask in s.outcomes && s.outcomes[ask].TimedOut?
    ensures if s.outcomes[ask].byStop then s.stopped
            else ask in s.deadlines && s.deadlines[ask] <= s.outcomes[ask].at
  {
    ReachableInv(s);
  }

  /** When a sweep is through, every ask that was placed when it sampled the clock and due by
      then is settled, unless its future is gone or another registration took its slot. */
  lemma SweepCompletes(s: State, ask: nat)
    requires Reachable(s) && s.sweeper.Firing? && s.sweeper.found == [] && Enabled(s, SweepStep)
    requires ask in s.sweeper.before && Due(s.deadlines, ask, s.sweeper.now)
    ensures ask in s.outcomes || ask !in s.alive || ask in s.overwritten
  {
    ReachableInv(s);
    assert Kept(s, ask);
  }

  /** When the stop is through, every ask placed before it began is settled, unless its future
      is gone or it was displaced; only a stop inside the sweeper's own round of completions
      leaves the rest of that round to be settled when it returns. */
  lemma StopCompletes(s: State, ask: nat)
    requires Reachable(s) && s.stopper.Emptying? && !InPass(s)
    requires ask in s.stopper.before
    ensures || ask in s.outcomes || ask !in s.alive || ask in s.overwritten
            || (s.stopper.own && s.sweeper.Firing? && ask in s.sweeper.found)
  {
    ReachableInv(s);
    assert Kept(s, ask);
  }
}
