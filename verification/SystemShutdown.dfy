/**
 Shutting the whole system down: what is true when the dispatchers are stopped, and exactly when
 it can come to that.
 */
module SystemShutdown {
  import opened MailboxQueue
  import R = RegistryModel
  import A = RunnerModel
  import RegistryShutdown
  import RunnerRuns
  import Runs
  import RunnerKill
  import opened RunnerFinalize
  import opened RunnerRest
  import opened SystemModel

  /** The dispatchers are stopped only when every actor registered so far has run `on_kill` and
      `on_finalize`, each exactly once, receives nothing any more, and is out of the registry. */
  lemma StoppedAfterEveryOnKill(s: System)
    requires Reachable(s) && R.Shape(s.registry) && R.Enabled(s.registry, R.StopDispatchers)
    ensures forall x :: x in s.registry.actors ==>
              && s.registry.actors[x].phase.Removed? && x in s.runners
              && s.runners[x].log.kills == 1 && s.runners[x].log.finals == 1 && s.runners[x].life.Stopped?
  {
    ReachableInv(s);
    RegistryShutdown.CountIsZeroExactly(s.registry);
    forall x | x in s.registry.actors
      ensures x in s.runners && s.runners[x].log.kills == 1 && s.runners[x].log.finals == 1
      ensures s.runners[x].life.Stopped?
    {
      assert s.registry.actors[x].phase.Removed? && x in s.runners;
      RemovedRanOnKill(s, x);
    }
  }

  /** Nobody leaves the registry before its `on_kill`, and that was its only one. */
  lemma RemovedRanOnKill(s: System, x: R.Actor)
    requires Inv(s) && x in s.registry.actors
    requires s.registry.actors[x].phase.Removing? || s.registry.actors[x].phase.Removed?
    ensures x in s.runners
    ensures s.runners[x].log.kills == 1 && s.runners[x].log.finals == 1 && s.runners[x].life.Stopped?
  {
    assert RunnerOk(s.registry.actors[x].phase, s.runners[x]);
    LeavingRanOnKill(s.registry.actors[x].phase, s.runners[x]);
  }

  lemma LeavingRanOnKill(phase: R.Phase, r: A.State)
    requires RunnerOk(phase, r) && (phase.Removing? || phase.Removed?)
    ensures r.log.kills == 1 && r.log.finals == 1 && r.life.Stopped?
  {
    RunnerRuns.FinalizedOnce(r, 0);
  }

  // ------------------------------------------------------------ what blocks it

  /** A stranded runner: nothing can finalize it any more. */
  ghost predicate Stranded(r: A.State) { A.Shape(r) && RunnerKill.Doomed(r) }

  ghost predicate Reaches(s: System, s': System) {
    exists acts :: Leads(s, acts, s')
  }

  ghost predicate Stoppable(registry: R.State) { R.Shape(registry) && R.Enabled(registry, R.StopDispatchers) }

  ghost predicate CanShutDown(s: System) {
    exists s' :: Reaches(s, s') && Stoppable(s'.registry)
  }

  /** Seen from one runner, a run of the system is a run of that runner. */
  lemma {:induction false} Project(s: System, acts: seq<Action>, s': System, x: R.Actor) returns (steps: seq<A.Action>)
    requires Inv(s) && Leads(s, acts, s') && x in s.runners
    ensures x in s'.runners && RunnerRuns.Leads(s.runners[x], steps, s'.runners[x], true)
    decreases |acts|
  {
    if acts == [] {
      steps := [];
    } else {
      var next := Step(s, acts[0]);
      StepKeeps(s, acts[0]);
      if acts[0].Run? && acts[0].x == x {
        var rest := Project(next, acts[1..], s', x);
        steps := [acts[0].step] + rest;
        assert steps[1..] == rest;
      } else {
        NotMine(s, acts[0], x);
        steps := Project(next, acts[1..], s', x);
      }
    }
  }

  lemma NotMine(s: System, a: Action, x: R.Actor)
    requires R.Shape(s.registry) && RunnersOk(s.registry.actors, s.runners)
    requires Enabled(s, a) && x in s.runners && !(a.Run? && a.x == x)
    ensures x in Step(s, a).runners && Step(s, a).runners[x] == s.runners[x]
  {
  }

  lemma NeverFinalized(s: System, x: R.Actor, acts: seq<Action>, s': System)
    requires Inv(s) && x in s.runners && Stranded(s.runners[x]) && Leads(s, acts, s')
    ensures x in s'.runners && s'.runners[x].log.finals != 1
  {
    var steps := Project(s, acts, s', x);
    assert RunnerOk(s.registry.actors[x].phase, s.runners[x]);
    CanFinalizeExactlyUnlessDoomed(s.runners[x]);
  }

  lemma StrandedBlocks(s: System, x: R.Actor, acts: seq<Action>, s': System)
    requires Inv(s) && x in s.runners && Stranded(s.runners[x]) && Leads(s, acts, s')
    ensures s'.registry.live > 0
  {
    LeadsKeeps(s, acts, s');
    NeverFinalized(s, x, acts, s');
    UnfinalizedCounts(s', x);
  }

  lemma UnfinalizedCounts(s: System, x: R.Actor)
    requires Inv(s) && x in s.runners && s.runners[x].log.finals != 1
    ensures s.registry.live > 0
  {
    if s.registry.actors[x].phase.Removed? { RemovedRanOnKill(s, x); }
    RegistryShutdown.CountIsZeroExactly(s.registry);
  }

  lemma RequestStands(s: System, a: Action, x: R.Actor)
    requires R.Inv(s.registry) && Enabled(s, a) && x in s.registry.actors
    ensures x in Step(s, a).registry.actors
    ensures Step(s, a).registry.actors[x].request == s.registry.actors[x].request
  {
    if a.Registry? { RegistryShutdown.RequestStands(s.registry, a.a, x); }
  }

  lemma {:induction false} RequestStandsForever(s: System, acts: seq<Action>, s': System, x: R.Actor)
    requires Inv(s) && Leads(s, acts, s') && x in s.registry.actors
    ensures x in s'.registry.actors && s'.registry.actors[x].request == s.registry.actors[x].request
    decreases |acts|
  {
    if acts != [] {
      StepKeeps(s, acts[0]);
      RequestStands(s, acts[0], x);
      RequestStandsForever(Step(s, acts[0]), acts[1..], s', x);
    }
  }

  lemma UnfitBlocks(s: System, x: R.Actor, acts: seq<Action>, s': System)
    requires Inv(s) && x in s.registry.actors && !R.Fits(s.registry.actors[x].request) && Leads(s, acts, s')
    ensures s'.registry.live > 0
  {
    LeadsKeeps(s, acts, s');
    RequestStandsForever(s, acts, s', x);
    RegistryShutdown.UnfitBlocks(s'.registry, x);
  }

  // ------------------------------------------------------ otherwise it empties

  lemma Then(s: System, mid: System, s': System)
    requires Reaches(s, mid) && Reaches(mid, s')
    ensures Reaches(s, s')
  {
    var acts :| Leads(s, acts, mid);
    var more :| Leads(mid, more, s');
    Runs.LeadsOn(Successor, s, acts, mid, more, s');
    assert Leads(s, acts + more, s');
  }

  lemma One(s: System, a: Action)
    requires R.Shape(s.registry) && Enabled(s, a)
    ensures Reaches(s, Step(s, a))
  {
    Runs.LeadsOne(Successor, s, a);
    assert Leads(s, [a], Step(s, a));
  }

  /** What blocks for ever, once more: a spawn that met a full registry. */
  lemma {:induction false} PoisonedForever(s: System, acts: seq<Action>, s': System)
    requires s.registry.poisoned && Leads(s, acts, s')
    ensures s'.registry.poisoned
    decreases |acts|
  {
    if acts != [] { PoisonedForever(Step(s, acts[0]), acts[1..], s'); }
  }

  // ------------------------------------------------- one runner's run is the system's

  /** Nobody but `x` is in a worker's hands or in a queue. */
  ghost predicate Alone(runners: map<R.Actor, A.State>, x: R.Actor) {
    forall y :: y in runners && y != x ==> AtRest(runners[y]) && NoTokens(runners[y])
  }

  lemma AloneIsNext(s: System, x: R.Actor, d: nat)
    requires QueuesOk(s.queues, s.runners) && x in s.runners && Alone(s.runners, x)
    requires A.Shape(s.runners[x]) && A.Enabled(s.runners[x], A.Execute(d))
    ensures Next(s, x, d)
  {
    assert QueueOk(s.queues[d], d, s.runners);
    assert x in s.queues[d];
    var first := s.queues[d][0];
    assert first in s.queues[d] && first in s.runners;
  }

  ghost predicate Liftable(s: System, x: R.Actor, steps: seq<A.Action>) {
    && x in s.runners && (R.Unlocked(s.registry) || s.runners[x].log.finals == 1)
    && ((forall a :: a in steps ==> !a.Execute?) || Alone(s.runners, x))
  }

  lemma LiftEnabled(s: System, x: R.Actor, steps: seq<A.Action>)
    requires R.Shape(s.registry) && QueuesOk(s.queues, s.runners) && Liftable(s, x, steps) && steps != []
    requires RunnerRuns.Reachable(s.runners[x])
    requires var r, a := s.runners[x], steps[0]; A.Shape(r) && A.Enabled(r, a) && A.Contract(r, a)
    ensures Enabled(s, Run(x, steps[0]))
  {
    var a := steps[0];
    assert a in steps;
    RunCounts(s.runners[x], a);
    if a.Execute? { AloneIsNext(s, x, a.d); }
  }

  lemma LiftNext(s: System, x: R.Actor, steps: seq<A.Action>)
    requires R.Shape(s.registry) && Liftable(s, x, steps) && steps != [] && Enabled(s, Run(x, steps[0]))
    requires RunnerRuns.Reachable(s.runners[x])
    ensures var next := Step(s, Run(x, steps[0]));
            next.runners[x] == A.Step(s.runners[x], steps[0]) && Liftable(next, x, steps[1..])
  {
    RunCounts(s.runners[x], steps[0]);
    assert forall b :: b in steps[1..] ==> b in steps;
  }

  lemma Registered(s: System, x: R.Actor)
    requires Inv(s) && x in s.runners
    ensures R.Shape(s.registry) && RunnerRuns.Reachable(s.runners[x])
  {
    assert RunnerOk(s.registry.actors[x].phase, s.runners[x]);
  }

  /** What a run of one runner does to the registry. */
  ghost function Lifted(registry: R.State, x: R.Actor, r: A.State, r': A.State): R.State {
    if r'.log.finals == r.log.finals then registry else Finalize(registry, x)
  }

  lemma {:induction false} FinalsGrow(s: A.State, acts: seq<A.Action>, s': A.State)
    requires RunnerRuns.Reachable(s) && RunnerRuns.Leads(s, acts, s', true)
    ensures s.log.finals <= s'.log.finals <= 1
    decreases |acts|
  {
    RunnerRuns.FinalizedOnce(s, 0);
    if acts != [] {
      RunCounts(s, acts[0]);
      FinalsGrow(A.Step(s, acts[0]), acts[1..], s');
    }
  }

  /** The count goes up once, and the registry hears of it once. */
  lemma LiftJoins(s: System, x: R.Actor, a: A.Action, rest: seq<A.Action>, r: A.State)
    requires R.Shape(s.registry) && Enabled(s, Run(x, a)) && RunnerRuns.Reachable(s.runners[x])
    requires RunnerRuns.Leads(A.Step(s.runners[x], a), rest, r, true)
    ensures var next := Step(s, Run(x, a));
            Lifted(next.registry, x, next.runners[x], r) == Lifted(s.registry, x, s.runners[x], r)
  {
    var r0, r1 := s.runners[x], A.Step(s.runners[x], a);
    RunCounts(r0, a);
    FinalsGrow(r1, rest, r);
    assert RunsOnFinalize(r0, a) ==> r1.log.finals == r.log.finals != r0.log.finals;
  }

  lemma {:induction false} Lift(s: System, x: R.Actor, steps: seq<A.Action>, r: A.State) returns (s': System)
    requires Inv(s) && Liftable(s, x, steps) && RunnerRuns.Leads(s.runners[x], steps, r, true)
    ensures Reaches(s, s') && s'.runners == s.runners[x := r]
    ensures s'.registry == Lifted(s.registry, x, s.runners[x], r)
    ensures var kept := Inv(s'); kept
    decreases |steps|
  {
    if steps == [] {
      s' := s;
      assert s.runners[x := r] == s.runners;
      assert Leads(s, [], s);
    } else {
      Registered(s, x);
      LiftEnabled(s, x, steps);
      LiftNext(s, x, steps);
      RunKeeps(s, x, steps[0]);
      s' := Lift(Step(s, Run(x, steps[0])), x, steps[1..], r);
      LiftRest(s, x, steps, r, s');
    }
  }

  lemma LiftRest(s: System, x: R.Actor, steps: seq<A.Action>, r: A.State, s': System)
    requires R.Shape(s.registry) && steps != [] && Enabled(s, Run(x, steps[0])) && RunnerRuns.Reachable(s.runners[x])
    requires RunnerRuns.Leads(A.Step(s.runners[x], steps[0]), steps[1..], r, true)
    requires var next := Step(s, Run(x, steps[0]));
             && Reaches(next, s') && s'.runners == next.runners[x := r]
             && s'.registry == Lifted(next.registry, x, next.runners[x], r)
    ensures Reaches(s, s') && s'.runners == s.runners[x := r]
    ensures s'.registry == Lifted(s.registry, x, s.runners[x], r)
  {
    LiftJoins(s, x, steps[0], steps[1..], r);
    One(s, Run(x, steps[0]));
    Then(s, Step(s, Run(x, steps[0])), s');
  }

  // -------------------------------------------------------- a removal is finished

  ghost predicate NobodyStranded(runners: map<R.Actor, A.State>) {
    forall x :: x in runners ==> !Stranded(runners[x])
  }

  ghost predicate Clear(s: System) {
    && Inv(s) && NobodyStranded(s.runners)
    && RegistryShutdown.AllFit(s.registry.actors) && !s.registry.poisoned
  }

  lemma Still(s: System)
    ensures Reaches(s, s)
  {
    assert Leads(s, [], s);
  }

  /** A step of the registry by itself. */
  lemma RegistryStep(s: System, a: R.Action) returns (s': System)
    requires Inv(s) && R.Enabled(s.registry, a) && !a.Commit? && !a.BeginRemove?
    ensures Reaches(s, s') && s' == s.(registry := R.Step(s.registry, a))
    ensures var kept := Inv(s'); kept
  {
    One(s, Registry(a));
    RegistryKeeps(s, a);
    s' := Step(s, Registry(a));
  }

  lemma {:induction false} FinishesRemoval(s: System, x: R.Actor) returns (s': System)
    requires Clear(s) && RegistryShutdown.Pending(s.registry, x) && s.registry.remover.Some?
    requires x.index < |s.registry.slots|
    ensures Reaches(s, s') && s'.runners == s.runners && s'.queues == s.queues && R.Unlocked(s'.registry)
    ensures s.registry.live > 0 && s'.registry.live == s.registry.live - 1
    ensures var clear := Clear(s'); clear
    decreases RegistryShutdown.Rank(s.registry, x)
  {
    var a := RegistryShutdown.RemovalCloser(s.registry, x);
    var next := RegistryStep(s, a);
    if RegistryShutdown.Pending(next.registry, x) {
      RegistryShutdown.PendingPhase(next.registry, x);
      s' := FinishesRemoval(next, x);
      Then(s, next, s');
    } else {
      s' := next;
    }
  }

  /** If a removal is under way it is brought to its end, and nothing else changes. */
  lemma Unlocks(s: System) returns (s': System)
    requires Clear(s)
    ensures Reaches(s, s') && s'.runners == s.runners && s'.queues == s.queues && R.Unlocked(s'.registry)
    ensures s'.registry.live == s.registry.live - if s.registry.remover.Some? then 1 else 0
    ensures var clear := Clear(s'); clear
  {
    if s.registry.remover.Some? {
      var x := RegistryShutdown.SomePending(s.registry);
      s' := FinishesRemoval(s, x);
    } else {
      s' := s;
      Still(s);
    }
  }

  // --------------------------------------------------- a runner's run, and clearing up

  lemma StrandedWith(runners: map<R.Actor, A.State>, x: R.Actor, r: A.State)
    requires NobodyStranded(runners) && !Stranded(r)
    ensures NobodyStranded(runners[x := r])
  {
  }

  lemma LiftedIsFit(registry: R.State, x: R.Actor, r: A.State, r': A.State)
    requires RegistryShutdown.AllFit(registry.actors)
    ensures var registry' := Lifted(registry, x, r, r');
            && RegistryShutdown.AllFit(registry'.actors) && registry'.live == registry.live
            && registry'.poisoned == registry.poisoned
            && (x in registry.actors && r'.log.finals != r.log.finals ==> registry'.remover.Some?)
  {
  }

  /** Everything stays clear if one runner goes on and is not stranded by it. */
  lemma LiftClear(s: System, x: R.Actor, steps: seq<A.Action>, r: A.State) returns (s': System)
    requires Clear(s) && Liftable(s, x, steps) && RunnerRuns.Leads(s.runners[x], steps, r, true) && !Stranded(r)
    ensures Reaches(s, s') && s'.runners == s.runners[x := r]
    ensures s'.registry == Lifted(s.registry, x, s.runners[x], r)
    ensures var clear := Clear(s'); clear
  {
    s' := Lift(s, x, steps, r);
    LiftedIsFit(s.registry, x, s.runners[x], r);
    StrandedWith(s.runners, x, r);
  }

  // ------------------------------------------------------- everybody comes to rest

  ghost function Busy(runners: map<R.Actor, A.State>): set<R.Actor> {
    set x | x in runners && !AtRest(runners[x])
  }

  lemma BusyDrops(runners: map<R.Actor, A.State>, x: R.Actor, r: A.State)
    requires x in Busy(runners) && AtRest(r)
    ensures |Busy(runners[x := r])| < |Busy(runners)|
  {
    assert Busy(runners[x := r]) == Busy(runners) - {x};
  }

  /** One runner goes on; if that finalizes it, it is removed. */
  lemma GoesOn(s: System, x: R.Actor, steps: seq<A.Action>, r: A.State) returns (s': System)
    requires Clear(s) && R.Unlocked(s.registry) && Liftable(s, x, steps)
    requires RunnerRuns.Leads(s.runners[x], steps, r, true) && !Stranded(r)
    ensures Reaches(s, s') && s'.runners == s.runners[x := r] && R.Unlocked(s'.registry)
    ensures s'.registry.live <= s.registry.live
    ensures x in s.registry.actors && r.log.finals != s.runners[x].log.finals ==>
              s.registry.live > 0 && s'.registry.live == s.registry.live - 1
    ensures var clear := Clear(s'); clear
  {
    var mid := LiftClear(s, x, steps, r);
    LiftedIsFit(s.registry, x, s.runners[x], r);
    s' := Unlocks(mid);
    Then(s, mid, s');
  }

  lemma RestsOne(s: System, x: R.Actor) returns (s': System, r: A.State)
    requires Clear(s) && R.Unlocked(s.registry) && x in s.runners
    ensures Reaches(s, s') && s'.runners == s.runners[x := r] && AtRest(r) && R.Unlocked(s'.registry)
    ensures s'.registry.live <= s.registry.live
    ensures var clear := Clear(s'); clear
  {
    Registered(s, x);
    var steps;
    steps, r := ComesToRest(s.runners[x]);
    s' := GoesOn(s, x, steps, r);
  }

  lemma {:induction false} AllRest(s: System) returns (s': System)
    requires Clear(s) && R.Unlocked(s.registry)
    ensures Reaches(s, s') && Busy(s'.runners) == {} && R.Unlocked(s'.registry)
    ensures s'.registry.live <= s.registry.live
    ensures var clear := Clear(s'); clear
    decreases |Busy(s.runners)|
  {
    if Busy(s.runners) == {} {
      s' := s;
      Still(s);
    } else {
      var x :| x in Busy(s.runners);
      var mid, r := RestsOne(s, x);
      BusyDrops(s.runners, x, r);
      s' := AllRest(mid);
      Then(s, mid, s');
    }
  }

  // ------------------------------------------------------ all tokens are used up

  ghost function Queued(runners: map<R.Actor, A.State>): set<R.Actor> {
    set x | x in runners && !NoTokens(runners[x])
  }

  lemma QueuedDrops(runners: map<R.Actor, A.State>, x: R.Actor, r: A.State)
    requires x in Queued(runners) && NoTokens(r)
    ensures |Queued(runners[x := r])| < |Queued(runners)|
  {
    assert Queued(runners[x := r]) == Queued(runners) - {x};
  }

  /** The first in some queue. */
  lemma SomeNext(s: System) returns (x: R.Actor, d: nat)
    requires QueuesOk(s.queues, s.runners) && Busy(s.runners) == {} && Queued(s.runners) != {}
    ensures x in s.runners && Next(s, x, d) && AtRest(s.runners[x])
    ensures d < |s.runners[x].frames| && d < |s.runners[x].queue| && s.runners[x].queue[d] > 0
  {
    var y :| y in Queued(s.runners);
    d :| 0 <= d < |s.runners[y].queue| && s.runners[y].queue[d] != 0;
    assert QueueOk(s.queues[d], d, s.runners);
    assert y in s.queues[d];
    x := s.queues[d][0];
    assert x in s.queues[d];
    forall z | z in s.runners ensures AtRest(s.runners[z]) { assert z !in Busy(s.runners); }
  }

  /** A worker takes the token of the queue, and the runner's frame begins. */
  ghost predicate Begun(r: A.State, d: nat, r': A.State) {
    && A.Shape(r) && A.Enabled(r, A.Execute(d)) && A.Contract(r, A.Execute(d))
    && r' == A.Step(r, A.Execute(d)) && !Stranded(r')
  }

  /** The frame returns, and no token is left. */
  ghost predicate UsesUp(r: A.State, steps: seq<A.Action>, r': A.State) {
    && RunnerRuns.Leads(r, steps, r', true) && (forall a :: a in steps ==> !a.Execute?)
    && AtRest(r') && NoTokens(r') && !Stranded(r')
  }

  lemma RunnerUsesUp(r: A.State, d: nat) returns (begun: A.State, steps: seq<A.Action>, r': A.State)
    requires RunnerRuns.Reachable(r) && AtRest(r) && d < |r.frames| && d < |r.queue| && r.queue[d] > 0
    ensures Begun(r, d, begun) && UsesUp(begun, steps, r')
  {
    steps, r' := UsesToken(r, d);
    begun := A.Step(r, A.Execute(d));
  }

  lemma Begins(s: System, x: R.Actor, d: nat, begun: A.State) returns (s': System)
    requires Clear(s) && x in s.runners && Next(s, x, d) && Begun(s.runners[x], d, begun)
    ensures Reaches(s, s') && s'.runners == s.runners[x := begun] && s'.registry == s.registry
    ensures var clear := Clear(s'); clear
  {
    var a := Run(x, A.Execute(d));
    One(s, a);
    RunKeeps(s, x, A.Execute(d));
    s' := Step(s, a);
    StrandedWith(s.runners, x, begun);
  }

  /** The next in a queue begins, and knows how its frame returns. */
  lemma BeginsNext(s: System, x: R.Actor, d: nat) returns (s': System, begun: A.State, steps: seq<A.Action>, r: A.State)
    requires Clear(s) && x in s.runners && Next(s, x, d) && AtRest(s.runners[x])
    requires d < |s.runners[x].frames| && d < |s.runners[x].queue| && s.runners[x].queue[d] > 0
    ensures Reaches(s, s') && s'.runners == s.runners[x := begun] && s'.registry == s.registry
    ensures UsesUp(begun, steps, r)
    ensures var clear := Clear(s'); clear
  {
    Registered(s, x);
    begun, steps, r := RunnerUsesUp(s.runners[x], d);
    s' := Begins(s, x, d, begun);
  }

  /** The frame returns, and if that finalizes the actor, it is removed. */
  lemma Returns(s: System, x: R.Actor, steps: seq<A.Action>, r: A.State) returns (s': System)
    requires Clear(s) && R.Unlocked(s.registry) && x in s.runners && UsesUp(s.runners[x], steps, r)
    ensures Reaches(s, s') && s'.runners == s.runners[x := r] && R.Unlocked(s'.registry)
    ensures AtRest(r) && NoTokens(r) && s'.registry.live <= s.registry.live
    ensures var clear := Clear(s'); clear
  {
    s' := GoesOn(s, x, steps, r);
  }

  /** Its token is used up, its frame returns, and if that finalizes it, it is removed. */
  lemma UsesOne(s: System, x: R.Actor, d: nat) returns (s': System, r: A.State)
    requires Clear(s) && R.Unlocked(s.registry) && x in s.runners && Next(s, x, d) && AtRest(s.runners[x])
    requires d < |s.runners[x].frames| && d < |s.runners[x].queue| && s.runners[x].queue[d] > 0
    ensures Reaches(s, s') && s'.runners == s.runners[x := r] && AtRest(r) && NoTokens(r) && R.Unlocked(s'.registry)
    ensures s'.registry.live <= s.registry.live
    ensures var clear := Clear(s'); clear
  {
    var mid, begun, steps;
    mid, begun, steps, r := BeginsNext(s, x, d);
    s' := Returns(mid, x, steps, r);
    Overwritten(s, mid, s', x, begun, r);
  }

  lemma Overwritten(s: System, mid: System, s': System, x: R.Actor, begun: A.State, r: A.State)
    requires mid.runners == s.runners[x := begun] && s'.runners == mid.runners[x := r]
    requires Reaches(s, mid) && Reaches(mid, s')
    ensures s'.runners == s.runners[x := r] && Reaches(s, s')
  {
    Then(s, mid, s');
  }

  lemma {:induction false} AllUsed(s: System) returns (s': System)
    requires Clear(s) && R.Unlocked(s.registry) && Busy(s.runners) == {}
    ensures Reaches(s, s') && Busy(s'.runners) == {} && Queued(s'.runners) == {} && R.Unlocked(s'.registry)
    ensures s'.registry.live <= s.registry.live
    ensures var clear := Clear(s'); clear
    decreases |Queued(s.runners)|
  {
    if Queued(s.runners) == {} {
      s' := s;
      Still(s);
    } else {
      var x, d := SomeNext(s);
      var mid, r := UsesOne(s, x, d);
      UsedStill(s.runners, x, d, r);
      s' := AllUsed(mid);
      Then(s, mid, s');
    }
  }

  lemma UsedStill(runners: map<R.Actor, A.State>, x: R.Actor, d: nat, r: A.State)
    requires Busy(runners) == {} && x in runners && d < |runners[x].queue| && runners[x].queue[d] > 0
    requires AtRest(r) && NoTokens(r)
    ensures Busy(runners[x := r]) == {} && |Queued(runners[x := r])| < |Queued(runners)|
  {
    assert x in Queued(runners);
    QueuedDrops(runners, x, r);
    forall y | y in runners ensures AtRest(runners[y]) { assert y !in Busy(runners); }
  }

  // ----------------------------------------------------- one actor after the other

  /** No worker is in an actor, no queue has a token, no removal is under way. */
  ghost predicate Quiet(s: System) {
    Clear(s) && R.Unlocked(s.registry) && Busy(s.runners) == {} && Queued(s.runners) == {}
  }

  lemma QuietIsAlone(s: System, x: R.Actor)
    requires Busy(s.runners) == {} && Queued(s.runners) == {}
    ensures Alone(s.runners, x)
  {
    forall y | y in s.runners ensures AtRest(s.runners[y]) && NoTokens(s.runners[y]) {
      assert y !in Busy(s.runners) && y !in Queued(s.runners);
    }
  }

  lemma StaysQuiet(runners: map<R.Actor, A.State>, x: R.Actor, r: A.State)
    requires Busy(runners) == {} && Queued(runners) == {} && AtRest(r) && NoTokens(r)
    ensures Busy(runners[x := r]) == {} && Queued(runners[x := r]) == {}
  {
    forall y | y in runners ensures AtRest(runners[y]) && NoTokens(runners[y]) {
      assert y !in Busy(runners) && y !in Queued(runners);
    }
  }

  /** To its `on_finalize`, and to rest. */
  lemma ToTheEnd(r: A.State) returns (steps: seq<A.Action>, r': A.State)
    requires RunnerRuns.Reachable(r) && !Stranded(r)
    ensures RunnerRuns.Leads(r, steps, r', true) && r'.log.finals == 1 && AtRest(r') && NoTokens(r') && !Stranded(r')
  {
    CanFinalizeExactlyUnlessDoomed(r);
    var first, mid :| RunnerRuns.Leads(r, first, mid, true) && mid.log.finals == 1;
    RunnerRuns.ReachableOn(r, first, mid);
    var second;
    second, r' := ComesToRest(mid);
    RunnerRuns.LeadsOn(r, first, mid, second, r', true);
    steps := first + second;
    FinalsGrow(mid, second, r');
    FinalizedHasNoTokens(r');
    FinalizedIsNotStranded(r');
  }

  lemma FinalizedIsNotStranded(r: A.State)
    requires RunnerRuns.Reachable(r) && r.log.finals == 1
    ensures !Stranded(r)
  {
    RunnerRuns.FinalizedOnce(r, 0);
  }

  /** A committed actor is brought to its end, alone, and removed. */
  lemma EndsOne(s: System, x: R.Actor) returns (s': System)
    requires Quiet(s) && x in s.registry.actors && s.registry.actors[x].phase.Committed?
    ensures Reaches(s, s') && s.registry.live > 0 && s'.registry.live == s.registry.live - 1
    ensures var quiet := Quiet(s'); quiet
  {
    assert x in s.runners && RunnerOk(s.registry.actors[x].phase, s.runners[x]);
    var steps, r := ToTheEnd(s.runners[x]);
    QuietIsAlone(s, x);
    s' := GoesOn(s, x, steps, r);
    StaysQuiet(s.runners, x, r);
  }

  /** A reserved actor is committed, once nobody holds its slot. */
  lemma {:induction false} CommitsOne(s: System, x: R.Actor) returns (s': System)
    requires Quiet(s) && RegistryShutdown.Pending(s.registry, x) && s.registry.actors[x].phase.Reserved?
    requires x.index < |s.registry.slots|
    ensures Reaches(s, s') && s'.registry.live == s.registry.live
    ensures x in s'.registry.actors && s'.registry.actors[x].phase.Committed?
    ensures var quiet := Quiet(s'); quiet
    decreases RegistryShutdown.LockRank(s.registry, x.index)
  {
    if s.registry.slots[x.index].lock.Some? {
      var t := s.registry.slots[x.index].lock.value;
      RegistryShutdown.HolderOfLock(s.registry, x, t);
      RegistryShutdown.UnlockRank(s.registry, x, t);
      var next := RegistryStep(s, R.LookupStep(t));
      s' := CommitsOne(next, x);
      Then(s, next, s');
    } else {
      s' := Committed(s, x);
    }
  }

  /** A new runner is at rest. */
  lemma NewIsQuiet(owner: nat, dispatchers: nat, slots: nat)
    requires owner < dispatchers && slots >= 2
    ensures var r := A.Initial(owner, dispatchers, slots); AtRest(r) && NoTokens(r) && !Stranded(r)
  {
  }

  lemma CommitIsFit(registry: R.State, x: R.Actor)
    requires R.Shape(registry) && R.Enabled(registry, R.Commit(x)) && RegistryShutdown.AllFit(registry.actors)
    ensures var registry' := R.Step(registry, R.Commit(x));
            && RegistryShutdown.AllFit(registry'.actors) && registry'.poisoned == registry.poisoned
            && registry'.remover == registry.remover
  {
  }

  lemma Committed(s: System, x: R.Actor) returns (s': System)
    requires Quiet(s) && R.Enabled(s.registry, R.Commit(x))
    ensures Reaches(s, s') && s'.registry == R.Step(s.registry, R.Commit(x))
    ensures var quiet := Quiet(s'); quiet
  {
    var slots := Normalized(s.registry.actors[x].request.mailboxCapacity);
    var r := A.Initial(0, |s.queues|, slots);
    One(s, Commit(x, 0));
    CommitKeeps(s, x, 0);
    s' := Step(s, Commit(x, 0));
    NewIsQuiet(0, |s.queues|, slots);
    CommitIsFit(s.registry, x);
    StaysQuiet(s.runners, x, r);
    StrandedWith(s.runners, x, r);
  }

  lemma RemovesOne(s: System) returns (s': System)
    requires Quiet(s) && s.registry.live > 0
    ensures Reaches(s, s') && s'.registry.live == s.registry.live - 1
    ensures var quiet := Quiet(s'); quiet
  {
    var x := RegistryShutdown.SomePending(s.registry);
    RegistryShutdown.PendingPhase(s.registry, x);
    if s.registry.actors[x].phase.Reserved? {
      var mid := CommitsOne(s, x);
      s' := EndsOne(mid, x);
      Then(s, mid, s');
    } else {
      s' := EndsOne(s, x);
    }
  }

  lemma ShutsDownLater(s: System, s': System)
    requires Reaches(s, s') && CanShutDown(s')
    ensures CanShutDown(s)
  {
    var end :| Reaches(s', end) && Stoppable(end.registry);
    Then(s, s', end);
  }

  lemma {:induction false} Empties(s: System)
    requires Quiet(s)
    ensures CanShutDown(s)
    decreases s.registry.live
  {
    if s.registry.live > 0 {
      var s' := RemovesOne(s);
      Empties(s');
      ShutsDownLater(s, s');
    } else {
      Still(s);
      assert Stoppable(s.registry);
    }
  }

  lemma ClearShutsDown(s: System)
    requires Clear(s)
    ensures CanShutDown(s)
  {
    var s1 := Unlocks(s);
    var s2 := AllRest(s1);
    var s3 := AllUsed(s2);
    Empties(s3);
    Then(s, s1, s2);
    Then(s, s2, s3);
    ShutsDownLater(s, s3);
  }

  // -------------------------------------------------------------- the theorem

  /** The exact condition: the system can still be shut down, with its dispatchers stopped after
      every actor's end, if and only if every spawn so far asked for what `register_actor` can
      give, none met a full registry, and no kill has stranded its actor. */
  lemma ShutdownExactly(s: System)
    requires Reachable(s)
    ensures CanShutDown(s) <==>
            && RegistryShutdown.AllFit(s.registry.actors) && !s.registry.poisoned && NobodyStranded(s.runners)
  {
    ReachableInv(s);
    if !RegistryShutdown.AllFit(s.registry.actors) {
      UnfitNever(s);
    } else if s.registry.poisoned {
      PoisonedNever(s);
    } else if !NobodyStranded(s.runners) {
      StrandedNever(s);
    } else {
      ClearShutsDown(s);
    }
  }

  lemma PoisonedNever(s: System)
    requires s.registry.poisoned
    ensures !CanShutDown(s)
  {
    forall s' | Reaches(s, s') ensures s'.registry.poisoned {
      var acts :| Leads(s, acts, s');
      PoisonedForever(s, acts, s');
    }
  }

  lemma UnfitNever(s: System)
    requires Inv(s) && !RegistryShutdown.AllFit(s.registry.actors)
    ensures !CanShutDown(s)
  {
    forall s' | Reaches(s, s') ensures s'.registry.live > 0 {
      UnfitCounts(s, s');
    }
    CountedCannot(s);
  }

  lemma UnfitCounts(s: System, s': System)
    requires Inv(s) && !RegistryShutdown.AllFit(s.registry.actors) && Reaches(s, s')
    ensures s'.registry.live > 0
  {
    var x :| x in s.registry.actors && !R.Fits(s.registry.actors[x].request);
    var acts :| Leads(s, acts, s');
    UnfitBlocks(s, x, acts, s');
  }

  lemma StrandedNever(s: System)
    requires Inv(s) && !NobodyStranded(s.runners)
    ensures !CanShutDown(s)
  {
    forall s' | Reaches(s, s') ensures s'.registry.live > 0 {
      StrandedCounts(s, s');
    }
    CountedCannot(s);
  }

  lemma StrandedCounts(s: System, s': System)
    requires Inv(s) && !NobodyStranded(s.runners) && Reaches(s, s')
    ensures s'.registry.live > 0
  {
    var x :| x in s.runners && Stranded(s.runners[x]);
    var acts :| Leads(s, acts, s');
    StrandedBlocks(s, x, acts, s');
  }

  lemma CountedCannot(s: System)
    requires forall s' :: Reaches(s, s') ==> s'.registry.live > 0
    ensures !CanShutDown(s)
  {
  }
}
