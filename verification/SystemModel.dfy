/**
 The registry together with the runners it holds and the dispatchers they share. Every registered
 actor has its own runner, with all its posters, killers and wakers; a dispatcher has one queue,
 which its worker empties in order, and its worker is in one actor at a time. When a runner gets
 to its `on_finalize`, that call begins the removal from the registry. The registry does not look
 at what a runner has done, and a runner does not look at the registry.
 */
module SystemModel {
  import opened Basics
  import opened MailboxQueue
  import R = RegistryModel
  import A = RunnerModel
  import RunnerRuns
  import Runs
  import opened RunnerFinalize

  /** `queues[d]` are the actors whose tokens wait on dispatcher `d`, oldest first. */
  datatype System = System(registry: R.State, runners: map<R.Actor, A.State>, queues: seq<seq<R.Actor>>)

  function Initial(capacity: nat, dispatchers: nat): System {
    System(R.Initial(capacity), map[], seq(dispatchers, _ => []))
  }

  /** `Commit` builds the runner, owned by one of the dispatchers. */
  datatype Action =
    | Registry(a: R.Action)
    | Commit(x: R.Actor, owner: nat)
    | Run(x: R.Actor, step: A.Action)

  predicate Enabled(s: System, a: Action)
    requires R.Shape(s.registry)
  {
    match a
    case Registry(ra) => !ra.Commit? && !ra.BeginRemove? && R.Enabled(s.registry, ra)
    case Commit(x, owner) => R.Enabled(s.registry, R.Commit(x)) && owner < |s.queues|
    case Run(x, ra) =>
      && x in s.runners && A.Shape(s.runners[x]) && A.Enabled(s.runners[x], ra) && A.Contract(s.runners[x], ra)
      && (RunsOnFinalize(s.runners[x], ra) ==> R.Unlocked(s.registry))
      && (ra.Execute? ==> Next(s, x, ra.d))
  }

  /** The worker of `d` is in no actor, and `x` is the first in its queue. */
  predicate Next(s: System, x: R.Actor, d: nat) {
    && d < |s.queues| && s.queues[d] != [] && s.queues[d][0] == x
    && (forall y <- s.runners.Keys :: !Occupies(s.runners[y], d))
  }

  /** `ActorSystem::finalize_kill`, up to taking the allocator's mutex. */
  function Finalize(registry: R.State, x: R.Actor): R.State {
    if x !in registry.actors then registry else
    R.WithPhase(registry, x, R.Removing).(remover := Some((x, R.BumpGeneration)))
  }

  /** A token pushed goes to the end of the queue, a token taken was at its head. */
  function Requeued(queue: seq<R.Actor>, x: R.Actor, before: nat, now: nat): seq<R.Actor> {
    if now > before then queue + [x] else if now < before && queue != [] then queue[1..] else queue
  }

  function AllRequeued(queues: seq<seq<R.Actor>>, x: R.Actor, r: A.State, r': A.State): seq<seq<R.Actor>> {
    seq(|queues|, d requires 0 <= d < |queues| =>
      if d < |r.queue| && d < |r'.queue| then Requeued(queues[d], x, r.queue[d], r'.queue[d]) else queues[d])
  }

  function Step(s: System, a: Action): System
    requires R.Shape(s.registry) && Enabled(s, a)
  {
    match a
    case Registry(ra) => s.(registry := R.Step(s.registry, ra))
    case Commit(x, owner) =>
      var slots := Normalized(s.registry.actors[x].request.mailboxCapacity);
      s.(registry := R.Step(s.registry, R.Commit(x)), runners := s.runners[x := A.Initial(owner, |s.queues|, slots)])
    case Run(x, ra) =>
      var r, r' := s.runners[x], A.Step(s.runners[x], ra);
      System(if RunsOnFinalize(r, ra) then Finalize(s.registry, x) else s.registry,
             s.runners[x := r'], AllRequeued(s.queues, x, r, r'))
  }

  function Successor(s: System, a: Action): Option<System> {
    if R.Shape(s.registry) && Enabled(s, a) then Some(Step(s, a)) else None
  }

  ghost predicate Leads(s: System, acts: seq<Action>, s': System) { Runs.Leads(Successor, s, acts, s') }

  ghost predicate Reachable(s: System) {
    exists capacity, dispatchers, acts :: dispatchers > 0 && Leads(Initial(capacity, dispatchers), acts, s)
  }

  // ---------------------------------------------------------------- invariant

  predicate HasRunner(phase: R.Phase) { phase.Committed? || phase.Removing? || phase.Removed? }

  /** A runner is in the registry until its `on_finalize`, and leaves it by that. */
  ghost predicate RunnerOk(phase: R.Phase, r: A.State) {
    RunnerRuns.Reachable(r) && (phase.Committed? <==> r.log.finals == 0)
  }

  ghost predicate RunnersOk(actors: map<R.Actor, R.Record>, runners: map<R.Actor, A.State>) {
    && (forall x :: x in runners <==> x in actors && HasRunner(actors[x].phase))
    && (forall x :: x in runners ==> RunnerOk(actors[x].phase, runners[x]))
  }

  ghost predicate Unique(queue: seq<R.Actor>) { forall i, j :: 0 <= i < j < |queue| ==> queue[i] != queue[j] }

  /** A queue holds exactly the actors that have a token on it, each once. */
  ghost predicate QueueOk(queue: seq<R.Actor>, d: nat, runners: map<R.Actor, A.State>) {
    && Unique(queue)
    && (forall x :: x in queue <==> x in runners && d < |runners[x].queue| && runners[x].queue[d] > 0)
  }

  ghost predicate QueuesOk(queues: seq<seq<R.Actor>>, runners: map<R.Actor, A.State>) {
    && |queues| > 0
    && (forall x :: x in runners ==> |runners[x].frames| == |queues| && |runners[x].queue| == |queues|)
    && (forall d :: 0 <= d < |queues| ==> QueueOk(queues[d], d, runners))
  }

  /** The worker of `d` is in this actor. */
  predicate Occupies(r: A.State, d: nat) { d < |r.frames| && !r.frames[d].Idle? }

  /** A worker is in one actor at a time. */
  ghost predicate WorkersOk(runners: map<R.Actor, A.State>) {
    forall x, y, d: nat :: x in runners && y in runners && Occupies(runners[x], d) && Occupies(runners[y], d) ==> x == y
  }

  ghost predicate Inv(s: System) {
    && R.Inv(s.registry) && RunnersOk(s.registry.actors, s.runners)
    && QueuesOk(s.queues, s.runners) && WorkersOk(s.runners)
  }

  // ------------------------------------------------------------ registry's side

  lemma RunnersWith(actors: map<R.Actor, R.Record>, runners: map<R.Actor, A.State>,
                    x: R.Actor, record: R.Record, r: A.State)
    requires RunnersOk(actors, runners) && HasRunner(record.phase) && RunnerOk(record.phase, r)
    ensures RunnersOk(actors[x := record], runners[x := r])
  {
  }

  predicate SamePhase(actors: map<R.Actor, R.Record>, actors': map<R.Actor, R.Record>, x: R.Actor) {
    && (x in actors' && HasRunner(actors'[x].phase) <==> x in actors && HasRunner(actors[x].phase))
    && (x in actors && x in actors' ==> (actors'[x].phase.Committed? <==> actors[x].phase.Committed?))
  }

  lemma RunnersUnder(actors: map<R.Actor, R.Record>, actors': map<R.Actor, R.Record>, runners: map<R.Actor, A.State>)
    requires RunnersOk(actors, runners) && forall x :: SamePhase(actors, actors', x)
    ensures RunnersOk(actors', runners)
  {
    forall x ensures x in runners <==> x in actors' && HasRunner(actors'[x].phase) {
      assert SamePhase(actors, actors', x);
    }
    forall x | x in runners ensures RunnerOk(actors'[x].phase, runners[x]) {
      assert SamePhase(actors, actors', x) && RunnerOk(actors[x].phase, runners[x]);
    }
  }

  /** The registry's own steps take nobody's runner away and give nobody one. */
  lemma RegistryPhases(s: R.State, a: R.Action, x: R.Actor)
    requires R.Inv(s) && R.Enabled(s, a) && !a.Commit? && !a.BeginRemove?
    ensures SamePhase(s.actors, R.Step(s, a).actors, x)
  {
    if a.Reserve? {
      R.ReserveFresh(s, a.request);
    } else if a.RemoveStep? {
      var y := s.remover.value.0;
      assert R.ActorOk(y, s.actors[y], s.slots[y.index], s.remover);
    }
  }

  lemma RegistryKeeps(s: System, a: R.Action)
    requires Inv(s) && Enabled(s, Registry(a))
    ensures var kept := Inv(Step(s, Registry(a))); kept
  {
    forall x ensures SamePhase(s.registry.actors, R.Step(s.registry, a).actors, x) {
      RegistryPhases(s.registry, a, x);
    }
    RunnersUnder(s.registry.actors, R.Step(s.registry, a).actors, s.runners);
    R.StepKeeps(s.registry, a);
  }

  // ------------------------------------------------------------ runners' side

  lemma InitialReachable(owner: nat, dispatchers: nat, slots: nat)
    requires owner < dispatchers && slots >= 2
    ensures RunnerRuns.Reachable(A.Initial(owner, dispatchers, slots))
  {
    var r := A.Initial(owner, dispatchers, slots);
    assert RunnerRuns.Leads(r, [], r, true);
    assert RunnerRuns.ReachableBy(owner, dispatchers, slots, [], r);
  }

  /** A new runner has no token and no frame. */
  lemma QueuesWithNew(queues: seq<seq<R.Actor>>, runners: map<R.Actor, A.State>, x: R.Actor, owner: nat, slots: nat)
    requires QueuesOk(queues, runners) && WorkersOk(runners) && x !in runners && owner < |queues| && slots >= 2
    ensures var runners' := runners[x := A.Initial(owner, |queues|, slots)];
            QueuesOk(queues, runners') && WorkersOk(runners')
  {
    var runners' := runners[x := A.Initial(owner, |queues|, slots)];
    forall d | 0 <= d < |queues| ensures QueueOk(queues[d], d, runners') {
      assert QueueOk(queues[d], d, runners);
    }
  }

  lemma CommitKeeps(s: System, x: R.Actor, owner: nat)
    requires Inv(s) && Enabled(s, Commit(x, owner))
    ensures var kept := Inv(Step(s, Commit(x, owner))); kept
  {
    var slots := Normalized(s.registry.actors[x].request.mailboxCapacity);
    InitialReachable(owner, |s.queues|, slots);
    RunnersWith(s.registry.actors, s.runners, x, s.registry.actors[x].(phase := R.Committed),
                A.Initial(owner, |s.queues|, slots));
    QueuesWithNew(s.queues, s.runners, x, owner, slots);
    R.StepKeeps(s.registry, R.Commit(x));
  }

  /** What a runner's step does to its counts; the last call is its only one. */
  lemma RunCounts(r: A.State, a: A.Action)
    requires RunnerRuns.Reachable(r) && A.Shape(r) && A.Enabled(r, a) && A.Contract(r, a)
    ensures var r' := A.Step(r, a);
            && RunnerRuns.Reachable(r') && r'.log.finals == r.log.finals + (if RunsOnFinalize(r, a) then 1 else 0)
            && (RunsOnFinalize(r, a) ==> r.log.finals == 0)
  {
    RunnerRuns.LeadsOne(r, a, true);
    RunnerRuns.ReachableOn(r, [a], A.Step(r, a));
    Counts(r, a);
    RunnerRuns.FinalizedOnce(A.Step(r, a), 0);
  }

  /** A runner that has not finalized is committed, so its call finds what it removes. */
  lemma FinalizeIsRemoval(registry: R.State, runners: map<R.Actor, A.State>, x: R.Actor)
    requires R.Shape(registry) && RunnersOk(registry.actors, runners) && x in runners
    requires runners[x].log.finals == 0 && R.Unlocked(registry)
    ensures R.Enabled(registry, R.BeginRemove(x)) && Finalize(registry, x) == R.Step(registry, R.BeginRemove(x))
  {
    assert RunnerOk(registry.actors[x].phase, runners[x]);
  }

  lemma RunnersRun(s: System, x: R.Actor, a: A.Action)
    requires R.Shape(s.registry) && RunnersOk(s.registry.actors, s.runners) && Enabled(s, Run(x, a))
    ensures var s' := Step(s, Run(x, a)); RunnersOk(s'.registry.actors, s'.runners)
  {
    var r, record := s.runners[x], s.registry.actors[x];
    assert RunnerOk(record.phase, r);
    RunCounts(r, a);
    if RunsOnFinalize(r, a) {
      RunnersWith(s.registry.actors, s.runners, x, record.(phase := R.Removing), A.Step(r, a));
    } else {
      assert s.registry.actors[x := record] == s.registry.actors;
      RunnersWith(s.registry.actors, s.runners, x, record, A.Step(r, a));
    }
  }

  // ---------------------------------------------------------- dispatchers' side

  /** Tokens are taken, and frames begun, by `Execute` only. */
  predicate ByExecuteOnly(r: A.State, a: A.Action, r': A.State) {
    && |r'.frames| == |r.frames| && |r'.queue| == |r.queue|
    && (forall d :: 0 <= d < |r.queue| && r'.queue[d] < r.queue[d] ==> a == A.Execute(d))
    && (forall d :: 0 <= d < |r.frames| && r.frames[d].Idle? && !r'.frames[d].Idle? ==> a == A.Execute(d))
  }

  lemma FrameBegins(r: A.State, d: nat)
    requires A.Shape(r) && A.Enabled(r, A.FrameStep(d))
    ensures var only := ByExecuteOnly(r, A.FrameStep(d), A.FrameAdvance(r, d)); only
  {
    var r', pc := A.FrameAdvance(r, d), r.frames[d];
    assert A.OwnFrameOnly(r, d, r');
    if pc.Deq? { assert r'.queue == r.queue; }
    else if A.InPoll(pc) { assert A.PollAdvance(r, d).queue == r.queue; }
    else if A.InDrain(pc) { assert A.DrainAdvance(r, d).queue == r.queue; }
    else if A.InPeek(pc) { assert A.PeekAdvance(r, d).queue == r.queue; }
    else if A.InFinalize(pc) { assert A.FinAdvance(r, d).queue == r.queue; }
  }

  lemma PostBegins(r: A.State, t: nat)
    requires A.Shape(r) && A.Enabled(r, A.PostStep(t))
    ensures var only := ByExecuteOnly(r, A.PostStep(t), A.PostAdvance(r, t)); only
  {
  }

  lemma KillBegins(r: A.State, t: nat)
    requires A.Shape(r) && A.Enabled(r, A.KillStep(t))
    ensures var only := ByExecuteOnly(r, A.KillStep(t), A.KillAdvance(r, t)); only
  {
  }

  lemma WakeBegins(r: A.State, w: nat)
    requires A.Shape(r) && A.Enabled(r, A.WakeStep(w))
    ensures var only := ByExecuteOnly(r, A.WakeStep(w), A.WakeAdvance(r, w)); only
  {
  }

  lemma StepBegins(r: A.State, a: A.Action)
    requires A.Shape(r) && A.Enabled(r, a)
    ensures var only := ByExecuteOnly(r, a, A.Step(r, a)); only
  {
    if a.FrameStep? { FrameBegins(r, a.d); }
    else if a.PostStep? { PostBegins(r, a.t); }
    else if a.KillStep? { KillBegins(r, a.t); }
    else if a.WakeStep? { WakeBegins(r, a.w); }
  }

  /** A runner has at most one token. */
  lemma OneToken(r: A.State)
    requires RunnerRuns.Reachable(r)
    ensures A.Shape(r) && forall d :: 0 <= d < |r.queue| ==> r.queue[d] <= 1
  {
    var h := RunnerRuns.ReachableInv(r);
  }

  lemma QueueRun(queue: seq<R.Actor>, d: nat, runners: map<R.Actor, A.State>, x: R.Actor, r': A.State)
    requires QueueOk(queue, d, runners) && x in runners && d < |runners[x].queue| && |r'.queue| == |runners[x].queue|
    requires runners[x].queue[d] <= 1 && r'.queue[d] <= 1
    requires r'.queue[d] < runners[x].queue[d] ==> queue != [] && queue[0] == x
    ensures QueueOk(Requeued(queue, x, runners[x].queue[d], r'.queue[d]), d, runners[x := r'])
  {
    var now, before := r'.queue[d], runners[x].queue[d];
    var queue' := Requeued(queue, x, before, now);
    if now < before {
      assert forall y :: y in queue ==> y == queue[0] || y in queue[1..];
      assert forall y :: y in queue[1..] ==> y in queue && y != x;
    }
  }

  lemma QueuesRun(s: System, x: R.Actor, a: A.Action)
    requires R.Shape(s.registry) && QueuesOk(s.queues, s.runners) && Enabled(s, Run(x, a))
    requires RunnerRuns.Reachable(s.runners[x]) && RunnerRuns.Reachable(A.Step(s.runners[x], a))
    ensures QueuesOk(Step(s, Run(x, a)).queues, Step(s, Run(x, a)).runners)
  {
    var r, r' := s.runners[x], A.Step(s.runners[x], a);
    OneToken(r);
    OneToken(r');
    StepBegins(r, a);
    forall d | 0 <= d < |s.queues| ensures QueueOk(Step(s, Run(x, a)).queues[d], d, s.runners[x := r']) {
      assert QueueOk(s.queues[d], d, s.runners);
      QueueRun(s.queues[d], d, s.runners, x, r');
    }
  }

  lemma WorkersRun(s: System, x: R.Actor, a: A.Action)
    requires R.Shape(s.registry) && WorkersOk(s.runners) && Enabled(s, Run(x, a))
    ensures WorkersOk(Step(s, Run(x, a)).runners)
  {
    StepBegins(s.runners[x], a);
  }

  lemma RunRegistry(s: System, x: R.Actor, a: A.Action)
    requires R.Inv(s.registry) && RunnersOk(s.registry.actors, s.runners) && Enabled(s, Run(x, a))
    ensures var kept := R.Inv(Step(s, Run(x, a)).registry); kept
  {
    if RunsOnFinalize(s.runners[x], a) {
      assert RunnerOk(s.registry.actors[x].phase, s.runners[x]);
      RunCounts(s.runners[x], a);
      FinalizeIsRemoval(s.registry, s.runners, x);
      R.StepKeeps(s.registry, R.BeginRemove(x));
    }
  }

  lemma RunKeeps(s: System, x: R.Actor, a: A.Action)
    requires Inv(s) && Enabled(s, Run(x, a))
    ensures var kept := Inv(Step(s, Run(x, a))); kept
  {
    assert RunnerOk(s.registry.actors[x].phase, s.runners[x]);
    RunCounts(s.runners[x], a);
    RunnersRun(s, x, a);
    RunRegistry(s, x, a);
    QueuesRun(s, x, a);
    WorkersRun(s, x, a);
  }

  lemma StepKeeps(s: System, a: Action)
    requires Inv(s) && Enabled(s, a)
    ensures var kept := Inv(Step(s, a)); kept
  {
    match a
    case Registry(ra) => RegistryKeeps(s, ra);
    case Commit(x, owner) => CommitKeeps(s, x, owner);
    case Run(x, ra) => RunKeeps(s, x, ra);
  }

  lemma {:induction false} LeadsKeeps(s: System, acts: seq<Action>, s': System)
    requires Inv(s) && Leads(s, acts, s')
    ensures Inv(s')
    decreases |acts|
  {
    if acts != [] {
      StepKeeps(s, acts[0]);
      LeadsKeeps(Step(s, acts[0]), acts[1..], s');
    }
  }

  lemma ReachableInv(s: System)
    requires Reachable(s)
    ensures Inv(s)
  {
    var capacity, dispatchers, acts :| dispatchers > 0 && Leads(Initial(capacity, dispatchers), acts, s);
    R.InitialInv(capacity);
    LeadsKeeps(Initial(capacity, dispatchers), acts, s);
  }
}
