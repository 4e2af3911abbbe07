/**
 A receive that hops between dispatchers: one actor with its runner, together with the yield
 tasks of every dispatcher. Polling a `join(t)` elsewhere hands the receive's waker to a
 continuation on dispatcher `t`; what wakes the receive is that dispatcher's worker calling it.
 */
module JoinModel {
  import opened Basics
  import opened ActorAwait
  import opened A = RunnerModel
  import RunnerRuns
  import Y = YieldTasks
  import Runs

  /** `pools[t]` are the yield tasks of dispatcher `t`. History: `target` says for which dispatcher
      a waker was handed to a continuation, and `fired` which wake fired since the last poll that
      registered one. A continuation that joins is named by the waker in it. */
  datatype Joint = Joint(runner: A.State, pools: seq<Y.State>, target: map<nat, nat>, fired: Option<nat>)

  function Initial(owner: nat, dispatchers: nat, capacity: nat): Joint
    requires owner < dispatchers && capacity >= 2
  {
    Joint(A.Initial(owner, dispatchers, capacity), seq(dispatchers, _ => Y.INITIAL), map[], None)
  }

  /** `JoinPoll(d, w, t, ...)` is the first poll of a `join(t)`, by the worker of `d` with waker `w`. */
  datatype Action =
    | RunnerStep(a: A.Action)
    | JoinPoll(d: nat, w: nat, t: nat, thread: nat, made: nat)
    | YieldStep(t: nat, y: Y.Action)

  /** The waker inside a continuation is fired by that continuation only, and every continuation
      has a name of its own. */
  predicate CanJoin(s: Joint, a: Action) {
    match a
    case RunnerStep(ra) =>
      && A.Shape(s.runner) && A.Enabled(s.runner, ra) && A.Contract(s.runner, ra)
      && (ra.FireWake? || ra.RegisterWake? ==> ra.w !in s.target)
    case JoinPoll(d, w, t, thread, made) =>
      && A.Shape(s.runner) && A.Enabled(s.runner, RegisterWake(d, w)) && A.Contract(s.runner, RegisterWake(d, w))
      && t < |s.pools| && Enqueues(t, false, Some(d))
      && w !in s.target && (forall pool <- s.pools :: w !in pool.submitted)
      && Y.Enabled(s.pools[t], Y.Pop(thread, w, made))
    case YieldStep(t, y) =>
      t < |s.pools| && Y.Enabled(s.pools[t], y) && (y.Pop? ==> y.callback !in s.target)
  }

  /** The join that a worker's step calls, if it calls one. */
  function Calls(s: Joint, t: nat, y: Y.Action): Option<nat>
    requires t < |s.pools|
  {
    var worker := s.pools[t].worker;
    if y.WorkerStep? && worker.Calling? && worker.callback.Some? && worker.callback.value in s.target
    then worker.callback else None
  }

  function Woken(runner: A.State, w: nat, t: nat): A.State {
    if A.Shape(runner) && A.Enabled(runner, FireWake(w, Some(t))) then A.Step(runner, FireWake(w, Some(t))) else runner
  }

  function Joined(s: Joint, a: Action): Joint
    requires CanJoin(s, a)
  {
    match a
    case RunnerStep(ra) =>
      s.(runner := A.Step(s.runner, ra),
         fired := if ra.FireWake? then Some(ra.w) else if ra.RegisterWake? then None else s.fired)
    case JoinPoll(d, w, t, thread, made) =>
      Joint(A.Step(s.runner, RegisterWake(d, w)), s.pools[t := Y.Step(s.pools[t], Y.Pop(thread, w, made))],
            s.target[w := t], None)
    case YieldStep(t, y) =>
      var s' := s.(pools := s.pools[t := Y.Step(s.pools[t], y)]);
      var w := Calls(s, t, y);
      if w.None? then s' else s'.(runner := Woken(s.runner, w.value, t), fired := w)
  }

  function Next(s: Joint, a: Action): Option<Joint> { if CanJoin(s, a) then Some(Joined(s, a)) else None }

  ghost predicate Reachable(s: Joint) {
    exists owner, dispatchers, capacity, acts :: owner < dispatchers && capacity >= 2
      && Runs.Leads(Next, Initial(owner, dispatchers, capacity), acts, s)
  }

  // ---------------------------------------------------------------- invariant

  ghost predicate PoolsOk(pools: seq<Y.State>) { forall t :: 0 <= t < |pools| ==> Y.Inv(pools[t]) }

  /** A continuation that joins is on its target dispatcher, and only there. */
  ghost predicate TargetsOk(pools: seq<Y.State>, target: map<nat, nat>) {
    && (forall w :: w in target ==> target[w] < |pools| && w in pools[target[w]].submitted)
    && (forall t, c :: 0 <= t < |pools| && c in pools[t].submitted && c in target ==> target[c] == t)
  }

  ghost predicate Waits(pool: Y.State, w: nat) { w in pool.submitted && w !in pool.ran && w !in pool.refused }

  predicate Unfired(wakers: map<nat, WakePc>, w: nat) { w in wakers && wakers[w].Registered? }

  /** As long as it has not run, its waker has not fired. */
  ghost predicate WakersOk(pools: seq<Y.State>, target: map<nat, nat>, wakers: map<nat, WakePc>) {
    forall w :: w in target && target[w] < |pools| && Waits(pools[target[w]], w) ==> Unfired(wakers, w)
  }

  ghost predicate FiredOk(target: map<nat, nat>, fired: Option<nat>, resumeOn: nat) {
    fired.Some? && fired.value in target ==> resumeOn == target[fired.value]
  }

  ghost predicate Inv(s: Joint) {
    && RunnerRuns.Reachable(s.runner) && |s.runner.frames| == |s.pools|
    && PoolsOk(s.pools)
    && TargetsOk(s.pools, s.target)
    && WakersOk(s.pools, s.target, s.runner.wakers)
    && FiredOk(s.target, s.fired, s.runner.log.resumeOn)
  }

  // ------------------------------------------------------------------- pieces

  lemma SameFrames(r: A.State, a: A.Action)
    requires A.Shape(r) && A.Enabled(r, a)
    ensures |A.Step(r, a).frames| == |r.frames|
  {
    match a
    case FrameStep(d) => assert OwnFrameOnly(r, d, FrameAdvance(r, d));
    case PostStep(t) => assert PostAdvance(r, t).frames == r.frames;
    case KillStep(t) => assert KillAdvance(r, t).frames == r.frames;
    case WakeStep(w) => assert WakeAdvance(r, w).frames == r.frames;
    case _ =>
  }

  lemma RunnerGoesOn(r: A.State, a: A.Action)
    requires RunnerRuns.Reachable(r) && A.Shape(r) && A.Enabled(r, a) && A.Contract(r, a)
    ensures RunnerRuns.Reachable(A.Step(r, a)) && |A.Step(r, a).frames| == |r.frames|
  {
    SameFrames(r, a);
    RunnerRuns.LeadsOne(r, a, true);
    RunnerRuns.ReachableOn(r, [a], A.Step(r, a));
  }

  lemma FrameLeavesWakes(r: A.State, d: nat)
    requires A.Shape(r) && A.Enabled(r, FrameStep(d))
    ensures var r' := FrameAdvance(r, d); r'.wakers == r.wakers && r'.log.resumeOn == r.log.resumeOn
  {
    assert OwnFrameOnly(r, d, FrameAdvance(r, d));
  }

  lemma WakeLeavesOthers(r: A.State, w: nat, other: nat)
    requires A.Shape(r) && A.Enabled(r, WakeStep(w)) && Unfired(r.wakers, other)
    ensures var r' := WakeAdvance(r, w); Unfired(r'.wakers, other)
  {
  }

  /** A waker that has not fired stays so until it is fired, and only firing moves the receive. */
  lemma OnlyFiringFires(r: A.State, a: A.Action, w: nat)
    requires A.Shape(r) && A.Enabled(r, a)
    ensures Unfired(r.wakers, w) && !(a.FireWake? && a.w == w) ==> Unfired(A.Step(r, a).wakers, w)
  {
    if Unfired(r.wakers, w) {
      if a.FrameStep? { FrameLeavesWakes(r, a.d); } else if a.WakeStep? { WakeLeavesOthers(r, a.w, w); }
    }
  }

  lemma OnlyFiringMoves(r: A.State, a: A.Action)
    requires A.Shape(r) && A.Enabled(r, a) && !a.FireWake?
    ensures A.Step(r, a).log.resumeOn == r.log.resumeOn
  {
    if a.FrameStep? {
      FrameLeavesWakes(r, a.d);
    } else if a.WakeStep? {
      assert WakeAdvance(r, a.w).log.resumeOn == r.log.resumeOn;
    } else if a.PostStep? {
      assert PostAdvance(r, a.t).log == r.log;
    }
  }

  // -------------------------------------------------------------------- steps

  lemma RunnerStepKeeps(s: Joint, a: A.Action)
    requires Inv(s) && CanJoin(s, RunnerStep(a))
    ensures var kept := Inv(Joined(s, RunnerStep(a))); kept
  {
    var r' := A.Step(s.runner, a);
    RunnerGoesOn(s.runner, a);
    forall w | w in s.target && s.target[w] < |s.pools| && Waits(s.pools[s.target[w]], w)
      ensures Unfired(r'.wakers, w)
    {
      OnlyFiringFires(s.runner, a, w);
    }
    if !a.FireWake? { OnlyFiringMoves(s.runner, a); }
  }

  /** What a step of one pool does to the history of its continuations. */
  lemma PoolMoves(p: Y.State, y: Y.Action, c: nat)
    requires Y.Enabled(p, y)
    ensures var p' := Y.Step(p, y);
            && (c in p'.submitted <==> c in p.submitted || (y.Pop? && y.callback == c))
            && (Waits(p', c) ==> Waits(p, c) || (y.Pop? && y.callback == c))
            && (y.WorkerStep? && p.worker.Calling? && p.worker.callback == Some(c) ==> c in p'.ran)
  {
    if y.WorkerStep? { WorkerMoves(p, c); }
  }

  lemma WorkerMoves(p: Y.State, c: nat)
    requires Y.Enabled(p, Y.WorkerStep)
    ensures var p' := Y.WorkerAdvance(p);
            && p'.submitted == p.submitted && p'.refused == p.refused && (c in p.ran ==> c in p'.ran)
            && (p.worker.Calling? && p.worker.callback == Some(c) ==> c in p'.ran)
  {
  }

  lemma PoolsWith(pools: seq<Y.State>, t: nat, y: Y.Action)
    requires PoolsOk(pools) && t < |pools| && Y.Enabled(pools[t], y)
    ensures PoolsOk(pools[t := Y.Step(pools[t], y)])
  {
    Y.StepKeeps(pools[t], y);
  }

  lemma TargetsWith(pools: seq<Y.State>, target: map<nat, nat>, t: nat, y: Y.Action)
    requires TargetsOk(pools, target) && t < |pools| && Y.Enabled(pools[t], y)
    requires y.Pop? ==> y.callback !in target
    ensures TargetsOk(pools[t := Y.Step(pools[t], y)], target)
  {
    forall c { PoolMoves(pools[t], y, c); }
  }

  lemma TargetsJoin(pools: seq<Y.State>, target: map<nat, nat>, t: nat, thread: nat, w: nat, made: nat)
    requires TargetsOk(pools, target) && t < |pools| && Y.Enabled(pools[t], Y.Pop(thread, w, made))
    requires w !in target && forall pool <- pools :: w !in pool.submitted
    ensures TargetsOk(pools[t := Y.Step(pools[t], Y.Pop(thread, w, made))], target[w := t])
  {
    forall c { PoolMoves(pools[t], Y.Pop(thread, w, made), c); }
    forall i | 0 <= i < |pools| ensures w !in pools[i].submitted { assert pools[i] in pools; }
  }

  lemma WakersJoin(s: Joint, d: nat, w: nat, t: nat, thread: nat, made: nat)
    requires WakersOk(s.pools, s.target, s.runner.wakers) && CanJoin(s, JoinPoll(d, w, t, thread, made))
    ensures var s' := Joined(s, JoinPoll(d, w, t, thread, made)); WakersOk(s'.pools, s'.target, s'.runner.wakers)
  {
    var y, s' := Y.Pop(thread, w, made), Joined(s, JoinPoll(d, w, t, thread, made));
    forall v | v in s'.target && s'.target[v] < |s'.pools| && Waits(s'.pools[s'.target[v]], v)
      ensures Unfired(s'.runner.wakers, v)
    {
      PoolMoves(s.pools[t], y, v);
      if v != w { OnlyFiringFires(s.runner, RegisterWake(d, w), v); }
    }
  }

  lemma JoinPollKeeps(s: Joint, d: nat, w: nat, t: nat, thread: nat, made: nat)
    requires Inv(s) && CanJoin(s, JoinPoll(d, w, t, thread, made))
    ensures var kept := Inv(Joined(s, JoinPoll(d, w, t, thread, made))); kept
  {
    RunnerGoesOn(s.runner, RegisterWake(d, w));
    PoolsWith(s.pools, t, Y.Pop(thread, w, made));
    TargetsJoin(s.pools, s.target, t, thread, w, made);
    WakersJoin(s, d, w, t, thread, made);
  }

  /** The continuation that is called has not run before, so its waker can fire. */
  lemma CalledIsUnfired(s: Joint, t: nat, y: Y.Action)
    requires PoolsOk(s.pools) && TargetsOk(s.pools, s.target) && WakersOk(s.pools, s.target, s.runner.wakers)
    requires CanJoin(s, YieldStep(t, y)) && Calls(s, t, y).Some?
    ensures var w := Calls(s, t, y).value; s.target[w] == t && Unfired(s.runner.wakers, w)
  {
    var pool := s.pools[t];
    CarriedWaits(pool);
    assert Waits(pool, Calls(s, t, y).value);
  }

  lemma CarriedWaits(pool: Y.State)
    requires Y.Inv(pool) && pool.worker.Calling? && pool.worker.callback.Some?
    ensures Waits(pool, pool.worker.callback.value)
  {
    assert pool.loads[pool.worker.task] == pool.worker.callback;
  }

  lemma WaitsWith(s: Joint, t: nat, y: Y.Action, v: nat)
    requires PoolsOk(s.pools) && TargetsOk(s.pools, s.target) && WakersOk(s.pools, s.target, s.runner.wakers)
    requires CanJoin(s, YieldStep(t, y)) && v in s.target && s.target[v] < |s.pools|
    requires Waits(s.pools[t := Y.Step(s.pools[t], y)][s.target[v]], v)
    ensures Unfired(s.runner.wakers, v) && Calls(s, t, y) != Some(v)
  {
    PoolMoves(s.pools[t], y, v);
    if Calls(s, t, y) == Some(v) { CalledIsUnfired(s, t, y); }
  }

  lemma WakersYield(s: Joint, t: nat, y: Y.Action)
    requires Inv(s) && CanJoin(s, YieldStep(t, y))
    ensures var s' := Joined(s, YieldStep(t, y)); WakersOk(s'.pools, s'.target, s'.runner.wakers)
  {
    var w, s' := Calls(s, t, y), Joined(s, YieldStep(t, y));
    if w.Some? { CallWakes(s, t, y); }
    forall v | v in s.target && s.target[v] < |s.pools| && Waits(s'.pools[s.target[v]], v)
      ensures Unfired(s'.runner.wakers, v)
    {
      WaitsWith(s, t, y, v);
      if w.Some? { OnlyFiringFires(s.runner, FireWake(w.value, Some(t)), v); }
    }
  }

  lemma YieldStepKeeps(s: Joint, t: nat, y: Y.Action)
    requires Inv(s) && CanJoin(s, YieldStep(t, y))
    ensures var kept := Inv(Joined(s, YieldStep(t, y))); kept
  {
    PoolsWith(s.pools, t, y);
    TargetsWith(s.pools, s.target, t, y);
    WakersYield(s, t, y);
    if Calls(s, t, y).Some? { CallWakes(s, t, y); }
  }

  /** The call of a continuation fires its waker, on the target's worker. */
  lemma CallWakes(s: Joint, t: nat, y: Y.Action)
    requires Inv(s) && CanJoin(s, YieldStep(t, y)) && Calls(s, t, y).Some?
    ensures var w := Calls(s, t, y).value;
            && s.target[w] == t && A.Shape(s.runner) && A.Enabled(s.runner, FireWake(w, Some(t)))
            && Woken(s.runner, w, t) == A.Step(s.runner, FireWake(w, Some(t)))
            && RunnerRuns.Reachable(Woken(s.runner, w, t)) && |Woken(s.runner, w, t).frames| == |s.pools|
            && Woken(s.runner, w, t).log.resumeOn == t
  {
    var h := RunnerRuns.ReachableInv(s.runner);
    CalledIsUnfired(s, t, y);
    RunnerGoesOn(s.runner, FireWake(Calls(s, t, y).value, Some(t)));
  }

  lemma StepKeeps(s: Joint, a: Action)
    requires Inv(s) && CanJoin(s, a)
    ensures var kept := Inv(Joined(s, a)); kept
  {
    match a
    case RunnerStep(ra) => RunnerStepKeeps(s, ra);
    case JoinPoll(d, w, t, thread, made) => JoinPollKeeps(s, d, w, t, thread, made);
    case YieldStep(t, y) => YieldStepKeeps(s, t, y);
  }

  lemma {:induction false} LeadsKeeps(s: Joint, acts: seq<Action>, s': Joint)
    requires Inv(s) && Runs.Leads(Next, s, acts, s')
    ensures Inv(s')
    decreases |acts|
  {
    if acts != [] {
      StepKeeps(s, acts[0]);
      LeadsKeeps(Joined(s, acts[0]), acts[1..], s');
    }
  }

  lemma InitialInv(owner: nat, dispatchers: nat, capacity: nat)
    requires owner < dispatchers && capacity >= 2
    ensures Inv(Initial(owner, dispatchers, capacity))
  {
    var r := A.Initial(owner, dispatchers, capacity);
    assert RunnerRuns.Leads(r, [], r, true);
    assert RunnerRuns.ReachableBy(owner, dispatchers, capacity, [], r);
  }

  lemma ReachableInv(s: Joint)
    requires Reachable(s)
    ensures Inv(s)
  {
    var owner, dispatchers, capacity, acts :| owner < dispatchers && capacity >= 2
      && Runs.Leads(Next, Initial(owner, dispatchers, capacity), acts, s);
    InitialInv(owner, dispatchers, capacity);
    LeadsKeeps(Initial(owner, dispatchers, capacity), acts, s);
  }

  // -------------------------------------------------------------- the theorems

  /** The dispatcher switch. A receive that was last woken through a `join(t)` is polled on the
      dispatcher of `t` and nowhere else, whatever posts, kills, other wakes and other
      continuations do meanwhile; and there the join is ready. */
  lemma JoinResumesOnTarget(s: Joint, d: nat)
    requires Reachable(s) && s.fired.Some? && s.fired.value in s.target
    requires d < |s.runner.frames| && s.runner.frames[d] == Polling(false, false)
    ensures d == s.target[s.fired.value] && Ready(s.target[s.fired.value], Some(d))
  {
    ReachableInv(s);
    RunnerRuns.ResumesWhereWoken(s.runner, d);
  }

  /** The continuation of a join runs at most once, on its target dispatcher only, and until it
      has run, or was refused by a stopped dispatcher, its waker is still to fire. */
  lemma JoinRunsOnTarget(s: Joint, w: nat, t: nat)
    requires Reachable(s) && w in s.target && t < |s.pools|
    ensures s.target[w] < |s.pools| && (w in s.pools[t].ran ==> t == s.target[w])
    ensures Y.Unique(s.pools[t].ran)
    ensures w !in s.pools[s.target[w]].ran && w !in s.pools[s.target[w]].refused ==>
              w in s.runner.wakers && s.runner.wakers[w].Registered?
  {
    ReachableInv(s);
    assert Y.Inv(s.pools[t]);
    assert Waits(s.pools[s.target[w]], w) || w in s.pools[s.target[w]].ran || w in s.pools[s.target[w]].refused;
  }
}
