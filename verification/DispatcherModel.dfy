/**
 One dispatcher: a mutex-guarded queue, a one-place signal, and a worker thread that swaps
 the queue out in batches. Schedulers run on any number of threads.

 A step is one atomic access or one mutex-guarded block; executing an item is one step.
 `pushed` and `executed` are history.
 */
module DispatcherModel {

  /** A `schedule` call; the item is fixed when the call begins. */
  datatype SchedulePc = CheckStopped | PushItem | CasPending | ReleaseSignal

  datatype Schedule = Schedule(item: nat, at: SchedulePc)

  datatype WorkerPc =
    | Wait
    | StopAfterWait
    | ClearPending
    | TakeBatch
    | RunBatch
    | StopAfterItem
    | StopAfterBatches
    | Exited

  /** A `dispose` call: `StoreStopped` then `ReleaseStop`. */
  datatype DisposePc = NotDisposing | ReleaseStop | Disposed

  datatype State = State(
    queue: seq<nat>,
    stopped: bool,
    signaled: bool,
    pending: bool,
    worker: WorkerPc,
    batch: seq<nat>,
    schedulers: map<nat, Schedule>,
    dispose: DisposePc,
    pushed: seq<nat>,
    executed: seq<nat>)

  const INITIAL := State([], false, false, false, Wait, [], map[], NotDisposing, [], [])

  datatype Action =
    | BeginSchedule(t: nat, item: nat)
    | ScheduleStep(t: nat)
    | WorkerStep
    | BeginDispose
    | DisposeStep

  predicate Enabled(s: State, a: Action) {
    match a
    case BeginSchedule(t, _) => t !in s.schedulers
    case ScheduleStep(t) => t in s.schedulers
    case WorkerStep => !s.worker.Exited? && (s.worker.Wait? ==> s.signaled) && (s.worker.RunBatch? ==> s.batch != [])
    case BeginDispose => s.dispose.NotDisposing?
    case DisposeStep => s.dispose.ReleaseStop?
  }

  function ScheduleAdvance(s: State, t: nat): State
    requires t in s.schedulers
  {
    var call := s.schedulers[t];
    match call.at
    case CheckStopped =>
      if s.stopped then s.(schedulers := s.schedulers - {t})
      else s.(schedulers := s.schedulers[t := call.(at := PushItem)])
    case PushItem =>
      s.(queue := s.queue + [call.item], pushed := s.pushed + [call.item],
         schedulers := s.schedulers[t := call.(at := CasPending)])
    case CasPending =>
      if s.pending then s.(schedulers := s.schedulers - {t})
      else s.(pending := true, schedulers := s.schedulers[t := call.(at := ReleaseSignal)])
    case ReleaseSignal => s.(signaled := true, schedulers := s.schedulers - {t})
  }

  function WorkerAdvance(s: State): State
    requires Enabled(s, WorkerStep)
  {
    match s.worker
    case Wait => s.(signaled := false, worker := StopAfterWait)
    case StopAfterWait => s.(worker := if s.stopped then Exited else ClearPending)
    case ClearPending => s.(pending := false, worker := TakeBatch)
    case TakeBatch =>
      if s.queue == [] then s.(worker := StopAfterBatches) else s.(batch := s.queue, queue := [], worker := RunBatch)
    case RunBatch => s.(executed := s.executed + [s.batch[0]], batch := s.batch[1..], worker := StopAfterItem)
    case StopAfterItem =>
      s.(worker := if s.stopped then StopAfterBatches else if s.batch == [] then TakeBatch else RunBatch)
    case StopAfterBatches => s.(worker := if s.stopped then Exited else Wait)
    case Exited => s
  }

  function Step(s: State, a: Action): State
    requires Enabled(s, a)
  {
    match a
    case BeginSchedule(t, item) => s.(schedulers := s.schedulers[t := Schedule(item, CheckStopped)])
    case ScheduleStep(t) => ScheduleAdvance(s, t)
    case WorkerStep => WorkerAdvance(s)
    case BeginDispose => s.(stopped := true, dispose := ReleaseStop)
    case DisposeStep => s.(signaled := true, dispose := Disposed)
  }

  // ---------------------------------------------------------------- invariant

  ghost predicate SomeScheduler(schedulers: map<nat, Schedule>, at: SchedulePc) {
    exists t :: t in schedulers && schedulers[t].at == at
  }

  predicate Awake(pc: WorkerPc) {
    pc.ClearPending? || pc.TakeBatch? || pc.RunBatch? || pc.StopAfterItem? || pc.StopAfterWait?
  }

  /** The signal that `signal_pending` promises is set, on its way, or just consumed. */
  ghost predicate PendingOk(s: State) {
    s.pending ==>
      || s.signaled || SomeScheduler(s.schedulers, ReleaseSignal)
      || s.worker.StopAfterWait? || s.worker.ClearPending? || s.worker.Exited? || s.stopped
  }

  /** Queued work is never slept on. */
  ghost predicate WorkOk(s: State) {
    s.queue != [] && !s.stopped ==>
      || s.signaled || SomeScheduler(s.schedulers, CasPending) || SomeScheduler(s.schedulers, ReleaseSignal)
      || Awake(s.worker)
  }

  ghost predicate Inv(s: State) {
    && PendingOk(s)
    && WorkOk(s)
    && s.pushed == s.executed + s.batch + s.queue
    && (s.worker.Exited? ==> s.stopped)
    && (s.worker.RunBatch? ==> s.batch != [])
    && (BetweenBatches(s) ==> s.batch == [])
  }

  predicate BetweenBatches(s: State) {
    s.worker.Wait? || s.worker.StopAfterWait? || s.worker.ClearPending? || s.worker.TakeBatch?
    || (s.worker.StopAfterBatches? && !s.stopped)
  }

  lemma OtherScheduler(schedulers: map<nat, Schedule>, at: SchedulePc, t: nat, call: Schedule)
    requires SomeScheduler(schedulers, at)
    requires t in schedulers ==> schedulers[t].at != at
    ensures SomeScheduler(schedulers[t := call], at) && SomeScheduler(schedulers - {t}, at)
  {
    var u :| u in schedulers && schedulers[u].at == at;
    assert schedulers[t := call][u].at == at && (schedulers - {t})[u].at == at;
  }

  lemma OthersKeep(s: State, t: nat, call: Schedule, at: SchedulePc)
    requires t in s.schedulers ==> s.schedulers[t].at != at
    ensures SomeScheduler(s.schedulers, at) ==>
              SomeScheduler(s.schedulers[t := call], at) && SomeScheduler(s.schedulers - {t}, at)
  {
    if SomeScheduler(s.schedulers, at) { OtherScheduler(s.schedulers, at, t, call); }
  }

  lemma ScheduleKeeps(s: State, t: nat)
    requires Inv(s) && Enabled(s, ScheduleStep(t))
    ensures var kept := Inv(Step(s, ScheduleStep(t))); kept
  {
    var s' := Step(s, ScheduleStep(t));
    var at := s.schedulers[t].at;
    var call := if t in s'.schedulers then s'.schedulers[t] else s.schedulers[t];
    if at != ReleaseSignal { OthersKeep(s, t, call, ReleaseSignal); }
    if at != CasPending { OthersKeep(s, t, call, CasPending); }
    if t in s'.schedulers { assert SomeScheduler(s'.schedulers, s'.schedulers[t].at); }
  }

  lemma BatchKeeps(s: State)
    requires Inv(s) && Enabled(s, WorkerStep) && (s.worker.TakeBatch? || s.worker.RunBatch?)
    ensures var kept := Inv(WorkerAdvance(s)); kept
  {
    if s.worker.RunBatch? {
      assert s.executed + s.batch == (s.executed + [s.batch[0]]) + s.batch[1..];
    } else {
      assert s.executed + [] + s.queue == s.executed + s.queue + [];
    }
  }

  lemma WorkerKeeps(s: State)
    requires Inv(s) && Enabled(s, WorkerStep)
    ensures var kept := Inv(Step(s, WorkerStep)); kept
  {
    if s.worker.TakeBatch? || s.worker.RunBatch? { BatchKeeps(s); }
  }

  lemma StepKeeps(s: State, a: Action)
    requires Inv(s) && Enabled(s, a)
    ensures Inv(Step(s, a))
  {
    match a
    case BeginSchedule(t, item) =>
      OthersKeep(s, t, Schedule(item, CheckStopped), ReleaseSignal);
      OthersKeep(s, t, Schedule(item, CheckStopped), CasPending);
    case ScheduleStep(t) => ScheduleKeeps(s, t);
    case WorkerStep => WorkerKeeps(s);
    case BeginDispose =>
    case DisposeStep =>
  }

  // --------------------------------------------------------------------- runs

  ghost predicate Leads(s: State, acts: seq<Action>, s': State)
    decreases |acts|
  {
    if acts == [] then s == s' else Enabled(s, acts[0]) && Leads(Step(s, acts[0]), acts[1..], s')
  }

  lemma {:induction false} LeadsKeeps(s: State, acts: seq<Action>, s': State)
    requires Inv(s) && Leads(s, acts, s')
    ensures Inv(s')
    decreases |acts|
  {
    if acts != [] {
      StepKeeps(s, acts[0]);
      LeadsKeeps(Step(s, acts[0]), acts[1..], s');
    }
  }

  /** Over every run: items are executed exactly in push order, none twice and none skipped,
      across all batch swaps; and until the dispatcher is stopped a non-empty queue has the
      signal set, a scheduler that has pushed and not finished, or an awake worker. */
  lemma DispatcherSound(acts: seq<Action>, s: State)
    requires Leads(INITIAL, acts, s)
    ensures s.pushed == s.executed + s.batch + s.queue
    ensures s.queue != [] && !s.stopped ==>
              || s.signaled
              || (exists t :: t in s.schedulers
                              && (s.schedulers[t].at.CasPending? || s.schedulers[t].at.ReleaseSignal?))
              || Awake(s.worker)
  {
    LeadsKeeps(INITIAL, acts, s);
    if SomeScheduler(s.schedulers, CasPending) {
      var t :| t in s.schedulers && s.schedulers[t].at == CasPending;
    } else if SomeScheduler(s.schedulers, ReleaseSignal) {
      var t :| t in s.schedulers && s.schedulers[t].at == ReleaseSignal;
    }
  }

  /** A worker asleep with no signal and no call in progress has executed everything. */
  lemma AsleepMeansDone(acts: seq<Action>, s: State)
    requires Leads(INITIAL, acts, s) && !s.stopped
    requires s.worker.Wait? && !s.signaled && s.schedulers == map[]
    ensures s.executed == s.pushed
  {
    DispatcherSound(acts, s);
    LeadsKeeps(INITIAL, acts, s);
    assert s.executed + [] + [] == s.executed;
  }
}
