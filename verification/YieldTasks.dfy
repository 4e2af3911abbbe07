/**
 Continuations on one dispatcher: a pool of reusable yield tasks, enqueuers on any threads, and
 the dispatcher's worker. A step is one mutex-guarded block or one call of a callback.
 */
module YieldTasks {
  import opened Basics

  /** Where an `enqueue_continuation` stands: it has popped a task, has set its callback, or has
      found the dispatcher running and is about to push. */
  datatype Enqueue =
    | Popped(task: nat, callback: nat)
    | Set(task: nat, callback: nat)
    | Pushing(task: nat, callback: nat)

  /** Where the worker stands in `execute` and `recycle`. */
  datatype Worker =
    | Idle
    | Taking(task: nat)
    | Calling(task: nat, callback: Option<nat>)
    | Clearing(task: nat)
    | Returning(task: nat)

  /** History: where each task is. */
  datatype Where = InPool | With(thread: nat) | InQueue | AtWorker | Gone

  /** `cells` are the callbacks stored in the tasks. History: `owned` says where each task is and
      `loads` which continuation it was taken for; `submitted`, `ran` and `refused` (by a stopped
      dispatcher) are continuations. */
  datatype State = State(
    pool: seq<nat>,
    cells: map<nat, Option<nat>>,
    queue: seq<nat>,
    stopped: bool,
    worker: Worker,
    enqueuers: map<nat, Enqueue>,
    owned: map<nat, Where>,
    loads: map<nat, Option<nat>>,
    submitted: set<nat>,
    ran: seq<nat>,
    refused: set<nat>)

  const INITIAL := State([], map[], [], false, Idle, map[], map[], map[], {}, [], {})

  datatype Action =
    | Pop(thread: nat, callback: nat, made: nat)
    | SetCallback(thread: nat)
    | CheckStopped(thread: nat)
    | Push(thread: nat)
    | WorkerStep
    | Stop

  /** Every continuation is a closure of its own; a task made for an empty pool is new. */
  predicate Enabled(s: State, a: Action) {
    match a
    case Pop(t, callback, made) =>
      t !in s.enqueuers && callback !in s.submitted && (s.pool == [] ==> made !in s.cells)
    case SetCallback(t) => t in s.enqueuers && s.enqueuers[t].Popped?
    case CheckStopped(t) => t in s.enqueuers && s.enqueuers[t].Set?
    case Push(t) => t in s.enqueuers && s.enqueuers[t].Pushing?
    case WorkerStep => s.worker.Idle? ==> s.queue != []
    case Stop => true
  }

  function WorkerAdvance(s: State): State
    requires Enabled(s, WorkerStep)
  {
    match s.worker
    case Idle =>
      s.(queue := s.queue[1..], worker := Taking(s.queue[0]), owned := s.owned[s.queue[0] := AtWorker])
    case Taking(task) =>
      s.(worker := Calling(task, if task in s.cells then s.cells[task] else None), cells := s.cells[task := None])
    case Calling(task, callback) =>
      s.(worker := Clearing(task), ran := (if callback.Some? then s.ran + [callback.value] else s.ran),
         loads := s.loads[task := None])
    case Clearing(task) => s.(cells := s.cells[task := None], worker := Returning(task))
    case Returning(task) => s.(pool := s.pool + [task], worker := Idle, owned := s.owned[task := InPool])
  }

  function Step(s: State, a: Action): State
    requires Enabled(s, a)
  {
    match a
    case Pop(t, callback, made) =>
      var n := |s.pool|;
      var task := if n == 0 then made else s.pool[n - 1];
      s.(pool := if n == 0 then [] else s.pool[..n - 1],
         cells := if n == 0 then s.cells[made := None] else s.cells,
         enqueuers := s.enqueuers[t := Popped(task, callback)],
         owned := s.owned[task := With(t)], loads := s.loads[task := Some(callback)],
         submitted := s.submitted + {callback})
    case SetCallback(t) =>
      var e := s.enqueuers[t];
      s.(cells := s.cells[e.task := Some(e.callback)], enqueuers := s.enqueuers[t := Set(e.task, e.callback)])
    case CheckStopped(t) =>
      var e := s.enqueuers[t];
      if !s.stopped then s.(enqueuers := s.enqueuers[t := Pushing(e.task, e.callback)]) else
      s.(enqueuers := s.enqueuers - {t}, owned := s.owned[e.task := Gone],
         loads := s.loads[e.task := None], refused := s.refused + {e.callback})
    case Push(t) =>
      var e := s.enqueuers[t];
      s.(enqueuers := s.enqueuers - {t}, owned := s.owned[e.task := InQueue], queue := s.queue + [e.task])
    case WorkerStep => WorkerAdvance(s)
    case Stop => s.(stopped := true)
  }

  // ---------------------------------------------------------------- invariant

  ghost predicate Unique(s: seq<nat>) { forall i, j :: 0 <= i < j < |s| ==> s[i] != s[j] }

  /** `list` holds exactly the tasks that are in `place`, each once. */
  ghost predicate Holds(list: seq<nat>, owned: map<nat, Where>, place: Where) {
    Unique(list) && forall x :: x in list <==> x in owned && owned[x] == place
  }

  /** A task in an enqueuer's hands is its own. */
  ghost predicate Hands(enqueuers: map<nat, Enqueue>, owned: map<nat, Where>) {
    forall t :: t in enqueuers ==> enqueuers[t].task in owned && owned[enqueuers[t].task] == With(t)
  }

  function Work(w: Worker): seq<nat> { if w.Idle? then [] else [w.task] }

  ghost predicate Placed(s: State) {
    && s.owned.Keys == s.cells.Keys
    && Holds(s.pool, s.owned, InPool)
    && Holds(s.queue, s.owned, InQueue)
    && Holds(Work(s.worker), s.owned, AtWorker)
    && Hands(s.enqueuers, s.owned)
  }

  /** What a task is loaded with is what it will run. */
  ghost predicate PoolLoads(pool: seq<nat>, loads: map<nat, Option<nat>>) {
    forall x :: x in pool ==> x in loads && loads[x] == None
  }

  ghost predicate QueueLoads(queue: seq<nat>, cells: map<nat, Option<nat>>, loads: map<nat, Option<nat>>) {
    forall x :: x in queue ==> x in cells && x in loads && cells[x].Some? && loads[x] == cells[x]
  }

  ghost predicate HandLoads(enqueuers: map<nat, Enqueue>, cells: map<nat, Option<nat>>, loads: map<nat, Option<nat>>) {
    forall t :: t in enqueuers ==>
      var e := enqueuers[t];
      && e.task in loads && loads[e.task] == Some(e.callback)
      && (!e.Popped? ==> e.task in cells && cells[e.task] == loads[e.task])
  }

  ghost predicate WorkLoads(w: Worker, cells: map<nat, Option<nat>>, loads: map<nat, Option<nat>>) {
    match w
    case Idle => true
    case Taking(x) => x in cells && x in loads && cells[x].Some? && loads[x] == cells[x]
    case Calling(x, callback) => x in loads && callback.Some? && loads[x] == callback
    case Clearing(x) => x in loads && loads[x] == None
    case Returning(x) => x in loads && loads[x] == None
  }

  ghost predicate Loaded(s: State) {
    && PoolLoads(s.pool, s.loads)
    && QueueLoads(s.queue, s.cells, s.loads)
    && HandLoads(s.enqueuers, s.cells, s.loads)
    && WorkLoads(s.worker, s.cells, s.loads)
    && s.loads.Keys == s.cells.Keys
  }

  /** A submitted continuation has run, was refused, or is carried by one task; and only one of these. */
  ghost predicate Accounted(loads: map<nat, Option<nat>>, submitted: set<nat>, ran: seq<nat>, refused: set<nat>) {
    && (forall c :: c in submitted ==> c in ran || c in refused || Some(c) in loads.Values)
    && (forall c :: c in ran ==> c in submitted && c !in refused)
    && refused <= submitted
    && (forall x :: x in loads && loads[x].Some? ==>
          loads[x].value in submitted && loads[x].value !in ran && loads[x].value !in refused)
    && (forall x, y :: x in loads && y in loads && loads[x].Some? && loads[x] == loads[y] ==> x == y)
    && Unique(ran)
  }

  ghost predicate Inv(s: State) {
    Placed(s) && Loaded(s) && Accounted(s.loads, s.submitted, s.ran, s.refused)
  }

  // ----------------------------------------------------- continuations change hands

  lemma Submits(loads: map<nat, Option<nat>>, x: nat, c: nat, submitted: set<nat>, ran: seq<nat>, refused: set<nat>)
    requires Accounted(loads, submitted, ran, refused) && c !in submitted
    requires x in loads ==> loads[x] == None
    ensures Accounted(loads[x := Some(c)], submitted + {c}, ran, refused)
  {
    var loads' := loads[x := Some(c)];
    assert loads'[x] == Some(c);
    forall c' | c' in submitted && Some(c') in loads.Values ensures Some(c') in loads'.Values {
      var y :| y in loads && loads[y] == Some(c');
      assert loads'[y] == Some(c');
    }
  }

  lemma Unloads(loads: map<nat, Option<nat>>, x: nat, c: nat, submitted: set<nat>, ran: seq<nat>, refused: set<nat>)
    requires Accounted(loads, submitted, ran, refused) && x in loads && loads[x] == Some(c)
    ensures Accounted(loads[x := None], submitted, ran + [c], refused)
    ensures Accounted(loads[x := None], submitted, ran, refused + {c})
  {
    var loads' := loads[x := None];
    forall c' | c' in submitted && c' != c && Some(c') in loads.Values ensures Some(c') in loads'.Values {
      var y :| y in loads && loads[y] == Some(c');
      assert loads'[y] == Some(c');
    }
  }

  // ----------------------------------------------------------- tasks change places

  lemma Passes(list: seq<nat>, owned: map<nat, Where>, place: Where, x: nat, to: Where)
    requires Holds(list, owned, place) && to != place && (x in owned ==> owned[x] != place)
    ensures Holds(list, owned[x := to], place)
  {
  }

  lemma Joins(list: seq<nat>, owned: map<nat, Where>, place: Where, x: nat)
    requires Holds(list, owned, place) && (x in owned ==> owned[x] != place)
    ensures Holds(list + [x], owned[x := place], place)
  {
  }

  lemma LeavesFirst(list: seq<nat>, owned: map<nat, Where>, place: Where, to: Where)
    requires Holds(list, owned, place) && list != [] && to != place
    ensures Holds(list[1..], owned[list[0] := to], place) && list[0] in owned && owned[list[0]] == place
  {
    assert list[0] in list;
    forall x | x in list && x != list[0] ensures x in list[1..] {}
    assert forall x :: x in list[1..] ==> x in list;
  }

  lemma LeavesLast(list: seq<nat>, owned: map<nat, Where>, place: Where, to: Where)
    requires Holds(list, owned, place) && list != [] && to != place
    ensures var n := |list| - 1;
            Holds(list[..n], owned[list[n] := to], place) && list[n] in owned && owned[list[n]] == place
  {
    var n := |list| - 1;
    assert list[n] in list && list == list[..n] + [list[n]];
    assert forall x :: x in list[..n] ==> x in list;
  }

  ghost predicate Unhanded(enqueuers: map<nat, Enqueue>, x: nat) {
    forall t :: t in enqueuers ==> enqueuers[t].task != x
  }

  /** Who is in one place is not in another. */
  lemma AtWorkerOnly(s: State, x: nat)
    requires Placed(s) && x in s.owned && s.owned[x] == AtWorker
    ensures x !in s.pool && x !in s.queue && Unhanded(s.enqueuers, x)
  {
  }

  lemma InHandsOnly(s: State, t: nat)
    requires Placed(s) && t in s.enqueuers
    ensures var x := s.enqueuers[t].task;
            x !in s.pool && x !in s.queue && x !in Work(s.worker) && Unhanded(s.enqueuers - {t}, x)
  {
  }

  lemma ListedOnly(s: State, x: nat)
    requires Placed(s) && (x in s.pool || x in s.queue)
    ensures x in s.pool ==> x !in s.queue
    ensures x !in Work(s.worker) && Unhanded(s.enqueuers, x)
  {
  }

  /** Changing a task that is in nobody's list changes nothing for the others. */
  lemma Reload(pool: seq<nat>, queue: seq<nat>, enqueuers: map<nat, Enqueue>, w: Worker,
               cells: map<nat, Option<nat>>, loads: map<nat, Option<nat>>, x: nat, cell: Option<nat>, load: Option<nat>)
    requires PoolLoads(pool, loads) && QueueLoads(queue, cells, loads) && HandLoads(enqueuers, cells, loads)
    requires x !in pool && x !in queue && Unhanded(enqueuers, x)
    ensures PoolLoads(pool, loads[x := load]) && QueueLoads(queue, cells[x := cell], loads[x := load])
    ensures HandLoads(enqueuers, cells[x := cell], loads[x := load])
    ensures WorkLoads(w, cells, loads) && x !in Work(w) ==> WorkLoads(w, cells[x := cell], loads[x := load])
  {
  }

  // --------------------------------------------------------------------- steps

  lemma PopPlaces(s: State, t: nat, callback: nat, made: nat)
    requires Placed(s) && Enabled(s, Pop(t, callback, made))
    ensures var kept := Placed(Step(s, Pop(t, callback, made))); kept
  {
    var s', n := Step(s, Pop(t, callback, made)), |s.pool|;
    var x := s'.enqueuers[t].task;
    if n > 0 { LeavesLast(s.pool, s.owned, InPool, With(t)); } else { Passes([], s.owned, InPool, x, With(t)); }
    Passes(s.queue, s.owned, InQueue, x, With(t));
    Passes(Work(s.worker), s.owned, AtWorker, x, With(t));
  }

  lemma HandTakes(enqueuers: map<nat, Enqueue>, cells: map<nat, Option<nat>>, loads: map<nat, Option<nat>>,
                  t: nat, e: Enqueue)
    requires HandLoads(enqueuers, cells, loads)
    requires e.task in loads && loads[e.task] == Some(e.callback)
    requires !e.Popped? ==> e.task in cells && cells[e.task] == loads[e.task]
    ensures HandLoads(enqueuers[t := e], cells, loads) && HandLoads(enqueuers - {t}, cells, loads)
  {
  }

  lemma PopLoads(s: State, t: nat, callback: nat, made: nat)
    requires Placed(s) && Loaded(s) && Enabled(s, Pop(t, callback, made))
    ensures var kept := Loaded(Step(s, Pop(t, callback, made))); kept
  {
    var n := |s.pool|;
    var pool := if n == 0 then [] else s.pool[..n - 1];
    var x := if n == 0 then made else s.pool[n - 1];
    var cell := if n == 0 then None else s.cells[x];
    if n == 0 {
      NewIsNowhere(s, x);
    } else {
      assert x in s.pool && s.pool == pool + [x];
      ListedOnly(s, x);
      assert s.cells[x := cell] == s.cells;
    }
    Reload(pool, s.queue, s.enqueuers, s.worker, s.cells, s.loads, x, cell, Some(callback));
    HandTakes(s.enqueuers, s.cells[x := cell], s.loads[x := Some(callback)], t, Popped(x, callback));
  }

  lemma NewIsNowhere(s: State, x: nat)
    requires Placed(s) && x !in s.cells
    ensures x !in s.pool && x !in s.queue && x !in Work(s.worker) && Unhanded(s.enqueuers, x)
  {
  }

  lemma PopKeeps(s: State, t: nat, callback: nat, made: nat)
    requires Inv(s) && Enabled(s, Pop(t, callback, made))
    ensures var kept := Inv(Step(s, Pop(t, callback, made))); kept
  {
    PopPlaces(s, t, callback, made);
    PopLoads(s, t, callback, made);
    var n := |s.pool|;
    if n > 0 { assert s.pool[n - 1] in s.pool; }
    Submits(s.loads, if n == 0 then made else s.pool[n - 1], callback, s.submitted, s.ran, s.refused);
  }

  lemma SetKeeps(s: State, t: nat)
    requires Inv(s) && Enabled(s, SetCallback(t))
    ensures var kept := Inv(Step(s, SetCallback(t))); kept
  {
    var e := s.enqueuers[t];
    InHandsOnly(s, t);
    assert s.loads[e.task := Some(e.callback)] == s.loads;
    Reload(s.pool, s.queue, s.enqueuers - {t}, s.worker, s.cells, s.loads, e.task, Some(e.callback), Some(e.callback));
    HandTakes(s.enqueuers - {t}, s.cells[e.task := Some(e.callback)], s.loads, t, Set(e.task, e.callback));
    assert (s.enqueuers - {t})[t := Set(e.task, e.callback)] == s.enqueuers[t := Set(e.task, e.callback)];
  }

  /** A task leaves an enqueuer's hands, to the queue or for good. */
  lemma LetGo(s: State, t: nat, to: Where)
    requires Placed(s) && t in s.enqueuers && (to == InQueue || to == Gone)
    ensures var x := s.enqueuers[t].task;
            && Holds(s.pool, s.owned[x := to], InPool) && Holds(Work(s.worker), s.owned[x := to], AtWorker)
            && Hands(s.enqueuers - {t}, s.owned[x := to])
            && Holds(if to == InQueue then s.queue + [x] else s.queue, s.owned[x := to], InQueue)
  {
    var x := s.enqueuers[t].task;
    Passes(s.pool, s.owned, InPool, x, to);
    Passes(Work(s.worker), s.owned, AtWorker, x, to);
    if to == InQueue { Joins(s.queue, s.owned, InQueue, x); } else { Passes(s.queue, s.owned, InQueue, x, to); }
  }

  lemma LetGoPlaces(s: State, a: Action)
    requires Placed(s) && Enabled(s, a) && ((a.CheckStopped? && s.stopped) || a.Push?)
    ensures var kept := Placed(Step(s, a)); kept
  {
    LetGo(s, a.thread, if a.Push? then InQueue else Gone);
  }

  lemma RefuseLoads(s: State, t: nat)
    requires Placed(s) && Loaded(s) && Enabled(s, CheckStopped(t)) && s.stopped
    ensures var kept := Loaded(Step(s, CheckStopped(t))); kept
  {
    var e := s.enqueuers[t];
    InHandsOnly(s, t);
    assert s.cells[e.task := s.cells[e.task]] == s.cells;
    HandTakes(s.enqueuers, s.cells, s.loads, t, e);
    Reload(s.pool, s.queue, s.enqueuers - {t}, s.worker, s.cells, s.loads, e.task, s.cells[e.task], None);
  }

  lemma RefuseKeeps(s: State, t: nat)
    requires Inv(s) && Enabled(s, CheckStopped(t)) && s.stopped
    ensures var kept := Inv(Step(s, CheckStopped(t))); kept
  {
    LetGoPlaces(s, CheckStopped(t));
    RefuseLoads(s, t);
    Unloads(s.loads, s.enqueuers[t].task, s.enqueuers[t].callback, s.submitted, s.ran, s.refused);
  }

  lemma CheckKeeps(s: State, t: nat)
    requires Inv(s) && Enabled(s, CheckStopped(t)) && !s.stopped
    ensures var kept := Inv(Step(s, CheckStopped(t))); kept
  {
    var e := s.enqueuers[t];
    HandTakes(s.enqueuers, s.cells, s.loads, t, Pushing(e.task, e.callback));
  }

  lemma PushKeeps(s: State, t: nat)
    requires Inv(s) && Enabled(s, Push(t))
    ensures var kept := Inv(Step(s, Push(t))); kept
  {
    LetGoPlaces(s, Push(t));
    HandTakes(s.enqueuers, s.cells, s.loads, t, s.enqueuers[t]);
  }

  lemma TakePlaces(s: State)
    requires Placed(s) && s.worker.Idle? && s.queue != []
    ensures var kept := Placed(WorkerAdvance(s)); kept
  {
    var x := s.queue[0];
    assert x in s.queue;
    Passes(s.pool, s.owned, InPool, x, AtWorker);
    LeavesFirst(s.queue, s.owned, InQueue, AtWorker);
    Joins([], s.owned, AtWorker, x);
    ListedOnly(s, x);
  }

  lemma TakeKeeps(s: State)
    requires Inv(s) && s.worker.Idle? && s.queue != []
    ensures var kept := Inv(WorkerAdvance(s)); kept
  {
    TakePlaces(s);
    assert s.queue[0] in s.queue && forall y :: y in s.queue[1..] ==> y in s.queue;
  }

  lemma ReturnKeeps(s: State)
    requires Inv(s) && s.worker.Returning?
    ensures var kept := Inv(WorkerAdvance(s)); kept
  {
    var x := s.worker.task;
    assert x in Work(s.worker);
    Joins(s.pool, s.owned, InPool, x);
    Passes(s.queue, s.owned, InQueue, x, InPool);
    LeavesFirst(Work(s.worker), s.owned, AtWorker, InPool);
  }

  lemma CallPlaces(s: State)
    requires Placed(s) && (s.worker.Taking? || s.worker.Calling? || s.worker.Clearing?)
    ensures var kept := Placed(WorkerAdvance(s)); kept
    ensures s.worker.task in s.owned && s.owned[s.worker.task] == AtWorker
  {
    assert s.worker.task in Work(s.worker) && Work(s.worker) == Work(WorkerAdvance(s).worker);
    assert WorkerAdvance(s).cells.Keys == s.cells.Keys;
  }

  lemma TakeCallbackKeeps(s: State)
    requires Inv(s) && (s.worker.Taking? || s.worker.Clearing?)
    ensures var kept := Inv(WorkerAdvance(s)); kept
  {
    var x := s.worker.task;
    CallPlaces(s);
    AtWorkerOnly(s, x);
    assert s.loads[x := s.loads[x]] == s.loads;
    Reload(s.pool, s.queue, s.enqueuers, s.worker, s.cells, s.loads, x, None, s.loads[x]);
  }

  lemma CallKeeps(s: State)
    requires Inv(s) && s.worker.Calling?
    ensures var kept := Inv(WorkerAdvance(s)); kept
  {
    var x := s.worker.task;
    CallPlaces(s);
    AtWorkerOnly(s, x);
    assert s.cells[x := s.cells[x]] == s.cells;
    Reload(s.pool, s.queue, s.enqueuers, s.worker, s.cells, s.loads, x, s.cells[x], None);
    Unloads(s.loads, x, s.worker.callback.value, s.submitted, s.ran, s.refused);
  }

  lemma WorkerKeeps(s: State)
    requires Inv(s) && Enabled(s, WorkerStep)
    ensures var kept := Inv(WorkerAdvance(s)); kept
  {
    match s.worker
    case Idle => TakeKeeps(s);
    case Taking(_) => TakeCallbackKeeps(s);
    case Calling(_, _) => CallKeeps(s);
    case Clearing(_) => TakeCallbackKeeps(s);
    case Returning(_) => ReturnKeeps(s);
  }

  lemma StepKeeps(s: State, a: Action)
    requires Inv(s) && Enabled(s, a)
    ensures var kept := Inv(Step(s, a)); kept
  {
    match a
    case Pop(t, callback, made) => PopKeeps(s, t, callback, made);
    case SetCallback(t) => SetKeeps(s, t);
    case CheckStopped(t) => if s.stopped { RefuseKeeps(s, t); } else { CheckKeeps(s, t); }
    case Push(t) => PushKeeps(s, t);
    case WorkerStep => WorkerKeeps(s);
    case Stop =>
  }

  // --------------------------------------------------------------------- runs

  ghost predicate Leads(s: State, acts: seq<Action>, s': State)
    decreases |acts|
  {
    if acts == [] then s == s' else Enabled(s, acts[0]) && Leads(Step(s, acts[0]), acts[1..], s')
  }

  lemma {:induction false} LeadsKeeps(s: State, acts: seq<Action>, s': State)
    requires Inv(s) && Leads(s, acts, s')
    ensures Inv(s')
    decreases |acts|
  {
    if acts != [] {
      StepKeeps(s, acts[0]);
      LeadsKeeps(Step(s, acts[0]), acts[1..], s');
    }
  }

  /** A task is never pooled and queued at once, nor held while it is either, nor twice in one
      place: a recycled task cannot be executed for somebody else. */
  lemma TaskInOnePlace(acts: seq<Action>, s: State, t: nat)
    requires Leads(INITIAL, acts, s)
    ensures Unique(s.pool) && Unique(s.queue) && forall x :: x in s.pool ==> x !in s.queue
    ensures !s.worker.Idle? ==> s.worker.task !in s.pool && s.worker.task !in s.queue
    ensures t in s.enqueuers ==> s.enqueuers[t].task !in s.pool && s.enqueuers[t].task !in s.queue
    ensures forall u :: t in s.enqueuers && u in s.enqueuers && s.enqueuers[t].task == s.enqueuers[u].task ==> t == u
  {
    LeadsKeeps(INITIAL, acts, s);
    if !s.worker.Idle? {
      assert s.worker.task in Work(s.worker);
      AtWorkerOnly(s, s.worker.task);
    }
    if t in s.enqueuers { InHandsOnly(s, t); }
  }

  /** Each continuation runs at most once, and runs, was refused by a stopped dispatcher, or is
      carried by exactly one task: never lost in the recycling, never run in two of them. */
  lemma ContinuationRunsOnce(acts: seq<Action>, s: State, c: nat)
    requires Leads(INITIAL, acts, s)
    ensures Unique(s.ran)
    ensures c in s.ran || c in s.refused ==> c in s.submitted
    ensures c in s.submitted ==>
              || (c in s.ran && c !in s.refused && Some(c) !in s.loads.Values)
              || (c !in s.ran && c in s.refused && Some(c) !in s.loads.Values)
              || (c !in s.ran && c !in s.refused && Some(c) in s.loads.Values)
    ensures forall x, y :: x in s.loads && y in s.loads && s.loads[x] == s.loads[y] == Some(c) ==> x == y
  {
    LeadsKeeps(INITIAL, acts, s);
  }

  /** What a queued task was taken for is what is in its cell, so that is what will run. */
  lemma QueuedTaskIsLoaded(acts: seq<Action>, s: State, x: nat)
    requires Leads(INITIAL, acts, s) && x in s.queue
    ensures x in s.cells && s.cells[x].Some? && x in s.loads && s.loads[x] == s.cells[x]
  {
    LeadsKeeps(INITIAL, acts, s);
  }
}
