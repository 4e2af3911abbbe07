/**
 One reactor thread with its connections, and any number of other threads that send on
 sessions, close them, hand over accepted sockets or stop the reactor.

 A step is one atomic access, one mutex-guarded block, one system call with the handler call
 that follows it, or one return of `poll`. The reactor's control is the list `work` of what it
 still has to do before it polls again. What the socket and the registration answer is part of
 the action, so it is arbitrary; `reregister` and `wake` succeed.
 */
module ReactorModel {
  import opened Framing
  import opened SessionHost

  /** The sending side of a session. `armed` is a WRITABLE registration that has not delivered
      its event yet: readiness is edge-triggered, so an event delivered is an event spent.
      `accepted` and `wire` are history: the buffers accepted by `send`, and the bytes the
      socket took. */
  datatype Conn = Conn(pending: seq<byte>, armed: bool, accepted: seq<seq<byte>>, wire: seq<byte>)

  /** Where another thread stands in `Session::send`, `Session::close`, or a hand-over. */
  datatype Pc =
    | Idle
    | Undisposed(token: nat, bytes: seq<byte>)
    | Checked(token: nat, bytes: seq<byte>)
    | Appended(token: nat)
    | CloseChecked(token: nat)
    | CloseMarked(token: nat)
    | Pushed

  datatype Task =
    | WakerEvent
    | ConnEvent(token: nat, readable: bool, writable: bool)
    | TakeIncoming
    | AdmitNext
    | TakeWrites
    | Flush(token: nat)
    | Rereg(token: nat, writable: bool)
    | TakeCloses
    | CloseOne(token: nat)
    | Dispose(token: nat)

  /** By token: `conns` and `ids` of every session ever made, `live` those the reactor still has,
      `disposed` and `closing` the two flags of a session. `admitting` is the rest of the batch
      `take_incoming` works on; `exiting` says that the reactor saw the stop flag. `log` is
      history: the calls of the handler. */
  datatype State = State(
    conns: map<nat, Conn>,
    ids: map<nat, nat>,
    live: set<nat>,
    disposed: set<nat>,
    closing: set<nat>,
    pendingWrites: seq<nat>,
    pendingCloses: seq<nat>,
    incoming: seq<nat>,
    admitting: seq<nat>,
    wakeDue: bool,
    stopped: bool,
    exiting: bool,
    work: seq<Task>,
    threads: seq<Pc>,
    nextToken: nat,
    nextId: nat,
    log: seq<Event>)

  const FIRST_TOKEN: nat := 2

  function Initial(threads: nat): State {
    State(map[], map[], {}, {}, {}, [], [], [], [], false, false, false, [],
          seq(threads, _ => Idle), FIRST_TOKEN, 1, [])
  }

  /** What the environment answers: does `register` succeed, what a read returned, how many
      bytes a write took, whether the transport reports the connection closed, and in which
      order the keys of the connection map come. */
  datatype Io = Io(ok: bool, bytes: seq<byte>, sent: nat, closed: bool, order: seq<nat>)

  datatype Action =
    | LoadDisposed(i: nat, token: nat, bytes: seq<byte>)
    | LoadStopped(i: nat)
    | Append(i: nat)
    | Push(i: nat)
    | CloseCheck(i: nat, token: nat)
    | CloseSwap(i: nat)
    | ClosePush(i: nat)
    | HandOver(i: nat, gap: nat)
    | Stop(i: nat)
    | Wake(i: nat)
    | Poll(events: seq<Task>)
    | Work(io: Io)

  predicate At(s: State, i: nat) { i < |s.threads| }

  predicate Enabled(s: State, a: Action) {
    match a
    case LoadDisposed(i, token, _) => At(s, i) && s.threads[i].Idle? && token in s.conns
    case LoadStopped(i) => At(s, i) && s.threads[i].Undisposed?
    case Append(i) => At(s, i) && s.threads[i].Checked? && s.threads[i].token in s.conns
    case Push(i) => At(s, i) && s.threads[i].Appended?
    case CloseCheck(i, token) => At(s, i) && s.threads[i].Idle? && token in s.conns
    case CloseSwap(i) => At(s, i) && s.threads[i].CloseChecked? && s.threads[i].token in s.conns
    case ClosePush(i) => At(s, i) && s.threads[i].CloseMarked?
    case HandOver(i, _) => At(s, i) && s.threads[i].Idle?
    case Stop(i) => At(s, i) && s.threads[i].Idle?
    case Wake(i) => At(s, i) && s.threads[i].Pushed?
    case Poll(events) =>
      && s.work == [] && !s.exiting
      && (forall e <- events :: e.WakerEvent? || e.ConnEvent?)
      && (WakerEvent in events ==> s.wakeDue)
    case Work(io) => s.work != [] && Possible(s, s.work[0], io)
  }

  /** A write takes no more than it is given; the keys are those of the connection map. */
  predicate Possible(s: State, task: Task, io: Io) {
    && (task.Flush? && Has(s, task.token) ==> io.sent <= |s.conns[task.token].pending|)
    && (task.WakerEvent? && s.stopped ==>
          (forall t <- io.order :: t in s.live) && (forall t <- s.live :: t in io.order))
  }

  function Move(s: State, i: nat, pc: Pc): State
    requires At(s, i)
  {
    s.(threads := s.threads[i := pc])
  }

  /** One step of another thread. */
  function ThreadAdvance(maxPending: nat, s: State, a: Action): (s': State)
    requires Enabled(s, a) && !a.Poll? && !a.Work?
    ensures s'.live == s.live && s'.ids == s.ids && s'.conns.Keys == s.conns.Keys && s'.nextToken == s.nextToken
    ensures s'.work == s.work && s'.admitting == s.admitting && s'.exiting == s.exiting && s'.log == s.log
    ensures s'.disposed == s.disposed
    ensures !a.HandOver? ==> s'.incoming == s.incoming && s'.nextId == s.nextId
    ensures !a.Append? ==> s'.conns == s.conns
    ensures !a.Push? ==> s'.pendingWrites == s.pendingWrites
    ensures a.i < |s.threads| && |s'.threads| == |s.threads| && s'.threads == s.threads[a.i := s'.threads[a.i]]
  {
    match a
    case LoadDisposed(i, token, bytes) => if token in s.disposed then s else Move(s, i, Undisposed(token, bytes))
    case LoadStopped(i) =>
      Move(s, i, if s.stopped then Idle else Checked(s.threads[i].token, s.threads[i].bytes))
    case Append(i) =>
      var token, bytes := s.threads[i].token, s.threads[i].bytes;
      var c := s.conns[token];
      if |c.pending| + |bytes| > maxPending then Move(s, i, Idle) else
      Move(s, i, Appended(token)).(
        conns := s.conns[token := c.(pending := c.pending + bytes, accepted := c.accepted + [bytes])])
    case Push(i) => Move(s, i, Pushed).(pendingWrites := s.pendingWrites + [s.threads[i].token])
    case CloseCheck(i, token) => if token in s.disposed then s else Move(s, i, CloseChecked(token))
    case CloseSwap(i) =>
      var token := s.threads[i].token;
      if token in s.closing then Move(s, i, Idle) else
      Move(s, i, CloseMarked(token)).(closing := s.closing + {token})
    case ClosePush(i) => Move(s, i, Pushed).(pendingCloses := s.pendingCloses + [s.threads[i].token])
    case HandOver(i, gap) =>
      Move(s, i, Pushed).(incoming := s.incoming + [s.nextId + gap], nextId := s.nextId + gap + 1)
    case Stop(i) => Move(s, i, Pushed).(stopped := true)
    case Wake(i) => Move(s, i, Idle).(wakeDue := true)
  }

  predicate Signals(events: seq<Task>, token: nat) {
    ConnEvent(token, true, true) in events || ConnEvent(token, false, true) in events
  }

  function PollAdvance(s: State, events: seq<Task>): State {
    s.(work := events, wakeDue := s.wakeDue && WakerEvent !in events,
       conns := map t | t in s.conns :: s.conns[t].(armed := s.conns[t].armed && !Signals(events, t)))
  }

  function Flushes(tokens: seq<nat>): seq<Task> { seq(|tokens|, i requires 0 <= i < |tokens| => Flush(tokens[i])) }
  function Closes(tokens: seq<nat>): seq<Task> { seq(|tokens|, i requires 0 <= i < |tokens| => CloseOne(tokens[i])) }

  predicate Has(s: State, t: nat) { t in s.live && t in s.conns && t in s.ids }

  /** What the task at the head of the work turns into. */
  function Follows(s: State, io: Io): seq<Task>
    requires Enabled(s, Work(io))
  {
    match s.work[0]
    case WakerEvent => [TakeIncoming, TakeWrites, TakeCloses]
    case TakeIncoming => [AdmitNext]
    case AdmitNext => if s.admitting == [] then [] else [AdmitNext]
    case TakeWrites => Flushes(s.pendingWrites)
    case TakeCloses => Closes(s.pendingCloses)
    case ConnEvent(t, readable, writable) =>
      var again := if writable then [Flush(t)] else [];
      if !readable || !Has(s, t) then again else
      if io.closed then [CloseOne(t)] else [Flush(t)] + again
    case Flush(t) =>
      if !Has(s, t) then [] else
      if io.closed then [CloseOne(t)] else [Rereg(t, s.conns[t].pending[io.sent..] != [])]
    case Rereg(_, _) => []
    case CloseOne(t) => if Has(s, t) then [Dispose(t)] else []
    case Dispose(_) => []
  }

  /** What a task leaves alone. */
  predicate OnlyItsOwn(s: State, task: Task, s': State) {
    && s'.threads == s.threads && s'.wakeDue == s.wakeDue && s'.stopped == s.stopped
    && s'.exiting == s.exiting && s'.nextId == s.nextId
    && (!task.TakeWrites? ==> s'.pendingWrites == s.pendingWrites)
    && (!task.TakeCloses? ==> s'.pendingCloses == s.pendingCloses)
    && (!task.TakeIncoming? ==> s'.incoming == s.incoming)
    && (!task.TakeIncoming? && !task.AdmitNext? ==> s'.admitting == s.admitting)
    && (!task.AdmitNext? ==> s'.conns.Keys == s.conns.Keys && s'.ids == s.ids && s'.nextToken == s.nextToken)
    && (!task.AdmitNext? && !task.CloseOne? ==> s'.live == s.live)
    && (!task.Dispose? ==> s'.disposed == s.disposed)
    && (!task.AdmitNext? && !task.Dispose? && !task.ConnEvent? ==> s'.log == s.log)
    && (!task.AdmitNext? && !task.Flush? && !task.Rereg? ==> s'.conns == s.conns)
  }

  /** What the task at the head of the work does. */
  function Effects(s: State, io: Io): (s': State)
    requires Enabled(s, Work(io))
    ensures var only := OnlyItsOwn(s, s.work[0], s'); only
  {
    match s.work[0]
    case WakerEvent => s
    case TakeIncoming => s.(incoming := [], admitting := s.incoming)
    case AdmitNext =>
      if s.admitting == [] then s else
      var s' := s.(admitting := s.admitting[1..], nextToken := s.nextToken + 1);
      if !io.ok then s' else
      s'.(conns := s.conns[s.nextToken := Conn([], false, [], [])], ids := s.ids[s.nextToken := s.admitting[0]],
          live := s.live + {s.nextToken}, log := s.log + [Accepted(s.admitting[0])])
    case TakeWrites => s.(pendingWrites := [])
    case TakeCloses => s.(pendingCloses := [])
    case ConnEvent(t, readable, _) =>
      if !readable || !Has(s, t) || io.bytes == [] then s else s.(log := s.log + [Data(s.ids[t], io.bytes)])
    case Flush(t) => if Has(s, t) then s.(conns := s.conns[t := Written(s.conns[t], io.sent)]) else s
    case Rereg(t, writable) =>
      if t in s.conns then s.(conns := s.conns[t := s.conns[t].(armed := writable)]) else s
    case CloseOne(t) => if Has(s, t) then s.(live := s.live - {t}) else s
    case Dispose(t) =>
      if t in s.ids then s.(disposed := s.disposed + {t}, log := s.log + [Disconnected(s.ids[t])]) else s
  }

  function Written(c: Conn, sent: nat): Conn
    requires sent <= |c.pending|
  {
    c.(wire := c.wire + c.pending[..sent], pending := c.pending[sent..])
  }

  /** The next task of the reactor thread; a stop drops everything else. */
  function WorkAdvance(s: State, io: Io): State
    requires Enabled(s, Work(io))
  {
    if s.work[0].WakerEvent? && s.stopped then s.(exiting := true, work := Closes(io.order))
    else Effects(s, io).(work := Follows(s, io) + s.work[1..])
  }

  function Step(maxPending: nat, s: State, a: Action): State
    requires Enabled(s, a)
  {
    match a
    case Poll(events) => PollAdvance(s, events)
    case Work(io) => WorkAdvance(s, io)
    case LoadDisposed(_, _, _) => ThreadAdvance(maxPending, s, a)
    case LoadStopped(_) => ThreadAdvance(maxPending, s, a)
    case Append(_) => ThreadAdvance(maxPending, s, a)
    case Push(_) => ThreadAdvance(maxPending, s, a)
    case CloseCheck(_, _) => ThreadAdvance(maxPending, s, a)
    case CloseSwap(_) => ThreadAdvance(maxPending, s, a)
    case ClosePush(_) => ThreadAdvance(maxPending, s, a)
    case HandOver(_, _) => ThreadAdvance(maxPending, s, a)
    case Stop(_) => ThreadAdvance(maxPending, s, a)
    case Wake(_) => ThreadAdvance(maxPending, s, a)
  }
}
