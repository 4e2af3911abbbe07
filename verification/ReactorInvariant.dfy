/** What every step of the reactor and of the threads around it keeps. */
module ReactorInvariant {
  import opened Framing
  import opened SessionHost
  import opened ReactorModel

  // ------------------------------------------------------------------ clauses

  ghost function Concat(frames: seq<seq<byte>>): seq<byte> {
    if frames == [] then [] else Concat(frames[..|frames| - 1]) + frames[|frames| - 1]
  }

  /** No byte is lost, repeated or reordered, and the bound is respected. */
  ghost predicate Carried(c: Conn, maxPending: nat) {
    c.wire + c.pending == Concat(c.accepted) && |c.pending| <= maxPending
  }

  ghost predicate AllCarried(conns: map<nat, Conn>, maxPending: nat) {
    forall t :: t in conns ==> Carried(conns[t], maxPending)
  }

  /** A flush of `t` is due, or another thread will make it due. */
  ghost predicate Queued(t: nat, writes: seq<nat>, threads: seq<Pc>) {
    t in writes || Appended(t) in threads
  }

  ghost predicate InWork(t: nat, work: seq<Task>) {
    || Flush(t) in work
    || CloseOne(t) in work
    || Signals(work, t)
    || (work != [] && work[0] == Rereg(t, true))
  }

  ghost predicate Covered(t: nat, c: Conn, writes: seq<nat>, work: seq<Task>, threads: seq<Pc>) {
    c.pending != [] ==> c.armed || Queued(t, writes, threads) || InWork(t, work)
  }

  ghost predicate AllCovered(conns: map<nat, Conn>, live: set<nat>,
                             writes: seq<nat>, work: seq<Task>, threads: seq<Pc>) {
    forall t :: t in conns && t in live ==> Covered(t, conns[t], writes, work, threads)
  }

  /** A registration for reading only is under way: what was appended since is queued. */
  ghost predicate Narrowing(conns: map<nat, Conn>, writes: seq<nat>, work: seq<Task>, threads: seq<Pc>) {
    work != [] && work[0].Rereg? && !work[0].writable ==>
      var t := work[0].token;
      t in conns && conns[t].pending != [] ==> Queued(t, writes, threads)
  }

  /** These follow at once upon the task that makes them. */
  ghost predicate Heads(work: seq<Task>) {
    forall i :: 0 < i < |work| ==> !work[i].Rereg? && !work[i].AdmitNext? && !work[i].Dispose?
  }

  /** A wake is on its way whenever the reactor has something to look at. */
  ghost predicate WakeComing(wakeDue: bool, work: seq<Task>, threads: seq<Pc>) {
    wakeDue || WakerEvent in work || Pushed in threads
  }

  /** What is due is taken by a task in the work, or a wake is coming. */
  ghost predicate Noticed(due: bool, take: Task, wakeDue: bool, work: seq<Task>, threads: seq<Pc>) {
    due ==> WakeComing(wakeDue, work, threads) || take in work
  }

  ghost predicate AllWoken(s: State) {
    && Noticed(s.pendingWrites != [], TakeWrites, s.wakeDue, s.work, s.threads)
    && Noticed(s.pendingCloses != [], TakeCloses, s.wakeDue, s.work, s.threads)
    && Noticed(s.incoming != [], TakeIncoming, s.wakeDue, s.work, s.threads)
    && (s.stopped ==> s.exiting || WakeComing(s.wakeDue, s.work, s.threads))
  }

  ghost predicate Exits(exiting: bool, live: set<nat>, work: seq<Task>) {
    exiting ==>
      && (forall t :: t in live ==> CloseOne(t) in work)
      && (forall task :: task in work ==> task.CloseOne? || task.Dispose?)
  }

  // ---------------------------------------------------------------- life cycle

  datatype Phase = Unborn | Open | Gone | Broken

  /** A session's life as the handler sees it. `Broken` is a call out of order. */
  ghost function PhaseOf(log: seq<Event>, id: nat): Phase {
    if log == [] then Unborn else
    var before, e := PhaseOf(log[..|log| - 1], id), log[|log| - 1];
    if e.id != id then before else
    match e
    case Accepted(_) => if before.Unborn? then Open else Broken
    case Data(_, _) => if before.Open? then Open else Broken
    case Disconnected(_) => if before.Open? then Gone else Broken
  }

  ghost predicate Increasing(ids: seq<nat>) {
    forall i, j :: 0 <= i < j < |ids| ==> ids[i] < ids[j]
  }

  /** Ids still to be admitted are in order, new, and already numbered. */
  ghost predicate Numbered(ids: map<nat, nat>, waiting: seq<nat>, nextId: nat) {
    && (forall t, u :: t in ids && u in ids && ids[t] == ids[u] ==> t == u)
    && Increasing(waiting)
    && (forall i :: 0 <= i < |waiting| ==> waiting[i] < nextId)
    && (forall t, i :: t in ids && 0 <= i < |waiting| ==> ids[t] < waiting[i])
    && (forall t :: t in ids ==> ids[t] < nextId)
  }

  ghost predicate PhasesOk(log: seq<Event>, ids: map<nat, nat>, live: set<nat>) {
    && (forall t :: t in ids ==> PhaseOf(log, ids[t]) == if t in live then Open else Gone)
    && (forall id :: PhaseOf(log, id) != Unborn ==> exists t :: t in ids && ids[t] == id)
  }

  ghost predicate Tokens(tokens: set<nat>, ids: map<nat, nat>, live: set<nat>, nextToken: nat) {
    tokens == ids.Keys && live <= tokens && (forall t :: t in tokens ==> t < nextToken)
  }

  /** Sessions: who is known, and what the handler was told about each. */
  ghost predicate Sessions(tokens: set<nat>, ids: map<nat, nat>, live: set<nat>, nextToken: nat,
                           waiting: seq<nat>, nextId: nat, log: seq<Event>) {
    Tokens(tokens, ids, live, nextToken) && Numbered(ids, waiting, nextId) && PhasesOk(log, ids, live)
  }

  /** The connection that is out of the map and not yet marked disposed. */
  function Ending(work: seq<Task>): set<nat> { if work != [] && work[0].Dispose? then {work[0].token} else {} }

  /** The sessions whose `on_disconnected` is still to come. */
  function Served(s: State): set<nat> { s.live + Ending(s.work) }

  ghost predicate Orderly(admitting: seq<nat>, live: set<nat>, work: seq<Task>) {
    Heads(work) && (admitting != [] ==> work != [] && work[0].AdmitNext?) && Ending(work) !! live
  }

  ghost predicate Lives(s: State) {
    && Sessions(s.conns.Keys, s.ids, Served(s), s.nextToken, s.admitting + s.incoming, s.nextId, s.log)
    && Orderly(s.admitting, s.live, s.work)
  }

  /** Bytes: none is lost, and none is left lying. */
  ghost predicate Flows(s: State) {
    && (!s.exiting ==> AllCovered(s.conns, s.live, s.pendingWrites, s.work, s.threads))
    && Narrowing(s.conns, s.pendingWrites, s.work, s.threads)
  }

  /** Control: the reactor is woken, and leaves nothing open. */
  ghost predicate Controls(s: State) {
    && (!s.exiting ==> AllWoken(s))
    && Exits(s.exiting, s.live, s.work)
  }

  ghost predicate Inv(maxPending: nat, s: State) {
    Lives(s) && AllCarried(s.conns, maxPending) && Flows(s) && Controls(s)
  }

  // -------------------------------------------------------------------- pieces

  lemma ConcatMore(frames: seq<seq<byte>>, frame: seq<byte>)
    ensures Concat(frames + [frame]) == Concat(frames) + frame
  {
    assert (frames + [frame])[..|frames|] == frames;
  }

  lemma AppendCarries(c: Conn, bytes: seq<byte>, maxPending: nat)
    requires Carried(c, maxPending) && |c.pending| + |bytes| <= maxPending
    ensures Carried(c.(pending := c.pending + bytes, accepted := c.accepted + [bytes]), maxPending)
  {
    ConcatMore(c.accepted, bytes);
    assert c.wire + (c.pending + bytes) == (c.wire + c.pending) + bytes;
  }

  lemma WriteCarries(c: Conn, sent: nat, maxPending: nat)
    requires Carried(c, maxPending) && sent <= |c.pending|
    ensures Carried(Written(c, sent), maxPending)
  {
    assert c.pending == c.pending[..sent] + c.pending[sent..];
    assert (c.wire + c.pending[..sent]) + c.pending[sent..] == c.wire + c.pending;
  }

  lemma MovedThread(threads: seq<Pc>, i: nat, pc: Pc, other: Pc)
    requires i < |threads| && other in threads && threads[i] != other
    ensures other in threads[i := pc]
  {
    var k :| 0 <= k < |threads| && threads[k] == other;
    assert threads[i := pc][k] == other;
  }

  lemma MovesThreads(threads: seq<Pc>, i: nat, pc: Pc)
    requires i < |threads|
    ensures forall other :: other in threads && threads[i] != other ==> other in threads[i := pc]
    ensures pc in threads[i := pc]
  {
    forall other | other in threads && threads[i] != other ensures other in threads[i := pc] {
      MovedThread(threads, i, pc, other);
    }
    assert threads[i := pc][i] == pc;
  }

  lemma PhaseOfMore(log: seq<Event>, e: Event, id: nat)
    ensures var before := PhaseOf(log, id);
            PhaseOf(log + [e], id) ==
            if e.id != id then before else
            match e
            case Accepted(_) => if before.Unborn? then Open else Broken
            case Data(_, _) => if before.Open? then Open else Broken
            case Disconnected(_) => if before.Open? then Gone else Broken
  {
    assert (log + [e])[..|log|] == log;
  }

  lemma PhasesAfter(log: seq<Event>, e: Event)
    ensures forall id :: e.id != id ==> PhaseOf(log + [e], id) == PhaseOf(log, id)
    ensures var before := PhaseOf(log, e.id);
            PhaseOf(log + [e], e.id) ==
            match e
            case Accepted(_) => if before.Unborn? then Open else Broken
            case Data(_, _) => if before.Open? then Open else Broken
            case Disconnected(_) => if before.Open? then Gone else Broken
  {
    forall id { PhaseOfMore(log, e, id); }
  }

  lemma Fronted(front: seq<Task>, work: seq<Task>)
    requires work != [] && Heads(work) && Heads(front)
    ensures Heads(front + work[1..])
    ensures forall task :: task in front + work[1..] <==> task in front || task in work[1..]
    ensures forall task :: task in work ==> task == work[0] || task in work[1..]
    ensures forall task :: task in work[1..] ==> task in work && !task.Rereg?
    ensures front == [] && work[1..] != [] ==> !work[1].Rereg?
  {
  }

  // ------------------------------------------------------------- other threads

  predicate Elsewhere(a: Action) { !a.Poll? && !a.Work? }

  lemma HandOverLives(s: State, id: nat)
    requires Lives(s) && s.nextId <= id
    ensures var kept := Lives(s.(incoming := s.incoming + [id], nextId := id + 1)); kept
  {
    assert s.admitting + (s.incoming + [id]) == (s.admitting + s.incoming) + [id];
  }

  lemma SameLives(s: State, s': State)
    requires Lives(s) && s'.conns.Keys == s.conns.Keys && s'.ids == s.ids && Served(s') == Served(s)
    requires s'.nextToken == s.nextToken && s'.admitting == s.admitting && s'.incoming == s.incoming
    requires s'.nextId == s.nextId && s'.log == s.log && Orderly(s'.admitting, s'.live, s'.work)
    ensures Lives(s')
  {
  }

  lemma ThreadLives(maxPending: nat, s: State, a: Action)
    requires Lives(s) && Enabled(s, a) && Elsewhere(a)
    ensures var kept := Lives(Step(maxPending, s, a)); kept
  {
    var s' := Step(maxPending, s, a);
    if a.HandOver? {
      HandOverLives(s, s.nextId + a.gap);
    } else {
      assert s'.conns.Keys == s.conns.Keys;
      SameLives(s, s');
    }
  }

  lemma ThreadCarries(maxPending: nat, s: State, a: Action)
    requires AllCarried(s.conns, maxPending) && Enabled(s, a) && Elsewhere(a)
    ensures AllCarried(Step(maxPending, s, a).conns, maxPending)
  {
    if a.Append? {
      var pc := s.threads[a.i];
      var c := s.conns[pc.token];
      if |c.pending| + |pc.bytes| <= maxPending { AppendCarries(c, pc.bytes, maxPending); }
    }
  }

  lemma MoveFlows(s: State, i: nat, pc: Pc)
    requires Flows(s) && i < |s.threads| && !s.threads[i].Appended?
    ensures var kept := Flows(s.(threads := s.threads[i := pc])); kept
  {
    MovesThreads(s.threads, i, pc);
  }

  lemma AppendFlows(s: State, i: nat, t: nat, c: Conn)
    requires Flows(s) && i < |s.threads| && !s.threads[i].Appended?
    ensures var kept := Flows(s.(threads := s.threads[i := Appended(t)], conns := s.conns[t := c])); kept
  {
    MovesThreads(s.threads, i, Appended(t));
  }

  lemma PushFlows(s: State, i: nat)
    requires Flows(s) && i < |s.threads| && s.threads[i].Appended?
    ensures var writes := s.pendingWrites + [s.threads[i].token];
            var kept := Flows(s.(threads := s.threads[i := Pushed], pendingWrites := writes)); kept
  {
    MovesThreads(s.threads, i, Pushed);
  }

  lemma ThreadFlows(maxPending: nat, s: State, a: Action)
    requires Flows(s) && Enabled(s, a) && Elsewhere(a)
    ensures var kept := Flows(Step(maxPending, s, a)); kept
  {
    var s' := Step(maxPending, s, a);
    if a.Push? {
      PushFlows(s, a.i);
    } else if s'.conns != s.conns {
      var t := s.threads[a.i].token;
      AppendFlows(s, a.i, t, s'.conns[t]);
    } else {
      MoveFlows(s, a.i, s'.threads[a.i]);
    }
  }

  lemma ThreadControls(maxPending: nat, s: State, a: Action)
    requires Controls(s) && Enabled(s, a) && Elsewhere(a)
    ensures var kept := Controls(Step(maxPending, s, a)); kept
  {
    var s' := Step(maxPending, s, a);
    MovesThreads(s.threads, a.i, s'.threads[a.i]);
  }

  // ------------------------------------------------------------------ the poll

  lemma PollFlows(s: State, events: seq<Task>)
    requires Flows(s) && Enabled(s, Poll(events))
    ensures var kept := Flows(PollAdvance(s, events)); kept
  {
    assert events != [] ==> events[0] in events;
  }

  lemma PollControls(s: State, events: seq<Task>)
    requires Controls(s) && Enabled(s, Poll(events))
    ensures var kept := Controls(PollAdvance(s, events)); kept
  {
  }

  lemma PollLives(maxPending: nat, s: State, events: seq<Task>)
    requires Lives(s) && AllCarried(s.conns, maxPending) && Enabled(s, Poll(events))
    ensures var kept := Lives(PollAdvance(s, events)); kept
    ensures AllCarried(PollAdvance(s, events).conns, maxPending)
  {
    var conns := PollAdvance(s, events).conns;
    assert conns.Keys == s.conns.Keys;
    assert forall i :: 0 <= i < |events| ==> events[i] in events;
  }

  // ---------------------------------------------------------- the reactor thread

  lemma FollowsHeads(s: State, io: Io)
    requires Enabled(s, Work(io))
    ensures Heads(Follows(s, io))
  {
  }

  lemma WorkHeads(s: State, io: Io)
    requires Enabled(s, Work(io)) && Heads(s.work)
    ensures Heads(WorkAdvance(s, io).work)
  {
    FollowsHeads(s, io);
    Fronted(Follows(s, io), s.work);
  }

  lemma AdmitNumbers(ids: map<nat, nat>, waiting: seq<nat>, nextId: nat, t: nat)
    requires Numbered(ids, waiting, nextId) && waiting != []
    ensures Numbered(ids, waiting[1..], nextId) && Numbered(ids[t := waiting[0]], waiting[1..], nextId)
  {
  }

  lemma AdmitLives(s: State)
    requires Lives(s) && s.admitting != []
    ensures Sessions(s.conns.Keys, s.ids, s.live, s.nextToken + 1, s.admitting[1..] + s.incoming, s.nextId, s.log)
    ensures Sessions(s.conns.Keys + {s.nextToken}, s.ids[s.nextToken := s.admitting[0]], s.live + {s.nextToken},
                     s.nextToken + 1, s.admitting[1..] + s.incoming, s.nextId, s.log + [Accepted(s.admitting[0])])
  {
    var waiting := s.admitting + s.incoming;
    assert Served(s) == s.live;
    assert s.admitting[1..] + s.incoming == waiting[1..] && waiting[0] == s.admitting[0];
    AdmitNumbers(s.ids, waiting, s.nextId, s.nextToken);
    AdmitPhases(s.log, s.ids, s.live, s.nextToken, waiting[0]);
  }

  lemma AdmitPhases(log: seq<Event>, ids: map<nat, nat>, live: set<nat>, t: nat, id: nat)
    requires PhasesOk(log, ids, live)
    requires t !in ids && forall u :: u in ids ==> ids[u] != id
    ensures PhasesOk(log + [Accepted(id)], ids[t := id], live + {t})
  {
    PhasesAfter(log, Accepted(id));
    var ids' := ids[t := id];
    forall other | PhaseOf(log + [Accepted(id)], other) != Unborn ensures exists u :: u in ids' && ids'[u] == other {
      if other == id {
        assert ids'[t] == other;
      } else {
        var u :| u in ids && ids[u] == other;
        assert ids'[u] == other;
      }
    }
  }

  lemma DataPhases(log: seq<Event>, ids: map<nat, nat>, live: set<nat>, t: nat, bytes: seq<byte>)
    requires PhasesOk(log, ids, live) && t in ids && t in live
    ensures PhasesOk(log + [Data(ids[t], bytes)], ids, live)
  {
    PhasesAfter(log, Data(ids[t], bytes));
  }

  lemma ClosePhases(log: seq<Event>, ids: map<nat, nat>, live: set<nat>, t: nat)
    requires PhasesOk(log, ids, live) && t in ids && t in live
    requires forall u :: u in ids && ids[u] == ids[t] ==> u == t
    ensures PhasesOk(log + [Disconnected(ids[t])], ids, live - {t})
  {
    PhasesAfter(log, Disconnected(ids[t]));
  }

  lemma AdmitOrderly(s: State, io: Io)
    requires Orderly(s.admitting, s.live, s.work) && Enabled(s, Work(io)) && s.work[0].AdmitNext?
    ensures var s' := WorkAdvance(s, io); Orderly(s'.admitting, s'.live, s'.work) && Ending(s'.work) == {}
  {
    WorkHeads(s, io);
    NotEnding(s, io);
  }

  /** Only a close is followed by a disposal. */
  lemma NotEnding(s: State, io: Io)
    requires Enabled(s, Work(io)) && Heads(s.work) && !(s.work[0].CloseOne? && Has(s, s.work[0].token))
    ensures Ending(WorkAdvance(s, io).work) == {}
  {
    var front := Follows(s, io);
    if front == [] { assert front + s.work[1..] == s.work[1..]; }
  }

  /** The tasks that concern the handler. */
  lemma AdmitStep(s: State, io: Io)
    requires Lives(s) && Enabled(s, Work(io)) && s.work[0].AdmitNext?
    ensures var kept := Lives(WorkAdvance(s, io)); kept
  {
    AdmitOrderly(s, io);
    if s.admitting == [] {
      assert Served(WorkAdvance(s, io)) == Served(s);
      SameLives(s, WorkAdvance(s, io));
    } else {
      AdmitLives(s);
      AdmitEffects(s, io);
    }
  }

  lemma AdmitEffects(s: State, io: Io)
    requires Enabled(s, Work(io)) && s.work[0].AdmitNext? && s.admitting != []
    ensures var s' := WorkAdvance(s, io);
            && s'.admitting == s.admitting[1..] && s'.incoming == s.incoming
            && s'.nextToken == s.nextToken + 1 && s'.nextId == s.nextId
            && (io.ok ==> && s'.conns.Keys == s.conns.Keys + {s.nextToken} && s'.live == s.live + {s.nextToken}
                          && s'.ids == s.ids[s.nextToken := s.admitting[0]]
                          && s'.log == s.log + [Accepted(s.admitting[0])])
            && (!io.ok ==> s'.conns.Keys == s.conns.Keys && s'.live == s.live && s'.ids == s.ids && s'.log == s.log)
  {
  }

  lemma ReadLives(s: State, io: Io)
    requires Lives(s) && Enabled(s, Work(io)) && s.work[0].ConnEvent?
    ensures var kept := Lives(WorkAdvance(s, io)); kept
  {
    WorkHeads(s, io);
    NotEnding(s, io);
    var t := s.work[0].token;
    assert Served(WorkAdvance(s, io)) == s.live == Served(s);
    if Has(s, t) { DataPhases(s.log, s.ids, s.live, t, io.bytes); }
  }

  lemma CloseLives(s: State, io: Io)
    requires Lives(s) && Enabled(s, Work(io)) && s.work[0].CloseOne?
    ensures var kept := Lives(WorkAdvance(s, io)); kept
  {
    var s' := WorkAdvance(s, io);
    WorkHeads(s, io);
    if !Has(s, s.work[0].token) { NotEnding(s, io); }
    assert Served(s') == s.live == Served(s);
    SameLives(s, s');
  }

  lemma DisposeFacts(s: State, io: Io)
    requires Lives(s) && Enabled(s, Work(io)) && s.work[0].Dispose?
    ensures var s', t := WorkAdvance(s, io), s.work[0].token;
            && t in Served(s) && t in s.ids && Served(s') == Served(s) - {t}
            && s'.log == s.log + [Disconnected(s.ids[t])] && Orderly(s'.admitting, s'.live, s'.work)
  {
    WorkHeads(s, io);
    NotEnding(s, io);
    assert Served(WorkAdvance(s, io)) == s.live;
  }

  lemma DisposeLives(s: State, io: Io)
    requires Lives(s) && Enabled(s, Work(io)) && s.work[0].Dispose?
    ensures var kept := Lives(WorkAdvance(s, io)); kept
  {
    DisposeFacts(s, io);
    ClosePhases(s.log, s.ids, Served(s), s.work[0].token);
  }

  lemma TakeLives(s: State, io: Io)
    requires Lives(s) && Enabled(s, Work(io)) && s.work[0].TakeIncoming?
    ensures var kept := Lives(WorkAdvance(s, io)); kept
  {
    WorkHeads(s, io);
    NotEnding(s, io);
    assert Served(WorkAdvance(s, io)) == Served(s);
    assert s.admitting == [] && [] + s.incoming == s.incoming + [];
  }

  lemma WorkLives(s: State, io: Io)
    requires Lives(s) && Enabled(s, Work(io))
    ensures var kept := Lives(WorkAdvance(s, io)); kept
  {
    match s.work[0]
    case AdmitNext => AdmitStep(s, io);
    case ConnEvent(_, _, _) => ReadLives(s, io);
    case CloseOne(_) => CloseLives(s, io);
    case Dispose(_) => DisposeLives(s, io);
    case TakeIncoming => TakeLives(s, io);
    case _ =>
      WorkHeads(s, io);
      NotEnding(s, io);
      assert Served(WorkAdvance(s, io)) == s.live == Served(s);
      assert WorkAdvance(s, io).conns.Keys == s.conns.Keys;
      SameLives(s, WorkAdvance(s, io));
  }

  lemma ConnCarries(conns: map<nat, Conn>, t: nat, c: Conn, maxPending: nat)
    requires AllCarried(conns, maxPending) && Carried(c, maxPending)
    ensures AllCarried(conns[t := c], maxPending)
  {
  }

  lemma FlushCarries(maxPending: nat, s: State, io: Io)
    requires AllCarried(s.conns, maxPending) && Enabled(s, Work(io)) && s.work[0].Flush?
    ensures AllCarried(WorkAdvance(s, io).conns, maxPending)
  {
    var t := s.work[0].token;
    if Has(s, t) {
      WriteCarries(s.conns[t], io.sent, maxPending);
      ConnCarries(s.conns, t, Written(s.conns[t], io.sent), maxPending);
    }
  }

  lemma WorkCarries(maxPending: nat, s: State, io: Io)
    requires AllCarried(s.conns, maxPending) && Enabled(s, Work(io))
    ensures AllCarried(WorkAdvance(s, io).conns, maxPending)
  {
    match s.work[0]
    case Flush(t) => FlushCarries(maxPending, s, io);
    case Rereg(t, w) =>
      if t in s.conns { ConnCarries(s.conns, t, s.conns[t].(armed := w), maxPending); }
    case AdmitNext => ConnCarries(s.conns, s.nextToken, Conn([], false, [], []), maxPending);
    case _ =>
  }

  lemma FlushesAll(tokens: seq<nat>)
    ensures forall t :: t in tokens ==> Flush(t) in Flushes(tokens)
    ensures forall t :: t in tokens ==> CloseOne(t) in Closes(tokens)
  {
    forall t | t in tokens ensures Flush(t) in Flushes(tokens) && CloseOne(t) in Closes(tokens) {
      var k :| 0 <= k < |tokens| && tokens[k] == t;
      assert Flushes(tokens)[k] == Flush(t) && Closes(tokens)[k] == CloseOne(t);
    }
  }

  lemma WorkExits(s: State, io: Io)
    requires Exits(s.exiting, s.live, s.work) && Lives(s) && Enabled(s, Work(io))
    requires s.exiting || (s.work[0].WakerEvent? && s.stopped)
    ensures var s' := WorkAdvance(s, io); Exits(s'.exiting, s'.live, s'.work)
  {
    if s.exiting {
      assert s.work[0] in s.work;
      Fronted(Follows(s, io), s.work);
    } else {
      FlushesAll(io.order);
    }
  }

  lemma NoticedMoves(due: bool, due': bool, take: Task, front: seq<Task>,
                     wakeDue: bool, work: seq<Task>, threads: seq<Pc>)
    requires Noticed(due, take, wakeDue, work, threads) && work != []
    requires due' ==> due && work[0] != take
    requires work[0].WakerEvent? ==> take in front
    ensures Noticed(due', take, wakeDue, front + work[1..], threads)
  {
  }

  lemma TakesAll(s: State, io: Io)
    requires Enabled(s, Work(io)) && (s.stopped ==> !s.work[0].WakerEvent?)
    ensures s.work[0].WakerEvent? ==>
              var front := Follows(s, io); TakeIncoming in front && TakeWrites in front && TakeCloses in front
    ensures Effects(s, io).pendingWrites != [] ==> s.pendingWrites != [] && s.work[0] != TakeWrites
    ensures Effects(s, io).pendingCloses != [] ==> s.pendingCloses != [] && s.work[0] != TakeCloses
    ensures Effects(s, io).incoming != [] ==> s.incoming != [] && s.work[0] != TakeIncoming
  {
    if s.work[0].WakerEvent? {
      var front := Follows(s, io);
      assert front[0] == TakeIncoming && front[1] == TakeWrites && front[2] == TakeCloses;
    }
  }

  lemma WorkWoken(s: State, io: Io)
    requires AllWoken(s) && Enabled(s, Work(io)) && !(s.work[0].WakerEvent? && s.stopped)
    ensures var kept := AllWoken(WorkAdvance(s, io)); kept
  {
    var front, s' := Follows(s, io), Effects(s, io);
    TakesAll(s, io);
    NoticedMoves(s.pendingWrites != [], s'.pendingWrites != [], TakeWrites, front, s.wakeDue, s.work, s.threads);
    NoticedMoves(s.pendingCloses != [], s'.pendingCloses != [], TakeCloses, front, s.wakeDue, s.work, s.threads);
    NoticedMoves(s.incoming != [], s'.incoming != [], TakeIncoming, front, s.wakeDue, s.work, s.threads);
  }

  lemma WorkControls(s: State, io: Io)
    requires Controls(s) && Lives(s) && Enabled(s, Work(io))
    ensures var kept := Controls(WorkAdvance(s, io)); kept
  {
    if s.exiting || (s.work[0].WakerEvent? && s.stopped) {
      WorkExits(s, io);
    } else {
      WorkWoken(s, io);
    }
  }

  /** A connection stays covered unless the head of the work is what covered it. */
  lemma CoveredMoves(t: nat, c: Conn, writes: seq<nat>, writes': seq<nat>,
                     front: seq<Task>, work: seq<Task>, threads: seq<Pc>)
    requires Covered(t, c, writes, work, threads) && work != []
    requires work[0] != Flush(t) && work[0] != CloseOne(t) && !Signals([work[0]], t) && work[0] != Rereg(t, true)
    requires t in writes ==> t in writes' || Flush(t) in front
    ensures Covered(t, c, writes', front + work[1..], threads)
  {
  }

  ghost predicate Normal(s: State, io: Io) {
    Flows(s) && Lives(s) && Enabled(s, Work(io)) && !s.exiting && !(s.work[0].WakerEvent? && s.stopped)
  }

  /** What every connection but the task's own needs. */
  lemma OthersCovered(s: State, io: Io, own: nat)
    requires Normal(s, io)
    requires var task := s.work[0];
             task.Flush? || task.CloseOne? || task.Rereg? || task.ConnEvent? ==> task.token == own
    ensures var s' := WorkAdvance(s, io);
            forall t :: t in s.conns && t in s.live && t != own ==>
                          Covered(t, s.conns[t], s'.pendingWrites, s'.work, s'.threads)
  {
    var s' := WorkAdvance(s, io);
    var front := Follows(s, io);
    if s.work[0].TakeWrites? { FlushesAll(s.pendingWrites); }
    forall t | t in s.conns && t in s.live && t != own
      ensures Covered(t, s.conns[t], s'.pendingWrites, s'.work, s'.threads)
    {
      CoveredMoves(t, s.conns[t], s.pendingWrites, s'.pendingWrites, front, s.work, s.threads);
    }
  }

  /** Only a flush is followed by a registration. */
  lemma NotNarrowing(s: State, io: Io)
    requires Lives(s) && Enabled(s, Work(io)) && !s.work[0].Flush?
    ensures var s' := WorkAdvance(s, io); Narrowing(s'.conns, s'.pendingWrites, s'.work, s'.threads)
  {
    var front := Follows(s, io);
    if front == [] { assert front + s.work[1..] == s.work[1..]; }
  }

  lemma TakeFlows(s: State, io: Io)
    requires Normal(s, io)
    requires s.work[0].WakerEvent? || s.work[0].TakeIncoming? || s.work[0].TakeWrites? || s.work[0].TakeCloses?
    ensures var kept := Flows(WorkAdvance(s, io)); kept
  {
    NotNarrowing(s, io);
    OthersCovered(s, io, s.nextToken);
  }

  lemma AdmitFlows(s: State, io: Io)
    requires Normal(s, io) && s.work[0].AdmitNext?
    ensures var kept := Flows(WorkAdvance(s, io)); kept
  {
    NotNarrowing(s, io);
    OthersCovered(s, io, s.nextToken);
  }

  lemma ConnEventFlows(s: State, io: Io)
    requires Normal(s, io) && s.work[0].ConnEvent?
    ensures var kept := Flows(WorkAdvance(s, io)); kept
  {
    var t, front := s.work[0].token, Follows(s, io);
    NotNarrowing(s, io);
    OthersCovered(s, io, t);
    if t in s.live {
      if s.work[0].writable {
        assert front[0] == Flush(t) || front[0] == CloseOne(t);
      } else {
        CoveredMoves(t, s.conns[t], s.pendingWrites, s.pendingWrites, front, s.work, s.threads);
      }
    }
  }

  /** A flush is followed by a close, or by the registration that what is left calls for. */
  lemma FlushCovers(t: nat, c: Conn, conns: map<nat, Conn>, front: seq<Task>, rest: seq<Task>,
                    writes: seq<nat>, threads: seq<Pc>)
    requires front == [CloseOne(t)] || front == [Rereg(t, c.pending != [])]
    requires t in conns && conns[t] == c
    ensures Covered(t, c, writes, front + rest, threads)
    ensures Narrowing(conns, writes, front + rest, threads)
  {
    assert (front + rest)[0] == front[0] && front[0] in front + rest;
  }

  lemma FlushFlows(s: State, io: Io)
    requires Normal(s, io) && s.work[0].Flush?
    ensures var kept := Flows(WorkAdvance(s, io)); kept
  {
    var t, s' := s.work[0].token, WorkAdvance(s, io);
    OthersCovered(s, io, t);
    if !Has(s, t) {
      assert s'.work == s.work[1..];
    } else {
      FlushCovers(t, s'.conns[t], s'.conns, Follows(s, io), s.work[1..], s.pendingWrites, s.threads);
      assert s'.pendingWrites == s.pendingWrites && s'.threads == s.threads && s'.live == s.live;
    }
  }

  lemma ReregFlows(s: State, io: Io)
    requires Normal(s, io) && s.work[0].Rereg?
    ensures var kept := Flows(WorkAdvance(s, io)); kept
  {
    NotNarrowing(s, io);
    OthersCovered(s, io, s.work[0].token);
  }

  lemma CloseFlows(s: State, io: Io)
    requires Normal(s, io) && (s.work[0].CloseOne? || s.work[0].Dispose?)
    ensures var kept := Flows(WorkAdvance(s, io)); kept
  {
    NotNarrowing(s, io);
    OthersCovered(s, io, s.work[0].token);
  }

  lemma WorkFlows(s: State, io: Io)
    requires Flows(s) && Lives(s) && Controls(s) && Enabled(s, Work(io))
    ensures var kept := Flows(WorkAdvance(s, io)); kept
  {
    if !Normal(s, io) {
      assert s.work[0] in s.work;
      NotNarrowing(s, io);
    } else {
      match s.work[0]
      case WakerEvent => TakeFlows(s, io);
      case TakeIncoming => TakeFlows(s, io);
      case TakeWrites => TakeFlows(s, io);
      case TakeCloses => TakeFlows(s, io);
      case AdmitNext => AdmitFlows(s, io);
      case ConnEvent(_, _, _) => ConnEventFlows(s, io);
      case Flush(_) => FlushFlows(s, io);
      case Rereg(_, _) => ReregFlows(s, io);
      case CloseOne(_) => CloseFlows(s, io);
      case Dispose(_) => CloseFlows(s, io);
    }
  }

  // ------------------------------------------------------------------ all steps

  lemma StepKeeps(maxPending: nat, s: State, a: Action)
    requires Inv(maxPending, s) && Enabled(s, a)
    ensures var kept := Inv(maxPending, Step(maxPending, s, a)); kept
  {
    if a.Poll? {
      PollFlows(s, a.events);
      PollControls(s, a.events);
      PollLives(maxPending, s, a.events);
    } else if a.Work? {
      WorkLives(s, a.io);
      WorkCarries(maxPending, s, a.io);
      WorkFlows(s, a.io);
      WorkControls(s, a.io);
    } else {
      ThreadLives(maxPending, s, a);
      ThreadCarries(maxPending, s, a);
      ThreadFlows(maxPending, s, a);
      ThreadControls(maxPending, s, a);
    }
  }
}
