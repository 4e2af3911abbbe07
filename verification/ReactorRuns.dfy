/** What holds over whole runs of the reactor and of the threads around it. */
module ReactorRuns {
  import opened Framing
  import opened SessionHost
  import opened ReactorModel
  import opened ReactorInvariant

  ghost predicate Leads(maxPending: nat, s: State, acts: seq<Action>, s': State)
    decreases |acts|
  {
    if acts == [] then s == s' else
    Enabled(s, acts[0]) && Leads(maxPending, Step(maxPending, s, acts[0]), acts[1..], s')
  }

  ghost predicate Reachable(maxPending: nat, s: State) {
    exists threads, acts :: Leads(maxPending, Initial(threads), acts, s)
  }

  lemma InitialInv(maxPending: nat, threads: nat)
    ensures Inv(maxPending, Initial(threads))
  {
  }

  lemma {:induction false} LeadsKeeps(maxPending: nat, s: State, acts: seq<Action>, s': State)
    requires Inv(maxPending, s) && Leads(maxPending, s, acts, s')
    ensures Inv(maxPending, s')
    decreases |acts|
  {
    if acts != [] {
      StepKeeps(maxPending, s, acts[0]);
      LeadsKeeps(maxPending, Step(maxPending, s, acts[0]), acts[1..], s');
    }
  }

  lemma ReachableInv(maxPending: nat, s: State)
    requires Reachable(maxPending, s)
    ensures Inv(maxPending, s)
  {
    var threads, acts :| Leads(maxPending, Initial(threads), acts, s);
    InitialInv(maxPending, threads);
    LeadsKeeps(maxPending, Initial(threads), acts, s);
  }

  /** No stranded output. Until the reactor exits, a live connection with bytes pending has a
      WRITABLE registration whose event is still to come, or that event is among the work; or
      its token is queued or in the batch being flushed, or its registration or close is next;
      or a sender is between its append and its push. */
  lemma NoStrandedOutput(maxPending: nat, s: State, t: nat)
    requires Reachable(maxPending, s) && !s.exiting && t in s.live
    ensures t in s.conns
    ensures s.conns[t].pending != [] ==>
              || s.conns[t].armed
              || t in s.pendingWrites
              || Appended(t) in s.threads
              || Flush(t) in s.work || CloseOne(t) in s.work || Signals(s.work, t)
              || (s.work != [] && s.work[0] == Rereg(t, true))
  {
    ReachableInv(maxPending, s);
    assert Covered(t, s.conns[t], s.pendingWrites, s.work, s.threads);
  }

  /** Whatever another thread queued, and a stop, is either about to be taken by the reactor or
      announced by a wake that is due, delivered, or next in the thread that queued it. */
  lemma WakeIsDue(maxPending: nat, s: State)
    requires Reachable(maxPending, s) && !s.exiting
    ensures s.pendingWrites != [] ==> TakeWrites in s.work || WakeComing(s.wakeDue, s.work, s.threads)
    ensures s.pendingCloses != [] ==> TakeCloses in s.work || WakeComing(s.wakeDue, s.work, s.threads)
    ensures s.incoming != [] ==> TakeIncoming in s.work || WakeComing(s.wakeDue, s.work, s.threads)
    ensures s.stopped ==> WakeComing(s.wakeDue, s.work, s.threads)
  {
    ReachableInv(maxPending, s);
  }

  /** Asleep with no wake due and no call in progress, the reactor owes nothing: every accepted
      byte is on the wire, or its connection waits for the socket to become writable. */
  lemma QuietMeansWritten(maxPending: nat, s: State, t: nat)
    requires Reachable(maxPending, s) && !s.exiting && t in s.live
    requires s.work == [] && !s.wakeDue && forall pc :: pc in s.threads ==> pc.Idle?
    ensures t in s.conns
    ensures s.conns[t].armed || s.conns[t].wire == Concat(s.conns[t].accepted)
    ensures !s.stopped && s.pendingCloses == [] && s.incoming == []
  {
    ReachableInv(maxPending, s);
    NoStrandedOutput(maxPending, s, t);
    WakeIsDue(maxPending, s);
    var c := s.conns[t];
    assert Carried(c, maxPending);
    if c.pending == [] { assert c.wire + c.pending == c.wire; }
  }

  /** For any sends and any partial writes, the bytes on the wire followed by those pending are
      the accepted buffers in order, and no more than the limit is pending. */
  lemma WireIsAccepted(maxPending: nat, s: State, t: nat)
    requires Reachable(maxPending, s) && t in s.conns
    ensures s.conns[t].wire + s.conns[t].pending == Concat(s.conns[t].accepted)
    ensures |s.conns[t].pending| <= maxPending
  {
    ReachableInv(maxPending, s);
    assert Carried(s.conns[t], maxPending);
  }

  // ---------------------------------------------------------------- life cycle

  /** `on_accepted` comes first and once, `on_disconnected` last and once. */
  ghost predicate InOrder(log: seq<Event>, id: nat) {
    forall i, j :: 0 <= i < j < |log| && log[i].id == id && log[j].id == id ==>
                     !log[j].Accepted? && !log[i].Disconnected?
  }

  /** Nothing is heard of a session that was not accepted before. */
  ghost predicate Introduced(log: seq<Event>, id: nat) {
    forall j :: 0 <= j < |log| && log[j].id == id ==> AcceptedBy(log, id, j)
  }

  ghost predicate AcceptedBy(log: seq<Event>, id: nat, j: nat)
    requires j < |log|
  {
    exists i :: 0 <= i <= j && log[i] == Accepted(id)
  }

  ghost predicate Mentioned(log: seq<Event>, id: nat) {
    exists i :: 0 <= i < |log| && log[i].id == id
  }

  lemma MentionedMore(log: seq<Event>, e: Event, id: nat)
    ensures Mentioned(log + [e], id) <==> Mentioned(log, id) || e.id == id
  {
    var all := log + [e];
    if Mentioned(log, id) {
      var i :| 0 <= i < |log| && log[i].id == id;
      assert all[i].id == id;
    }
    if e.id == id { assert all[|log|].id == id; }
    if Mentioned(all, id) {
      var i :| 0 <= i < |all| && all[i].id == id;
      assert i < |log| ==> log[i].id == id;
    }
  }

  /** What a session's phase says about the calls made for it. */
  ghost predicate PhaseSays(log: seq<Event>, id: nat) {
    && (PhaseOf(log, id) == Unborn <==> !Mentioned(log, id))
    && (PhaseOf(log, id) == Gone ==> Disconnected(id) in log)
    && (PhaseOf(log, id) == Open ==> Disconnected(id) !in log)
  }

  lemma PhaseSaysMore(log: seq<Event>, e: Event, all: seq<Event>, id: nat)
    requires PhaseSays(log, id) && all == log + [e]
    ensures var says := PhaseSays(all, id); says
  {
    MentionedMore(log, e, id);
    PhaseOfMore(log, e, id);
  }

  lemma {:induction false} PhaseMentions(log: seq<Event>, id: nat)
    ensures var says := PhaseSays(log, id); says
    decreases |log|
  {
    if log != [] {
      var init, e := log[..|log| - 1], log[|log| - 1];
      PhaseMentions(init, id);
      assert log == init + [e];
      PhaseSaysMore(init, e, log, id);
    }
  }

  lemma {:induction false} PhaseOrders(log: seq<Event>, id: nat)
    requires PhaseOf(log, id) != Broken
    ensures InOrder(log, id)
    decreases |log|
  {
    if log != [] {
      var n := |log| - 1;
      var init := log[..n];
      PhaseOrders(init, id);
      PhaseMentions(init, id);
      assert forall i :: 0 <= i < n ==> init[i] == log[i];
      forall i | 0 <= i < n && log[i].id == id && log[n].id == id
        ensures !log[n].Accepted? && !log[i].Disconnected?
      {
        assert init[i].id == id && init[i] in init;
      }
    }
  }

  lemma {:induction false} PhaseIntroduces(log: seq<Event>, id: nat)
    requires PhaseOf(log, id) != Broken
    ensures Introduced(log, id)
    decreases |log|
  {
    if log != [] {
      var n := |log| - 1;
      var init := log[..n];
      PhaseIntroduces(init, id);
      PhaseMentions(init, id);
      forall j | 0 <= j < |log| && log[j].id == id ensures AcceptedBy(log, id, j) {
        if j == n && log[n].Accepted? {
          assert log[n] == Accepted(id);
        } else {
          AcceptedEarlier(log, id, j);
        }
      }
    }
  }

  lemma AcceptedEarlier(log: seq<Event>, id: nat, j: nat)
    requires j < |log| && var init := log[..|log| - 1]; Introduced(init, id) && (j < |init| ==> init[j].id == id)
    requires j == |log| - 1 ==> Mentioned(log[..j], id)
    ensures AcceptedBy(log, id, j)
  {
    var init := log[..|log| - 1];
    var k :| 0 <= k <= j && k < |init| && init[k].id == id;
    assert AcceptedBy(init, id, k);
    var i :| 0 <= i <= k && init[i] == Accepted(id);
    assert log[i] == Accepted(id);
  }

  /** Session lifecycle, over every run: the handler hears of a session by one `on_accepted`,
      before everything else; by at most one `on_disconnected`, after everything else; and by
      exactly one if the reactor has left its loop. */
  lemma SessionLifecycle(maxPending: nat, s: State, id: nat)
    requires Reachable(maxPending, s)
    ensures InOrder(s.log, id) && Introduced(s.log, id)
    ensures s.exiting && s.work == [] && Accepted(id) in s.log ==> Disconnected(id) in s.log
  {
    ReachableInv(maxPending, s);
    if PhaseOf(s.log, id) != Unborn {
      var t :| t in s.ids && s.ids[t] == id;
    }
    PhaseMentions(s.log, id);
    PhaseOrders(s.log, id);
    PhaseIntroduces(s.log, id);
    if s.exiting && s.work == [] { assert s.live == {}; }
  }

  lemma {:induction false} OpenIsReceived(log: seq<Event>, id: nat)
    requires PhaseOf(log, id) != Broken
    ensures PhaseOf(log, id) == Open <==> Received(log, id).Some?
    decreases |log|
  {
    if log != [] { OpenIsReceived(log[..|log| - 1], id); }
  }

  /** The host's session map mirrors the reactor's connections between any two events; inside a
      close it has that session still. */
  lemma HostMirrors<M>(maxPending: nat, d: Decoder<M>, s: State)
    requires Reachable(maxPending, s)
    ensures Served(s) <= s.ids.Keys
    ensures Run(d, s.log).sessions.Keys == set t | t in Served(s) :: s.ids[t]
    ensures s.work == [] ==> Served(s) == s.live
  {
    ReachableInv(maxPending, s);
    forall id ensures id in Run(d, s.log).sessions <==> exists t :: t in Served(s) && s.ids[t] == id {
      ChunkingInvariance(d, s.log, id);
      if PhaseOf(s.log, id) != Unborn {
        var t :| t in s.ids && s.ids[t] == id;
      }
      OpenIsReceived(s.log, id);
    }
  }

  ghost predicate Retired(s: State) { s.disposed == s.ids.Keys - Served(s) }

  lemma AdmitRetires(s: State, io: Io)
    requires Lives(s) && Retired(s) && Enabled(s, Work(io)) && s.work[0].AdmitNext?
    ensures Retired(WorkAdvance(s, io))
  {
    AdmitOrderly(s, io);
    if s.admitting != [] { AdmitEffects(s, io); }
  }

  lemma CloseRetires(s: State, io: Io)
    requires Lives(s) && Retired(s) && Enabled(s, Work(io)) && (s.work[0].CloseOne? || s.work[0].Dispose?)
    ensures Retired(WorkAdvance(s, io))
  {
    if s.work[0].CloseOne? && Has(s, s.work[0].token) {
      assert Served(WorkAdvance(s, io)) == Served(s);
    } else {
      NotEnding(s, io);
    }
  }

  lemma WorkRetires(s: State, io: Io)
    requires Lives(s) && Retired(s) && Enabled(s, Work(io))
    ensures Retired(WorkAdvance(s, io))
  {
    if s.work[0].AdmitNext? {
      AdmitRetires(s, io);
    } else if s.work[0].CloseOne? || s.work[0].Dispose? {
      CloseRetires(s, io);
    } else {
      NotEnding(s, io);
      assert Served(WorkAdvance(s, io)) == Served(s);
    }
  }

  lemma StepRetires(maxPending: nat, s: State, a: Action)
    requires Lives(s) && Retired(s) && Enabled(s, a)
    ensures Retired(Step(maxPending, s, a))
  {
    if a.Work? {
      WorkRetires(s, a.io);
    } else if a.Poll? {
      assert a.events != [] ==> a.events[0] in a.events;
    }
  }

  lemma {:induction false} LeadsRetires(maxPending: nat, s: State, acts: seq<Action>, s': State)
    requires Inv(maxPending, s) && Retired(s) && Leads(maxPending, s, acts, s')
    ensures Retired(s')
    decreases |acts|
  {
    if acts != [] {
      StepKeeps(maxPending, s, acts[0]);
      StepRetires(maxPending, s, acts[0]);
      LeadsRetires(maxPending, Step(maxPending, s, acts[0]), acts[1..], s');
    }
  }

  /** A session is marked disposed exactly when the reactor has no connection for it, except that
      the mark comes one step after the removal. */
  lemma DisposedExactlyWhenClosed(maxPending: nat, s: State)
    requires Reachable(maxPending, s)
    ensures s.disposed == s.conns.Keys - s.live - Ending(s.work)
    ensures Ending(s.work) !! s.live && |Ending(s.work)| <= 1
  {
    ReachableInv(maxPending, s);
    var threads, acts :| Leads(maxPending, Initial(threads), acts, s);
    InitialInv(maxPending, threads);
    LeadsRetires(maxPending, Initial(threads), acts, s);
  }
}
