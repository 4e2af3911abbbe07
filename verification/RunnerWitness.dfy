/**
 Three runs that show why the theorems carry the hypotheses they carry: a kill that strands an
 actor, a receive whose panic loses the mail behind it, and a spurious wake that puts two threads
 into the same mailbox.
 */
module RunnerWitness {
  import opened Basics
  import opened MailboxRing
  import opened RunnerModel
  import opened RunnerRuns
  import opened RunnerKill
  import RunnerProgress

  ghost predicate Reaches(s: State, s': State, oneShot: bool) {
    exists acts :: Leads(s, acts, s', oneShot)
  }

  lemma Hop(start: State, s: State, a: Action, s': State, oneShot: bool)
    requires Reaches(start, s, oneShot)
    requires Shape(s) && Enabled(s, a) && (oneShot ==> Contract(s, a)) && Step(s, a) == s'
    ensures Reaches(start, s', oneShot)
  {
    var acts :| Leads(start, acts, s, oneShot);
    LeadsOne(s, a, oneShot);
    LeadsOn(start, acts, s, [a], s', oneShot);
  }

  // -------------------------------------------------- one mail, up to its receive

  const M0 := Mail(0, 0)
  const STILL := Driver(false, false, false, None)
  const QUIET := Log([], 0, 0, false, 0, 0, 0, 0)
  const EMPTY := Ring(2, [0, 1], [None, None], 0, 0, [], [])
  const FILLED := Ring(2, [1, 1], [Some(M0), None], 1, 0, [M0], [])
  const RELEASED := Ring(2, [2, 1], [Some(M0), None], 1, 0, [M0], [Some(M0)])
  const DRAINED := RELEASED.(consumerIndex := 1)
  const HANDED := QUIET.(received := [Some(M0)])

  /** Thread 0 posts to an actor owned by the first of two dispatchers. */
  function Posting(ring: Ring, flag: bool, queue: seq<nat>, pc: PostPc): State {
    State(0, ring, flag, Running, STILL, queue, [Idle, Idle], map[0 := Post(0, pc)], map[], map[], QUIET)
  }

  lemma EnqueueHop(start: State, ring: Ring, pc: PostPc, oneShot: bool)
    requires Shaped(ring) && InEnqueue(pc) && Reaches(start, Posting(ring, false, [0, 0], pc), oneShot)
    ensures var (ring', pc') := EnqueueStep(ring, M0, pc); Reaches(start, Posting(ring', false, [0, 0], pc'), oneShot)
  {
    var (ring', pc') := EnqueueStep(ring, M0, pc);
    assert map[0 := Post(0, pc)][0 := Post(0, pc')] == map[0 := Post(0, pc')];
    Hop(start, Posting(ring, false, [0, 0], pc), PostStep(0), Posting(ring', false, [0, 0], pc'), oneShot);
  }

  lemma CheckHop(start: State, ring: Ring, flag: bool, pc: PostPc, flag': bool, queue': seq<nat>, pc': PostPc,
                 oneShot: bool)
    requires Shaped(ring) && Reaches(start, Posting(ring, flag, [0, 0], pc), oneShot)
    requires
      || (pc == LoadLife && pc' == LoadIndex && flag' == flag && queue' == [0, 0])
      || (pc == LoadFlag && pc' == SwapFlag && !flag && !flag' && queue' == [0, 0])
      || (pc == SwapFlag && pc' == Push && !flag && flag' && queue' == [0, 0])
      || (pc == Push && pc' == Done && flag' == flag && queue' == [1, 0])
    ensures Reaches(start, Posting(ring, flag', queue', pc'), oneShot)
  {
    assert map[0 := Post(0, pc)][0 := Post(0, pc')] == map[0 := Post(0, pc')];
    Hop(start, Posting(ring, flag, [0, 0], pc), PostStep(0), Posting(ring, flag', queue', pc'), oneShot);
  }

  lemma MailPosted(oneShot: bool)
    ensures Reaches(Initial(0, 2, 2), Posting(FILLED, true, [1, 0], Done), oneShot)
  {
    var start := Initial(0, 2, 2);
    assert start == State(0, EMPTY, false, Running, STILL, [0, 0], [Idle, Idle], map[], map[], map[], QUIET) by {
      assert start.ring.sequence == EMPTY.sequence && start.ring.data == EMPTY.data;
    }
    assert Leads(start, [], start, oneShot);
    assert (map[])[0 := Post(0, LoadLife)] == map[0 := Post(0, LoadLife)];
    Hop(start, start, BeginPost(0), Posting(EMPTY, false, [0, 0], LoadLife), oneShot);
    CheckHop(start, EMPTY, false, LoadLife, false, [0, 0], LoadIndex, oneShot);
    MailEnqueued(start, oneShot);
    CheckHop(start, FILLED, false, LoadFlag, false, [0, 0], SwapFlag, oneShot);
    CheckHop(start, FILLED, false, SwapFlag, true, [0, 0], Push, oneShot);
    CheckHop(start, FILLED, true, Push, true, [1, 0], Done, oneShot);
  }

  const CLAIMED := EMPTY.(producerIndex := 1, claimed := [M0])
  const WRITTEN := CLAIMED.(data := [Some(M0), None])

  lemma EnqueueSteps()
    ensures EnqueueStep(EMPTY, M0, LoadIndex) == (EMPTY, LoadSequence(0))
    ensures EnqueueStep(EMPTY, M0, LoadSequence(0)) == (EMPTY, Claim(0))
    ensures EnqueueStep(EMPTY, M0, Claim(0)) == (CLAIMED, Write(0))
    ensures EnqueueStep(CLAIMED, M0, Write(0)) == (WRITTEN, Publish(0))
    ensures EnqueueStep(WRITTEN, M0, Publish(0)) == (FILLED, LoadFlag)
  {
    assert [] + [M0] == [M0];
    assert [None, None][0 := Some(M0)] == [Some(M0), None];
    assert [0, 1][0 := 1] == [1, 1];
  }

  lemma MailEnqueued(start: State, oneShot: bool)
    requires Reaches(start, Posting(EMPTY, false, [0, 0], LoadIndex), oneShot)
    ensures Reaches(start, Posting(FILLED, false, [0, 0], LoadFlag), oneShot)
  {
    EnqueueSteps();
    EnqueueHop(start, EMPTY, LoadIndex, oneShot);
    EnqueueHop(start, EMPTY, LoadSequence(0), oneShot);
    EnqueueHop(start, EMPTY, Claim(0), oneShot);
    EnqueueHop(start, CLAIMED, Write(0), oneShot);
    EnqueueHop(start, WRITTEN, Publish(0), oneShot);
  }

  /** The actor runs; thread 0 has finished its post. */
  function Serving(ring: Ring, v: Driver, queue: seq<nat>, f0: Pc, f1: Pc, wakers: map<nat, WakePc>, log: Log): State {
    State(0, ring, true, Running, v, queue, [f0, f1], map[0 := Post(0, Done)], map[], wakers, log)
  }

  lemma DequeueHop(start: State, ring: Ring, c: Cons, oneShot: bool)
    requires Shaped(ring) && InDequeue(c)
    requires Reaches(start, Serving(ring, STILL, [0, 0], Deq(c, false), Idle, map[], QUIET), oneShot)
    ensures var (ring', c') := DequeueStep(ring, c);
            !c'.Empty? ==>
              var pc := if c'.Got? then CheckLife(c'.item) else Deq(c', false);
              Reaches(start, Serving(ring', STILL, [0, 0], pc, Idle, map[], QUIET), oneShot)
  {
    var (ring', c') := DequeueStep(ring, c);
    if !c'.Empty? {
      Hop(start, Serving(ring, STILL, [0, 0], Deq(c, false), Idle, map[], QUIET), FrameStep(0),
          Serving(ring', STILL, [0, 0],
                  if c'.Got? then CheckLife(c'.item) else Deq(c', false), Idle, map[], QUIET), oneShot);
    }
  }

  lemma MailTaken(oneShot: bool)
    ensures Reaches(Initial(0, 2, 2),
                    Serving(DRAINED, STILL, [0, 0], Receiving(Some(M0)), Idle, map[], HANDED), oneShot)
  {
    var start := Initial(0, 2, 2);
    MailPosted(oneShot);
    MailEntered(start, oneShot);
    MailDequeued(start, oneShot);
    Hop(start, Serving(DRAINED, STILL, [0, 0], CheckLife(Some(M0)), Idle, map[], QUIET), FrameStep(0),
        Serving(DRAINED, STILL, [0, 0], Receiving(Some(M0)), Idle, map[], HANDED), oneShot);
  }

  lemma MailEntered(start: State, oneShot: bool)
    requires Reaches(start, Serving(FILLED, STILL, [1, 0], Idle, Idle, map[], QUIET), oneShot)
    ensures Reaches(start, Serving(FILLED, STILL, [0, 0], Deq(Index, false), Idle, map[], QUIET), oneShot)
  {
    Hop(start, Serving(FILLED, STILL, [1, 0], Idle, Idle, map[], QUIET), Execute(0),
        Serving(FILLED, STILL, [0, 0], LoadActive, Idle, map[], QUIET), oneShot);
    MailDrained(start, oneShot);
  }

  lemma MailDrained(start: State, oneShot: bool)
    requires Reaches(start, Serving(FILLED, STILL, [0, 0], LoadActive, Idle, map[], QUIET), oneShot)
    ensures Reaches(start, Serving(FILLED, STILL, [0, 0], Deq(Index, false), Idle, map[], QUIET), oneShot)
  {
    Hop(start, Serving(FILLED, STILL, [0, 0], LoadActive, Idle, map[], QUIET), FrameStep(0),
        Serving(FILLED, STILL, [0, 0], EntryLife, Idle, map[], QUIET), oneShot);
    Hop(start, Serving(FILLED, STILL, [0, 0], EntryLife, Idle, map[], QUIET), FrameStep(0),
        Serving(FILLED, STILL, [0, 0], Deq(Index, false), Idle, map[], QUIET), oneShot);
  }

  lemma DequeueSteps()
    ensures DequeueStep(FILLED, Index) == (FILLED, Load(0))
    ensures DequeueStep(FILLED, Load(0)) == (FILLED, Read(0))
    ensures DequeueStep(FILLED, Read(0)) == (FILLED, Release(0, Some(M0)))
    ensures DequeueStep(FILLED, Release(0, Some(M0))) == (RELEASED, Advance(0, Some(M0)))
    ensures DequeueStep(RELEASED, Advance(0, Some(M0))) == (DRAINED, Got(Some(M0)))
    ensures DequeueStep(DRAINED, Index) == (DRAINED, Load(1))
    ensures DequeueStep(DRAINED, Load(1)) == (DRAINED, Empty)
  {
    assert [] + [Some(M0)] == [Some(M0)];
    assert [1, 1][0 := 2] == [2, 1];
  }

  lemma MailDequeued(start: State, oneShot: bool)
    requires Reaches(start, Serving(FILLED, STILL, [0, 0], Deq(Index, false), Idle, map[], QUIET), oneShot)
    ensures Reaches(start, Serving(DRAINED, STILL, [0, 0], CheckLife(Some(M0)), Idle, map[], QUIET), oneShot)
  {
    DequeueSteps();
    DequeueHop(start, FILLED, Index, oneShot);
    DequeueHop(start, FILLED, Load(0), oneShot);
    DequeueHop(start, FILLED, Read(0), oneShot);
    DequeueHop(start, FILLED, Release(0, Some(M0)), oneShot);
    DequeueHop(start, RELEASED, Advance(0, Some(M0)), oneShot);
  }

  // ------------------------------------------------------------ the stranded kill

  function Killed(life: Life, killers: map<nat, KillPc>, missed: bool): State {
    State(0, DRAINED, true, life, STILL, [0, 0], [ClearFlag, Idle], map[0 := Post(0, Done)], killers, map[],
          HANDED.(missed := missed))
  }

  lemma DrainedToClearFlag()
    ensures Reaches(Initial(0, 2, 2), Killed(Running, map[], false), true)
  {
    var start := Initial(0, 2, 2);
    MailTaken(true);
    DequeueSteps();
    Hop(start, Serving(DRAINED, STILL, [0, 0], Receiving(Some(M0)), Idle, map[], HANDED),
        ReceiveReturns(0, ReceiveDone),
        Serving(DRAINED, STILL, [0, 0], Deq(Index, false), Idle, map[], HANDED), true);
    Hop(start, Serving(DRAINED, STILL, [0, 0], Deq(Index, false), Idle, map[], HANDED), FrameStep(0),
        Serving(DRAINED, STILL, [0, 0], Deq(Load(1), false), Idle, map[], HANDED), true);
    EmptyToClearFlag(start);
  }

  lemma EmptyToClearFlag(start: State)
    requires Reaches(start, Serving(DRAINED, STILL, [0, 0], Deq(Load(1), false), Idle, map[], HANDED), true)
    ensures Reaches(start, Killed(Running, map[], false), true)
  {
    Hop(start, Serving(DRAINED, STILL, [0, 0], Deq(Load(1), false), Idle, map[], HANDED), FrameStep(0),
        Serving(DRAINED, STILL, [0, 0], ExitLife, Idle, map[], HANDED), true);
    Hop(start, Serving(DRAINED, STILL, [0, 0], ExitLife, Idle, map[], HANDED),
        FrameStep(0), Killed(Running, map[], false), true);
  }

  lemma KillInWindow(start: State)
    requires Reaches(start, Killed(Running, map[], false), true)
    ensures Reaches(start, Killed(Killing, map[], true), true)
  {
    Hop(start, Killed(Running, map[], false), BeginKill(1), Killed(Running, map[1 := KillCas], false), true);
    assert map[1 := KillCas][1 := KillSwapFlag] == map[1 := KillSwapFlag];
    Hop(start, Killed(Running, map[1 := KillCas], false),
        KillStep(1), Killed(Killing, map[1 := KillSwapFlag], false), true);
    assert map[1 := KillSwapFlag] - {1} == map[];
    Hop(start, Killed(Killing, map[1 := KillSwapFlag], false), KillStep(1), Killed(Killing, map[], true), true);
  }

  /** A kill inside the window, on an actor that has just drained its mailbox, dooms it. */
  lemma KillCanStrand() returns (s: State)
    ensures Reachable(s) && Shape(s) && Doomed(s)
  {
    var start := Initial(0, 2, 2);
    DrainedToClearFlag();
    KillInWindow(start);
    s := Killed(Killing, map[], true);
    var acts :| Leads(start, acts, s, true);
    assert ReachableBy(0, 2, 2, acts, s);
  }

  // ------------------------------------------------------- the mail behind a panic

  const M1 := Mail(0, 1)
  const CLAIMED1 := DRAINED.(producerIndex := 2, claimed := [M0, M1])
  const WRITTEN1 := CLAIMED1.(data := [Some(M0), Some(M1)])
  const FILLED1 := WRITTEN1.(sequence := [2, 2])

  /** Thread 0 posts once more while its first mail is being received, or has panicked. */
  function PostingAgain(ring: Ring, frame: Pc, pc: PostPc): State {
    State(0, ring, true, Running, STILL, [0, 0], [frame, Idle], map[0 := Post(1, pc)], map[], map[], HANDED)
  }

  lemma SecondEnqueueSteps()
    ensures EnqueueStep(DRAINED, M1, LoadIndex) == (DRAINED, LoadSequence(1))
    ensures EnqueueStep(DRAINED, M1, LoadSequence(1)) == (DRAINED, Claim(1))
    ensures EnqueueStep(DRAINED, M1, Claim(1)) == (CLAIMED1, Write(1))
    ensures EnqueueStep(CLAIMED1, M1, Write(1)) == (WRITTEN1, Publish(1))
    ensures EnqueueStep(WRITTEN1, M1, Publish(1)) == (FILLED1, LoadFlag)
  {
    assert [M0] + [M1] == [M0, M1];
    assert [Some(M0), None][1 := Some(M1)] == [Some(M0), Some(M1)];
    assert [2, 1][1 := 2] == [2, 2];
  }

  lemma SecondHop(start: State, ring: Ring, pc: PostPc)
    requires Shaped(ring) && InEnqueue(pc) && Reaches(start, PostingAgain(ring, Receiving(Some(M0)), pc), true)
    ensures var (ring', pc') := EnqueueStep(ring, M1, pc);
            Reaches(start, PostingAgain(ring', Receiving(Some(M0)), pc'), true)
  {
    var (ring', pc') := EnqueueStep(ring, M1, pc);
    assert map[0 := Post(1, pc)][0 := Post(1, pc')] == map[0 := Post(1, pc')];
    Hop(start, PostingAgain(ring, Receiving(Some(M0)), pc), PostStep(0),
        PostingAgain(ring', Receiving(Some(M0)), pc'), true);
  }

  lemma SecondBegun(start: State)
    requires Reaches(start, Serving(DRAINED, STILL, [0, 0], Receiving(Some(M0)), Idle, map[], HANDED), true)
    ensures Reaches(start, PostingAgain(DRAINED, Receiving(Some(M0)), LoadIndex), true)
  {
    assert map[0 := Post(0, Done)][0 := Post(1, LoadLife)] == map[0 := Post(1, LoadLife)];
    Hop(start, Serving(DRAINED, STILL, [0, 0], Receiving(Some(M0)), Idle, map[], HANDED), BeginPost(0),
        PostingAgain(DRAINED, Receiving(Some(M0)), LoadLife), true);
    assert map[0 := Post(1, LoadLife)][0 := Post(1, LoadIndex)] == map[0 := Post(1, LoadIndex)];
    Hop(start, PostingAgain(DRAINED, Receiving(Some(M0)), LoadLife), PostStep(0),
        PostingAgain(DRAINED, Receiving(Some(M0)), LoadIndex), true);
  }

  lemma SecondEnqueued(start: State)
    requires Reaches(start, PostingAgain(DRAINED, Receiving(Some(M0)), LoadIndex), true)
    ensures Reaches(start, PostingAgain(FILLED1, Receiving(Some(M0)), LoadFlag), true)
  {
    SecondEnqueueSteps();
    SecondHop(start, DRAINED, LoadIndex);
    SecondHop(start, DRAINED, LoadSequence(1));
    SecondHop(start, DRAINED, Claim(1));
    SecondHop(start, CLAIMED1, Write(1));
    SecondHop(start, WRITTEN1, Publish(1));
  }

  /** The flag is set, so the post ends there. */
  lemma SecondPosted(start: State)
    requires Reaches(start, PostingAgain(FILLED1, Receiving(Some(M0)), LoadFlag), true)
    ensures Reaches(start, PostingAgain(FILLED1, Receiving(Some(M0)), Done), true)
  {
    assert map[0 := Post(1, LoadFlag)][0 := Post(1, Done)] == map[0 := Post(1, Done)];
    Hop(start, PostingAgain(FILLED1, Receiving(Some(M0)), LoadFlag), PostStep(0),
        PostingAgain(FILLED1, Receiving(Some(M0)), Done), true);
  }

  /** A mail accepted by a running actor, and published, behind a receive that has panicked: the
      actor still runs, its sender was told nothing, and no run hands it out. */
  lemma PanicCanLoseMail() returns (s: State)
    ensures Reachable(s) && Shape(s) && s.life.Running? && HeadPublished(s.ring) && RunnerProgress.Panicking(s)
    ensures !RunnerProgress.CanReceive(s, |s.ring.taken|)
  {
    var start := Initial(0, 2, 2);
    MailTaken(true);
    SecondBegun(start);
    SecondEnqueued(start);
    SecondPosted(start);
    s := PostingAgain(FILLED1, OwnKillCas(AtDrain), Done);
    Hop(start, PostingAgain(FILLED1, Receiving(Some(M0)), Done), ReceiveReturns(0, ReceivePanic), s, true);
    var acts :| Leads(start, acts, s, true);
    assert ReachableBy(0, 2, 2, acts, s);
    assert RunnerProgress.PanicPc(s.frames[0]);
    RunnerProgress.ReceivedExactlyUnlessPanicking(s);
  }

  // ------------------------------------------------------------ the spurious wake

  const PARKED := Driver(true, true, false, None)
  const POLLED := PARKED.(lock := Some(0))
  const WOKEN := POLLED.(marked := true)
  const ONCE := HANDED.(registered := 1)
  const FIRED := ONCE.(resumeOn := 1)
  const TOKENED := FIRED.(woken := 1)

  lemma ReceiveParked(start: State)
    requires Reaches(start, Serving(DRAINED, STILL, [0, 0], Receiving(Some(M0)), Idle, map[], HANDED), false)
    ensures Reaches(start, Serving(DRAINED, PARKED, [0, 0], PollClear(true), Idle, map[], HANDED), false)
  {
    Hop(start, Serving(DRAINED, STILL, [0, 0], Receiving(Some(M0)), Idle, map[], HANDED),
        ReceiveReturns(0, ReceivePending),
        Serving(DRAINED, STILL, [0, 0], ArmSlot, Idle, map[], HANDED), false);
    Hop(start, Serving(DRAINED, STILL, [0, 0], ArmSlot, Idle, map[], HANDED), FrameStep(0),
        Serving(DRAINED, STILL.(slot := true), [0, 0], ArmActive, Idle, map[], HANDED), false);
    ReceiveArmed(start);
  }

  lemma ReceiveArmed(start: State)
    requires Reaches(start, Serving(DRAINED, STILL.(slot := true), [0, 0], ArmActive, Idle, map[], HANDED), false)
    ensures Reaches(start, Serving(DRAINED, PARKED, [0, 0], PollClear(true), Idle, map[], HANDED), false)
  {
    Hop(start, Serving(DRAINED, STILL.(slot := true), [0, 0], ArmActive, Idle, map[], HANDED), FrameStep(0),
        Serving(DRAINED, PARKED, [0, 0], ArmClear, Idle, map[], HANDED), false);
    Hop(start, Serving(DRAINED, PARKED, [0, 0], ArmClear, Idle, map[], HANDED), FrameStep(0),
        Serving(DRAINED, PARKED, [0, 0], PollClear(true), Idle, map[], HANDED), false);
  }

  lemma WakeRegistered(start: State)
    requires Reaches(start, Serving(DRAINED, PARKED, [0, 0], PollClear(true), Idle, map[], HANDED), false)
    ensures Reaches(start,
                    Serving(DRAINED, POLLED, [0, 0], Polling(true, true), Idle, map[7 := LoadDriver(1)], FIRED), false)
  {
    Hop(start, Serving(DRAINED, PARKED, [0, 0], PollClear(true), Idle, map[], HANDED), FrameStep(0),
        Serving(DRAINED, PARKED, [0, 0], PollLock(true), Idle, map[], HANDED), false);
    Hop(start, Serving(DRAINED, PARKED, [0, 0], PollLock(true), Idle, map[], HANDED), FrameStep(0),
        Serving(DRAINED, POLLED, [0, 0], Polling(true, false), Idle, map[], HANDED), false);
    WakeFired(start);
  }

  lemma WakeFired(start: State)
    requires Reaches(start, Serving(DRAINED, POLLED, [0, 0], Polling(true, false), Idle, map[], HANDED), false)
    ensures Reaches(start,
                    Serving(DRAINED, POLLED, [0, 0], Polling(true, true), Idle, map[7 := LoadDriver(1)], FIRED), false)
  {
    Hop(start, Serving(DRAINED, POLLED, [0, 0], Polling(true, false), Idle, map[], HANDED), RegisterWake(0, 7),
        Serving(DRAINED, POLLED, [0, 0], Polling(true, true), Idle, map[7 := Registered(0)], ONCE), false);
    assert map[7 := Registered(0)][7 := LoadDriver(1)] == map[7 := LoadDriver(1)];
    Hop(start, Serving(DRAINED, POLLED, [0, 0], Polling(true, true), Idle, map[7 := Registered(0)], ONCE),
        FireWake(7, Some(1)),
        Serving(DRAINED, POLLED, [0, 0], Polling(true, true), Idle, map[7 := LoadDriver(1)], FIRED), false);
  }

  lemma WakePushed(start: State)
    requires Reaches(start,
                     Serving(DRAINED, POLLED, [0, 0], Polling(true, true), Idle, map[7 := LoadDriver(1)], FIRED), false)
    ensures Reaches(start, Serving(DRAINED, WOKEN, [0, 1], Polling(true, true), Idle, map[], TOKENED), false)
  {
    assert map[7 := LoadDriver(1)][7 := MarkPoll(1)] == map[7 := MarkPoll(1)];
    Hop(start, Serving(DRAINED, POLLED, [0, 0], Polling(true, true), Idle, map[7 := LoadDriver(1)], FIRED), WakeStep(7),
        Serving(DRAINED, POLLED, [0, 0], Polling(true, true), Idle, map[7 := MarkPoll(1)], FIRED), false);
    assert map[7 := MarkPoll(1)][7 := PushWake(1)] == map[7 := PushWake(1)];
    Hop(start, Serving(DRAINED, POLLED, [0, 0], Polling(true, true), Idle, map[7 := MarkPoll(1)], FIRED), WakeStep(7),
        Serving(DRAINED, WOKEN, [0, 0], Polling(true, true), Idle, map[7 := PushWake(1)], FIRED), false);
    WakeTokened(start);
  }

  lemma WakeTokened(start: State)
    requires Reaches(start,
                     Serving(DRAINED, WOKEN, [0, 0], Polling(true, true), Idle, map[7 := PushWake(1)], FIRED), false)
    ensures Reaches(start, Serving(DRAINED, WOKEN, [0, 1], Polling(true, true), Idle, map[], TOKENED), false)
  {
    assert map[7 := PushWake(1)] - {7} == map[];
    Hop(start, Serving(DRAINED, WOKEN, [0, 0], Polling(true, true), Idle, map[7 := PushWake(1)], FIRED), WakeStep(7),
        Serving(DRAINED, WOKEN, [0, 1], Polling(true, true), Idle, map[], TOKENED), false);
  }

  lemma SecondFrameWaits(start: State)
    requires Reaches(start, Serving(DRAINED, WOKEN, [0, 1], Polling(true, true), Idle, map[], TOKENED), false)
    ensures Reaches(start,
                    Serving(DRAINED, POLLED, [0, 0], Polling(true, true), PollLock(false), map[], TOKENED), false)
  {
    Hop(start, Serving(DRAINED, WOKEN, [0, 1], Polling(true, true), Idle, map[], TOKENED), Execute(1),
        Serving(DRAINED, WOKEN, [0, 0], Polling(true, true), LoadActive, map[], TOKENED), false);
    SecondFrameEnters(start);
  }

  lemma SecondFrameEnters(start: State)
    requires Reaches(start, Serving(DRAINED, WOKEN, [0, 0], Polling(true, true), LoadActive, map[], TOKENED), false)
    ensures Reaches(start,
                    Serving(DRAINED, POLLED, [0, 0], Polling(true, true), PollLock(false), map[], TOKENED), false)
  {
    Hop(start, Serving(DRAINED, WOKEN, [0, 0], Polling(true, true), LoadActive, map[], TOKENED), FrameStep(1),
        Serving(DRAINED, WOKEN, [0, 0], Polling(true, true), PollClear(false), map[], TOKENED), false);
    Hop(start, Serving(DRAINED, WOKEN, [0, 0], Polling(true, true), PollClear(false), map[], TOKENED), FrameStep(1),
        Serving(DRAINED, POLLED, [0, 0], Polling(true, true), PollLock(false), map[], TOKENED), false);
  }

  /** The first poll ends Ready although its wake is out: the completion adds a second token. */
  lemma FirstFrameCompletes(start: State)
    requires Reaches(start,
                     Serving(DRAINED, POLLED, [0, 0], Polling(true, true), PollLock(false), map[], TOKENED), false)
    ensures Reaches(start, Serving(DRAINED, STILL, [1, 0], Idle, PollLock(false), map[], TOKENED), false)
  {
    Hop(start, Serving(DRAINED, POLLED, [0, 0], Polling(true, true), PollLock(false), map[], TOKENED),
        PollReturns(0, PollReady),
        Serving(DRAINED, STILL.(active := true), [0, 0], ReadyInactive, PollLock(false), map[], TOKENED), false);
    Hop(start, Serving(DRAINED, STILL.(active := true), [0, 0], ReadyInactive, PollLock(false), map[], TOKENED),
        FrameStep(0),
        Serving(DRAINED, STILL, [0, 0], ReadyClear, PollLock(false), map[], TOKENED), false);
    FirstFrameSchedules(start);
  }

  lemma FirstFrameSchedules(start: State)
    requires Reaches(start, Serving(DRAINED, STILL, [0, 0], ReadyClear, PollLock(false), map[], TOKENED), false)
    ensures Reaches(start, Serving(DRAINED, STILL, [1, 0], Idle, PollLock(false), map[], TOKENED), false)
  {
    Hop(start, Serving(DRAINED, STILL, [0, 0], ReadyClear, PollLock(false), map[], TOKENED), FrameStep(0),
        Serving(DRAINED, STILL, [0, 0], ReadyPush, PollLock(false), map[], TOKENED), false);
    FirstFramePushes(start);
  }

  lemma FirstFramePushes(start: State)
    requires Reaches(start, Serving(DRAINED, STILL, [0, 0], ReadyPush, PollLock(false), map[], TOKENED), false)
    ensures Reaches(start, Serving(DRAINED, STILL, [1, 0], Idle, PollLock(false), map[], TOKENED), false)
  {
    Hop(start, Serving(DRAINED, STILL, [0, 0], ReadyPush, PollLock(false), map[], TOKENED), FrameStep(0),
        Serving(DRAINED, STILL, [1, 0], Idle, PollLock(false), map[], TOKENED), false);
  }

  /** The second frame finds the slot empty and falls through to the mailbox. */
  lemma SecondFrameFallsThrough(start: State)
    requires Reaches(start, Serving(DRAINED, STILL, [1, 0], Idle, PollLock(false), map[], TOKENED), false)
    ensures Reaches(start, Serving(DRAINED, STILL, [1, 0], Idle, Deq(Index, false), map[], TOKENED), false)
  {
    Hop(start, Serving(DRAINED, STILL, [1, 0], Idle, PollLock(false), map[], TOKENED), FrameStep(1),
        Serving(DRAINED, STILL.(lock := Some(1)), [1, 0], Idle, PollIdle(false), map[], TOKENED), false);
    SecondFrameDrains(start);
  }

  lemma SecondFrameDrains(start: State)
    requires Reaches(start,
                     Serving(DRAINED, STILL.(lock := Some(1)), [1, 0], Idle, PollIdle(false), map[], TOKENED), false)
    ensures Reaches(start, Serving(DRAINED, STILL, [1, 0], Idle, Deq(Index, false), map[], TOKENED), false)
  {
    Hop(start, Serving(DRAINED, STILL.(lock := Some(1)), [1, 0], Idle, PollIdle(false), map[], TOKENED), FrameStep(1),
        Serving(DRAINED, STILL, [1, 0], Idle, EntryLife, map[], TOKENED), false);
    SecondFrameReads(start);
  }

  lemma SecondFrameReads(start: State)
    requires Reaches(start, Serving(DRAINED, STILL, [1, 0], Idle, EntryLife, map[], TOKENED), false)
    ensures Reaches(start, Serving(DRAINED, STILL, [1, 0], Idle, Deq(Index, false), map[], TOKENED), false)
  {
    Hop(start, Serving(DRAINED, STILL, [1, 0], Idle, EntryLife, map[], TOKENED), FrameStep(1),
        Serving(DRAINED, STILL, [1, 0], Idle, Deq(Index, false), map[], TOKENED), false);
  }

  lemma FirstFrameDrains(start: State)
    requires Reaches(start, Serving(DRAINED, STILL, [1, 0], Idle, Deq(Index, false), map[], TOKENED), false)
    ensures Reaches(start, Serving(DRAINED, STILL, [0, 0], Deq(Index, false), Deq(Index, false), map[], TOKENED), false)
  {
    Hop(start, Serving(DRAINED, STILL, [1, 0], Idle, Deq(Index, false), map[], TOKENED), Execute(0),
        Serving(DRAINED, STILL, [0, 0], LoadActive, Deq(Index, false), map[], TOKENED), false);
    FirstFrameEnters(start);
  }

  lemma FirstFrameEnters(start: State)
    requires Reaches(start, Serving(DRAINED, STILL, [0, 0], LoadActive, Deq(Index, false), map[], TOKENED), false)
    ensures Reaches(start, Serving(DRAINED, STILL, [0, 0], Deq(Index, false), Deq(Index, false), map[], TOKENED), false)
  {
    Hop(start, Serving(DRAINED, STILL, [0, 0], LoadActive, Deq(Index, false), map[], TOKENED), FrameStep(0),
        Serving(DRAINED, STILL, [0, 0], EntryLife, Deq(Index, false), map[], TOKENED), false);
    Hop(start, Serving(DRAINED, STILL, [0, 0], EntryLife, Deq(Index, false), map[], TOKENED), FrameStep(0),
        Serving(DRAINED, STILL, [0, 0], Deq(Index, false), Deq(Index, false), map[], TOKENED), false);
  }

  /** Without the one-shot wake contract, exclusive access fails: a wake during a poll that
      ends Ready puts two dispatchers into the same mailbox. */
  lemma SpuriousWakeBreaksExclusion() returns (s: State)
    ensures Reaches(Initial(0, 2, 2), s, false)
    ensures |s.frames| == 2 && Touches(s.frames[0]) && Touches(s.frames[1])
  {
    var start := Initial(0, 2, 2);
    MailTaken(false);
    ReceiveParked(start);
    WakeRegistered(start);
    WakePushed(start);
    SecondFrameWaits(start);
    FirstFrameCompletes(start);
    SecondFrameFallsThrough(start);
    FirstFrameDrains(start);
    s := Serving(DRAINED, STILL, [0, 0], Deq(Index, false), Deq(Index, false), map[], TOKENED);
  }
}
