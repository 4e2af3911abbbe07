/**
 Killing an actor. A kill normally leaves someone who will finalize the actor, but there is
 one window in which it does not: if both its compare-exchange and its swap fall between the
 runner's last lifecycle load and the runner's flag clear, nobody is left to run the actor.
 This module shows that this is the only way to strand a killed actor, that a stranded actor
 stays stranded for ever, that every other killed actor can still be finalized, and that a kill
 outside the window is never lost, whatever interleaving follows.
 */
module RunnerKill {
  import opened Basics
  import opened MailboxRing
  import opened RunnerModel
  import opened RunnerInvariant
  import opened RunnerRuns

  /** A post that has passed its lifecycle check. */
  predicate InFlight(pc: PostPc) { !pc.Done? && !pc.LoadLife? }

  predicate PastLastCheck(pc: Pc) { pc.Idle? || pc.ClearFlag? || pc.PeekIndex? || pc.PeekLoad? }

  /** Killed, with an empty mailbox, no post, kill or wake on the way, and no frame except
      possibly one that has already made its last lifecycle check. */
  ghost predicate Doomed(s: State)
    requires Shape(s)
  {
    && s.life.Killing?
    && |s.ring.taken| == |s.ring.claimed|
    && (forall t :: t in s.posters ==> !InFlight(s.posters[t].at))
    && (forall t :: t in s.killers ==> s.killers[t].KillCas?)
    && s.wakers == map[]
    && (forall d :: 0 <= d < |s.queue| ==> s.queue[d] == 0)
    && (forall d :: 0 <= d < |s.frames| ==> s.frames[d].Idle? || (d == s.owner && PastLastCheck(s.frames[d])))
  }

  // ------------------------------------------------------- stranded for ever

  lemma EmptyMeansUnpublished(s: State)
    requires Shape(s) && MailboxOk(s) && |s.ring.taken| == |s.ring.claimed|
    ensures !HeadPublished(s.ring)
  {
  }

  lemma DoomedFrameStep(s: State, d: nat)
    requires Shape(s) && Doomed(s) && Enabled(s, FrameStep(d)) && d == s.owner
    requires s.frames[d].PeekLoad? ==> s.frames[d].pos == Head(s.ring) && !HeadPublished(s.ring)
    ensures Shape(Step(s, FrameStep(d)))
    ensures var stays := Doomed(Step(s, FrameStep(d))); stays
  {
  }

  lemma DoomedStep(s: State, h: Holder, a: Action)
    requires Inv(s, h) && Doomed(s) && Enabled(s, a)
    ensures Shape(Step(s, a))
    ensures var stays := Doomed(Step(s, a)); stays
  {
    if a.FrameStep? {
      EmptyMeansUnpublished(s);
      if s.frames[a.d].PeekLoad? { PeekingIsOwner(s, h, a.d); }
      DoomedFrameStep(s, a.d);
    }
  }

  /** Nothing that can still happen finalizes a doomed actor. */
  lemma {:induction false} DoomedForever(s: State, h: Holder, acts: seq<Action>, s': State)
    requires Inv(s, h) && Doomed(s) && Leads(s, acts, s', true)
    ensures s'.life.Killing?
    decreases |acts|
  {
    if acts != [] {
      DoomedStep(s, h, acts[0]);
      var h1 := StepKeeps(s, h, acts[0]);
      DoomedForever(Step(s, acts[0]), h1, acts[1..], s');
    }
  }

  // ------------------------------------------------------ only by a missed kill

  /** A killed actor has a holder, or its killer is about to become one, unless some kill
      swapped the flag after the runner's last lifecycle check. */
  lemma KilledIsNoticed(s: State)
    requires Reachable(s) && s.life.Killing? && !s.log.missed
    ensures (exists p :: Permits(s, p)) || SomeKillSwaps(s.killers)
  {
    var h := ReachableInv(s);
    if !h.Nobody? { assert Permits(s, h); }
  }

  lemma DoomedWasMissed(s: State)
    requires Reachable(s) && Shape(s) && Doomed(s)
    ensures s.log.missed
  {
    var h := ReachableInv(s);
    if h.AFrame? { assert HolderPc(s.frames, h).ClearFlag?; }
  }

  // ------------------------------------------------- otherwise still finalizable

  ghost predicate CanStop(s: State) {
    exists acts, s' :: Leads(s, acts, s', true) && s'.life.Stopped?
  }

  lemma StepsToStop(s: State, a: Action)
    requires Shape(s) && Enabled(s, a) && Contract(s, a) && CanStop(Step(s, a))
    ensures CanStop(s)
  {
    var acts, s' :| Leads(Step(s, a), acts, s', true) && s'.life.Stopped?;
    assert ([a] + acts)[1..] == acts;
    assert Leads(s, [a] + acts, s', true);
  }

  lemma StoppedCanStop(s: State)
    requires s.life.Stopped?
    ensures CanStop(s)
  {
    assert Leads(s, [], s, true);
  }

  function DequeueRank(c: Cons): nat {
    match c
    case Index => 8
    case Load(_) => 7
    case Read(_) => 6
    case Release(_, _) => 5
    case _ => 4
  }

  /** How far the holding frame of a killed actor is from finalizing it. */
  function PcRank(v: Driver, pc: Pc): nat {
    if pc.FinSwap? then 1
    else if pc.EntryLife? || pc.ExitLife? then 2
    else if pc.CheckLife? then 3
    else if pc.Deq? then DequeueRank(pc.c)
    else if pc.Receiving? then 9
    else if pc.LoadActive? then (if v.active then 29 else 3)
    else if InPush(pc) then 20
    else if pc.ReadyClear? || pc.OwnKillSwap? then 21
    else if pc.ReadyInactive? || pc.OwnKillCas? then 22
    else if pc.FailClear? then 23
    else if pc.FailInactive? then 24
    else if pc.Polling? then 25
    else if pc.PollLock? then (if v.lock.None? then 26 else 27)
    else if pc.PollClear? then 28
    else if pc.ArmClear? then 29
    else if pc.ArmActive? then 30
    else 31
  }

  predicate Nearer(s: State, d: nat, s': State)
    requires d < |s.frames| && d < |s'.frames|
  {
    s'.life.Stopped? ||
    (s'.life.Killing? && Holding(s'.frames[d]) && !s'.frames[d].ClearFlag?
     && PcRank(s'.driver, s'.frames[d]) < PcRank(s.driver, s.frames[d]))
  }

  lemma PollBeginNears(s: State, d: nat)
    requires Shape(s) && Enabled(s, FrameStep(d)) && Local(s, d) && s.life.Killing?
    requires s.frames[d].LoadActive? || s.frames[d].PollClear? || s.frames[d].PollLock? || s.frames[d].PollIdle?
    ensures var nearer := Nearer(s, d, PollAdvance(s, d)); nearer
  {
  }

  lemma PollEndNears(s: State, d: nat)
    requires Shape(s) && Enabled(s, FrameStep(d)) && Local(s, d) && s.life.Killing? && InPollEnd(s.frames[d])
    ensures var nearer := Nearer(s, d, PollEndAdvance(s, d)); nearer
  {
  }

  lemma PollNears(s: State, d: nat)
    requires Shape(s) && Enabled(s, FrameStep(d)) && Local(s, d) && s.life.Killing? && InPoll(s.frames[d])
    ensures var nearer := Nearer(s, d, PollAdvance(s, d)); nearer
  {
    if InPollEnd(s.frames[d]) { PollEndNears(s, d); } else { PollBeginNears(s, d); }
  }

  lemma DrainNears(s: State, d: nat)
    requires Shape(s) && Enabled(s, FrameStep(d)) && Local(s, d) && s.life.Killing?
    requires InDrain(s.frames[d]) && !s.frames[d].ClearFlag?
    ensures Nearer(s, d, DrainAdvance(s, d))
  {
    var pc := s.frames[d];
    if pc.ArmSlot? || pc.ArmActive? || pc.ArmClear? { ArmNears(s, d); } else { LifeNears(s, d); }
  }

  lemma ArmNears(s: State, d: nat)
    requires Shape(s) && Enabled(s, FrameStep(d)) && s.life.Killing?
    requires s.frames[d].ArmSlot? || s.frames[d].ArmActive? || s.frames[d].ArmClear?
    ensures Nearer(s, d, DrainAdvance(s, d))
  {
  }

  lemma LifeNears(s: State, d: nat)
    requires Shape(s) && Enabled(s, FrameStep(d)) && s.life.Killing?
    requires s.frames[d].EntryLife? || s.frames[d].CheckLife? || s.frames[d].ExitLife?
    ensures Nearer(s, d, DrainAdvance(s, d))
  {
  }

  lemma DequeueNears(s: State, d: nat)
    requires Shape(s) && Enabled(s, FrameStep(d)) && Local(s, d) && s.life.Killing? && s.frames[d].Deq?
    ensures Nearer(s, d, DequeueAdvance(s, d))
  {
  }

  lemma OwnKillNears(s: State, d: nat)
    requires Shape(s) && Enabled(s, FrameStep(d)) && Local(s, d) && s.life.Killing? && s.flag && InOwnKill(s.frames[d])
    ensures Nearer(s, d, OwnKillAdvance(s, d))
  {
  }

  lemma FrameNears(s: State, d: nat)
    requires Shape(s) && Enabled(s, FrameStep(d)) && Local(s, d) && s.life.Killing? && s.flag
    requires Holding(s.frames[d]) && !s.frames[d].ClearFlag? && !InPush(s.frames[d])
    ensures |Step(s, FrameStep(d)).frames| == |s.frames| && Nearer(s, d, Step(s, FrameStep(d)))
  {
    var pc := s.frames[d];
    var s' := FrameAdvance(s, d);
    assert OwnFrameOnly(s, d, s');
    if pc.Deq? { DequeueNears(s, d); }
    else if InPoll(pc) { PollNears(s, d); }
    else if InDrain(pc) { DrainNears(s, d); }
    else if InOwnKill(pc) { OwnKillNears(s, d); }
    else { assert pc.FinSwap?; }
  }

  function BystanderRank(pc: Pc): nat {
    if pc.PeekIndex? then 3 else if pc.PeekLoad? then 2 else if pc.Idle? then 0 else 1
  }

  function WakeRank(w: WakePc): nat {
    match w case Registered(_) => 43 case LoadDriver(_) => 42 case MarkPoll(_) => 41 case PushWake(_) => 40
  }

  function HolderRank(s: State, h: Holder): nat {
    match h
    case AFrame(d) => if d < |s.frames| then PcRank(s.driver, s.frames[d]) else 0
    case AToken(d) => (if s.driver.active then 30 else 10) + if d < |s.frames| then BystanderRank(s.frames[d]) else 0
    case AWake(w) => if w in s.wakers then WakeRank(s.wakers[w]) else 0
    case APoster(_) => 20
    case AKiller(_) => 20
    case _ => 0
  }

  ghost predicate Live(s: State, h: Holder) {
    Inv(s, h) && s.life.Killing? && !h.Nobody? && !HolderPc(s.frames, h).ClearFlag?
  }

  /** `a` is a possible next step that brings the actor closer to its finalization. */
  ghost predicate Turn(s: State, h: Holder, a: Action, h': Holder) {
    && Shape(s) && Enabled(s, a) && Contract(s, a)
    && (Step(s, a).life.Stopped? || (Live(Step(s, a), h') && HolderRank(Step(s, a), h') < HolderRank(s, h)))
  }

  /** Another frame is still inside the slot mutex, on its way out. */
  lemma LockTurn(s: State, d: nat) returns (a: Action)
    requires Live(s, AFrame(d)) && s.frames[d].PollLock? && s.driver.lock.Some?
    ensures var turn := Turn(s, AFrame(d), a, AFrame(d)); turn
  {
    var e := s.driver.lock.value;
    a := PollReturns(e, PollPending);
    PollReturnsKeeps(s, AFrame(d), e, PollPending);
  }

  lemma ReceiveTurn(s: State, d: nat) returns (a: Action)
    requires Live(s, AFrame(d)) && s.frames[d].Receiving?
    ensures var turn := Turn(s, AFrame(d), a, AFrame(d)); turn
  {
    a := ReceiveReturns(d, ReceiveDone);
    ReceiveReturnsKeeps(s, AFrame(d), d, ReceiveDone);
  }

  lemma PollReadyFacts(s: State, d: nat)
    requires Inv(s, AFrame(d)) && s.frames[d].Polling?
    ensures Enabled(s, PollReturns(d, PollReady)) && Contract(s, PollReturns(d, PollReady))
    ensures var s' := Step(s, PollReturns(d, PollReady));
            s'.life == s.life && d < |s'.frames| && s'.frames[d] == ReadyInactive
  {
    FrameHolds(s, AFrame(d), d);
  }

  lemma ReadyIsLive(s: State, d: nat)
    requires Inv(s, AFrame(d)) && s.life.Killing? && d < |s.frames| && s.frames[d].ReadyInactive?
    ensures var live := Live(s, AFrame(d)); live
    ensures HolderRank(s, AFrame(d)) == 22
  {
  }

  lemma PollTurn(s: State, d: nat) returns (a: Action)
    requires Live(s, AFrame(d)) && s.frames[d].Polling?
    ensures var turn := Turn(s, AFrame(d), a, AFrame(d)); turn
  {
    a := PollReturns(d, PollReady);
    PollReadyFacts(s, d);
    PollReturnsKeeps(s, AFrame(d), d, PollReady);
    ReadyIsLive(Step(s, a), d);
  }

  lemma PushLocal(s: State, d: nat)
    requires Shape(s) && Enabled(s, FrameStep(d)) && Local(s, d) && InPush(s.frames[d])
    ensures var s' := Step(s, FrameStep(d));
            && s'.life == s.life && s'.queue[s.owner] > 0 && |s'.queue| == |s.queue| && |s'.frames| == |s.frames|
            && !s'.driver.active
  {
    assert Step(s, FrameStep(d)) == PushAdvance(s, d);
  }

  lemma PushKeeps(s: State, d: nat)
    requires Inv(s, AFrame(d)) && Enabled(s, FrameStep(d)) && InPush(s.frames[d])
    ensures var kept := Inv(Step(s, FrameStep(d)), AToken(s.owner)); kept
  {
    PushCore(s, d);
    FrameStepRing(s, d);
  }

  lemma PushTurn(s: State, d: nat)
    requires Live(s, AFrame(d)) && Enabled(s, FrameStep(d)) && InPush(s.frames[d])
    ensures var turn := Turn(s, AFrame(d), FrameStep(d), AToken(s.owner)); turn
  {
    FrameHolds(s, AFrame(d), d);
    PushKeeps(s, d);
    PushLocal(s, d);
  }

  lemma FrameTurn(s: State, d: nat)
    requires Live(s, AFrame(d)) && Enabled(s, FrameStep(d)) && !InPush(s.frames[d])
    ensures var turn := Turn(s, AFrame(d), FrameStep(d), AFrame(d)); turn
  {
    FrameHolds(s, AFrame(d), d);
    FrameNears(s, d);
    var h' := StepKeeps(s, AFrame(d), FrameStep(d));
    if !Step(s, FrameStep(d)).life.Stopped? { FrameHolds(Step(s, FrameStep(d)), h', d); }
  }

  lemma ExecuteTurn(s: State, d: nat)
    requires Live(s, AToken(d)) && s.frames[d].Idle?
    ensures var turn := Turn(s, AToken(d), Execute(d), AFrame(d)); turn
  {
    var h' := StepKeeps(s, AToken(d), Execute(d));
    FrameHolds(Step(s, Execute(d)), h', d);
  }

  lemma BystanderTurn(s: State, d: nat) returns (a: Action)
    requires Live(s, AToken(d)) && !s.frames[d].Idle?
    ensures var turn := Turn(s, AToken(d), a, AToken(d)); turn
  {
    a := if s.frames[d].Polling? then PollReturns(d, PollPending) else FrameStep(d);
    BystanderLeaves(s, d, a);
    BystanderKeeps(s, d, a);
  }

  lemma BystanderKeeps(s: State, d: nat, a: Action)
    requires Inv(s, AToken(d)) && Enabled(s, a) && Contract(s, a)
    requires Step(s, a).queue == s.queue
    ensures var kept := Inv(Step(s, a), AToken(d)); kept
  {
    var h' := StepKeeps(s, AToken(d), a);
    TokenHolds(Step(s, a), h', d);
  }

  lemma BystanderLeaves(s: State, d: nat, a: Action)
    requires CoreInv(s, AToken(d)) && !s.frames[d].Idle?
    requires a == if s.frames[d].Polling? then PollReturns(d, PollPending) else FrameStep(d)
    ensures Enabled(s, a) && Contract(s, a)
    ensures var s' := Step(s, a);
            && s'.queue == s.queue && s'.life == s.life && s'.driver.active == s.driver.active
            && |s'.frames| == |s.frames| && BystanderRank(s'.frames[d]) < BystanderRank(s.frames[d])
  {
    if !s.frames[d].Polling? {
      assert InPeek(s.frames[d]) && s.flag;
      assert Step(s, a) == PeekAdvance(s, d);
    }
  }

  lemma WakeMarkTurn(s: State, w: nat) returns (a: Action)
    requires Live(s, AWake(w)) && !s.wakers[w].PushWake?
    ensures var turn := Turn(s, AWake(w), a, AWake(w)); turn
  {
    a := if s.wakers[w].Registered? then FireWake(w, None) else WakeStep(w);
    var h' := StepKeeps(s, AWake(w), a);
    assert w in Step(s, a).wakers;
  }

  lemma WakePushTurn(s: State, w: nat)
    requires Live(s, AWake(w)) && s.wakers[w].PushWake?
    ensures var turn := Turn(s, AWake(w), WakeStep(w), AToken(s.wakers[w].target)); turn
  {
    var h' := StepKeeps(s, AWake(w), WakeStep(w));
    TokenHolds(Step(s, WakeStep(w)), h', s.wakers[w].target);
  }

  lemma PosterTurn(s: State, t: nat)
    requires Live(s, APoster(t))
    ensures var turn := Turn(s, APoster(t), PostStep(t), AToken(s.owner)); turn
  {
    var h' := PostStepKeeps(s, APoster(t), t);
    TokenHolds(Step(s, PostStep(t)), h', s.owner);
  }

  lemma KillerTurn(s: State, t: nat)
    requires Live(s, AKiller(t))
    ensures var turn := Turn(s, AKiller(t), KillStep(t), AToken(s.owner)); turn
  {
    var h' := KillPushCore(s, AKiller(t), t);
    TokenHolds(Step(s, KillStep(t)), h', s.owner);
  }

  lemma HolderTurn(s: State, h: Holder) returns (a: Action, h': Holder)
    requires Live(s, h)
    ensures var turn := Turn(s, h, a, h'); turn
  {
    if h.AToken? {
      if s.frames[h.d].Idle? { a, h' := Execute(h.d), AFrame(h.d); ExecuteTurn(s, h.d); }
      else { h' := h; a := BystanderTurn(s, h.d); }
    }
    else if h.AWake? {
      if s.wakers[h.w].PushWake? { a, h' := WakeStep(h.w), AToken(s.wakers[h.w].target); WakePushTurn(s, h.w); }
      else { h' := h; a := WakeMarkTurn(s, h.w); }
    }
    else if h.APoster? { a, h' := PostStep(h.t), AToken(s.owner); PosterTurn(s, h.t); }
    else if h.AKiller? { a, h' := KillStep(h.t), AToken(s.owner); KillerTurn(s, h.t); }
    else {
      var pc := s.frames[h.d];
      h' := h;
      if pc.Receiving? { a := ReceiveTurn(s, h.d); }
      else if pc.Polling? { a := PollTurn(s, h.d); }
      else if pc.PollLock? && s.driver.lock.Some? { a := LockTurn(s, h.d); }
      else {
        a := FrameStep(h.d);
        HolderEnabled(s, h.d);
        if InPush(pc) { h' := AToken(s.owner); PushTurn(s, h.d); } else { FrameTurn(s, h.d); }
      }
    }
  }

  lemma HolderEnabled(s: State, d: nat)
    requires CoreInv(s, AFrame(d)) && !s.frames[d].Receiving? && !s.frames[d].Polling?
    requires s.frames[d].PollLock? ==> s.driver.lock.None?
    ensures Enabled(s, FrameStep(d))
  {
  }

  /** Whoever holds the right to run a killed actor can carry it to its finalization. */
  lemma {:induction false} HolderStops(s: State, h: Holder)
    requires Live(s, h)
    ensures CanStop(s)
    decreases HolderRank(s, h)
  {
    var a, h' := HolderTurn(s, h);
    if Step(s, a).life.Stopped? { StoppedCanStop(Step(s, a)); } else { HolderStops(Step(s, a), h'); }
    StepsToStop(s, a);
  }

  // ----------------------------------------- nobody holds it, but someone is coming

  predicate BeforeTicket(pc: PostPc) { pc.LoadIndex? || pc.LoadSequence? || pc.Claim? }

  function PostRank(pc: PostPc, tail: nat): nat {
    match pc
    case SwapFlag => 1
    case LoadFlag => 2
    case Publish(_) => 3
    case Write(_) => 4
    case Claim(pos) => if pos == tail then 5 else 8
    case LoadSequence(pos) => if pos == tail then 6 else 8
    case LoadIndex => 7
    case _ => 0
  }

  /** On an empty ring a post that runs alone always gets its ticket. */
  lemma EmptyRingAccepts(r: Ring, posters: map<nat, Post>, c: Cons, t: nat)
    requires RingInv(r, posters, c) && t in posters && BeforeTicket(posters[t].at)
    requires |r.taken| == |r.claimed|
    ensures var (r', pc') := EnqueueStep(r, Mail(t, posters[t].number), posters[t].at);
            && ((BeforeTicket(pc') && r'.claimed == r.claimed && r'.taken == r.taken) || pc'.Write?)
            && PostRank(pc', |r'.claimed|) < PostRank(posters[t].at, |r.claimed|)
  {
    if posters[t].at.LoadSequence? {
      assert PostOk(r, t, posters[t]);
      var q := WindowPosition(r, posters[t].at.pos);
      assert SeqAt(r, q) == q;
    }
  }

  /** Where a post goes that runs alone against a killed actor. */
  lemma PostFacts(s: State, t: nat)
    requires Shape(s) && MailboxOk(s) && !s.flag && t in s.posters && InFlight(s.posters[t].at)
    requires !s.posters[t].at.Push?
    requires BeforeTicket(s.posters[t].at) ==> |s.ring.taken| == |s.ring.claimed|
    ensures var s', pc := Step(s, PostStep(t)), s.posters[t].at;
            && s'.life == s.life && t in s'.posters && InFlight(s'.posters[t].at)
            && (pc.SwapFlag? ==> s'.posters[t].at.Push?)
            && (!pc.SwapFlag? ==> !s'.posters[t].at.Push?)
            && (!pc.SwapFlag? ==>
                  && (BeforeTicket(s'.posters[t].at) ==> |s'.ring.taken| == |s'.ring.claimed|)
                  && PostRank(s'.posters[t].at, |s'.ring.claimed|) < PostRank(pc, |s.ring.claimed|))
  {
    if BeforeTicket(s.posters[t].at) {
      EmptyRingAccepts(s.ring, s.posters, ConsOf(s.frames[s.owner]), t);
    }
  }

  lemma PostTurn(s: State, t: nat) returns (h': Holder)
    requires Inv(s, Nobody) && s.life.Killing? && t in s.posters && InFlight(s.posters[t].at)
    requires BeforeTicket(s.posters[t].at) ==> |s.ring.taken| == |s.ring.claimed|
    ensures var kept := Inv(Step(s, PostStep(t)), h'); kept
    ensures h' == if s.posters[t].at.SwapFlag? then APoster(t) else Nobody
    ensures !s.flag && !s.posters[t].at.Push?
  {
    if s.posters[t].at.SwapFlag? {
      h' := PostSwapFlagCore(s, Nobody, t);
      PostMoves(s, t, Step(s, PostStep(t)).posters[t]);
    } else if InEnqueue(s.posters[t].at) {
      h' := Nobody;
      EnqueueStepKeeps(s, Nobody, t);
    } else {
      h' := Nobody;
      PostCheckKeeps(s, Nobody, t);
    }
  }

  lemma {:induction false} PosterStops(s: State, t: nat)
    requires Inv(s, Nobody) && s.life.Killing? && t in s.posters && InFlight(s.posters[t].at)
    requires BeforeTicket(s.posters[t].at) ==> |s.ring.taken| == |s.ring.claimed|
    ensures CanStop(s)
    decreases PostRank(s.posters[t].at, |s.ring.claimed|)
  {
    var h' := PostTurn(s, t);
    PostFacts(s, t);
    if s.posters[t].at.SwapFlag? { HolderStops(Step(s, PostStep(t)), h'); }
    else { PosterStops(Step(s, PostStep(t)), t); }
    StepsToStop(s, PostStep(t));
  }

  lemma KillSwapStops(s: State, t: nat)
    requires Inv(s, Nobody) && s.life.Killing? && t in s.killers && s.killers[t].KillSwapFlag?
    ensures CanStop(s)
  {
    var h' := KillStepKeeps(s, Nobody, t);
    assert t in Step(s, KillStep(t)).killers;
    HolderStops(Step(s, KillStep(t)), h');
    StepsToStop(s, KillStep(t));
  }

  predicate PeekSucceeds(s: State)
    requires Shape(s)
  {
    s.frames[s.owner].PeekSwap? || (Peeking(s.frames[s.owner]) && HeadPublished(s.ring))
  }

  lemma PeekMoves(s: State, d: nat)
    requires Shape(s) && d == s.owner && PeekSucceeds(s) && !s.frames[d].PeekSwap?
    requires s.ring.consumerIndex == Head(s.ring) && (s.frames[d].PeekLoad? ==> s.frames[d].pos == Head(s.ring))
    ensures Enabled(s, FrameStep(d))
    ensures var s' := Step(s, FrameStep(d));
            && Shape(s') && s'.life == s.life && s'.owner == s.owner && PeekSucceeds(s')
            && BystanderRank(s'.frames[d]) < BystanderRank(s.frames[d])
  {
    assert Step(s, FrameStep(d)) == PeekAdvance(s, d);
  }

  lemma PeekSwapFacts(s: State, d: nat)
    requires Shape(s) && Enabled(s, FrameStep(d)) && s.frames[d].PeekSwap? && !s.flag
    ensures Step(s, FrameStep(d)) == PeekAdvance(s, d)
    ensures var s' := PeekAdvance(s, d); s'.life == s.life && s'.frames[d] == PeekPush
  {
  }

  lemma PeekSwapLive(s: State, d: nat)
    requires Inv(s, Nobody) && s.life.Killing? && d == s.owner && s.frames[d].PeekSwap?
    ensures Enabled(s, FrameStep(d))
    ensures var live := Live(Step(s, FrameStep(d)), AFrame(d)); live
  {
    PeekSwapWins(s, d);
    PeekSwapFacts(s, d);
    FrameStepRing(s, d);
  }

  lemma {:induction false} PeekStops(s: State)
    requires Inv(s, Nobody) && s.life.Killing? && PeekSucceeds(s)
    ensures CanStop(s)
    decreases BystanderRank(s.frames[s.owner])
  {
    var d := s.owner;
    PeekingIsOwner(s, Nobody, d);
    if s.frames[d].PeekSwap? {
      PeekSwapLive(s, d);
      HolderStops(Step(s, FrameStep(d)), AFrame(d));
    } else {
      PeekMoves(s, d);
      PeekCore(s, Nobody, d);
      FrameStepRing(s, d);
      PeekStops(Step(s, FrameStep(d)));
    }
    StepsToStop(s, FrameStep(d));
  }

  lemma QuietIsDoomed(s: State)
    requires CoreInv(s, Nobody) && s.life.Killing? && |s.ring.taken| == |s.ring.claimed|
    requires forall t :: t in s.posters ==> !InFlight(s.posters[t].at)
    requires !SomeKillSwaps(s.killers) && !s.frames[s.owner].PeekSwap?
    ensures Doomed(s)
  {
    assert s.wakers == map[];
  }

  /** With no readable head and nobody writing, the ring is empty. */
  lemma NothingWritten(r: Ring, posters: map<nat, Post>, c: Cons)
    requires RingInv(r, posters, c) && !HeadPublished(r)
    requires forall t :: t in posters ==> !posters[t].at.Write? && !posters[t].at.Publish?
    ensures |r.taken| == |r.claimed|
  {
    assert SeqAt(r, Head(r)) == Head(r);
  }

  lemma NobodyStops(s: State)
    requires Inv(s, Nobody) && s.life.Killing? && !Doomed(s)
    ensures CanStop(s)
  {
    if SomeKillSwaps(s.killers) {
      var t :| t in s.killers && s.killers[t].KillSwapFlag?;
      KillSwapStops(s, t);
    } else if t :| t in s.posters && InFlight(s.posters[t].at) && !BeforeTicket(s.posters[t].at) {
      PosterStops(s, t);
    } else if HeadPublished(s.ring) || s.frames[s.owner].PeekSwap? {
      PeekStops(s);
    } else {
      NothingWritten(s.ring, s.posters, ConsOf(s.frames[s.owner]));
      if t :| t in s.posters && InFlight(s.posters[t].at) { PosterStops(s, t); }
      else { QuietIsDoomed(s); }
    }
  }

  lemma ClearFlagStops(s: State, d: nat)
    requires Inv(s, AFrame(d)) && s.life.Killing? && s.frames[d].ClearFlag? && !Doomed(s)
    ensures CanStop(s)
  {
    FrameHolds(s, AFrame(d), d);
    var s' := DrainAdvance(s, d);
    assert Step(s, FrameStep(d)) == s';
    ClearFlagCore(s, d);
    FrameStepRing(s, d);
    if Doomed(s') {
      ClearFlagWasDoomed(s, d);
    }
    NobodyStops(s');
    StepsToStop(s, FrameStep(d));
  }

  lemma ClearFlagWasDoomed(s: State, d: nat)
    requires Shape(s) && Enabled(s, FrameStep(d)) && s.frames[d].ClearFlag? && d == s.owner
    requires Shape(DrainAdvance(s, d)) && Doomed(DrainAdvance(s, d))
    ensures Doomed(s)
  {
    var s' := DrainAdvance(s, d);
    forall e | 0 <= e < |s.frames| && e != d ensures s.frames[e].Idle? {
      assert s'.frames[e] == s.frames[e];
    }
  }

  /** The exact guard: a killed actor can still be finalized if and only if it is not doomed,
      and it is doomed only if a kill fell into the window after the last lifecycle check. */
  lemma KilledCanStopExactlyUnlessDoomed(s: State)
    requires Reachable(s) && s.life.Killing?
    ensures Shape(s)
    ensures CanStop(s) <==> !Doomed(s)
    ensures Doomed(s) ==> s.log.missed
  {
    var h := ReachableInv(s);
    if Doomed(s) {
      DoomedWasMissed(s);
      forall acts, s' | Leads(s, acts, s', true) ensures !s'.life.Stopped? {
        DoomedForever(s, h, acts, s');
      }
    } else if h.Nobody? {
      NobodyStops(s);
    } else if HolderPc(s.frames, h).ClearFlag? {
      ClearFlagStops(s, h.d);
    } else {
      HolderStops(s, h);
    }
  }

  // ------------------------------------------------- a noticed kill cannot be lost

  /** No frame is between its last lifecycle check and its flag clear. */
  ghost predicate NoneClears(frames: seq<Pc>) { forall d :: 0 <= d < |frames| ==> !frames[d].ClearFlag? }

  /** The actor is killed outside that window, and somebody has the right to run it or is about
      to swap for it. */
  ghost predicate Noticed(s: State) {
    s.life.Stopped? || (s.life.Killing? && NoneClears(s.frames) && (s.flag || SomeKillSwaps(s.killers)))
  }

  ghost predicate Held(s: State) { s.flag || s.life.Stopped? }

  /** Only the flag clear clears the flag, and a killed actor's runner does not get to it. */
  lemma FlagStands(s: State, d: nat)
    requires Shape(s) && Enabled(s, FrameStep(d)) && s.life.Killing? && !s.frames[d].ClearFlag?
    ensures var s' := FrameAdvance(s, d);
            (s.flag ==> s'.flag) && d < |s'.frames| && !s'.frames[d].ClearFlag? && !s'.life.Running?
  {
    var pc, s' := s.frames[d], FrameAdvance(s, d);
    assert OwnFrameOnly(s, d, s') && Disciplined(s, d, s');
    if pc.Deq? { assert s' == DequeueAdvance(s, d); }
    else if InPoll(pc) { assert s' == PollAdvance(s, d); }
    else if InDrain(pc) { assert s' == DrainAdvance(s, d); }
    else if InPeek(pc) { assert s' == PeekAdvance(s, d); }
    else if InFinalize(pc) { assert s' == FinAdvance(s, d); }
    else if InOwnKill(pc) { assert s' == OwnKillAdvance(s, d); }
  }

  lemma KillStaysNoticed(s: State, t: nat)
    requires Shape(s) && Enabled(s, KillStep(t)) && Noticed(s) && s.life.Killing?
    ensures Noticed(Step(s, KillStep(t))) && (s.flag ==> Step(s, KillStep(t)).flag)
  {
    var s' := KillAdvance(s, t);
    if !s'.flag {
      var u :| u in s.killers && s.killers[u].KillSwapFlag?;
      assert u in s'.killers && s'.killers[u].KillSwapFlag?;
    }
  }

  lemma FrameStaysNoticed(s: State, d: nat)
    requires Shape(s) && Enabled(s, FrameStep(d)) && Noticed(s)
    ensures var s' := FrameAdvance(s, d); Noticed(s') && (Held(s) ==> Held(s'))
  {
    var s' := FrameAdvance(s, d);
    assert OwnFrameOnly(s, d, s') && Disciplined(s, d, s');
    if s.life.Killing? { FlagStands(s, d); }
  }

  lemma NoticedStep(s: State, a: Action)
    requires Shape(s) && Enabled(s, a) && Noticed(s)
    ensures Noticed(Step(s, a)) && (Held(s) ==> Held(Step(s, a)))
  {
    if a.FrameStep? {
      FrameStaysNoticed(s, a.d);
    } else if s.life.Killing? {
      if a.KillStep? { KillStaysNoticed(s, a.t); }
      else if a.BeginKill? && !s.flag {
        var u :| u in s.killers && s.killers[u].KillSwapFlag?;
        assert u in Step(s, a).killers && Step(s, a).killers[u].KillSwapFlag?;
      }
    }
  }

  lemma {:induction false} NoticedForever(s: State, acts: seq<Action>, s': State)
    requires Noticed(s) && Leads(s, acts, s', true)
    ensures Noticed(s') && (Held(s) ==> Held(s'))
    decreases |acts|
  {
    if acts != [] {
      NoticedStep(s, acts[0]);
      NoticedForever(Step(s, acts[0]), acts[1..], s');
    }
  }

  lemma NoticedIsNotDoomed(s: State, h: Holder)
    requires CoreInv(s, h) && Noticed(s)
    ensures !Doomed(s)
  {
  }

  /** A kill whose compare-exchange falls outside the window is never lost: whatever posts, kills,
      wakes and workers do afterwards, the actor is stopped or can still be. */
  lemma KillOutsideWindowIsNeverLost(s: State, t: nat, acts: seq<Action>, s': State)
    requires Reachable(s) && Shape(s) && Enabled(s, KillStep(t)) && s.killers[t].KillCas? && s.life.Running?
    requires NoneClears(s.frames) && Leads(Step(s, KillStep(t)), acts, s', true)
    ensures s'.life.Killing? || s'.life.Stopped?
    ensures Shape(s') && !Doomed(s') && CanStop(s')
  {
    var killed := Step(s, KillStep(t));
    assert t in killed.killers && killed.killers[t].KillSwapFlag?;
    NoticedForever(killed, acts, s');
    LeadsOne(s, KillStep(t), true);
    ReachableOn(s, [KillStep(t)], killed);
    ReachableOn(killed, acts, s');
    var h := ReachableInv(s');
    NoticedIsNotDoomed(s', h);
    if s'.life.Stopped? { StoppedCanStop(s'); } else { KilledCanStopExactlyUnlessDoomed(s'); }
  }

  /** Neither is the kill of an actor whose holder has not made its last check yet. */
  lemma HeldKillIsNeverLost(s: State, h: Holder, acts: seq<Action>, s': State)
    requires Reachable(s) && Live(s, h) && Leads(s, acts, s', true)
    ensures s'.life.Stopped? || exists h' :: Live(s', h')
  {
    LiveIsNoticed(s, h);
    NoticedForever(s, acts, s');
    ReachableOn(s, acts, s');
    var h' := ReachableInv(s');
    if !s'.life.Stopped? {
      NoticedIsLive(s', h');
      assert Live(s', h');
    }
  }

  lemma LiveIsNoticed(s: State, h: Holder)
    requires Live(s, h)
    ensures Noticed(s) && s.flag
  {
    forall d | 0 <= d < |s.frames| && s.frames[d].ClearFlag? ensures false { FrameHolds(s, h, d); }
  }

  lemma NoticedIsLive(s: State, h: Holder)
    requires Inv(s, h) && s.life.Killing? && NoneClears(s.frames) && s.flag
    ensures Live(s, h)
  {
  }
}
