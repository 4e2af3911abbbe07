/**
 A mail that is published can be received: exactly unless the receive before it has panicked,
 in which case its own kill is already under way.
 */
module RunnerProgress {
  import opened Basics
  import opened MailboxRing
  import opened RunnerModel
  import opened RunnerInvariant
  import opened RunnerRuns
  import opened RunnerKill

  /** A receive has panicked, and the runner is about to kill the actor. */
  predicate PanicPc(pc: Pc) { pc.FailInactive? || pc.FailClear? || pc.OwnKillCas? }

  ghost predicate Panicking(s: State) { exists d :: 0 <= d < |s.frames| && PanicPc(s.frames[d]) }

  /** The mail with ticket `n` can still be handed to `on_receive`. */
  ghost predicate CanReceive(s: State, n: nat) {
    exists acts, s' :: Leads(s, acts, s', true) && |s'.log.received| > n
  }

  // ------------------------------------------------------- after a panic, nothing

  ghost predicate Over(s: State) { !s.life.Running? || Panicking(s) }

  lemma FrameOver(s: State, h: Holder, d: nat)
    requires Inv(s, h) && Enabled(s, FrameStep(d)) && Over(s)
    ensures var s' := FrameAdvance(s, d); Over(s') && s'.log.received == s.log.received
  {
    var s' := FrameAdvance(s, d);
    assert Disciplined(s, d, s') && OwnFrameOnly(s, d, s');
    if s.life.Running? {
      var e :| 0 <= e < |s.frames| && PanicPc(s.frames[e]);
      FrameHolds(s, h, e);
      assert e == d;
      PanicMoves(s, d);
    }
  }

  lemma PanicMoves(s: State, d: nat)
    requires Shape(s) && Enabled(s, FrameStep(d)) && PanicPc(s.frames[d]) && s.life.Running?
    ensures var s' := FrameAdvance(s, d); |s'.frames| == |s.frames| && (PanicPc(s'.frames[d]) || !s'.life.Running?)
  {
    if s.frames[d].OwnKillCas? {
      assert FrameAdvance(s, d) == OwnKillAdvance(s, d);
    } else {
      assert FrameAdvance(s, d) == PollAdvance(s, d);
    }
  }

  /** While a receive panics, no other worker is in the actor, and no token is waiting. */
  lemma PanicAlone(s: State, h: Holder, e: nat)
    requires CoreInv(s, h) && e < |s.frames| && PanicPc(s.frames[e])
    ensures forall d :: 0 <= d < |s.frames| ==> s.queue[d] == 0 && (d != e ==> s.frames[d].Idle?)
  {
    FrameHolds(s, h, e);
  }

  lemma UserOver(s: State, h: Holder, a: Action)
    requires Inv(s, h) && Enabled(s, a) && Over(s)
    requires a.ReceiveReturns? || a.RegisterWake? || a.PollReturns? || a.Execute?
    ensures !s.life.Running? && Step(s, a).life == s.life && Step(s, a).log.received == s.log.received
  {
    UserKeepsLife(s, a);
    UserIsAlive(s, h, a);
  }

  lemma UserKeepsLife(s: State, a: Action)
    requires Shape(s) && Enabled(s, a) && (a.ReceiveReturns? || a.RegisterWake? || a.PollReturns? || a.Execute?)
    ensures Step(s, a).life == s.life && Step(s, a).log.received == s.log.received
  {
  }

  lemma UserIsAlive(s: State, h: Holder, a: Action)
    requires CoreInv(s, h) && Enabled(s, a) && Over(s)
    requires a.ReceiveReturns? || a.RegisterWake? || a.PollReturns? || a.Execute?
    ensures !s.life.Running?
  {
    if s.life.Running? {
      var e :| 0 <= e < |s.frames| && PanicPc(s.frames[e]);
      PanicAlone(s, h, e);
      assert false;
    }
  }

  predicate Elsewhere(s: State, s': State) {
    s'.frames == s.frames && s'.log.received == s.log.received && (s'.life.Running? ==> s.life.Running?)
  }

  lemma OtherElsewhere(s: State, a: Action)
    requires Shape(s) && Enabled(s, a)
    requires a.BeginPost? || a.PostStep? || a.BeginKill? || a.KillStep? || a.FireWake? || a.WakeStep?
    ensures Elsewhere(s, Step(s, a))
  {
    if a.PostStep? { assert Elsewhere(s, PostAdvance(s, a.t)); }
    else if a.KillStep? { assert Elsewhere(s, KillAdvance(s, a.t)); }
    else if a.WakeStep? { assert Elsewhere(s, WakeAdvance(s, a.w)); }
  }

  lemma OtherOver(s: State, s': State)
    requires Over(s) && Elsewhere(s, s')
    ensures Over(s') && s'.log.received == s.log.received
  {
    if s'.life.Running? {
      var e :| 0 <= e < |s.frames| && PanicPc(s.frames[e]);
      assert PanicPc(s'.frames[e]);
    }
  }

  lemma OverStep(s: State, h: Holder, a: Action)
    requires Inv(s, h) && Enabled(s, a) && Contract(s, a) && Over(s)
    ensures Over(Step(s, a)) && Step(s, a).log.received == s.log.received
  {
    if a.FrameStep? { FrameOver(s, h, a.d); }
    else if a.ReceiveReturns? || a.RegisterWake? || a.PollReturns? || a.Execute? { UserOver(s, h, a); }
    else { OtherElsewhere(s, a); OtherOver(s, Step(s, a)); }
  }

  /** After a panic, as after a kill, nothing more is received. */
  lemma {:induction false} NothingAfterPanic(s: State, h: Holder, acts: seq<Action>, s': State)
    requires Inv(s, h) && Leads(s, acts, s', true) && Over(s)
    ensures s'.log.received == s.log.received
    decreases |acts|
  {
    if acts != [] {
      OverStep(s, h, acts[0]);
      var h1 := StepKeeps(s, h, acts[0]);
      NothingAfterPanic(Step(s, acts[0]), h1, acts[1..], s');
    }
  }

  // -------------------------------------------------- otherwise it is received

  predicate InHand(pc: Pc) { (pc.Deq? && pc.c.Advance? && !pc.fin) || pc.CheckLife? }

  /** Ticket `n` is published at the head of the ring, or in the holder's hand. */
  predicate Comes(ring: Ring, pc: Pc, n: nat)
    requires Shaped(ring)
  {
    (|ring.taken| == n && HeadPublished(ring)) || (|ring.taken| == n + 1 && InHand(pc))
  }

  /** Somebody is on the way to hand out ticket `n`. */
  ghost predicate Wanted(s: State, h: Holder, n: nat) {
    && Inv(s, h) && s.life.Running? && |s.log.received| <= n
    && !PanicPc(HolderPc(s.frames, h)) && Comes(s.ring, HolderPc(s.frames, h), n)
    && (h.Nobody? ==> PeekSucceeds(s))
  }

  function TakeRank(c: Cons): nat {
    match c case Index => 6 case Load(_) => 5 case Read(_) => 4 case Release(_, _) => 3 case _ => 2
  }

  /** How far the holding frame is from its next receive. */
  function RunRank(v: Driver, pc: Pc): nat {
    if pc.CheckLife? then 1
    else if pc.Deq? then TakeRank(pc.c)
    else if pc.EntryLife? || pc.Receiving? then 7
    else if pc.LoadActive? then (if v.active then 29 else 8)
    else if pc.ExitLife? then 50
    else if pc.ClearFlag? then 49
    else PcRank(v, pc)
  }

  function WayRank(s: State, h: Holder): nat {
    match h
    case AFrame(d) => if d < |s.frames| then RunRank(s.driver, s.frames[d]) else 0
    case Nobody => 45 + if s.owner < |s.frames| then BystanderRank(s.frames[s.owner]) else 0
    case _ => HolderRank(s, h)
  }

  function ReceiveRank(s: State, h: Holder, n: nat): nat {
    100 * (if |s.log.received| <= n then n + 1 - |s.log.received| else 0) + WayRank(s, h)
  }

  /** `a` is a possible next step that brings ticket `n` closer to its receive. */
  ghost predicate Brings(s: State, h: Holder, n: nat, a: Action, h': Holder) {
    && Shape(s) && Enabled(s, a) && Contract(s, a)
    && (|Step(s, a).log.received| > n
        || (Wanted(Step(s, a), h', n) && ReceiveRank(Step(s, a), h', n) < ReceiveRank(s, h, n)))
  }

  /** A step that touches neither ring nor mails only has to come closer. */
  predicate Calm(s: State, s': State) {
    s'.ring == s.ring && s'.life == s.life && s'.log.received == s.log.received
  }

  lemma CalmBrings(s: State, h: Holder, n: nat, a: Action, h': Holder)
    requires Wanted(s, h, n) && Enabled(s, a) && Contract(s, a) && Calm(s, Step(s, a))
    requires !InHand(HolderPc(s.frames, h)) && !PanicPc(HolderPc(Step(s, a).frames, h'))
    requires var s' := Step(s, a); Inv(s', h') && (h'.Nobody? ==> PeekSucceeds(s')) && WayRank(s', h') < WayRank(s, h)
    ensures var brings := Brings(s, h, n, a, h'); brings
  {
  }

  // --------------------------------------------- the right to run is on its way

  lemma ExecuteFacts(s: State, d: nat)
    requires Shape(s) && Enabled(s, Execute(d))
    ensures var s' := Step(s, Execute(d));
            && Calm(s, s') && d < |s'.frames| && Holding(s'.frames[d]) && !PanicPc(s'.frames[d])
            && WayRank(s', AFrame(d)) < WayRank(s, AToken(d))
  {
  }

  lemma ExecuteBrings(s: State, d: nat, n: nat)
    requires Wanted(s, AToken(d), n) && s.frames[d].Idle?
    ensures var brings := Brings(s, AToken(d), n, Execute(d), AFrame(d)); brings
  {
    ExecuteFacts(s, d);
    var h' := ExecuteKeeps(s, AToken(d), d);
    FrameHolds(Step(s, Execute(d)), h', d);
    CalmBrings(s, AToken(d), n, Execute(d), AFrame(d));
  }

  lemma BystanderCalm(s: State, d: nat, a: Action)
    requires CoreInv(s, AToken(d)) && !s.frames[d].Idle?
    requires a == if s.frames[d].Polling? then PollReturns(d, PollPending) else FrameStep(d)
    requires Enabled(s, a)
    ensures Calm(s, Step(s, a))
  {
    if !s.frames[d].Polling? {
      assert InPeek(s.frames[d]);
      assert Step(s, a) == PeekAdvance(s, d);
    }
  }

  lemma BystanderBrings(s: State, d: nat, n: nat) returns (a: Action)
    requires Wanted(s, AToken(d), n) && !s.frames[d].Idle?
    ensures var brings := Brings(s, AToken(d), n, a, AToken(d)); brings
  {
    a := if s.frames[d].Polling? then PollReturns(d, PollPending) else FrameStep(d);
    BystanderLeaves(s, d, a);
    BystanderCalm(s, d, a);
    BystanderKeeps(s, d, a);
    CalmBrings(s, AToken(d), n, a, AToken(d));
  }

  lemma WakeMarkFacts(s: State, w: nat, a: Action)
    requires Shape(s) && w in s.wakers && On(s.driver) && !s.driver.marked && !s.wakers[w].PushWake?
    requires a == if s.wakers[w].Registered? then FireWake(w, None) else WakeStep(w)
    ensures Enabled(s, a) && Contract(s, a)
    ensures var s' := Step(s, a);
            Calm(s, s') && w in s'.wakers && WayRank(s', AWake(w)) < WayRank(s, AWake(w))
  {
  }

  lemma WakeMarkBrings(s: State, w: nat, n: nat) returns (a: Action)
    requires Wanted(s, AWake(w), n) && !s.wakers[w].PushWake?
    ensures var brings := Brings(s, AWake(w), n, a, AWake(w)); brings
  {
    a := if s.wakers[w].Registered? then FireWake(w, None) else WakeStep(w);
    WakeMarkFacts(s, w, a);
    var h' := StepKeeps(s, AWake(w), a);
    assert h' == AWake(w);
    CalmBrings(s, AWake(w), n, a, AWake(w));
  }

  lemma WakePushFacts(s: State, w: nat)
    requires Shape(s) && w in s.wakers && s.wakers[w].PushWake?
    ensures Enabled(s, WakeStep(w)) && Contract(s, WakeStep(w))
    ensures var s', d := Step(s, WakeStep(w)), s.wakers[w].target;
            && Calm(s, s') && d < |s'.queue| && s'.queue[d] > 0
            && WayRank(s', AToken(d)) < WayRank(s, AWake(w))
  {
    assert Step(s, WakeStep(w)) == WakeAdvance(s, w);
  }

  lemma WakePushBrings(s: State, w: nat, n: nat)
    requires Wanted(s, AWake(w), n) && s.wakers[w].PushWake?
    ensures var brings := Brings(s, AWake(w), n, WakeStep(w), AToken(s.wakers[w].target)); brings
  {
    WakePushFacts(s, w);
    var h' := WakeStepKeeps(s, AWake(w), w);
    TokenHolds(Step(s, WakeStep(w)), h', s.wakers[w].target);
    CalmBrings(s, AWake(w), n, WakeStep(w), AToken(s.wakers[w].target));
  }

  lemma PosterFacts(s: State, t: nat)
    requires Shape(s) && t in s.posters && s.posters[t].at.Push? && Off(s.driver)
    ensures Enabled(s, PostStep(t)) && Contract(s, PostStep(t))
    ensures var s' := Step(s, PostStep(t));
            && Calm(s, s') && s'.queue[s.owner] > 0 && |s'.queue| == |s.queue|
            && WayRank(s', AToken(s.owner)) < WayRank(s, APoster(t))
  {
    assert Step(s, PostStep(t)) == PostAdvance(s, t);
  }

  lemma PosterBrings(s: State, t: nat, n: nat)
    requires Wanted(s, APoster(t), n)
    ensures var brings := Brings(s, APoster(t), n, PostStep(t), AToken(s.owner)); brings
  {
    PosterFacts(s, t);
    var h' := PostStepKeeps(s, APoster(t), t);
    TokenHolds(Step(s, PostStep(t)), h', s.owner);
    CalmBrings(s, APoster(t), n, PostStep(t), AToken(s.owner));
  }

  lemma KillerBrings(s: State, t: nat, n: nat)
    requires Wanted(s, AKiller(t), n)
    ensures var brings := Brings(s, AKiller(t), n, KillStep(t), AToken(s.owner)); brings
  {
    var h' := StepKeeps(s, AKiller(t), KillStep(t));
    TokenHolds(Step(s, KillStep(t)), h', s.owner);
    CalmBrings(s, AKiller(t), n, KillStep(t), AToken(s.owner));
  }

  // -------------------------------------------------------- the peeking runner

  lemma PeekSwapRank(s: State, d: nat)
    requires Shape(s) && Enabled(s, FrameStep(d)) && s.frames[d].PeekSwap? && !s.flag && d == s.owner
    ensures var s' := Step(s, FrameStep(d));
            && d < |s'.frames| && !PanicPc(s'.frames[d]) && WayRank(s', AFrame(d)) < WayRank(s, Nobody)
  {
    PeekSwapFacts(s, d);
    assert OwnFrameOnly(s, d, PeekAdvance(s, d));
  }

  lemma PeekSwapBrings(s: State, d: nat, n: nat)
    requires Wanted(s, Nobody, n) && d == s.owner && s.frames[d].PeekSwap?
    ensures var brings := Brings(s, Nobody, n, FrameStep(d), AFrame(d)); brings
  {
    PeekSwapFacts(s, d);
    PeekSwapRank(s, d);
    PeekCalm(s, d);
    PeekSwapWins(s, d);
    FrameStepRing(s, d);
    CalmBrings(s, Nobody, n, FrameStep(d), AFrame(d));
  }

  lemma PeekCalm(s: State, d: nat)
    requires Shape(s) && Enabled(s, FrameStep(d)) && InPeek(s.frames[d])
    ensures Calm(s, Step(s, FrameStep(d)))
  {
    assert Step(s, FrameStep(d)) == PeekAdvance(s, d);
  }

  lemma PeekBrings(s: State, d: nat, n: nat)
    requires Wanted(s, Nobody, n) && d == s.owner && !s.frames[d].PeekSwap?
    ensures var brings := Brings(s, Nobody, n, FrameStep(d), Nobody); brings
  {
    PeekingIsOwner(s, Nobody, d);
    PeekMoves(s, d);
    PeekCalm(s, d);
    PeekCore(s, Nobody, d);
    FrameStepRing(s, d);
    CalmBrings(s, Nobody, n, FrameStep(d), Nobody);
  }

  // ---------------------------------------------------------- the holding frame

  lemma ReceiveBrings(s: State, d: nat, n: nat)
    requires Wanted(s, AFrame(d), n) && s.frames[d].Receiving?
    ensures var brings := Brings(s, AFrame(d), n, ReceiveReturns(d, ReceiveDone), AFrame(d)); brings
  {
    ReceiveReturnsKeeps(s, AFrame(d), d, ReceiveDone);
    CalmBrings(s, AFrame(d), n, ReceiveReturns(d, ReceiveDone), AFrame(d));
  }

  lemma PollCalm(s: State, d: nat)
    requires Shape(s) && Enabled(s, PollReturns(d, PollReady))
    ensures var s' := Step(s, PollReturns(d, PollReady));
            && Calm(s, s') && d < |s'.frames| && s'.frames[d] == ReadyInactive
            && WayRank(s', AFrame(d)) < WayRank(s, AFrame(d))
  {
  }

  lemma PollBrings(s: State, d: nat, n: nat)
    requires Wanted(s, AFrame(d), n) && s.frames[d].Polling?
    ensures var brings := Brings(s, AFrame(d), n, PollReturns(d, PollReady), AFrame(d)); brings
  {
    PollReadyFacts(s, d);
    PollCalm(s, d);
    PollReturnsKeeps(s, AFrame(d), d, PollReady);
    CalmBrings(s, AFrame(d), n, PollReturns(d, PollReady), AFrame(d));
  }

  lemma LockBrings(s: State, d: nat, n: nat) returns (a: Action)
    requires Wanted(s, AFrame(d), n) && s.frames[d].PollLock? && s.driver.lock.Some?
    ensures var brings := Brings(s, AFrame(d), n, a, AFrame(d)); brings
  {
    var e := s.driver.lock.value;
    a := PollReturns(e, PollPending);
    PollReturnsKeeps(s, AFrame(d), e, PollPending);
    CalmBrings(s, AFrame(d), n, a, AFrame(d));
  }

  lemma PushFacts(s: State, d: nat)
    requires Shape(s) && Enabled(s, FrameStep(d)) && Local(s, d) && InPush(s.frames[d])
    ensures var s' := Step(s, FrameStep(d));
            Calm(s, s') && WayRank(s', AToken(s.owner)) < WayRank(s, AFrame(d))
  {
    PushLocal(s, d);
    assert Step(s, FrameStep(d)) == PushAdvance(s, d);
  }

  lemma PushBrings(s: State, d: nat, n: nat)
    requires Wanted(s, AFrame(d), n) && InPush(s.frames[d]) && Enabled(s, FrameStep(d))
    ensures var brings := Brings(s, AFrame(d), n, FrameStep(d), AToken(s.owner)); brings
  {
    FrameHolds(s, AFrame(d), d);
    PushFacts(s, d);
    PushKeeps(s, d);
    CalmBrings(s, AFrame(d), n, FrameStep(d), AToken(s.owner));
  }

  /** Frames on the way to the mailbox, apart from the ring and the mails. */
  predicate OnTheWay(pc: Pc) {
    || pc.LoadActive? || pc.PollClear? || pc.PollLock? || pc.ReadyInactive? || pc.ReadyClear?
    || pc.EntryLife? || pc.ArmSlot? || pc.ArmActive? || pc.ArmClear? || pc.ExitLife?
  }

  predicate Approaches(s: State, d: nat, s': State)
    requires d < |s.frames|
  {
    && Calm(s, s') && d < |s'.frames| && Holding(s'.frames[d]) && !PanicPc(s'.frames[d])
    && RunRank(s'.driver, s'.frames[d]) < RunRank(s.driver, s.frames[d])
  }

  lemma PollEntryApproaches(s: State, d: nat)
    requires Shape(s) && Enabled(s, FrameStep(d)) && Local(s, d)
    requires s.frames[d].LoadActive? || s.frames[d].PollClear? || s.frames[d].PollLock?
    ensures var nearer := Approaches(s, d, PollAdvance(s, d)); nearer
  {
  }

  lemma ReadyApproaches(s: State, d: nat)
    requires Shape(s) && Enabled(s, FrameStep(d)) && Local(s, d)
    requires s.frames[d].ReadyInactive? || s.frames[d].ReadyClear?
    ensures var nearer := Approaches(s, d, PollAdvance(s, d)); nearer
  {
  }

  lemma DrainApproaches(s: State, d: nat)
    requires Shape(s) && Enabled(s, FrameStep(d)) && Local(s, d) && s.life.Running?
    requires InDrain(s.frames[d]) && !s.frames[d].CheckLife? && !s.frames[d].ClearFlag?
    ensures var nearer := Approaches(s, d, DrainAdvance(s, d)); nearer
  {
    var pc := s.frames[d];
    if pc.ArmSlot? || pc.ArmActive? || pc.ArmClear? { ArmApproaches(s, d); }
  }

  lemma ArmApproaches(s: State, d: nat)
    requires Shape(s) && Enabled(s, FrameStep(d)) && Local(s, d) && s.life.Running?
    requires s.frames[d].ArmSlot? || s.frames[d].ArmActive? || s.frames[d].ArmClear?
    ensures var nearer := Approaches(s, d, DrainAdvance(s, d)); nearer
  {
  }

  lemma FrameApproaches(s: State, d: nat)
    requires Shape(s) && Enabled(s, FrameStep(d)) && Local(s, d) && s.life.Running? && OnTheWay(s.frames[d])
    ensures var nearer := Approaches(s, d, Step(s, FrameStep(d))); nearer
  {
    var pc := s.frames[d];
    if InDrain(pc) {
      DrainApproaches(s, d);
      assert Step(s, FrameStep(d)) == DrainAdvance(s, d);
    } else {
      if pc.ReadyInactive? || pc.ReadyClear? { ReadyApproaches(s, d); } else { PollEntryApproaches(s, d); }
      assert Step(s, FrameStep(d)) == PollAdvance(s, d);
    }
  }

  /** A frame that still holds the right after its step is still its holder. */
  lemma HolderStays(s: State, d: nat)
    requires Inv(s, AFrame(d)) && Enabled(s, FrameStep(d))
    requires d < |Step(s, FrameStep(d)).frames| && Holding(Step(s, FrameStep(d)).frames[d])
    ensures var kept := Inv(Step(s, FrameStep(d)), AFrame(d)); kept
  {
    var h' := FrameStepKeeps(s, AFrame(d), d);
    FrameHolds(Step(s, FrameStep(d)), h', d);
  }

  lemma WayBrings(s: State, d: nat, n: nat)
    requires Wanted(s, AFrame(d), n) && OnTheWay(s.frames[d]) && Enabled(s, FrameStep(d))
    ensures var brings := Brings(s, AFrame(d), n, FrameStep(d), AFrame(d)); brings
  {
    FrameHolds(s, AFrame(d), d);
    FrameApproaches(s, d);
    HolderStays(s, d);
    CalmBrings(s, AFrame(d), n, FrameStep(d), AFrame(d));
  }

  lemma ClearFlagBrings(s: State, d: nat, n: nat)
    requires Wanted(s, AFrame(d), n) && s.frames[d].ClearFlag?
    ensures var brings := Brings(s, AFrame(d), n, FrameStep(d), Nobody); brings
  {
    FrameHolds(s, AFrame(d), d);
    assert Step(s, FrameStep(d)) == DrainAdvance(s, d);
    ClearFlagCore(s, d);
    FrameStepRing(s, d);
    CalmBrings(s, AFrame(d), n, FrameStep(d), Nobody);
  }

  /** The mail in hand is handed out. */
  lemma CheckFacts(s: State, d: nat)
    requires Shape(s) && Enabled(s, FrameStep(d)) && s.frames[d].CheckLife? && s.life.Running?
    ensures Step(s, FrameStep(d)) == DrainAdvance(s, d)
    ensures var s' := DrainAdvance(s, d);
            && s'.ring == s.ring && s'.life == s.life && |s'.log.received| == |s.log.received| + 1
            && d < |s'.frames| && s'.frames[d].Receiving?
  {
  }

  lemma CheckBrings(s: State, d: nat, n: nat)
    requires Wanted(s, AFrame(d), n) && s.frames[d].CheckLife?
    ensures var brings := Brings(s, AFrame(d), n, FrameStep(d), AFrame(d)); brings
  {
    CheckFacts(s, d);
    HandReceived(s, d);
    HolderStays(s, d);
    Handed(s, d, n, Step(s, FrameStep(d)));
  }

  lemma Handed(s: State, d: nat, n: nat, s': State)
    requires Wanted(s, AFrame(d), n) && s.frames[d].CheckLife? && |s.log.received| == |s.ring.taken| - 1
    requires Inv(s', AFrame(d)) && s'.ring == s.ring && s'.life == s.life && |s'.log.received| == |s.log.received| + 1
    requires d < |s'.frames| && s'.frames[d].Receiving?
    ensures || |s'.log.received| > n
            || (Wanted(s', AFrame(d), n) && ReceiveRank(s', AFrame(d), n) < ReceiveRank(s, AFrame(d), n))
  {
  }

  lemma HandReceived(s: State, d: nat)
    requires Inv(s, AFrame(d)) && d < |s.frames| && InHand(s.frames[d])
    ensures |s.log.received| == |s.ring.taken| - 1
  {
  }

  /** The next step of `try_dequeue`, which finds the published head. */
  lemma TakeFacts(s: State, d: nat, n: nat)
    requires Shape(s) && Enabled(s, FrameStep(d)) && s.frames[d].Deq? && !s.frames[d].fin
    requires ConsOk(s.ring, s.frames[d].c) && Comes(s.ring, s.frames[d], n)
    ensures Step(s, FrameStep(d)) == DequeueAdvance(s, d)
    ensures var s' := DequeueAdvance(s, d);
            && s'.life == s.life && s'.log == s.log && d < |s'.frames| && Shaped(s'.ring)
            && (s'.frames[d].Deq? || s'.frames[d].CheckLife?) && Comes(s'.ring, s'.frames[d], n)
            && RunRank(s'.driver, s'.frames[d]) < RunRank(s.driver, s.frames[d])
  {
  }

  lemma TakeBrings(s: State, d: nat, n: nat)
    requires Wanted(s, AFrame(d), n) && s.frames[d].Deq?
    ensures var brings := Brings(s, AFrame(d), n, FrameStep(d), AFrame(d)); brings
  {
    DeqFacts(s, d);
    TakeFacts(s, d, n);
    DequeueKeepsInv(s, d);
    Taken(s, d, n, DequeueAdvance(s, d));
  }

  lemma Taken(s: State, d: nat, n: nat, s': State)
    requires Wanted(s, AFrame(d), n) && d < |s.frames| && Inv(s', AFrame(d)) && s'.life == s.life && s'.log == s.log
    requires d < |s'.frames| && (s'.frames[d].Deq? || s'.frames[d].CheckLife?) && Comes(s'.ring, s'.frames[d], n)
    requires RunRank(s'.driver, s'.frames[d]) < RunRank(s.driver, s.frames[d])
    ensures Wanted(s', AFrame(d), n) && ReceiveRank(s', AFrame(d), n) < ReceiveRank(s, AFrame(d), n)
  {
  }

  lemma DeqFacts(s: State, d: nat)
    requires Inv(s, AFrame(d)) && s.life.Running? && d < |s.frames| && s.frames[d].Deq?
    ensures Enabled(s, FrameStep(d)) && !s.frames[d].fin && ConsOk(s.ring, s.frames[d].c)
  {
    FrameHolds(s, AFrame(d), d);
  }

  lemma RunningPc(s: State, d: nat)
    requires Inv(s, AFrame(d)) && s.life.Running? && d < |s.frames| && !PanicPc(s.frames[d])
    ensures var pc := s.frames[d];
            OnTheWay(pc) || pc.Receiving? || pc.Polling? || pc.Deq? || pc.CheckLife? || pc.ClearFlag? || InPush(pc)
  {
    FrameHolds(s, AFrame(d), d);
  }

  lemma FrameBrings(s: State, d: nat, n: nat) returns (a: Action, h': Holder)
    requires Wanted(s, AFrame(d), n)
    ensures var brings := Brings(s, AFrame(d), n, a, h'); brings
  {
    var pc := s.frames[d];
    a, h' := FrameStep(d), AFrame(d);
    RunningPc(s, d);
    if pc.Receiving? { a := ReceiveReturns(d, ReceiveDone); ReceiveBrings(s, d, n); }
    else if pc.Polling? { a := PollReturns(d, PollReady); PollBrings(s, d, n); }
    else if pc.PollLock? && s.driver.lock.Some? { a := LockBrings(s, d, n); }
    else {
      HolderEnabled(s, d);
      if InPush(pc) { h' := AToken(s.owner); PushBrings(s, d, n); }
      else if pc.ClearFlag? { h' := Nobody; ClearFlagBrings(s, d, n); }
      else if pc.Deq? { TakeBrings(s, d, n); }
      else if pc.CheckLife? { CheckBrings(s, d, n); }
      else { WayBrings(s, d, n); }
    }
  }

  lemma SomeoneBrings(s: State, h: Holder, n: nat) returns (a: Action, h': Holder)
    requires Wanted(s, h, n)
    ensures var brings := Brings(s, h, n, a, h'); brings
  {
    if h.AFrame? { a, h' := FrameBrings(s, h.d, n); }
    else if h.AToken? {
      if s.frames[h.d].Idle? { a, h' := Execute(h.d), AFrame(h.d); ExecuteBrings(s, h.d, n); }
      else { h' := h; a := BystanderBrings(s, h.d, n); }
    }
    else if h.AWake? {
      if s.wakers[h.w].PushWake? { a, h' := WakeStep(h.w), AToken(s.wakers[h.w].target); WakePushBrings(s, h.w, n); }
      else { h' := h; a := WakeMarkBrings(s, h.w, n); }
    }
    else if h.APoster? { a, h' := PostStep(h.t), AToken(s.owner); PosterBrings(s, h.t, n); }
    else if h.AKiller? { a, h' := KillStep(h.t), AToken(s.owner); KillerBrings(s, h.t, n); }
    else {
      a := FrameStep(s.owner);
      if s.frames[s.owner].PeekSwap? { h' := AFrame(s.owner); PeekSwapBrings(s, s.owner, n); }
      else { h' := Nobody; PeekBrings(s, s.owner, n); }
    }
  }

  lemma StepsToReceive(s: State, a: Action, n: nat)
    requires Shape(s) && Enabled(s, a) && Contract(s, a) && CanReceive(Step(s, a), n)
    ensures CanReceive(s, n)
  {
    var acts, s' :| Leads(Step(s, a), acts, s', true) && |s'.log.received| > n;
    assert ([a] + acts)[1..] == acts;
    assert Leads(s, [a] + acts, s', true);
  }

  lemma {:induction false} Receives(s: State, h: Holder, n: nat)
    requires Wanted(s, h, n)
    ensures CanReceive(s, n)
    decreases ReceiveRank(s, h, n)
  {
    var a, h' := SomeoneBrings(s, h, n);
    var s' := Step(s, a);
    if |s'.log.received| > n { assert Leads(s', [], s', true); } else { Receives(s', h', n); }
    StepsToReceive(s, a, n);
  }

  // --------------------------------------- nobody holds it, but someone is coming

  lemma FlagFacts(s: State, t: nat)
    requires Shape(s) && t in s.posters && AboutToCheckFlag(s.posters[t]) && !s.flag
    ensures var s' := Step(s, PostStep(t));
            && Calm(s, s') && t in s'.posters
            && (s.posters[t].at.LoadFlag? ==> s'.posters[t].at.SwapFlag?)
  {
  }

  lemma FlagTurn(s: State, t: nat) returns (h': Holder)
    requires Inv(s, Nobody) && t in s.posters && AboutToCheckFlag(s.posters[t])
    ensures var s' := Step(s, PostStep(t));
            && Calm(s, s') && t in s'.posters
            && (s.posters[t].at.LoadFlag? ==> s'.posters[t].at.SwapFlag?)
    ensures h' == if s.posters[t].at.SwapFlag? then APoster(t) else Nobody
    ensures var kept := Inv(Step(s, PostStep(t)), h'); kept
  {
    FlagFacts(s, t);
    if s.posters[t].at.SwapFlag? {
      h' := PostSwapFlagCore(s, Nobody, t);
      PostMoves(s, t, Step(s, PostStep(t)).posters[t]);
    } else {
      h' := Nobody;
      PostCheckKeeps(s, Nobody, t);
    }
  }

  lemma {:induction false} PosterReceives(s: State, t: nat, n: nat)
    requires Inv(s, Nobody) && s.life.Running? && t in s.posters && AboutToCheckFlag(s.posters[t])
    requires |s.log.received| <= n && |s.ring.taken| == n && HeadPublished(s.ring)
    ensures CanReceive(s, n)
    decreases if s.posters[t].at.LoadFlag? then 1 else 0
  {
    var h' := FlagTurn(s, t);
    var s' := Step(s, PostStep(t));
    if s.posters[t].at.SwapFlag? { Receives(s', h', n); } else { PosterReceives(s', t, n); }
    StepsToReceive(s, PostStep(t), n);
  }

  lemma RunningReceives(s: State, h: Holder)
    requires Inv(s, h) && s.life.Running? && HeadPublished(s.ring) && !PanicPc(HolderPc(s.frames, h))
    ensures CanReceive(s, |s.ring.taken|)
  {
    var n := |s.ring.taken|;
    if !h.Nobody? || Peeking(s.frames[s.owner]) {
      Receives(s, h, n);
    } else {
      var t :| t in s.posters && AboutToCheckFlag(s.posters[t]);
      PosterReceives(s, t, n);
    }
  }

  // -------------------------------------------------------------- the theorem

  lemma ClaimedStep(s: State, a: Action)
    requires Shape(s) && Enabled(s, a)
    ensures s.ring.claimed <= Step(s, a).ring.claimed
  {
    match a
    case FrameStep(d) =>
      if s.frames[d].Deq? { assert Step(s, a) == DequeueAdvance(s, d); }
      else { assert RingUntouched(s, d, FrameAdvance(s, d)); }
    case PostStep(t) => assert s.ring.claimed <= PostAdvance(s, t).ring.claimed;
    case KillStep(t) => assert KillAdvance(s, t).ring == s.ring;
    case WakeStep(w) => assert WakeAdvance(s, w).ring == s.ring;
    case _ => assert Step(s, a).ring == s.ring;
  }

  lemma {:induction false} ClaimedStays(s: State, acts: seq<Action>, s': State)
    requires Leads(s, acts, s', true)
    ensures s.ring.claimed <= s'.ring.claimed
    decreases |acts|
  {
    if acts != [] {
      ClaimedStep(s, acts[0]);
      ClaimedStays(Step(s, acts[0]), acts[1..], s');
    }
  }

  /** Ticket `n`, once received, is the mail that had that ticket all along. */
  lemma ReceivedIsClaimed(s: State, acts: seq<Action>, s': State, n: nat)
    requires Reachable(s) && Leads(s, acts, s', true) && n < |s.ring.claimed| && n < |s'.log.received|
    ensures s'.log.received[n] == Some(s.ring.claimed[n])
  {
    ReachableOn(s, acts, s');
    ReceivedInOrder(s');
    ClaimedStays(s, acts, s');
  }

  /** The exact condition: the published mail at the head of a running actor's mailbox can be
      received if and only if the receive before it has not panicked. */
  lemma ReceivedExactlyUnlessPanicking(s: State)
    requires Reachable(s) && s.life.Running?
    ensures Shape(s)
    ensures HeadPublished(s.ring) ==> (CanReceive(s, |s.ring.taken|) <==> !Panicking(s))
  {
    var h := ReachableInv(s);
    if HeadPublished(s.ring) {
      if Panicking(s) {
        forall acts, s' | Leads(s, acts, s', true) ensures |s'.log.received| <= |s.ring.taken| {
          NothingAfterPanic(s, h, acts, s');
        }
      } else {
        RunningReceives(s, h);
      }
    }
  }
}
