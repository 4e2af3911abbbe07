/**
 Every worker that is in an actor can come out of it: the frames of a runner can be finished, one
 step after the other, without a new one being begun and without stranding the actor.
 */
module RunnerRest {
  import opened Basics
  import opened MailboxRing
  import opened RunnerModel
  import opened RunnerInvariant
  import opened RunnerRuns
  import opened RunnerKill
  import opened RunnerFinalize

  /** No worker is in the actor. */
  predicate AtRest(s: State) { forall d :: 0 <= d < |s.frames| ==> s.frames[d].Idle? }

  predicate NoTokens(s: State) { forall d :: 0 <= d < |s.queue| ==> s.queue[d] == 0 }

  // ------------------------------------------------------------------- measure

  function DrainRank(c: Cons): nat {
    match c case Index => 8 case Load(_) => 7 case Read(_) => 6 case Release(_, _) => 5 case _ => 30
  }

  /** How far a frame is from its return, with `left` mails in the ring. */
  function ReturnRank(pc: Pc, left: nat): nat {
    match pc
    case Idle => 0
    case LoadActive => 60 * left + 60
    case PollClear(_) => 5
    case PollLock(_) => 4
    case PollIdle(_) => 0
    case Polling(_, woke) => if woke then 1 else 3
    case ReadyInactive => 3
    case ReadyClear => 2
    case ReadyPush => 1
    case FailInactive(_) => 20 * left + 25
    case FailClear(_) => 20 * left + 24
    case OwnKillCas(_) => 20 * left + 23
    case OwnKillSwap(_) => 20 * left + 22
    case OwnKillPush(_) => 0
    case FailPush => 1
    case EntryLife => 60 * left + 40
    case Deq(c, fin) =>
      if fin then 20 * left + (if c.Advance? then 15 else 6 + DrainRank(c)) else 60 * left + 25 + DrainRank(c)
    case CheckLife(_) => 60 * left + 50
    case Receiving(_) => 60 * left + 45
    case ArmSlot => 8
    case ArmActive => 7
    case ArmClear => 6
    case ExitLife => 20 * left + 21
    case ClearFlag => 5
    case PeekIndex => 4
    case PeekLoad(_) => 3
    case PeekSwap => 2
    case PeekPush => 1
    case FinSwap => 20 * left + 20
    case FinSlot => 5
    case FinInactive => 4
    case FinClear => 3
    case OnKill => 2
    case OnFinalize => 1
  }

  function Total(frames: seq<Pc>, left: nat): nat {
    if frames == [] then 0 else Total(frames[..|frames| - 1], left) + ReturnRank(frames[|frames| - 1], left)
  }

  lemma RankMonotone(pc: Pc, left: nat, left': nat)
    requires left' <= left
    ensures ReturnRank(pc, left') <= ReturnRank(pc, left)
  {
  }

  lemma {:induction false} TotalMonotone(frames: seq<Pc>, left: nat, left': nat)
    requires left' <= left
    ensures Total(frames, left') <= Total(frames, left)
  {
    if frames != [] {
      TotalMonotone(frames[..|frames| - 1], left, left');
      RankMonotone(frames[|frames| - 1], left, left');
    }
  }

  lemma {:induction false} TotalDrops(frames: seq<Pc>, d: nat, pc: Pc, left: nat, left': nat)
    requires d < |frames| && left' <= left && ReturnRank(pc, left') < ReturnRank(frames[d], left)
    ensures Total(frames[d := pc], left') < Total(frames, left)
    decreases |frames|
  {
    var n := |frames| - 1;
    if d == n {
      assert frames[d := pc][..n] == frames[..n];
      TotalMonotone(frames[..n], left, left');
    } else {
      assert frames[d := pc][..n] == frames[..n][d := pc];
      TotalDrops(frames[..n], d, pc, left, left');
      RankMonotone(frames[n], left, left');
    }
  }

  // --------------------------------------------------------------- what it does

  /** The step by which a frame comes closer to its return: a receive is done, a poll suspends. */
  ghost predicate Returning(s: State, d: nat, a: Action) {
    && d < |s.frames| && !s.frames[d].Idle?
    && if s.frames[d].Receiving? then a == ReceiveReturns(d, ReceiveDone)
       else if !s.frames[d].Polling? then a == FrameStep(d)
       else if s.frames[d].woke then a == PollReturns(d, PollPending)
       else a.RegisterWake? && a.d == d
  }

  predicate Lower(s: State, d: nat, s': State)
    requires d < |s.frames| && d < |s'.frames|
  {
    && Left(s'.ring) <= Left(s.ring)
    && ReturnRank(s'.frames[d], Left(s'.ring)) < ReturnRank(s.frames[d], Left(s.ring))
  }

  /** One frame has moved, and has come closer. */
  predicate Nears(s: State, d: nat, s': State)
    requires d < |s.frames|
  {
    |s'.frames| == |s.frames| && s'.frames == s.frames[d := s'.frames[d]] && Lower(s, d, s')
  }

  /** What a frame has to know for that. */
  ghost predicate Sound(s: State, d: nat)
    requires Shape(s) && d < |s.frames|
  {
    var pc := s.frames[d];
    && !pc.PollIdle? && !pc.OwnKillPush?
    && (pc.PollLock? ==> s.driver.slot)
    && (InOwnKill(pc) ==> s.flag)
    && (pc.Deq? ==> InDequeue(pc.c) && (pc.c.Release? ==> |s.ring.taken| < |s.ring.claimed|))
  }

  lemma PollNearsReturn(s: State, d: nat)
    requires Shape(s) && Enabled(s, FrameStep(d)) && Sound(s, d) && InPoll(s.frames[d])
    ensures var lower := Lower(s, d, PollAdvance(s, d)); lower
  {
  }

  lemma LifeNearsReturn(s: State, d: nat)
    requires Shape(s) && Enabled(s, FrameStep(d))
    requires s.frames[d].EntryLife? || s.frames[d].CheckLife? || s.frames[d].ExitLife?
    ensures var lower := Lower(s, d, DrainAdvance(s, d)); lower
  {
  }

  lemma ArmNearsReturn(s: State, d: nat)
    requires Shape(s) && Enabled(s, FrameStep(d))
    requires s.frames[d].ArmSlot? || s.frames[d].ArmActive? || s.frames[d].ArmClear? || s.frames[d].ClearFlag?
    ensures var lower := Lower(s, d, DrainAdvance(s, d)); lower
  {
  }

  lemma DrainNearsReturn(s: State, d: nat)
    requires Shape(s) && Enabled(s, FrameStep(d)) && InDrain(s.frames[d])
    ensures var lower := Lower(s, d, DrainAdvance(s, d)); lower
  {
    var pc := s.frames[d];
    if pc.EntryLife? || pc.CheckLife? || pc.ExitLife? { LifeNearsReturn(s, d); } else { ArmNearsReturn(s, d); }
  }

  lemma DequeueNearsReturn(s: State, d: nat)
    requires Shape(s) && Enabled(s, FrameStep(d)) && Sound(s, d) && s.frames[d].Deq?
    ensures var lower := Lower(s, d, DequeueAdvance(s, d)); lower
  {
  }

  lemma PeekNearsReturn(s: State, d: nat)
    requires Shape(s) && Enabled(s, FrameStep(d)) && InPeek(s.frames[d])
    ensures var lower := Lower(s, d, PeekAdvance(s, d)); lower
  {
  }

  lemma FinSwapNearsReturn(s: State, d: nat)
    requires Shape(s) && Enabled(s, FrameStep(d)) && s.frames[d].FinSwap?
    ensures var lower := Lower(s, d, FinAdvance(s, d)); lower
  {
  }

  lemma FinSlotNearsReturn(s: State, d: nat)
    requires Shape(s) && Enabled(s, FrameStep(d)) && (s.frames[d].FinSlot? || s.frames[d].FinInactive?)
    ensures var lower := Lower(s, d, FinAdvance(s, d)); lower
  {
  }

  lemma OnKillNearsReturn(s: State, d: nat)
    requires Shape(s) && Enabled(s, FrameStep(d))
    requires s.frames[d].FinClear? || s.frames[d].OnKill? || s.frames[d].OnFinalize?
    ensures var lower := Lower(s, d, FinAdvance(s, d)); lower
  {
  }

  lemma FinNearsReturn(s: State, d: nat)
    requires Shape(s) && Enabled(s, FrameStep(d)) && InFinalize(s.frames[d])
    ensures var lower := Lower(s, d, FinAdvance(s, d)); lower
  {
    var pc := s.frames[d];
    if pc.FinSwap? { FinSwapNearsReturn(s, d); }
    else if pc.FinSlot? || pc.FinInactive? { FinSlotNearsReturn(s, d); }
    else { OnKillNearsReturn(s, d); }
  }

  lemma OwnKillNearsReturn(s: State, d: nat)
    requires Shape(s) && Enabled(s, FrameStep(d)) && Sound(s, d) && InOwnKill(s.frames[d])
    ensures var lower := Lower(s, d, OwnKillAdvance(s, d)); lower
  {
  }

  lemma PushNearsReturn(s: State, d: nat)
    requires Shape(s) && Enabled(s, FrameStep(d)) && InPush(s.frames[d])
    ensures var lower := Lower(s, d, PushAdvance(s, d)); lower
  {
  }

  lemma FrameNearsReturn(s: State, d: nat)
    requires Shape(s) && Enabled(s, FrameStep(d)) && Sound(s, d)
    ensures var nears := Nears(s, d, FrameAdvance(s, d)); nears
  {
    var pc := s.frames[d];
    assert OwnFrameOnly(s, d, FrameAdvance(s, d));
    if pc.Deq? { DequeueNearsReturn(s, d); }
    else if InPoll(pc) { PollNearsReturn(s, d); }
    else if InDrain(pc) { DrainNearsReturn(s, d); }
    else if InPeek(pc) { PeekNearsReturn(s, d); }
    else if InFinalize(pc) { FinNearsReturn(s, d); }
    else if InOwnKill(pc) { OwnKillNearsReturn(s, d); }
    else { PushNearsReturn(s, d); }
  }

  lemma UserNearsReturn(s: State, d: nat, a: Action)
    requires Shape(s) && Returning(s, d, a) && !a.FrameStep? && Enabled(s, a)
    ensures var nears := Nears(s, d, Step(s, a)); nears
  {
  }

  /** A frame that is neither idle nor waiting for the slot mutex can make its step. */
  lemma CanReturn(s: State, h: Holder, d: nat) returns (a: Action)
    requires Inv(s, h) && d < |s.frames| && !s.frames[d].Idle?
    requires s.driver.lock.None? || s.driver.lock == Some(d)
    ensures Returning(s, d, a) && Enabled(s, a) && Contract(s, a) && Sound(s, d)
  {
    var pc := s.frames[d];
    if Holding(pc) {
      FrameHolds(s, h, d);
      if pc.Deq? { RingFacts(s, h, d); }
    }
    if pc.Receiving? { a := ReceiveReturns(d, ReceiveDone); }
    else if !pc.Polling? { a := FrameStep(d); }
    else if pc.woke { a := PollReturns(d, PollPending); }
    else {
      var w := SomeoneElse(s.wakers.Keys);
      a := RegisterWake(d, w);
    }
  }

  lemma RingFacts(s: State, h: Holder, d: nat)
    requires Inv(s, h) && d < |s.frames| && s.frames[d].Deq?
    ensures d == s.owner && ConsOk(s.ring, s.frames[d].c)
    ensures s.frames[d].c.Release? ==> |s.ring.taken| < |s.ring.claimed|
  {
    FrameHolds(s, h, d);
  }

  // ------------------------------------------------------------- nobody is doomed

  /** A frame that comes to rest, or passes its last check, strands nobody. */
  lemma FrameNoDoom(s: State, h: Holder, d: nat)
    requires Inv(s, h) && Enabled(s, FrameStep(d)) && Shape(FrameAdvance(s, d)) && Doomed(FrameAdvance(s, d))
    ensures Doomed(s)
  {
    var s' := FrameAdvance(s, d);
    var pc := s.frames[d];
    assert OwnFrameOnly(s, d, s') && Disciplined(s, d, s');
    DoomedCame(s, h, d);
    assert s' == if pc.ClearFlag? then DrainAdvance(s, d) else PeekAdvance(s, d);
    forall e | 0 <= e < |s.frames| ensures s.frames[e].Idle? || (e == s.owner && PastLastCheck(s.frames[e])) {
      if e != d { assert s'.frames[e] == s.frames[e]; }
    }
  }

  predicate Resting(pc: Pc) { pc.Idle? || PastLastCheck(pc) }

  lemma PollDoesNotRest(s: State, d: nat)
    requires Shape(s) && Enabled(s, FrameStep(d)) && InPoll(s.frames[d])
    ensures !Resting(PollAdvance(s, d).frames[d])
  {
  }

  lemma DequeueDoesNotRest(s: State, d: nat)
    requires Shape(s) && Enabled(s, FrameStep(d)) && s.frames[d].Deq?
    ensures !Resting(DequeueAdvance(s, d).frames[d])
  {
  }

  lemma DrainRestsOnly(s: State, d: nat)
    requires Shape(s) && Enabled(s, FrameStep(d)) && InDrain(s.frames[d]) && !s.frames[d].ClearFlag?
    ensures var s' := DrainAdvance(s, d); Resting(s'.frames[d]) ==> !s'.life.Killing?
  {
  }

  lemma FinRestsOnly(s: State, d: nat)
    requires Shape(s) && Enabled(s, FrameStep(d)) && InFinalize(s.frames[d])
    requires s.frames[d].OnFinalize? ==> s.life.Stopped?
    ensures var s' := FinAdvance(s, d); Resting(s'.frames[d]) ==> !s'.life.Killing?
  {
  }

  lemma OwnKillDoesNotRest(s: State, d: nat)
    requires Shape(s) && Enabled(s, FrameStep(d)) && InOwnKill(s.frames[d])
    ensures !Resting(OwnKillAdvance(s, d).frames[d])
  {
  }

  lemma PushAdds(s: State, d: nat)
    requires Shape(s) && Enabled(s, FrameStep(d)) && InPush(s.frames[d])
    ensures FrameAdvance(s, d) == PushAdvance(s, d) && !NoTokens(FrameAdvance(s, d))
  {
    assert PushAdvance(s, d).queue[s.owner] > 0;
  }

  /** A lost swap means that somebody else has the right to run. */
  lemma SwapIsNotDoomed(s: State, h: Holder, d: nat)
    requires CoreInv(s, h) && Enabled(s, FrameStep(d)) && s.frames[d].PeekSwap? && Shape(PeekAdvance(s, d))
    ensures !Doomed(PeekAdvance(s, d))
  {
    var s' := PeekAdvance(s, d);
    assert s'.posters == s.posters && s'.killers == s.killers && s'.queue == s.queue;
  }

  /** Only these steps lead to a doomed state, and only on the owner. */
  lemma DoomedCame(s: State, h: Holder, d: nat)
    requires Inv(s, h) && Enabled(s, FrameStep(d)) && Shape(FrameAdvance(s, d)) && Doomed(FrameAdvance(s, d))
    ensures s.frames[d].ClearFlag? || s.frames[d].PeekIndex? || s.frames[d].PeekLoad?
    ensures d == s.owner
  {
    var pc := s.frames[d];
    if Holding(pc) { FrameHolds(s, h, d); } else { PeekingIsOwner(s, h, d); }
    if pc.Deq? { DequeueDoesNotRest(s, d); }
    else if InPoll(pc) { PollDoesNotRest(s, d); }
    else if InDrain(pc) { if !pc.ClearFlag? { DrainRestsOnly(s, d); } }
    else if InPeek(pc) { if pc.PeekSwap? { SwapIsNotDoomed(s, h, d); } }
    else if InFinalize(pc) { FinRestsOnly(s, d); }
    else if InOwnKill(pc) { OwnKillDoesNotRest(s, d); }
    else { PushAdds(s, d); }
  }

  lemma UserNoDoom(s: State, h: Holder, d: nat, a: Action)
    requires Inv(s, h) && Returning(s, d, a) && !a.FrameStep? && Enabled(s, a) && Shape(Step(s, a))
    ensures !Doomed(Step(s, a))
  {
    var s' := Step(s, a);
    if a.ReceiveReturns? { assert s'.frames[d].Deq?; }
    else if a.RegisterWake? { assert a.w in s'.wakers; }
    else {
      assert Leaving(s.frames[d]) && s'.wakers == s.wakers && s'.queue == s.queue;
      if h.AWake? { assert h.w in s'.wakers; }
      else if h.AToken? { assert s'.queue[h.d] == 1; }
      else { assert s'.frames[h.d] == s.frames[h.d] && !Resting(s'.frames[h.d]); }
    }
  }

  // ------------------------------------------------------------- no token is left

  /** A frame on a way to its return that pushes nothing. */
  predicate Safe(s: State, d: nat)
    requires Shape(s) && d < |s.frames|
  {
    var pc := s.frames[d];
    || pc.Idle? || pc.LoadActive? || pc.PollClear? || pc.PollLock? || pc.Polling? || pc.EntryLife?
    || pc.Deq? || pc.CheckLife? || pc.Receiving? || InFinalize(pc)
    || (pc.ExitLife? && (s.life.Killing? || !HeadPublished(s.ring)))
    || ((pc.ClearFlag? || pc.PeekIndex?) && !HeadPublished(s.ring))
    || (pc.PeekLoad? && pc.pos == Head(s.ring) && !HeadPublished(s.ring))
  }

  ghost predicate SafeState(s: State, d: nat) {
    && Shape(s) && NoTokens(s) && d < |s.frames| && Safe(s, d)
    && (forall e :: 0 <= e < |s.frames| && e != d ==> s.frames[e].Idle?)
  }

  lemma PollSafe(s: State, d: nat)
    requires Shape(s) && Enabled(s, FrameStep(d)) && Sound(s, d) && InPoll(s.frames[d]) && !InPollEnd(s.frames[d])
    ensures var s' := PollAdvance(s, d); s'.queue == s.queue && Shape(s') && Safe(s', d)
  {
  }

  lemma DequeueSafe(s: State, d: nat)
    requires Shape(s) && Enabled(s, FrameStep(d)) && s.frames[d].Deq? && ConsOk(s.ring, s.frames[d].c)
    ensures var s' := DequeueAdvance(s, d); s'.queue == s.queue && Shape(s') && Safe(s', d)
  {
  }

  lemma DrainSafe(s: State, d: nat)
    requires Shape(s) && Enabled(s, FrameStep(d)) && Safe(s, d) && !s.life.Stopped?
    requires s.frames[d].EntryLife? || s.frames[d].CheckLife? || s.frames[d].ExitLife? || s.frames[d].ClearFlag?
    ensures var s' := DrainAdvance(s, d); s'.queue == s.queue && Shape(s') && Safe(s', d)
  {
  }

  lemma PeekSafe(s: State, d: nat)
    requires Shape(s) && Enabled(s, FrameStep(d)) && Safe(s, d) && s.ring.consumerIndex == Head(s.ring)
    requires s.frames[d].PeekIndex? || s.frames[d].PeekLoad?
    ensures var s' := PeekAdvance(s, d); s'.queue == s.queue && Shape(s') && Safe(s', d)
  {
  }

  lemma FinSafe(s: State, d: nat)
    requires Shape(s) && Enabled(s, FrameStep(d)) && InFinalize(s.frames[d])
    ensures var s' := FinAdvance(s, d); s'.queue == s.queue && Shape(s') && Safe(s', d)
  {
  }

  lemma UserSafe(s: State, d: nat, a: Action)
    requires Shape(s) && Returning(s, d, a) && !a.FrameStep? && Enabled(s, a)
    ensures var s' := Step(s, a);
            && s'.queue == s.queue && Shape(s') && d < |s'.frames| && Safe(s', d)
            && s'.frames == s.frames[d := s'.frames[d]]
  {
  }

  lemma FrameSafe(s: State, h: Holder, d: nat)
    requires Inv(s, h) && Enabled(s, FrameStep(d)) && Safe(s, d) && Sound(s, d)
    ensures var s' := FrameAdvance(s, d); s'.queue == s.queue && Shape(s') && d < |s'.frames| && Safe(s', d)
  {
    var pc := s.frames[d];
    if pc.Deq? { RingFacts(s, h, d); DequeueSafe(s, d); }
    else if InPoll(pc) { PollSafe(s, d); }
    else if InDrain(pc) { FrameHolds(s, h, d); DrainSafe(s, d); }
    else if InPeek(pc) { PeekingIsOwner(s, h, d); PeekSafe(s, d); }
    else { FinSafe(s, d); }
  }

  lemma SafeStep(s: State, h: Holder, d: nat, a: Action)
    requires Inv(s, h) && SafeState(s, d) && Returning(s, d, a) && Enabled(s, a) && Sound(s, d)
    ensures var safe := SafeState(Step(s, a), d); safe
  {
    if a.FrameStep? {
      FrameSafe(s, h, d);
      assert OwnFrameOnly(s, d, FrameAdvance(s, d));
    } else {
      UserSafe(s, d, a);
    }
  }

  // ------------------------------------------------------------------- the run

  /** What a run that only finishes frames has achieved. */
  ghost predicate Settled(s: State, acts: seq<Action>, s': State) {
    && Leads(s, acts, s', true) && AtRest(s') && Shape(s) && Shape(s')
    && (forall a :: a in acts ==> !a.Execute?)
    && (Doomed(s') ==> Doomed(s))
  }

  lemma SettledFirst(s: State, a: Action, acts: seq<Action>, s': State)
    requires Shape(s) && Enabled(s, a) && Contract(s, a) && !a.Execute? && Settled(Step(s, a), acts, s')
    requires Doomed(Step(s, a)) ==> Doomed(s)
    ensures Settled(s, [a] + acts, s')
  {
    assert ([a] + acts)[1..] == acts && ([a] + acts)[0] == a;
    assert Leads(s, [a] + acts, s', true);
  }

  /** The frame to finish next: who holds the slot mutex goes first. */
  lemma NextToReturn(s: State, h: Holder) returns (d: nat)
    requires Inv(s, h) && !AtRest(s)
    ensures d < |s.frames| && !s.frames[d].Idle? && (s.driver.lock.None? || s.driver.lock == Some(d))
  {
    if s.driver.lock.Some? {
      d := s.driver.lock.value;
    } else {
      d :| 0 <= d < |s.frames| && !s.frames[d].Idle?;
    }
  }

  lemma NoNewDoom(s: State, h: Holder, d: nat, a: Action)
    requires Inv(s, h) && Returning(s, d, a) && Enabled(s, a) && Shape(Step(s, a))
    ensures Doomed(Step(s, a)) ==> Doomed(s)
  {
    if a.FrameStep? {
      if Doomed(Step(s, a)) { FrameNoDoom(s, h, d); }
    } else {
      UserNoDoom(s, h, d, a);
    }
  }

  lemma ReturnDrops(s: State, d: nat, a: Action)
    requires Shape(s) && Returning(s, d, a) && Enabled(s, a) && Sound(s, d)
    ensures Total(Step(s, a).frames, Left(Step(s, a).ring)) < Total(s.frames, Left(s.ring))
  {
    var s' := Step(s, a);
    if a.FrameStep? { FrameNearsReturn(s, d); } else { UserNearsReturn(s, d, a); }
    assert Nears(s, d, s');
    TotalDrops(s.frames, d, s'.frames[d], Left(s.ring), Left(s'.ring));
  }

  /** Every runner comes to rest by steps of its own frames; if only the frame `safe` was at work,
      and on a way that pushes nothing, without a token. */
  lemma {:induction false} Settles(s: State, h: Holder, safe: Option<nat>) returns (acts: seq<Action>, s': State)
    requires Inv(s, h) && (safe.Some? ==> SafeState(s, safe.value))
    ensures Settled(s, acts, s') && (safe.Some? ==> NoTokens(s'))
    decreases Total(s.frames, Left(s.ring))
  {
    if AtRest(s) {
      acts, s' := [], s;
    } else {
      var d := NextToReturn(s, h);
      var a := CanReturn(s, h, d);
      var h1 := StepKeeps(s, h, a);
      ReturnDrops(s, d, a);
      NoNewDoom(s, h, d, a);
      if safe.Some? { SafeStep(s, h, safe.value, a); }
      var rest;
      rest, s' := Settles(Step(s, a), h1, safe);
      acts := [a] + rest;
      SettledFirst(s, a, rest, s');
    }
  }

  lemma ComesToRest(s: State) returns (acts: seq<Action>, s': State)
    requires Reachable(s)
    ensures Settled(s, acts, s') && Reachable(s')
  {
    var h := ReachableInv(s);
    acts, s' := Settles(s, h, None);
    ReachableOn(s, acts, s');
  }

  lemma Executed(s: State, h: Holder, d: nat)
    requires Inv(s, h) && AtRest(s) && d < |s.frames| && d < |s.queue| && s.queue[d] > 0
    ensures Enabled(s, Execute(d)) && Contract(s, Execute(d))
    ensures var s1 := Step(s, Execute(d)); d < |s1.frames| && SafeState(s1, d) && !Doomed(s1)
    ensures var kept := Inv(Step(s, Execute(d)), AFrame(d)); kept
  {
    var h1 := ExecuteKeeps(s, h, d);
    FrameHolds(Step(s, Execute(d)), h1, d);
  }

  /** A waiting token can be used up: its execution returns, and leaves no token behind. */
  lemma UsesToken(s: State, d: nat) returns (acts: seq<Action>, s': State)
    requires Reachable(s) && AtRest(s) && d < |s.frames| && d < |s.queue| && s.queue[d] > 0
    ensures Shape(s) && Enabled(s, Execute(d)) && Contract(s, Execute(d)) && !Doomed(Step(s, Execute(d)))
    ensures Settled(Step(s, Execute(d)), acts, s') && NoTokens(s')
  {
    var h := ReachableInv(s);
    Executed(s, h, d);
    acts, s' := Settles(Step(s, Execute(d)), AFrame(d), Some(d));
  }

  lemma FinalizedHasNoTokens(s: State)
    requires Reachable(s) && s.log.finals == 1
    ensures NoTokens(s)
  {
    var h := ReachableInv(s);
  }
}
