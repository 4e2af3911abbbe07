/**
 What every interleaving of the runner keeps, and the proof that each step keeps it.

 The invariant names the one *holder* of the right to run the actor. It is a witness of
 the proof, not part of the state: the state itself carries only what the program stores.
 Each clause speaks of the few components it needs, so that a step which leaves them alone
 keeps it at once.

 Postconditions here and elsewhere have the form `ensures var kept := P(...); kept`. It means
 `ensures P(...)`, but the verifier proves it as one goal and does not take the predicate apart
 into its many conjuncts, which is a great deal faster.
 */
module RunnerInvariant {
  import opened Basics
  import opened MailboxRing
  import opened RunnerModel

  datatype Holder =
    | Nobody
    | APoster(t: nat)
    | AKiller(t: nat)
    | AToken(d: nat)
    | AFrame(d: nat)
    | AWake(w: nat)
    | Retired

  /** Frames that carry the right to run the actor. The others are idle, peeking after the
      flag was cleared, or finishing a poll whose wake is already out. */
  predicate Holding(pc: Pc) {
    !pc.Idle? && !Peeking(pc) && !Leaving(pc)
  }

  predicate Peeking(pc: Pc) { pc.PeekIndex? || pc.PeekLoad? || pc.PeekSwap? }

  predicate Leaving(pc: Pc) { pc.Polling? && pc.woke }

  predicate Finalizing(pc: Pc) {
    (pc.Deq? && pc.fin) || pc.FinSlot? || pc.FinInactive? || pc.FinClear? || pc.OnKill? || pc.OnFinalize?
  }

  predicate Resuming(pc: Pc) {
    pc.LoadActive? || (pc.PollClear? && !pc.armed) || (pc.PollLock? && !pc.armed)
  }

  function ConsOf(pc: Pc): Cons { if pc.Deq? then pc.c else Out }

  /** The holder's place in `execute`, `Idle` when the holder is not a frame. */
  function HolderPc(frames: seq<Pc>, h: Holder): Pc {
    if h.AFrame? && h.d < |frames| then frames[h.d] else Idle
  }

  // ------------------------------------------------------------- permissions

  ghost predicate FlagOk(flag: bool, h: Holder) { flag <==> !h.Nobody? }

  ghost predicate PostersOk(posters: map<nat, Post>, h: Holder) {
    && (forall t :: t in posters ==> (posters[t].at.Push? <==> h == APoster(t)))
    && (h.APoster? ==> h.t in posters)
  }

  ghost predicate KillersOk(killers: map<nat, KillPc>, h: Holder) {
    && (forall t :: t in killers ==> (killers[t].KillPushToken? <==> h == AKiller(t)))
    && (h.AKiller? ==> h.t in killers)
  }

  ghost predicate TokensOk(queue: seq<nat>, h: Holder) {
    && (forall d :: 0 <= d < |queue| ==> queue[d] == if h == AToken(d) then 1 else 0)
    && (h.AToken? ==> h.d < |queue|)
  }

  ghost predicate FramesOk(frames: seq<Pc>, h: Holder) {
    && (forall d :: 0 <= d < |frames| ==> (Holding(frames[d]) <==> h == AFrame(d)))
    && (h.AFrame? ==> h.d < |frames|)
  }

  ghost predicate WakersOk(wakers: map<nat, WakePc>, h: Holder) {
    && (forall w :: w in wakers ==> h == AWake(w))
    && (h.AWake? ==> h.w in wakers)
  }

  // ------------------------------------------------------------- poll driver

  predicate Off(v: Driver) { !v.slot && !v.active && !v.marked && v.lock.None? }

  predicate On(v: Driver) { v.slot && v.active }

  /** A token, or a frame that just took one: either plain work on the owner dispatcher, or
      the resumption of a suspended receive on the dispatcher its wake chose. */
  predicate TokenOk(v: Driver, owner: nat, resumeOn: nat, d: nat) {
    (d == owner && Off(v)) || (On(v) && v.marked && d == resumeOn)
  }

  predicate PcOk(v: Driver, owner: nat, resumeOn: nat, d: nat, pc: Pc) {
    match pc
    case LoadActive => TokenOk(v, owner, resumeOn, d)
    case PollClear(armed) =>
      On(v) && if armed then !v.marked && d == owner && v.lock.None? else v.marked && d == resumeOn
    case PollLock(armed) =>
      On(v) && !v.marked && if armed then d == owner && v.lock.None? else d == resumeOn
    case Polling(armed, _) =>
      On(v) && !v.marked && v.lock == Some(d) && if armed then d == owner else d == resumeOn
    case ReadyInactive => !v.slot && v.active && !v.marked && v.lock.None?
    case ReadyClear => Off(v)
    case ReadyPush => Off(v)
    case FailInactive(armed) => !v.slot && v.active && !v.marked && v.lock.None? && (armed ==> d == owner)
    case FailClear(armed) => Off(v) && (armed ==> d == owner)
    case OwnKillCas(site) => Off(v) && (site.AtDrain? ==> d == owner)
    case OwnKillSwap(site) => Off(v) && (site.AtDrain? ==> d == owner)
    case FailPush => Off(v)
    case ArmActive => v.slot && !v.active && !v.marked && v.lock.None? && d == owner
    case ArmClear => On(v) && !v.marked && v.lock.None? && d == owner
    case OwnKillPush(_) => false
    case PollIdle(_) => false
    case Deq(c, _) => Off(v) && d == owner && InDequeue(c)
    case _ => Off(v) && d == owner
  }

  ghost predicate WakeOk(v: Driver, resumeOn: nat, wakers: map<nat, WakePc>, w: nat) {
    && w in wakers && On(v)
    && (v.marked <==> wakers[w].PushWake?)
    && (!wakers[w].Registered? ==> wakers[w].target == resumeOn)
  }

  ghost predicate DriverOk(v: Driver, owner: nat, resumeOn: nat, wakers: map<nat, WakePc>, pc: Pc, h: Holder) {
    match h
    case AToken(d) => TokenOk(v, owner, resumeOn, d)
    case AWake(w) => WakeOk(v, resumeOn, wakers, w)
    case AFrame(d) => PcOk(v, owner, resumeOn, d, pc)
    case _ => Off(v)
  }

  /** Frames without the permission are harmless to its holder. */
  ghost predicate BystandersOk(v: Driver, owner: nat, frames: seq<Pc>, h: Holder) {
    && (forall d :: 0 <= d < |frames| && Leaving(frames[d]) ==>
          v.lock == Some(d) && On(v) && (h.AWake? || h.AToken? || Resuming(HolderPc(frames, h))))
    && (forall d :: 0 <= d < |frames| && Peeking(frames[d]) ==>
          d == owner && Off(v) && (h.Nobody? || h.APoster? || h.AKiller? || h.AToken?))
    && (v.lock.Some? ==> v.lock.value < |frames| && frames[v.lock.value].Polling?)
  }

  ghost predicate PeekOk(pc: Pc, consumerIndex: nat) { pc.PeekLoad? ==> pc.pos == consumerIndex }

  // ------------------------------------------------------- lifecycle and mails

  ghost predicate LifeOk(life: Life, kills: nat, finals: nat, pc: Pc, h: Holder) {
    && (life.Stopped? <==> h.Retired? || Finalizing(pc))
    && (pc.FinSwap? || pc.FailPush? || pc.OwnKillSwap? ==> life.Killing?)
    && kills == (if h.Retired? || pc.OnFinalize? then 1 else 0)
    && finals == (if h.Retired? then 1 else 0)
  }

  /** What `on_receive` saw is what left the ring, up to one mail dropped by a kill. */
  ghost predicate ReceivedOk(received: seq<Option<Mail>>, taken: seq<Option<Mail>>, life: Life, pc: Pc, h: Holder) {
    var n := |taken|;
    && |received| <= n && received == taken[..|received|]
    && (if pc.Deq? && pc.c.Advance? && !pc.fin then |received| == n - 1
        else if pc.CheckLife? then |received| == n - 1 && pc.item == taken[n - 1]
        else if pc.ExitLife? then life.Running? ==> |received| == n
        else pc.FinSwap? || Finalizing(pc) || h.Retired? || |received| == n)
  }

  /** Every registered wake becomes one token, and every such token one poll. */
  ghost predicate WakesOk(registered: nat, woken: nat, resumed: nat, active: bool, pc: Pc, h: Holder) {
    && registered == woken + (if h.AWake? then 1 else 0)
    && woken == resumed + (if (h.AToken? || Resuming(pc)) && active then 1 else 0)
  }

  // -------------------------------------------------------------- no lost work

  predicate AboutToCheckFlag(post: Post) { post.at.LoadFlag? || post.at.SwapFlag? }

  ghost predicate SomePostChecksFlag(posters: map<nat, Post>) {
    exists t :: t in posters && AboutToCheckFlag(posters[t])
  }

  ghost predicate SomeKillSwaps(killers: map<nat, KillPc>) {
    exists t :: t in killers && killers[t].KillSwapFlag?
  }

  ghost predicate MailNoticed(headPublished: bool, posters: map<nat, Post>, ownerPc: Pc, h: Holder) {
    headPublished ==> !h.Nobody? || SomePostChecksFlag(posters) || Peeking(ownerPc)
  }

  ghost predicate KillNoticed(life: Life, missed: bool, killers: map<nat, KillPc>, pc: Pc, h: Holder) {
    life.Killing? && (h.Nobody? || pc.ClearFlag?) ==> missed || SomeKillSwaps(killers)
  }

  ghost predicate MailboxOk(s: State)
    requires Shape(s)
  {
    RingInv(s.ring, s.posters, ConsOf(s.frames[s.owner]))
  }

  /** Everything but the ring itself. */
  ghost predicate CoreInv(s: State, h: Holder) {
    var pc := HolderPc(s.frames, h);
    && Shape(s)
    && FlagOk(s.flag, h)
    && PostersOk(s.posters, h)
    && KillersOk(s.killers, h)
    && TokensOk(s.queue, h)
    && FramesOk(s.frames, h)
    && WakersOk(s.wakers, h)
    && DriverOk(s.driver, s.owner, s.log.resumeOn, s.wakers, pc, h)
    && BystandersOk(s.driver, s.owner, s.frames, h)
    && PeekOk(s.frames[s.owner], s.ring.consumerIndex)
    && LifeOk(s.life, s.log.kills, s.log.finals, pc, h)
    && ReceivedOk(s.log.received, s.ring.taken, s.life, pc, h)
    && WakesOk(s.log.registered, s.log.woken, s.log.resumed, s.driver.active, pc, h)
    && MailNoticed(HeadPublished(s.ring), s.posters, s.frames[s.owner], h)
    && KillNoticed(s.life, s.log.missed, s.killers, pc, h)
  }

  ghost predicate Inv(s: State, h: Holder) {
    CoreInv(s, h) && MailboxOk(s)
  }

  lemma InitialInv(owner: nat, dispatchers: nat, capacity: nat)
    requires owner < dispatchers && capacity >= 2
    ensures Inv(Initial(owner, dispatchers, capacity), Nobody)
  {
    InitialRing(capacity);
    var s := Initial(owner, dispatchers, capacity);
    assert SeqAt(s.ring, 0) == 0;
  }

  // --------------------------------------------------------------------- posts

  /** A post moving between places outside `try_enqueue` leaves the ring alone. */
  lemma PostMoves(s: State, t: nat, post: Post)
    requires Shape(s) && MailboxOk(s)
    requires !InEnqueue(post.at) || post.at.LoadIndex?
    requires t in s.posters ==>
      && !s.posters[t].at.Write? && !s.posters[t].at.Publish?
      && post.number >= s.posters[t].number
      && (BeforeClaim(post.at) ==> BeforeClaim(s.posters[t].at) || post.number > s.posters[t].number)
    ensures RingInv(s.ring, s.posters[t := post], ConsOf(s.frames[s.owner]))
  {
    var posters' := s.posters[t := post];
    forall u | u in posters' ensures PostOk(s.ring, u, posters'[u]) {
      if u != t { assert PostOk(s.ring, u, s.posters[u]); }
    }
  }

  lemma OtherPostsCheckFlag(posters: map<nat, Post>, t: nat, post: Post)
    requires SomePostChecksFlag(posters)
    requires t in posters && AboutToCheckFlag(posters[t]) ==> AboutToCheckFlag(post)
    ensures SomePostChecksFlag(posters[t := post])
  {
    var u :| u in posters && AboutToCheckFlag(posters[u]);
    assert AboutToCheckFlag(posters[t := post][u]);
  }

  /** A post that neither gains nor gives away the permission. */
  lemma PostUpdateCore(s: State, h: Holder, t: nat, ring': Ring, post': Post)
    requires CoreInv(s, h)
    requires t in s.posters ==> !s.posters[t].at.Push?
    requires !post'.at.Push?
    requires Shaped(ring') && ring'.taken == s.ring.taken && ring'.consumerIndex == s.ring.consumerIndex
    requires HeadPublished(ring') ==> HeadPublished(s.ring) || AboutToCheckFlag(post')
    requires t in s.posters && AboutToCheckFlag(s.posters[t]) ==> AboutToCheckFlag(post') || s.flag
    ensures var kept := CoreInv(s.(ring := ring', posters := s.posters[t := post']), h); kept
  {
    var posters' := s.posters[t := post'];
    assert posters'[t] == post';
    if !s.flag && SomePostChecksFlag(s.posters) { OtherPostsCheckFlag(s.posters, t, post'); }
  }

  lemma BeginPostKeeps(s: State, h: Holder, t: nat)
    requires Inv(s, h) && Enabled(s, BeginPost(t))
    ensures var kept := Inv(Step(s, BeginPost(t)), h); kept
  {
    var post' := Step(s, BeginPost(t)).posters[t];
    PostUpdateCore(s, h, t, s.ring, post');
    PostMoves(s, t, post');
  }

  lemma EnqueueStepKeeps(s: State, h: Holder, t: nat)
    requires Inv(s, h) && Enabled(s, PostStep(t)) && InEnqueue(s.posters[t].at)
    ensures var kept := Inv(Step(s, PostStep(t)), h); kept
  {
    var m := Mail(t, s.posters[t].number);
    var (ring', pc') := EnqueueStep(s.ring, m, s.posters[t].at);
    EnqueueFrame(s.ring, m, s.posters[t].at);
    PostUpdateCore(s, h, t, ring', s.posters[t].(at := pc'));
    EnqueueKeeps(s.ring, s.posters, ConsOf(s.frames[s.owner]), t);
  }

  lemma PostCheckKeeps(s: State, h: Holder, t: nat)
    requires Inv(s, h) && Enabled(s, PostStep(t))
    requires s.posters[t].at.LoadLife? || s.posters[t].at.LoadFlag? || (s.posters[t].at.SwapFlag? && s.flag)
    ensures var kept := Inv(Step(s, PostStep(t)), h); kept
  {
    var post' := Step(s, PostStep(t)).posters[t];
    PostUpdateCore(s, h, t, s.ring, post');
    PostMoves(s, t, post');
  }

  lemma PostSwapFlagCore(s: State, h: Holder, t: nat) returns (h': Holder)
    requires CoreInv(s, h) && Enabled(s, PostStep(t)) && s.posters[t].at.SwapFlag? && !s.flag
    ensures h' == APoster(t)
    ensures var kept := CoreInv(Step(s, PostStep(t)), h'); kept
  {
    h' := APoster(t);
  }

  lemma PostPushCore(s: State, h: Holder, t: nat) returns (h': Holder)
    requires CoreInv(s, h) && Enabled(s, PostStep(t)) && s.posters[t].at.Push?
    ensures var kept := CoreInv(Step(s, PostStep(t)), h'); kept
  {
    h' := AToken(s.owner);
  }

  lemma PostStepKeeps(s: State, h: Holder, t: nat) returns (h': Holder)
    requires Inv(s, h) && Enabled(s, PostStep(t))
    ensures var kept := Inv(Step(s, PostStep(t)), h'); kept
  {
    if InEnqueue(s.posters[t].at) {
      h' := h;
      EnqueueStepKeeps(s, h, t);
    } else if (s.posters[t].at.SwapFlag? && !s.flag) || s.posters[t].at.Push? {
      if s.posters[t].at.Push? { h' := PostPushCore(s, h, t); } else { h' := PostSwapFlagCore(s, h, t); }
      PostMoves(s, t, Step(s, PostStep(t)).posters[t]);
    } else {
      h' := h;
      PostCheckKeeps(s, h, t);
    }
  }

  // --------------------------------------------------------------------- kills

  lemma OtherKillsSwap(killers: map<nat, KillPc>, t: nat, pc: KillPc)
    requires SomeKillSwaps(killers)
    requires t in killers ==> !killers[t].KillSwapFlag?
    ensures SomeKillSwaps(killers[t := pc]) && SomeKillSwaps(killers - {t})
  {
    var u :| u in killers && killers[u].KillSwapFlag?;
    assert killers[t := pc][u].KillSwapFlag? && (killers - {t})[u].KillSwapFlag?;
  }

  lemma BeginKillKeeps(s: State, h: Holder, t: nat)
    requires Inv(s, h) && Enabled(s, BeginKill(t))
    ensures var kept := Inv(Step(s, BeginKill(t)), h); kept
  {
    if SomeKillSwaps(s.killers) { OtherKillsSwap(s.killers, t, KillCas); }
  }

  lemma KillCasCore(s: State, h: Holder, t: nat)
    requires CoreInv(s, h) && Enabled(s, KillStep(t)) && s.killers[t].KillCas?
    ensures var kept := CoreInv(Step(s, KillStep(t)), h); kept
  {
    var s' := Step(s, KillStep(t));
    if s.life.Running? { assert s'.killers[t].KillSwapFlag?; }
    else if SomeKillSwaps(s.killers) { OtherKillsSwap(s.killers, t, KillCas); }
  }

  lemma KillSwapCore(s: State, h: Holder, t: nat) returns (h': Holder)
    requires CoreInv(s, h) && Enabled(s, KillStep(t)) && s.killers[t].KillSwapFlag?
    ensures var kept := CoreInv(Step(s, KillStep(t)), h'); kept
  {
    h' := if s.flag then h else AKiller(t);
  }

  lemma KillPushCore(s: State, h: Holder, t: nat) returns (h': Holder)
    requires CoreInv(s, h) && Enabled(s, KillStep(t)) && s.killers[t].KillPushToken?
    ensures var kept := CoreInv(Step(s, KillStep(t)), h'); kept
  {
    h' := AToken(s.owner);
  }

  lemma KillStepKeeps(s: State, h: Holder, t: nat) returns (h': Holder)
    requires Inv(s, h) && Enabled(s, KillStep(t))
    ensures var kept := Inv(Step(s, KillStep(t)), h'); kept
  {
    h' := h;
    match s.killers[t]
    case KillCas => KillCasCore(s, h, t);
    case KillSwapFlag => h' := KillSwapCore(s, h, t);
    case KillPushToken => h' := KillPushCore(s, h, t);
  }

  // --------------------------------------------------------------------- wakes

  lemma FireWakeKeeps(s: State, h: Holder, w: nat, context: Option<nat>)
    requires Inv(s, h) && Enabled(s, FireWake(w, context))
    ensures var kept := Inv(Step(s, FireWake(w, context)), h); kept
  {
  }

  lemma WakeMarkCore(s: State, h: Holder, w: nat)
    requires CoreInv(s, h) && Enabled(s, WakeStep(w)) && !s.wakers[w].PushWake?
    ensures var kept := CoreInv(Step(s, WakeStep(w)), h); kept
  {
  }

  lemma WakePushCore(s: State, h: Holder, w: nat) returns (h': Holder)
    requires CoreInv(s, h) && Enabled(s, WakeStep(w)) && s.wakers[w].PushWake?
    ensures var kept := CoreInv(Step(s, WakeStep(w)), h'); kept
  {
    h' := AToken(s.wakers[w].target);
  }

  lemma WakeStepKeeps(s: State, h: Holder, w: nat) returns (h': Holder)
    requires Inv(s, h) && Enabled(s, WakeStep(w))
    ensures var kept := Inv(Step(s, WakeStep(w)), h'); kept
  {
    if s.wakers[w].PushWake? { h' := WakePushCore(s, h, w); }
    else { h' := h; WakeMarkCore(s, h, w); }
  }

  lemma ExecuteKeeps(s: State, h: Holder, d: nat) returns (h': Holder)
    requires Inv(s, h) && Enabled(s, Execute(d))
    ensures var kept := Inv(Step(s, Execute(d)), h'); kept
  {
    h' := AFrame(d);
    TokenHolds(s, h, d);
    ExecuteCore(s, d);
  }

  lemma TokenHolds(s: State, h: Holder, d: nat)
    requires CoreInv(s, h) && d < |s.queue| && s.queue[d] > 0
    ensures h == AToken(d)
  {
  }

  lemma ExecuteCore(s: State, d: nat)
    requires CoreInv(s, AToken(d)) && Enabled(s, Execute(d))
    ensures var kept := CoreInv(Step(s, Execute(d)), AFrame(d)); kept
  {
  }

  // -------------------------------------------------------------------- frames

  predicate AtRest(c: Cons) { c.Out? || c.Index? || c.Empty? || c.Got? }

  lemma ConsAtRest(r: Ring, posters: map<nat, Post>, c: Cons, c': Cons)
    requires RingInv(r, posters, c) && AtRest(c) && AtRest(c')
    ensures RingInv(r, posters, c')
  {
  }

  /** A step of a frame outside `try_dequeue` leaves the ring alone. */
  lemma FrameRing(s: State, d: nat, s': State, pc: Pc)
    requires Shape(s) && MailboxOk(s) && d < |s.frames| && !s.frames[d].Deq?
    requires Shape(s') && s'.ring == s.ring && s'.posters == s.posters && s'.owner == s.owner
    requires s'.frames == s.frames[d := pc] && AtRest(ConsOf(pc))
    ensures MailboxOk(s')
  {
    if d == s.owner {
      ConsAtRest(s.ring, s.posters, Out, ConsOf(pc));
    }
  }

  /** What the holding frame itself needs to know. */
  ghost predicate Local(s: State, d: nat)
    requires d < |s.frames|
  {
    var pc := s.frames[d];
    && PcOk(s.driver, s.owner, s.log.resumeOn, d, pc)
    && (s.driver.lock == Some(d) ==> pc.Polling?)
    && LifeOk(s.life, s.log.kills, s.log.finals, pc, AFrame(d))
    && ReceivedOk(s.log.received, s.ring.taken, s.life, pc, AFrame(d))
    && WakesOk(s.log.registered, s.log.woken, s.log.resumed, s.driver.active, pc, AFrame(d))
    && KillNoticed(s.life, s.log.missed, s.killers, pc, AFrame(d))
  }

  /** The slot mutex changes hands properly, and a leaving poll elsewhere keeps it. */
  predicate LockStep(v: Driver, v': Driver, d: nat, pc': Pc) {
    && (v.lock.None? || v.lock == Some(d) || (Resuming(pc') && On(v') && v'.lock == v.lock))
    && (v'.lock.Some? ==> if v'.lock == Some(d) then pc'.Polling? else v'.lock == v.lock)
  }

  predicate OnlyFrame(s: State, d: nat, s': State)
    requires d < |s.frames|
  {
    && |s'.frames| == |s.frames|
    && s'.log == s.log.(received := s'.log.received, kills := s'.log.kills, resumed := s'.log.resumed)
    && s' == s.(ring := s'.ring, life := s'.life, driver := s'.driver, frames := s.frames[d := s'.frames[d]],
                log := s'.log)
  }

  /** The holding frame takes a step and keeps the permission. */
  lemma HolderMoves(s: State, d: nat, s': State)
    requires CoreInv(s, AFrame(d)) && OnlyFrame(s, d, s') && Shaped(s'.ring)
    requires Holding(s'.frames[d]) && Local(s', d) && LockStep(s.driver, s'.driver, d, s'.frames[d])
    ensures var kept := CoreInv(s', AFrame(d)); kept
  {
  }

  predicate Moved(s: State, d: nat, s': State)
    requires d < |s.frames|
  {
    && OnlyFrame(s, d, s')
    && LockStep(s.driver, s'.driver, d, s'.frames[d])
    && Holding(s'.frames[d])
    && s'.ring == s.ring && AtRest(ConsOf(s'.frames[d]))
  }

  lemma PollEntryLocal(s: State, d: nat)
    requires Shape(s) && Enabled(s, FrameStep(d)) && Local(s, d)
    requires var pc := s.frames[d]; pc.LoadActive? || pc.PollClear?
    ensures var kept := Moved(s, d, Step(s, FrameStep(d))) && Local(Step(s, FrameStep(d)), d); kept
  {
  }

  lemma PollLockLocal(s: State, d: nat)
    requires Shape(s) && Enabled(s, FrameStep(d)) && Local(s, d)
    requires var pc := s.frames[d]; pc.PollLock? || pc.PollIdle?
    ensures var kept := Moved(s, d, Step(s, FrameStep(d))) && Local(Step(s, FrameStep(d)), d); kept
  {
  }

  lemma ReadyLocal(s: State, d: nat)
    requires Shape(s) && Enabled(s, FrameStep(d)) && Local(s, d)
    requires var pc := s.frames[d]; pc.ReadyInactive? || pc.ReadyClear?
    ensures var kept := Moved(s, d, Step(s, FrameStep(d))) && Local(Step(s, FrameStep(d)), d); kept
  {
  }

  lemma FailLocal(s: State, d: nat)
    requires Shape(s) && Enabled(s, FrameStep(d)) && Local(s, d)
    requires var pc := s.frames[d]; pc.FailInactive? || pc.FailClear?
    ensures var kept := Moved(s, d, Step(s, FrameStep(d))) && Local(Step(s, FrameStep(d)), d); kept
  {
  }

  lemma LifeLocal(s: State, d: nat)
    requires Shape(s) && Enabled(s, FrameStep(d)) && Local(s, d)
    requires var pc := s.frames[d]; pc.EntryLife? || pc.ExitLife?
    ensures var kept := Moved(s, d, Step(s, FrameStep(d))) && Local(Step(s, FrameStep(d)), d); kept
  {
  }

  /** The mail taken last is the one handed out. */
  lemma HandedOut(received: seq<Option<Mail>>, taken: seq<Option<Mail>>, item: Option<Mail>, h: Holder)
    requires ReceivedOk(received, taken, Running, CheckLife(item), h)
    ensures ReceivedOk(received + [item], taken, Running, Receiving(item), h)
  {
  }

  lemma RunningLocal(s: State, d: nat)
    requires Shape(s) && Enabled(s, FrameStep(d)) && Local(s, d) && s.frames[d].CheckLife? && s.life.Running?
    ensures var kept := Moved(s, d, DrainAdvance(s, d)) && Local(DrainAdvance(s, d), d); kept
  {
    var pc := s.frames[d];
    HandedOut(s.log.received, s.ring.taken, pc.item, AFrame(d));
    assert DrainAdvance(s, d) == At(s.(log := s.log.(received := s.log.received + [pc.item])), d, Receiving(pc.item));
  }

  lemma KilledLocal(s: State, d: nat)
    requires Shape(s) && Enabled(s, FrameStep(d)) && Local(s, d) && s.frames[d].CheckLife? && !s.life.Running?
    ensures var kept := Moved(s, d, DrainAdvance(s, d)) && Local(DrainAdvance(s, d), d); kept
  {
    assert DrainAdvance(s, d) == At(s, d, ExitLife);
  }

  lemma CheckLifeLocal(s: State, d: nat)
    requires Shape(s) && Enabled(s, FrameStep(d)) && Local(s, d) && s.frames[d].CheckLife?
    ensures var kept := Moved(s, d, Step(s, FrameStep(d))) && Local(Step(s, FrameStep(d)), d); kept
  {
    assert Step(s, FrameStep(d)) == DrainAdvance(s, d);
    if s.life.Running? { RunningLocal(s, d); } else { KilledLocal(s, d); }
  }

  lemma ArmSlotLocal(s: State, d: nat)
    requires Shape(s) && Enabled(s, FrameStep(d)) && Local(s, d)
    requires var pc := s.frames[d]; pc.ArmSlot? || pc.ArmActive?
    ensures var kept := Moved(s, d, Step(s, FrameStep(d))) && Local(Step(s, FrameStep(d)), d); kept
  {
  }

  lemma ArmClearLocal(s: State, d: nat)
    requires Shape(s) && Enabled(s, FrameStep(d)) && Local(s, d)
    requires var pc := s.frames[d]; pc.ArmClear?
    ensures var kept := Moved(s, d, Step(s, FrameStep(d))) && Local(Step(s, FrameStep(d)), d); kept
  {
  }

  lemma OwnKillCasLocal(s: State, d: nat)
    requires Shape(s) && Enabled(s, FrameStep(d)) && Local(s, d) && s.flag && s.frames[d].OwnKillCas?
    ensures var kept := Moved(s, d, OwnKillAdvance(s, d)) && Local(OwnKillAdvance(s, d), d); kept
  {
  }

  lemma OwnKillLocal(s: State, d: nat)
    requires Shape(s) && Enabled(s, FrameStep(d)) && Local(s, d)
    requires var pc := s.frames[d]; InOwnKill(pc) && s.flag
    ensures var kept := Moved(s, d, Step(s, FrameStep(d))) && Local(Step(s, FrameStep(d)), d); kept
  {
    assert Step(s, FrameStep(d)) == OwnKillAdvance(s, d);
    if s.frames[d].OwnKillCas? { OwnKillCasLocal(s, d); }
  }

  lemma FinSwapLocal(s: State, d: nat)
    requires Shape(s) && Enabled(s, FrameStep(d)) && Local(s, d)
    requires var pc := s.frames[d]; pc.FinSwap? || pc.FinSlot?
    ensures var kept := Moved(s, d, Step(s, FrameStep(d))) && Local(Step(s, FrameStep(d)), d); kept
  {
  }

  lemma FinClearLocal(s: State, d: nat)
    requires Shape(s) && Enabled(s, FrameStep(d)) && Local(s, d)
    requires var pc := s.frames[d]; pc.FinInactive? || pc.FinClear?
    ensures var kept := Moved(s, d, Step(s, FrameStep(d))) && Local(Step(s, FrameStep(d)), d); kept
  {
  }

  lemma OnKillLocal(s: State, d: nat)
    requires Shape(s) && Enabled(s, FrameStep(d)) && Local(s, d)
    requires var pc := s.frames[d]; pc.OnKill?
    ensures var kept := Moved(s, d, Step(s, FrameStep(d))) && Local(Step(s, FrameStep(d)), d); kept
  {
  }

  /** One step of the drain, or of the finalizer's drain, by the single consumer. */
  lemma DequeueLocal(s: State, d: nat)
    requires Shape(s) && Enabled(s, FrameStep(d)) && Local(s, d) && s.frames[d].Deq?
    requires var (r', c') := DequeueStep(s.ring, s.frames[d].c);
             c'.Got? ==> |r'.taken| > 0 && c'.item == r'.taken[|r'.taken| - 1]
    ensures
      var s' := Step(s, FrameStep(d));
      var kept := OnlyFrame(s, d, s') && Shaped(s'.ring) && Holding(s'.frames[d]) && Local(s', d)
                  && LockStep(s.driver, s'.driver, d, s'.frames[d]);
      kept
  {
    var s' := Step(s, FrameStep(d));
    assert s'.ring.taken[..|s.log.received|] == s.ring.taken[..|s.log.received|];
  }

  lemma DequeueRing(s: State, d: nat)
    requires Shape(s) && MailboxOk(s) && Enabled(s, FrameStep(d)) && s.frames[d].Deq? && d == s.owner
    ensures Shape(Step(s, FrameStep(d))) && MailboxOk(Step(s, FrameStep(d)))
  {
    DequeueKeeps(s.ring, s.posters, s.frames[d].c);
    var (ring', c') := DequeueStep(s.ring, s.frames[d].c);
    if AtRest(c') {
      ConsAtRest(ring', s.posters, c', Out);
      ConsAtRest(ring', s.posters, c', Index);
    }
  }

  lemma ClearFlagCore(s: State, d: nat)
    requires CoreInv(s, AFrame(d)) && Enabled(s, FrameStep(d)) && s.frames[d].ClearFlag?
    ensures var kept := CoreInv(Step(s, FrameStep(d)), Nobody); kept
  {
  }

  /** The frame returns and leaves the permission to a token on the owner dispatcher. */
  lemma HandOver(s: State, d: nat)
    requires CoreInv(s, AFrame(d)) && InPush(s.frames[d])
    ensures var kept := CoreInv(Scheduled(At(s, d, Idle), s.owner), AToken(s.owner)); kept
  {
  }

  lemma PushCore(s: State, d: nat)
    requires CoreInv(s, AFrame(d)) && Enabled(s, FrameStep(d)) && InPush(s.frames[d])
    ensures var kept := CoreInv(Step(s, FrameStep(d)), AToken(s.owner)); kept
  {
    HandOver(s, d);
    assert Step(s, FrameStep(d)) == PushAdvance(s, d);
  }

  lemma OnFinalizeCore(s: State, d: nat)
    requires CoreInv(s, AFrame(d)) && Enabled(s, FrameStep(d)) && s.frames[d].OnFinalize?
    ensures var kept := CoreInv(Step(s, FrameStep(d)), Retired); kept
  {
  }

  lemma PeekCore(s: State, h: Holder, d: nat)
    requires CoreInv(s, h) && Enabled(s, FrameStep(d)) && (s.frames[d].PeekIndex? || s.frames[d].PeekLoad?)
    requires s.ring.consumerIndex == Head(s.ring) && d == s.owner
    ensures var kept := CoreInv(Step(s, FrameStep(d)), h); kept
  {
  }

  lemma PeekSwapWins(s: State, d: nat)
    requires CoreInv(s, Nobody) && Enabled(s, FrameStep(d)) && s.frames[d].PeekSwap? && d == s.owner
    ensures var kept := CoreInv(PeekAdvance(s, d), AFrame(d)); kept
  {
  }

  lemma PeekSwapLoses(s: State, h: Holder, d: nat)
    requires CoreInv(s, h) && Enabled(s, FrameStep(d)) && s.frames[d].PeekSwap? && d == s.owner && s.flag
    ensures var kept := CoreInv(PeekAdvance(s, d), h); kept
  {
  }

  lemma PeekSwapCore(s: State, h: Holder, d: nat) returns (h': Holder)
    requires CoreInv(s, h) && Enabled(s, FrameStep(d)) && s.frames[d].PeekSwap? && d == s.owner
    ensures h' == if !s.flag then AFrame(d) else h
    ensures var kept := CoreInv(Step(s, FrameStep(d)), h'); kept
  {
    h' := if !s.flag then AFrame(d) else h;
    if s.flag { PeekSwapLoses(s, h, d); } else { PeekSwapWins(s, d); }
  }

  /** The holding frame steps outside the ring. */
  lemma FrameLocal(s: State, d: nat)
    requires Shape(s) && Enabled(s, FrameStep(d)) && Local(s, d) && s.flag
    requires var pc := s.frames[d];
             Holding(pc) && !pc.Deq? && !pc.ClearFlag? && !InPush(pc) && !pc.OnFinalize?
    ensures var kept := Moved(s, d, Step(s, FrameStep(d))) && Local(Step(s, FrameStep(d)), d); kept
  {
    var pc := s.frames[d];
    if pc.LoadActive? || pc.PollClear? { PollEntryLocal(s, d); }
    else if pc.PollLock? || pc.PollIdle? { PollLockLocal(s, d); }
    else if pc.ReadyInactive? || pc.ReadyClear? { ReadyLocal(s, d); }
    else if pc.FailInactive? || pc.FailClear? { FailLocal(s, d); }
    else if pc.EntryLife? || pc.ExitLife? { LifeLocal(s, d); }
    else if pc.CheckLife? { CheckLifeLocal(s, d); }
    else if pc.ArmSlot? || pc.ArmActive? { ArmSlotLocal(s, d); }
    else if pc.ArmClear? { ArmClearLocal(s, d); }
    else if InOwnKill(pc) { OwnKillLocal(s, d); }
    else if pc.FinSwap? || pc.FinSlot? { FinSwapLocal(s, d); }
    else if pc.FinInactive? || pc.FinClear? { FinClearLocal(s, d); }
    else { OnKillLocal(s, d); }
  }

  /** What the holder of the permission may assume of the rest of the state. */
  lemma FrameHolds(s: State, h: Holder, d: nat)
    requires CoreInv(s, h) && d < |s.frames| && Holding(s.frames[d])
    ensures var kept := h == AFrame(d) && Local(s, d) && s.flag && (s.frames[d].Deq? ==> d == s.owner); kept
  {
  }

  lemma FrameStepRing(s: State, d: nat)
    requires Shape(s) && MailboxOk(s) && Enabled(s, FrameStep(d)) && !s.frames[d].Deq?
    requires Shape(Step(s, FrameStep(d)))
    ensures MailboxOk(Step(s, FrameStep(d)))
  {
    var s' := FrameAdvance(s, d);
    FrameRing(s, d, s', s'.frames[d]);
  }

  lemma DequeueKeepsInv(s: State, d: nat)
    requires Inv(s, AFrame(d)) && Enabled(s, FrameStep(d)) && s.frames[d].Deq?
    ensures var kept := Inv(Step(s, FrameStep(d)), AFrame(d)); kept
  {
    FrameHolds(s, AFrame(d), d);
    DequeueKeeps(s.ring, s.posters, s.frames[d].c);
    DequeueLocal(s, d);
    HolderMoves(s, d, Step(s, FrameStep(d)));
    DequeueRing(s, d);
  }

  lemma HolderStepCore(s: State, d: nat) returns (h': Holder)
    requires CoreInv(s, AFrame(d)) && Enabled(s, FrameStep(d)) && Holding(s.frames[d]) && !s.frames[d].Deq?
    ensures var kept := CoreInv(Step(s, FrameStep(d)), h'); kept
  {
    var pc := s.frames[d];
    h' := AFrame(d);
    if pc.ClearFlag? {
      h' := Nobody;
      ClearFlagCore(s, d);
    } else if InPush(pc) {
      h' := AToken(s.owner);
      PushCore(s, d);
    } else if pc.OnFinalize? {
      h' := Retired;
      OnFinalizeCore(s, d);
    } else {
      FrameHolds(s, AFrame(d), d);
      FrameLocal(s, d);
      HolderMoves(s, d, Step(s, FrameStep(d)));
    }
  }

  lemma FrameStepKeeps(s: State, h: Holder, d: nat) returns (h': Holder)
    requires Inv(s, h) && Enabled(s, FrameStep(d))
    ensures var kept := Inv(Step(s, FrameStep(d)), h'); kept
  {
    h' := h;
    if Holding(s.frames[d]) {
      FrameHolds(s, h, d);
      if s.frames[d].Deq? {
        DequeueKeepsInv(s, d);
        return;
      }
      h' := HolderStepCore(s, d);
    } else {
      PeekingIsOwner(s, h, d);
      if s.frames[d].PeekSwap? { h' := PeekSwapCore(s, h, d); } else { PeekCore(s, h, d); }
    }
    FrameStepRing(s, d);
  }

  lemma PeekingIsOwner(s: State, h: Holder, d: nat)
    requires Inv(s, h) && d < |s.frames| && Peeking(s.frames[d])
    ensures d == s.owner && s.ring.consumerIndex == Head(s.ring)
  {
  }

  // ------------------------------------------------------------------ user code

  lemma ReceiveReturnsKeeps(s: State, h: Holder, d: nat, r: ReceiveResult)
    requires Inv(s, h) && Enabled(s, ReceiveReturns(d, r))
    ensures var kept := Inv(Step(s, ReceiveReturns(d, r)), h); kept
  {
    FrameHolds(s, h, d);
    var s' := Step(s, ReceiveReturns(d, r));
    ReceiveLocal(s, d, r);
    HolderMoves(s, d, s');
    FrameRing(s, d, s', s'.frames[d]);
  }

  lemma ReceiveLocal(s: State, d: nat, r: ReceiveResult)
    requires Shape(s) && Enabled(s, ReceiveReturns(d, r)) && Local(s, d)
    ensures var s' := Step(s, ReceiveReturns(d, r)); var kept := Moved(s, d, s') && Local(s', d); kept
  {
  }

  lemma RegisterWakeCore(s: State, d: nat, w: nat)
    requires CoreInv(s, AFrame(d)) && Enabled(s, RegisterWake(d, w)) && Contract(s, RegisterWake(d, w))
    ensures var kept := CoreInv(Step(s, RegisterWake(d, w)), AWake(w)); kept
  {
  }

  lemma PollEndsLocal(s: State, d: nat, r: PollResult)
    requires Shape(s) && Enabled(s, PollReturns(d, r)) && Local(s, d) && !r.PollPending?
    ensures var s' := Step(s, PollReturns(d, r)); var kept := Moved(s, d, s') && Local(s', d); kept
  {
  }

  lemma PollSuspendsCore(s: State, h: Holder, d: nat)
    requires CoreInv(s, h) && Enabled(s, PollReturns(d, PollPending)) && s.frames[d].woke
    ensures var kept := CoreInv(Step(s, PollReturns(d, PollPending)), h); kept
  {
  }

  lemma PollReturnsKeeps(s: State, h: Holder, d: nat, r: PollResult)
    requires Inv(s, h) && Enabled(s, PollReturns(d, r)) && Contract(s, PollReturns(d, r))
    ensures var kept := Inv(Step(s, PollReturns(d, r)), h); kept
  {
    var s' := Step(s, PollReturns(d, r));
    if r.PollPending? {
      PollSuspendsCore(s, h, d);
    } else {
      FrameHolds(s, h, d);
      PollEndsLocal(s, d, r);
      HolderMoves(s, d, s');
    }
    FrameRing(s, d, s', s'.frames[d]);
  }

  lemma RegisterWakeKeeps(s: State, h: Holder, d: nat, w: nat)
    requires Inv(s, h) && Enabled(s, RegisterWake(d, w)) && Contract(s, RegisterWake(d, w))
    ensures var kept := Inv(Step(s, RegisterWake(d, w)), AWake(w)); kept
  {
    var s' := Step(s, RegisterWake(d, w));
    FrameHolds(s, h, d);
    RegisterWakeCore(s, d, w);
    FrameRing(s, d, s', s'.frames[d]);
  }

  /** Every step of every thread keeps the invariant, for some holder. */
  lemma StepKeeps(s: State, h: Holder, a: Action) returns (h': Holder)
    requires Inv(s, h) && Enabled(s, a) && Contract(s, a)
    ensures var kept := Inv(Step(s, a), h'); kept
  {
    h' := h;
    match a
    case BeginPost(t) => BeginPostKeeps(s, h, t);
    case PostStep(t) => h' := PostStepKeeps(s, h, t);
    case BeginKill(t) => BeginKillKeeps(s, h, t);
    case KillStep(t) => h' := KillStepKeeps(s, h, t);
    case FireWake(w, context) => FireWakeKeeps(s, h, w, context);
    case WakeStep(w) => h' := WakeStepKeeps(s, h, w);
    case Execute(d) => h' := ExecuteKeeps(s, h, d);
    case FrameStep(d) => h' := FrameStepKeeps(s, h, d);
    case ReceiveReturns(d, r) => ReceiveReturnsKeeps(s, h, d, r);
    case RegisterWake(d, w) => h' := AWake(w); RegisterWakeKeeps(s, h, d, w);
    case PollReturns(d, r) => PollReturnsKeeps(s, h, d, r);
  }
}
