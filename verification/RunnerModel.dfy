/**
 One actor at run time: its mailbox, its runner, the poll driver that parks a suspended
 receive, and the dispatchers on which the runner is executed.

 A step is one atomic load, store, swap or compare-exchange, one mutex-guarded block, or
 one return of user code. Posts, kills and wakes come from any number of threads. Each
 dispatcher has one worker, so it executes one frame at a time (see `DispatcherModel`);
 `queue[d]` counts the tokens of this actor waiting on dispatcher `d`.
 */
module RunnerModel {
  import opened Basics
  import opened MailboxRing

  datatype Life = Running | Killing | Stopped

  /** A `kill` call on another thread. */
  datatype KillPc = KillCas | KillSwapFlag | KillPushToken

  /** A waker handed out by a poll: not fired yet, or inside `wake_by_ref`. */
  datatype WakePc =
    | Registered(fallback: nat)
    | LoadDriver(target: nat)
    | MarkPoll(target: nat)
    | PushWake(target: nat)

  /** Which caller a `kill` on the runner's own thread returns to. */
  datatype Site = AtResume | AtDrain

  /** Where a dispatcher's worker stands in `execute`. `armed` tells the poll of a
      freshly armed receive from the poll of a suspended one. */
  datatype Pc =
    | Idle
    | LoadActive
    | PollClear(armed: bool)
    | PollLock(armed: bool)
    | PollIdle(armed: bool)
    | Polling(armed: bool, woke: bool)
    | ReadyInactive
    | ReadyClear
    | ReadyPush
    | FailInactive(armed: bool)
    | FailClear(armed: bool)
    | OwnKillCas(site: Site)
    | OwnKillSwap(site: Site)
    | OwnKillPush(site: Site)
    | FailPush
    | EntryLife
    | Deq(c: Cons, fin: bool)
    | CheckLife(item: Option<Mail>)
    | Receiving(item: Option<Mail>)
    | ArmSlot
    | ArmActive
    | ArmClear
    | ExitLife
    | ClearFlag
    | PeekIndex
    | PeekLoad(pos: nat)
    | PeekSwap
    | PeekPush
    | FinSwap
    | FinSlot
    | FinInactive
    | FinClear
    | OnKill
    | OnFinalize

  /** The poll driver: `slot` says whether a receive future is stored, `marked` is
      `is_poll_scheduled`, `lock` the dispatcher inside the slot mutex. */
  datatype Driver = Driver(slot: bool, active: bool, marked: bool, lock: Option<nat>)

  /** History: mails handed to `on_receive`, calls of `on_kill` and `on_finalize`, whether
      a kill's swap ever fell between the last lifecycle load and the flag clear, the
      dispatcher chosen by the last fired wake, and how many wakes were registered, turned
      into tokens, and polled. Nothing in the program reads it. */
  datatype Log = Log(
    received: seq<Option<Mail>>,
    kills: nat,
    finals: nat,
    missed: bool,
    resumeOn: nat,
    registered: nat,
    woken: nat,
    resumed: nat)

  datatype State = State(
    owner: nat,
    ring: Ring,
    flag: bool,
    life: Life,
    driver: Driver,
    queue: seq<nat>,
    frames: seq<Pc>,
    posters: map<nat, Post>,
    killers: map<nat, KillPc>,
    wakers: map<nat, WakePc>,
    log: Log)

  datatype ReceiveResult = ReceiveDone | ReceivePending | ReceivePanic
  datatype PollResult = PollPending | PollReady | PollPanic

  datatype Action =
    | BeginPost(t: nat)
    | PostStep(t: nat)
    | BeginKill(t: nat)
    | KillStep(t: nat)
    | FireWake(w: nat, context: Option<nat>)
    | WakeStep(w: nat)
    | Execute(d: nat)
    | FrameStep(d: nat)
    | ReceiveReturns(d: nat, received: ReceiveResult)
    | RegisterWake(d: nat, w: nat)
    | PollReturns(d: nat, polled: PollResult)

  predicate Shape(s: State) {
    && Shaped(s.ring)
    && |s.queue| == |s.frames|
    && s.owner < |s.frames|
    && (forall w :: w in s.wakers ==> Dispatcher(s.wakers[w]) < |s.frames|)
  }

  function Dispatcher(w: WakePc): nat {
    if w.Registered? then w.fallback else w.target
  }

  function Initial(owner: nat, dispatchers: nat, capacity: nat): State
    requires owner < dispatchers && capacity >= 2
  {
    State(owner, New(capacity), false, Running, Driver(false, false, false, None),
          seq(dispatchers, i => 0), seq(dispatchers, i => Idle), map[], map[], map[],
          Log([], 0, 0, false, owner, 0, 0, 0))
  }

  predicate NeedsLock(pc: Pc) { pc.PollLock? || pc.ArmSlot? || pc.FinSlot? }

  predicate Enabled(s: State, a: Action)
    requires Shape(s)
  {
    match a
    case BeginPost(t) => t in s.posters ==> s.posters[t].at.Done?
    case PostStep(t) => t in s.posters && !s.posters[t].at.Done?
    case BeginKill(t) => t !in s.killers
    case KillStep(t) => t in s.killers
    case FireWake(w, context) =>
      w in s.wakers && s.wakers[w].Registered? && (context.Some? ==> context.value < |s.frames|)
    case WakeStep(w) => w in s.wakers && !s.wakers[w].Registered?
    case Execute(d) => d < |s.frames| && s.queue[d] > 0 && s.frames[d].Idle?
    case FrameStep(d) =>
      && d < |s.frames|
      && !s.frames[d].Idle? && !s.frames[d].Receiving? && !s.frames[d].Polling?
      && (s.frames[d].Deq? ==> InDequeue(s.frames[d].c))
      && (NeedsLock(s.frames[d]) ==> s.driver.lock.None?)
    case ReceiveReturns(d, _) => d < |s.frames| && s.frames[d].Receiving?
    case RegisterWake(d, w) => d < |s.frames| && s.frames[d].Polling? && w !in s.wakers
    case PollReturns(d, _) => d < |s.frames| && s.frames[d].Polling?
  }

  /** One-shot wakes: a poll registers exactly one wake if it suspends, and none if it ends. */
  predicate Contract(s: State, a: Action)
    requires Shape(s) && Enabled(s, a)
  {
    match a
    case RegisterWake(d, _) => !s.frames[d].woke
    case PollReturns(d, polled) => s.frames[d].woke <==> polled.PollPending?
    case _ => true
  }

  function At(s: State, d: nat, pc: Pc): State
    requires d < |s.frames|
  {
    s.(frames := s.frames[d := pc])
  }

  function Scheduled(s: State, d: nat): State
    requires d < |s.queue|
  {
    s.(queue := s.queue[d := s.queue[d] + 1])
  }

  function WithPost(s: State, t: nat, pc: PostPc): State
    requires t in s.posters
  {
    s.(posters := s.posters[t := s.posters[t].(at := pc)])
  }

  /** `ActorRunner::enqueue_only` followed by `schedule_self`. */
  function PostAdvance(s: State, t: nat): State
    requires Shape(s) && Enabled(s, PostStep(t))
  {
    var pc := s.posters[t].at;
    if InEnqueue(pc) then
      var (ring', pc') := EnqueueStep(s.ring, Mail(t, s.posters[t].number), pc);
      WithPost(s.(ring := ring'), t, pc')
    else if pc.LoadLife? then WithPost(s, t, if s.life.Running? then LoadIndex else Done)
    else if pc.LoadFlag? then WithPost(s, t, if s.flag then Done else SwapFlag)
    else if pc.SwapFlag? then WithPost(s.(flag := true), t, if s.flag then Done else Push)
    else Scheduled(WithPost(s, t, Done), s.owner)
  }

  /** `ActorRunner::kill` on a thread of its own. */
  function KillAdvance(s: State, t: nat): State
    requires Shape(s) && Enabled(s, KillStep(t))
  {
    match s.killers[t]
    case KillCas =>
      if s.life.Running? then s.(life := Killing, killers := s.killers[t := KillSwapFlag])
      else s.(killers := s.killers - {t})
    case KillSwapFlag =>
      if s.flag then
        s.(killers := s.killers - {t}, log := s.log.(missed := s.log.missed || s.frames[s.owner].ClearFlag?))
      else
        s.(flag := true, killers := s.killers[t := KillPushToken])
    case KillPushToken => Scheduled(s.(killers := s.killers - {t}), s.owner)
  }

  /** `ActorRunnerWake::wake_by_ref` after the target dispatcher was chosen. */
  function WakeAdvance(s: State, w: nat): State
    requires Shape(s) && Enabled(s, WakeStep(w))
  {
    match s.wakers[w]
    case LoadDriver(d) =>
      if s.driver.active then s.(wakers := s.wakers[w := MarkPoll(d)]) else s.(wakers := s.wakers - {w})
    case MarkPoll(d) =>
      if s.driver.marked then s.(wakers := s.wakers - {w})
      else s.(driver := s.driver.(marked := true), wakers := s.wakers[w := PushWake(d)])
    case PushWake(d) => Scheduled(s.(wakers := s.wakers - {w}, log := s.log.(woken := s.log.woken + 1)), d)
    case Registered(_) => s
  }

  /** A frame step moves no other frame, no post, no kill and no wake. */
  predicate OwnFrameOnly(s: State, d: nat, s': State)
    requires d < |s.frames|
  {
    && s'.owner == s.owner && s'.posters == s.posters && s'.killers == s.killers && s'.wakers == s.wakers
    && |s'.frames| == |s.frames| && s'.frames == s.frames[d := s'.frames[d]]
    && s'.log.resumeOn == s.log.resumeOn
  }

  /** The lifecycle never moves back and skips no place except at a finalization that was
      entered wrongly; a mail is handed out only while running, one at a time. */
  predicate Disciplined(s: State, d: nat, s': State)
    requires d < |s.frames|
  {
    && (s.life.Stopped? ==> s'.life.Stopped?)
    && (s.life.Killing? ==> !s'.life.Running?)
    && (s.life.Running? && s'.life.Stopped? ==> s.frames[d].FinSwap?)
    && (s'.log.received == s.log.received
        || (s.life.Running? && s.frames[d].CheckLife? && s'.log.received == s.log.received + [s.frames[d].item]))
  }

  predicate RingUntouched(s: State, d: nat, s': State)
    requires d < |s'.frames|
  {
    s'.ring == s.ring && (s'.frames[d].Deq? ==> s'.frames[d].c.Index?)
  }

  predicate InPollEnd(pc: Pc) { pc.ReadyInactive? || pc.ReadyClear? || pc.FailInactive? || pc.FailClear? }

  /** After the poll: the tail of `PollDriver::poll`. */
  function PollEndAdvance(s: State, d: nat): (s': State)
    requires Shape(s) && Enabled(s, FrameStep(d)) && InPollEnd(s.frames[d])
    ensures OwnFrameOnly(s, d, s') && Disciplined(s, d, s') && RingUntouched(s, d, s')
  {
    match s.frames[d]
    case ReadyInactive => At(s.(driver := s.driver.(active := false)), d, ReadyClear)
    case ReadyClear => At(s.(driver := s.driver.(marked := false)), d, ReadyPush)
    case FailInactive(armed) => At(s.(driver := s.driver.(active := false)), d, FailClear(armed))
    case FailClear(armed) =>
      At(s.(driver := s.driver.(marked := false)), d, OwnKillCas(if armed then AtDrain else AtResume))
  }

  /** Up to the poll and past it: `execute_pending_receive` and `PollDriver::poll`. */
  function PollAdvance(s: State, d: nat): (s': State)
    requires Shape(s) && Enabled(s, FrameStep(d)) && InPoll(s.frames[d])
    ensures OwnFrameOnly(s, d, s') && Disciplined(s, d, s') && RingUntouched(s, d, s')
  {
    if InPollEnd(s.frames[d]) then PollEndAdvance(s, d) else
    match s.frames[d]
    case LoadActive => At(s, d, if s.driver.active then PollClear(false) else EntryLife)
    case PollClear(armed) => At(s.(driver := s.driver.(marked := false)), d, PollLock(armed))
    case PollLock(armed) =>
      if s.driver.slot then
        At(s.(driver := s.driver.(lock := Some(d)),
              log := if armed then s.log else s.log.(resumed := s.log.resumed + 1)), d, Polling(armed, false))
      else
        At(s.(driver := s.driver.(lock := Some(d))), d, PollIdle(armed))
    case PollIdle(armed) =>
      At(s.(driver := s.driver.(active := false, lock := None)), d, if armed then Deq(Index, false) else EntryLife)
  }

  function AfterKill(site: Site): Pc { if site.AtResume? then FailPush else ExitLife }

  /** `kill` on the runner's own thread, after a panic. */
  function OwnKillAdvance(s: State, d: nat): (s': State)
    requires Shape(s) && Enabled(s, FrameStep(d)) && InOwnKill(s.frames[d])
    ensures var framed := OwnFrameOnly(s, d, s') && Disciplined(s, d, s') && RingUntouched(s, d, s'); framed
  {
    match s.frames[d]
    case OwnKillCas(site) =>
      if s.life.Running? then At(s.(life := Killing), d, OwnKillSwap(site)) else At(s, d, AfterKill(site))
    case OwnKillSwap(site) => At(s.(flag := true), d, if s.flag then AfterKill(site) else OwnKillPush(site))
    case OwnKillPush(site) => Scheduled(At(s, d, AfterKill(site)), s.owner)
  }

  /** Hand-over of the permission to a token on the owner dispatcher, and return. */
  function PushAdvance(s: State, d: nat): (s': State)
    requires Shape(s) && Enabled(s, FrameStep(d)) && InPush(s.frames[d])
    ensures var framed := OwnFrameOnly(s, d, s') && Disciplined(s, d, s') && RingUntouched(s, d, s'); framed
  {
    Scheduled(At(s, d, Idle), s.owner)
  }

  function DequeueAdvance(s: State, d: nat): (s': State)
    requires Shape(s) && Enabled(s, FrameStep(d)) && s.frames[d].Deq?
    ensures OwnFrameOnly(s, d, s') && Disciplined(s, d, s')
  {
    var fin := s.frames[d].fin;
    var (ring', c') := DequeueStep(s.ring, s.frames[d].c);
    var pc' :=
      match c'
      case Empty => if fin then FinSlot else ExitLife
      case Got(item) => if fin then Deq(Index, true) else CheckLife(item)
      case _ => Deq(c', fin);
    At(s.(ring := ring'), d, pc')
  }

  /** The drain loop around `try_dequeue`, up to the flag clear. */
  function DrainAdvance(s: State, d: nat): (s': State)
    requires Shape(s) && Enabled(s, FrameStep(d)) && InDrain(s.frames[d])
    ensures var framed := OwnFrameOnly(s, d, s') && Disciplined(s, d, s') && RingUntouched(s, d, s'); framed
  {
    match s.frames[d]
    case EntryLife =>
      At(s, d, if s.life.Killing? then FinSwap else if s.life.Running? then Deq(Index, false) else Idle)
    case CheckLife(item) =>
      if s.life.Running? then
        At(s.(log := s.log.(received := s.log.received + [item])), d, Receiving(item))
      else
        At(s, d, ExitLife)
    case ArmSlot => At(s.(driver := s.driver.(slot := true)), d, ArmActive)
    case ArmActive => At(s.(driver := s.driver.(active := true)), d, ArmClear)
    case ArmClear => At(s.(driver := s.driver.(marked := false)), d, PollClear(true))
    case ExitLife => At(s, d, if s.life.Killing? then FinSwap else ClearFlag)
    case ClearFlag => At(s.(flag := false), d, PeekIndex)
  }

  function PeekAdvance(s: State, d: nat): (s': State)
    requires Shape(s) && Enabled(s, FrameStep(d)) && InPeek(s.frames[d])
    ensures var framed := OwnFrameOnly(s, d, s') && Disciplined(s, d, s') && RingUntouched(s, d, s'); framed
  {
    match s.frames[d]
    case PeekIndex => At(s, d, PeekLoad(s.ring.consumerIndex))
    case PeekLoad(pos) => At(s, d, if SeqAt(s.ring, pos) == pos + 1 then PeekSwap else Idle)
    case PeekSwap => At(s.(flag := true), d, if s.flag then Idle else PeekPush)
  }

  /** `finalize_kill` around its mailbox drain. */
  function FinAdvance(s: State, d: nat): (s': State)
    requires Shape(s) && Enabled(s, FrameStep(d)) && InFinalize(s.frames[d])
    ensures var framed := OwnFrameOnly(s, d, s') && Disciplined(s, d, s') && RingUntouched(s, d, s'); framed
  {
    match s.frames[d]
    case FinSwap => At(s.(life := Stopped), d, if s.life.Stopped? then Idle else Deq(Index, true))
    case FinSlot => At(s.(driver := s.driver.(slot := false)), d, FinInactive)
    case FinInactive => At(s.(driver := s.driver.(active := false)), d, FinClear)
    case FinClear => At(s.(driver := s.driver.(marked := false)), d, OnKill)
    case OnKill => At(s.(log := s.log.(kills := s.log.kills + 1)), d, OnFinalize)
    case OnFinalize => At(s.(log := s.log.(finals := s.log.finals + 1)), d, Idle)
  }

  predicate InPoll(pc: Pc) {
    pc.LoadActive? || pc.PollClear? || pc.PollLock? || pc.PollIdle? || pc.ReadyInactive? || pc.ReadyClear?
    || pc.FailInactive? || pc.FailClear?
  }

  predicate InOwnKill(pc: Pc) { pc.OwnKillCas? || pc.OwnKillSwap? || pc.OwnKillPush? }

  predicate InPush(pc: Pc) { pc.ReadyPush? || pc.FailPush? || pc.PeekPush? }

  predicate InDrain(pc: Pc) {
    pc.EntryLife? || pc.CheckLife? || pc.ArmSlot? || pc.ArmActive? || pc.ArmClear? || pc.ExitLife? || pc.ClearFlag?
  }

  predicate InPeek(pc: Pc) { pc.PeekIndex? || pc.PeekLoad? || pc.PeekSwap? }

  predicate InFinalize(pc: Pc) {
    pc.FinSwap? || pc.FinSlot? || pc.FinInactive? || pc.FinClear? || pc.OnKill? || pc.OnFinalize?
  }

  /** `ActorRunner::execute` with everything it calls on the runner's own thread. */
  function FrameAdvance(s: State, d: nat): (s': State)
    requires Shape(s) && Enabled(s, FrameStep(d))
    ensures OwnFrameOnly(s, d, s') && Disciplined(s, d, s') && (!s.frames[d].Deq? ==> RingUntouched(s, d, s'))
  {
    var pc := s.frames[d];
    if pc.Deq? then DequeueAdvance(s, d)
    else if InPoll(pc) then PollAdvance(s, d)
    else if InDrain(pc) then DrainAdvance(s, d)
    else if InPeek(pc) then PeekAdvance(s, d)
    else if InFinalize(pc) then FinAdvance(s, d)
    else if InOwnKill(pc) then OwnKillAdvance(s, d)
    else PushAdvance(s, d)
  }

  function Step(s: State, a: Action): State
    requires Shape(s) && Enabled(s, a)
  {
    match a
    case BeginPost(t) =>
      s.(posters := s.posters[t := Post(if t in s.posters then s.posters[t].number + 1 else 0, LoadLife)])
    case PostStep(t) => PostAdvance(s, t)
    case BeginKill(t) => s.(killers := s.killers[t := KillCas])
    case KillStep(t) => KillAdvance(s, t)
    case FireWake(w, context) =>
      var target := if context.Some? then context.value else s.wakers[w].fallback;
      s.(wakers := s.wakers[w := LoadDriver(target)], log := s.log.(resumeOn := target))
    case WakeStep(w) => WakeAdvance(s, w)
    case Execute(d) => At(s.(queue := s.queue[d := s.queue[d] - 1]), d, LoadActive)
    case FrameStep(d) => FrameAdvance(s, d)
    case ReceiveReturns(d, r) =>
      At(s, d, if r.ReceiveDone? then Deq(Index, false)
               else if r.ReceivePending? then ArmSlot else OwnKillCas(AtDrain))
    case RegisterWake(d, w) =>
      At(s.(wakers := s.wakers[w := Registered(d)], log := s.log.(registered := s.log.registered + 1)), d,
         Polling(s.frames[d].armed, true))
    case PollReturns(d, r) =>
      if r.PollPending? then At(s.(driver := s.driver.(lock := None)), d, Idle)
      else if r.PollReady? then At(s.(driver := s.driver.(lock := None, slot := false)), d, ReadyInactive)
      else At(s.(driver := s.driver.(lock := None, slot := false)), d, FailInactive(s.frames[d].armed))
  }
}
