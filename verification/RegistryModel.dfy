/**
 The generational registry under concurrency: spawns, look-ups by handle (of posts and
 kills), removals of finalized actors, and the live count that gates shutdown.

 A step is one atomic access or one mutex-guarded block; a look-up keeps the slot's owner
 mutex over two steps, a removal the allocator mutex over three. `generation` is the stored
 32-bit value; `epoch` is the same counter without wrap-around and is only history.
 */
module RegistryModel {
  import opened Basics
  import opened MailboxQueue

  const GENERATIONS: nat := 0x1_0000_0000

  /** An actor, named by the slot and the epoch under which it was registered. */
  datatype Actor = Actor(index: nat, epoch: nat)

  datatype Slot = Slot(generation: nat, owner: Option<Actor>, lock: Option<nat>, epoch: nat)

  /** What a reference to an actor stores, with the epoch of its issue as history. */
  datatype Handle = Handle(index: nat, generation: nat, epoch: nat)

  datatype LookupPc =
    | LoadGeneration
    | LockOwner
    | CheckGeneration
    | CloneOwner(seen: nat)
    | Found(actor: Actor)
    | Missed

  datatype Lookup = Lookup(handle: Handle, at: LookupPc)

  datatype RemovePc = BumpGeneration | TakeOwner

  /** What `register_actor` is asked for. `slotBytes` is the size of a mailbox slot;
      `contextUsed` says that the actor's context was initialised before, by an earlier spawn;
      `aliasRefused` that the second look at the alias map, after `reserve`, panics. */
  datatype Request = Request(mailboxCapacity: nat, slotBytes: nat, contextUsed: bool, aliasRefused: bool)

  /** The requests that `register_actor` carries through from `reserve` to `commit`. On all others
      it panics in between. */
  predicate Fits(request: Request) {
    && Buildable(request.mailboxCapacity, request.slotBytes)
    && !request.contextUsed && !request.aliasRefused
  }

  datatype Phase = Reserved | Committed | Removing | Removed | Leaked

  datatype Record = Record(phase: Phase, request: Request)

  /** `poisoned` is the state of the allocator's mutex: a panic while it was held makes every later
      use of it panic. */
  datatype State = State(
    slots: seq<Slot>,
    free: seq<nat>,
    nextUnused: nat,
    live: nat,
    poisoned: bool,
    remover: Option<(Actor, RemovePc)>,
    lookups: map<nat, Lookup>,
    actors: map<Actor, Record>,
    dispatchersStopped: bool)

  function Initial(capacity: nat): State {
    State(seq(capacity, i => Slot(0, None, None, 0)), [], 0, 0, false, None, map[], map[], false)
  }

  datatype Action =
    | Reserve(request: Request)
    | Overflow
    | Commit(a: Actor)
    | AbandonSpawn(a: Actor)
    | BeginRemove(a: Actor)
    | RemoveStep
    | BeginLookup(t: nat, h: Handle)
    | LookupStep(t: nat)
    | StopDispatchers

  /** The index that `reserve` hands out, if there is one. */
  function NextIndex(s: State): nat {
    if |s.free| > 0 then s.free[|s.free| - 1] else s.nextUnused
  }

  predicate Shape(s: State) {
    && s.nextUnused <= |s.slots|
    && (forall i :: 0 <= i < |s.free| ==> s.free[i] < s.nextUnused)
    && (forall a :: a in s.actors ==> a.index < s.nextUnused)
    && (s.remover.Some? ==> s.remover.value.0 in s.actors)
    && (forall t :: t in s.lookups ==> s.lookups[t].handle.index < |s.slots|)
  }

  /** Handles name a slot of the table and an epoch under which it was handed out. */
  predicate Issued(s: State, h: Handle) {
    Actor(h.index, h.epoch) in s.actors && h.generation == h.epoch % GENERATIONS
  }

  /** The allocator's mutex can be taken. */
  predicate Unlocked(s: State) { s.remover.None? && !s.poisoned }

  predicate Enabled(s: State, a: Action)
    requires Shape(s)
  {
    match a
    case Reserve(_) => Unlocked(s) && NextIndex(s) < |s.slots|
    case Overflow => Unlocked(s) && NextIndex(s) >= |s.slots|
    case Commit(x) =>
      && x in s.actors && s.actors[x].phase.Reserved? && Fits(s.actors[x].request)
      && s.slots[x.index].lock.None?
    case AbandonSpawn(x) => x in s.actors && s.actors[x].phase.Reserved? && !Fits(s.actors[x].request)
    case BeginRemove(x) => x in s.actors && s.actors[x].phase.Committed? && Unlocked(s)
    case RemoveStep =>
      s.remover.Some? && (s.remover.value.1.TakeOwner? ==> s.slots[s.remover.value.0.index].lock.None?)
    case BeginLookup(t, h) => t !in s.lookups && Issued(s, h)
    case LookupStep(t) =>
      && t in s.lookups && !s.lookups[t].at.Found? && !s.lookups[t].at.Missed?
      && (s.lookups[t].at.LockOwner? ==> s.slots[s.lookups[t].handle.index].lock.None?)
    case StopDispatchers => Unlocked(s) && s.live == 0
  }

  function WithSlot(s: State, i: nat, slot: Slot): State
    requires i < |s.slots|
  {
    s.(slots := s.slots[i := slot])
  }

  function Bumped(slot: Slot): Slot {
    slot.(generation := (slot.generation + 1) % GENERATIONS, epoch := slot.epoch + 1)
  }

  function WithPhase(s: State, a: Actor, phase: Phase): State
    requires a in s.actors
  {
    s.(actors := s.actors[a := s.actors[a].(phase := phase)])
  }

  function ReserveStep(s: State, request: Request): State
    requires Shape(s) && Enabled(s, Reserve(request))
  {
    var i := NextIndex(s);
    var slot := Bumped(s.slots[i]);
    WithSlot(s, i, slot).(
      free := if |s.free| > 0 then s.free[..|s.free| - 1] else s.free,
      nextUnused := if |s.free| > 0 then s.nextUnused else s.nextUnused + 1,
      live := s.live + 1,
      actors := s.actors[Actor(i, slot.epoch) := Record(Reserved, request)])
  }

  /** `ActorRegistry::remove`; the generation always matches for an actor's own handle. */
  function RemoveAdvance(s: State): State
    requires Shape(s) && Enabled(s, RemoveStep)
  {
    var (a, pc) := s.remover.value;
    var slot := s.slots[a.index];
    match pc
    case BumpGeneration =>
      if slot.generation != a.epoch % GENERATIONS then s.(remover := None)
      else WithSlot(s, a.index, Bumped(slot)).(remover := Some((a, TakeOwner)))
    case TakeOwner =>
      if slot.owner.None? then s.(remover := None)
      else WithPhase(WithSlot(s, a.index, slot.(owner := None)), a, Removed).(
        free := s.free + [a.index], live := if s.live > 0 then s.live - 1 else 0, remover := None)
  }

  /** The look-up shared by `post` and `kill`: where it goes next, and the owner mutex then. */
  function NextLookup(t: nat, h: Handle, at: LookupPc, slot: Slot): (LookupPc, Option<nat>) {
    match at
    case LoadGeneration => (if slot.generation == h.generation then LockOwner else Missed, slot.lock)
    case LockOwner => (CheckGeneration, Some(t))
    case CheckGeneration =>
      if slot.generation == h.generation then (CloneOwner(slot.epoch), slot.lock) else (Missed, None)
    case CloneOwner(_) => (if slot.owner.Some? then Found(slot.owner.value) else Missed, None)
    case _ => (at, slot.lock)
  }

  function LookupAdvance(s: State, t: nat): State
    requires Shape(s) && Enabled(s, LookupStep(t))
  {
    var h := s.lookups[t].handle;
    var slot := s.slots[h.index];
    var (pc, lock) := NextLookup(t, h, s.lookups[t].at, slot);
    WithSlot(s, h.index, slot.(lock := lock)).(lookups := s.lookups[t := Lookup(h, pc)])
  }

  function Step(s: State, a: Action): State
    requires Shape(s) && Enabled(s, a)
  {
    match a
    case Reserve(request) => ReserveStep(s, request)
    case Overflow => s.(poisoned := true)
    case Commit(x) => WithPhase(WithSlot(s, x.index, s.slots[x.index].(owner := Some(x))), x, Committed)
    case AbandonSpawn(x) => WithPhase(s, x, Leaked)
    case BeginRemove(x) => WithPhase(s, x, Removing).(remover := Some((x, BumpGeneration)))
    case RemoveStep => RemoveAdvance(s)
    case BeginLookup(t, h) => s.(lookups := s.lookups[t := Lookup(h, LoadGeneration)])
    case LookupStep(t) => LookupAdvance(s, t)
    case StopDispatchers => s.(dispatchersStopped := true)
  }

  // ---------------------------------------------------------------- invariant

  predicate InUse(phase: Phase) { !phase.Removed? }

  predicate HoldsSlot(phase: Phase) { phase.Committed? || phase.Removing? }

  type Remover = Option<(Actor, RemovePc)>

  predicate SlotOk(slot: Slot, i: nat, actors: map<Actor, Record>, remover: Remover) {
    && slot.generation == slot.epoch % GENERATIONS
    && (slot.owner.Some? ==>
          && slot.owner.value in actors && slot.owner.value.index == i
          && HoldsSlot(actors[slot.owner.value].phase)
          && slot.epoch == slot.owner.value.epoch + if remover == Some((slot.owner.value, TakeOwner)) then 1 else 0)
  }

  predicate ActorOk(a: Actor, record: Record, slot: Slot, remover: Remover) {
    && a.epoch <= slot.epoch && a.epoch % 2 == 1
    && (HoldsSlot(record.phase) ==> slot.owner == Some(a))
    && (record.phase.Reserved? || record.phase.Leaked? ==> slot.owner.None? && slot.epoch == a.epoch)
    && (record.phase.Removing? <==> remover.Some? && remover.value.0 == a)
    && (if Fits(record.request) then !record.phase.Leaked? else record.phase.Reserved? || record.phase.Leaked?)
  }

  predicate LookupOk(t: nat, lookup: Lookup, slot: Slot, actors: map<Actor, Record>) {
    var Lookup(h, at) := lookup;
    && Actor(h.index, h.epoch) in actors && h.generation == h.epoch % GENERATIONS
    && (slot.lock == Some(t) <==> at.CheckGeneration? || at.CloneOwner?)
    && (at.CloneOwner? ==>
          && at.seen % GENERATIONS == h.generation && h.epoch <= at.seen <= slot.epoch
          && (slot.owner.Some? ==> slot.owner.value.epoch == at.seen && slot.owner.value.index == h.index))
    && (at.Found? ==>
          && at.actor in actors && at.actor.index == h.index && at.actor.epoch % GENERATIONS == h.generation
          && h.epoch <= at.actor.epoch <= slot.epoch)
  }

  ghost predicate SlotsOk(slots: seq<Slot>, nextUnused: nat, actors: map<Actor, Record>, remover: Remover) {
    && (forall i :: 0 <= i < |slots| ==> SlotOk(slots[i], i, actors, remover))
    && (forall i :: nextUnused <= i < |slots| ==> slots[i].epoch == 0)
  }

  ghost predicate ActorsOk(actors: map<Actor, Record>, slots: seq<Slot>, remover: Remover) {
    forall a :: a in actors ==> a.index < |slots| && ActorOk(a, actors[a], slots[a.index], remover)
  }

  /** Free indices are distinct, unowned, between epochs, and no actor in use sits on one. */
  ghost predicate FreeOk(free: seq<nat>, slots: seq<Slot>, actors: map<Actor, Record>) {
    && (forall i, j :: 0 <= i < j < |free| ==> free[i] != free[j])
    && (forall i :: i in free ==> i < |slots| && slots[i].owner.None? && slots[i].epoch % 2 == 0)
    && (forall a :: a in actors && InUse(actors[a].phase) ==> a.index !in free)
  }

  /** A slot that was handed out and is not on the free list has an actor that is not removed. */
  ghost predicate OccupiedOk(free: seq<nat>, nextUnused: nat, actors: map<Actor, Record>) {
    forall i :: 0 <= i < nextUnused && i !in free ==> exists a :: a in actors && a.index == i && InUse(actors[a].phase)
  }

  ghost predicate LookupsOk(lookups: map<nat, Lookup>, slots: seq<Slot>, actors: map<Actor, Record>) {
    forall t :: t in lookups ==>
      lookups[t].handle.index < |slots| && LookupOk(t, lookups[t], slots[lookups[t].handle.index], actors)
  }

  /** A locked owner mutex is held by a look-up inside its critical section. */
  ghost predicate LocksOk(slots: seq<Slot>, lookups: map<nat, Lookup>) {
    forall i :: 0 <= i < |slots| && slots[i].lock.Some? ==>
      slots[i].lock.value in lookups && lookups[slots[i].lock.value].handle.index == i
  }

  ghost predicate Inv(s: State) {
    && Shape(s)
    && SlotsOk(s.slots, s.nextUnused, s.actors, s.remover)
    && ActorsOk(s.actors, s.slots, s.remover)
    && FreeOk(s.free, s.slots, s.actors)
    && OccupiedOk(s.free, s.nextUnused, s.actors)
    && s.live + |s.free| == s.nextUnused
    && LookupsOk(s.lookups, s.slots, s.actors)
    && LocksOk(s.slots, s.lookups)
  }

  // -------------------------------------------------------------- arithmetic

  lemma GenerationParity(e: nat)
    ensures (e % GENERATIONS) % 2 == e % 2
  {
    var q := e / GENERATIONS;
    assert e == 2 * (0x8000_0000 * q) + e % GENERATIONS;
  }

  lemma AfterOdd(e: nat)
    requires e % 2 == 1
    ensures (e + 1) % 2 == 0
  {
  }

  lemma NextGeneration(e: nat)
    ensures (e % GENERATIONS + 1) % GENERATIONS == (e + 1) % GENERATIONS
  {
  }

  function Below(n: nat): (r: set<nat>)
    ensures |r| == n && forall i: nat :: i in r <==> i < n
  {
    if n == 0 then {} else Below(n - 1) + {n - 1}
  }

  function Elements(s: seq<nat>): set<nat> { set x | x in s }

  lemma {:induction false} DistinctSet(s: seq<nat>)
    requires forall i, j :: 0 <= i < j < |s| ==> s[i] != s[j]
    ensures |Elements(s)| == |s|
  {
    if |s| > 0 {
      var init, last := s[..|s| - 1], s[|s| - 1];
      DistinctSet(init);
      assert s == init + [last];
      assert last !in init;
      assert Elements(s) == Elements(init) + {last};
    }
  }

  lemma {:induction false} SubsetSize(a: set<nat>, b: set<nat>)
    requires a <= b
    ensures |a| <= |b|
  {
    if a != {} {
      var x :| x in a;
      SubsetSize(a - {x}, b - {x});
    }
  }

  /** Distinct numbers below `n` that leave one number out are fewer than `n`. */
  lemma DistinctBelow(free: seq<nat>, n: nat, missing: nat)
    requires forall i, j :: 0 <= i < j < |free| ==> free[i] != free[j]
    requires forall i :: i in free ==> i < n
    requires missing < n && missing !in free
    ensures |free| < n
  {
    DistinctSet(free);
    SubsetSize(Elements(free), Below(n) - {missing});
  }

  // -------------------------------------------------------------- preservation

  lemma InitialInv(capacity: nat)
    ensures Inv(Initial(capacity))
  {
  }

  /** Actors other than `x` may only be looked at, and `x` is in use afterwards. */
  lemma OccupiedWith(free: seq<nat>, free': seq<nat>, n: nat, n': nat,
                     actors: map<Actor, Record>, x: Actor, record: Record)
    requires OccupiedOk(free, n, actors) && InUse(record.phase)
    requires forall i :: 0 <= i < n' && i !in free' && i != x.index ==> i < n && i !in free
    ensures OccupiedOk(free', n', actors[x := record])
  {
    var actors' := actors[x := record];
    forall i | 0 <= i < n' && i !in free'
      ensures exists a :: a in actors' && a.index == i && InUse(actors'[a].phase)
    {
      if i == x.index {
        assert x in actors' && InUse(actors'[x].phase);
      } else {
        var a :| a in actors && a.index == i && InUse(actors[a].phase);
        assert a in actors' && InUse(actors'[a].phase);
      }
    }
  }

  // Each step is checked clause by clause on the components it changes.

  /** One slot and one record change; the slot's actors other than `x` are long removed. */
  lemma ActorsWith(actors: map<Actor, Record>, slots: seq<Slot>, remover: Remover,
                   x: Actor, record: Record, slot: Slot, remover': Remover)
    requires ActorsOk(actors, slots, remover) && x.index < |slots|
    requires ActorOk(x, record, slot, remover') && slots[x.index].epoch <= slot.epoch
    requires forall a :: a in actors && a != x && a.index == x.index ==> actors[a].phase.Removed?
    requires forall a :: a in actors && a != x ==>
               ((remover.Some? && remover.value.0 == a) <==> (remover'.Some? && remover'.value.0 == a))
    ensures ActorsOk(actors[x := record], slots[x.index := slot], remover')
  {
  }

  lemma SlotsWith(slots: seq<Slot>, nextUnused: nat, actors: map<Actor, Record>, remover: Remover,
                  x: Actor, record: Record, slot: Slot, nextUnused': nat, remover': Remover)
    requires SlotsOk(slots, nextUnused, actors, remover) && x.index < |slots|
    requires SlotOk(slot, x.index, actors[x := record], remover')
    requires nextUnused' >= nextUnused && x.index < nextUnused'
    requires forall a :: a in actors && a != x ==>
               ((remover == Some((a, TakeOwner))) <==> (remover' == Some((a, TakeOwner))))
    ensures SlotsOk(slots[x.index := slot], nextUnused', actors[x := record], remover')
  {
  }

  lemma LookupsWith(lookups: map<nat, Lookup>, slots: seq<Slot>, actors: map<Actor, Record>,
                    x: Actor, record: Record, slot: Slot)
    requires LookupsOk(lookups, slots, actors) && LocksOk(slots, lookups) && x.index < |slots|
    requires slot.lock == slots[x.index].lock && slots[x.index].epoch <= slot.epoch
    requires slot.owner == slots[x.index].owner || slot.lock.None?
    ensures LookupsOk(lookups, slots[x.index := slot], actors[x := record]) && LocksOk(slots[x.index := slot], lookups)
  {
  }

  lemma FreeWith(free: seq<nat>, slots: seq<Slot>, actors: map<Actor, Record>, x: Actor, record: Record, slot: Slot)
    requires FreeOk(free, slots, actors) && x.index < |slots| && x.index !in free
    ensures FreeOk(free, slots[x.index := slot], actors[x := record])
  {
  }

  lemma FreedWith(free: seq<nat>, slots: seq<Slot>, actors: map<Actor, Record>, x: Actor, record: Record, slot: Slot)
    requires FreeOk(free, slots, actors) && x.index < |slots| && x.index !in free
    requires slot.owner.None? && slot.epoch % 2 == 0 && record.phase.Removed?
    requires forall a :: a in actors && a != x && a.index == x.index ==> actors[a].phase.Removed?
    ensures FreeOk(free + [x.index], slots[x.index := slot], actors[x := record])
  {
    FreeWith(free, slots, actors, x, record, slot);
  }

  /** In a slot, everybody but its present actor has been removed. */
  lemma OthersRemoved(s: State, x: Actor)
    requires Inv(s) && x in s.actors && InUse(s.actors[x].phase)
    ensures forall a :: a in s.actors && a != x && a.index == x.index ==> s.actors[a].phase.Removed?
  {
  }

  lemma ReserveFresh(s: State, request: Request)
    requires Inv(s) && Enabled(s, Reserve(request))
    ensures var i := NextIndex(s);
            && s.slots[i].owner.None? && s.slots[i].epoch % 2 == 0
            && s.slots[i].generation == s.slots[i].epoch % GENERATIONS
            && Actor(i, s.slots[i].epoch + 1) !in s.actors
            && (forall a :: a in s.actors && a.index == i ==> s.actors[a].phase.Removed?)
            && (forall k :: k in ReserveStep(s, request).free ==> k in s.free && k != i)
            && (forall k :: k in s.free && k != i ==> k in ReserveStep(s, request).free)
  {
    var i := NextIndex(s);
    assert SlotOk(s.slots[i], i, s.actors, s.remover);
    if |s.free| > 0 {
      assert i in s.free;
      assert s.free == s.free[..|s.free| - 1] + [i];
    }
  }

  lemma ReservedOk(i: nat, slot: Slot, request: Request)
    requires slot.owner.None? && slot.epoch % 2 == 0
    ensures ActorOk(Actor(i, slot.epoch + 1), Record(Reserved, request), Bumped(slot), None)
  {
  }

  lemma ReserveActors(s: State, x: Actor, request: Request, slot: Slot)
    requires Inv(s) && Enabled(s, Reserve(request))
    requires slot == Bumped(s.slots[NextIndex(s)]) && x == Actor(NextIndex(s), slot.epoch)
    ensures ActorsOk(s.actors[x := Record(Reserved, request)], s.slots[x.index := slot], s.remover)
  {
    ReserveFresh(s, request);
    ReservedOk(x.index, s.slots[x.index], request);
    ActorsWith(s.actors, s.slots, s.remover, x, Record(Reserved, request), slot, s.remover);
  }

  lemma ReserveParts(s: State, x: Actor, request: Request, slot: Slot)
    requires Inv(s) && Enabled(s, Reserve(request))
    requires slot == Bumped(s.slots[NextIndex(s)]) && x == Actor(NextIndex(s), slot.epoch)
    ensures var slots', actors' := s.slots[x.index := slot], s.actors[x := Record(Reserved, request)];
            && SlotsOk(slots', ReserveStep(s, request).nextUnused, actors', s.remover)
            && LookupsOk(s.lookups, slots', actors') && LocksOk(slots', s.lookups)
  {
    var record, next := Record(Reserved, request), ReserveStep(s, request).nextUnused;
    ReserveFresh(s, request);
    NextGeneration(s.slots[x.index].epoch);
    SlotsWith(s.slots, s.nextUnused, s.actors, s.remover, x, record, slot, next, s.remover);
    LookupsWith(s.lookups, s.slots, s.actors, x, record, slot);
  }

  lemma ReserveKeeps(s: State, request: Request)
    requires Inv(s) && Enabled(s, Reserve(request))
    ensures var kept := Inv(Step(s, Reserve(request))); kept
  {
    var slot, s' := Bumped(s.slots[NextIndex(s)]), ReserveStep(s, request);
    var x := Actor(NextIndex(s), slot.epoch);
    ReserveFresh(s, request);
    ReserveActors(s, x, request, slot);
    ReserveParts(s, x, request, slot);
    OccupiedWith(s.free, s'.free, s.nextUnused, s'.nextUnused, s.actors, x, Record(Reserved, request));
    ReserveShape(s, request);
  }

  lemma ReserveShape(s: State, request: Request)
    requires Inv(s) && Enabled(s, Reserve(request))
    ensures var s' := ReserveStep(s, request);
            Shape(s') && FreeOk(s'.free, s'.slots, s'.actors) && s'.live + |s'.free| == s'.nextUnused
  {
    ReserveFresh(s, request);
  }

  function Rewritten(s: State, x: Actor, record: Record, slot: Slot, remover': Remover): State
    requires x.index < |s.slots|
  {
    s.(slots := s.slots[x.index := slot], actors := s.actors[x := record], remover := remover')
  }

  /** One actor in use, its slot and the removal in progress change together. */
  lemma RewriteKeeps(s: State, x: Actor, record: Record, slot: Slot, remover': Remover)
    requires Inv(s) && x in s.actors && InUse(s.actors[x].phase) && InUse(record.phase)
    requires ActorOk(x, record, slot, remover') && SlotOk(slot, x.index, s.actors[x := record], remover')
    requires slot.lock == s.slots[x.index].lock && s.slots[x.index].epoch <= slot.epoch
    requires slot.owner == s.slots[x.index].owner || slot.lock.None?
    requires s.remover.None? || s.remover.value.0 == x || remover' == s.remover
    requires remover'.None? || remover'.value.0 == x || remover' == s.remover
    ensures var kept := Inv(Rewritten(s, x, record, slot, remover')); kept
  {
    OthersRemoved(s, x);
    ActorsWith(s.actors, s.slots, s.remover, x, record, slot, remover');
    SlotsWith(s.slots, s.nextUnused, s.actors, s.remover, x, record, slot, s.nextUnused, remover');
    LookupsWith(s.lookups, s.slots, s.actors, x, record, slot);
    OccupiedWith(s.free, s.free, s.nextUnused, s.nextUnused, s.actors, x, record);
    FreeWith(s.free, s.slots, s.actors, x, record, slot);
    RewriteShape(s, x, record, slot, remover');
  }

  lemma RewriteShape(s: State, x: Actor, record: Record, slot: Slot, remover': Remover)
    requires Shape(s) && x in s.actors && (remover'.None? || remover'.value.0 == x || remover' == s.remover)
    ensures Shape(Rewritten(s, x, record, slot, remover'))
  {
  }

  lemma CommitKeeps(s: State, x: Actor)
    requires Inv(s) && Enabled(s, Commit(x))
    ensures var kept := Inv(Step(s, Commit(x))); kept
  {
    RewriteKeeps(s, x, s.actors[x].(phase := Committed), s.slots[x.index].(owner := Some(x)), s.remover);
  }

  lemma RecordKeeps(s: State, x: Actor, record: Record, remover': Remover)
    requires Inv(s) && x in s.actors && InUse(s.actors[x].phase) && InUse(record.phase)
    requires ActorOk(x, record, s.slots[x.index], remover')
    requires HoldsSlot(s.actors[x].phase) <==> HoldsSlot(record.phase)
    requires remover' == s.remover || (s.remover.None? && remover' == Some((x, BumpGeneration)))
    ensures var kept := Inv(s.(actors := s.actors[x := record], remover := remover')); kept
  {
    var slot := s.slots[x.index];
    assert SlotOk(slot, x.index, s.actors, s.remover);
    RewriteKeeps(s, x, record, slot, remover');
    assert s.slots[x.index := slot] == s.slots;
  }

  /** An actor's own removal always finds its own generation. */
  lemma BumpKeeps(s: State)
    requires Inv(s) && Enabled(s, RemoveStep) && s.remover.value.1.BumpGeneration?
    ensures var kept := Inv(Step(s, RemoveStep)); kept
  {
    var x := s.remover.value.0;
    BumpIs(s, x);
    RewriteKeeps(s, x, s.actors[x], Bumped(s.slots[x.index]), Some((x, TakeOwner)));
  }

  lemma BumpIs(s: State, x: Actor)
    requires Shape(s) && SlotsOk(s.slots, s.nextUnused, s.actors, s.remover) && ActorsOk(s.actors, s.slots, s.remover)
    requires Enabled(s, RemoveStep) && s.remover == Some((x, BumpGeneration))
    ensures var slot, remover' := Bumped(s.slots[x.index]), Some((x, TakeOwner));
            && RemoveAdvance(s) == Rewritten(s, x, s.actors[x], slot, remover')
            && ActorOk(x, s.actors[x], slot, remover') && SlotOk(slot, x.index, s.actors[x := s.actors[x]], remover')
            && InUse(s.actors[x].phase)
  {
    NextGeneration(x.epoch);
    assert s.actors[x := s.actors[x]] == s.actors;
    assert ActorOk(x, s.actors[x], s.slots[x.index], s.remover);
    assert SlotOk(s.slots[x.index], x.index, s.actors, s.remover);
  }

  /** The removal takes its own actor out of its own slot, between two epochs. */
  lemma TakeFacts(s: State)
    requires Inv(s) && Enabled(s, RemoveStep) && s.remover.value.1.TakeOwner?
    ensures var x := s.remover.value.0;
            && s.actors[x].phase.Removing? && s.slots[x.index].owner == Some(x)
            && s.slots[x.index].epoch == x.epoch + 1 && s.slots[x.index].epoch % 2 == 0
            && x.index !in s.free && Fits(s.actors[x].request)
            && s.slots[x.index].generation == s.slots[x.index].epoch % GENERATIONS
  {
    var x := s.remover.value.0;
    assert ActorOk(x, s.actors[x], s.slots[x.index], s.remover);
    assert SlotOk(s.slots[x.index], x.index, s.actors, s.remover);
    AfterOdd(x.epoch);
  }

  lemma TakeParts(s: State, x: Actor, record: Record, slot: Slot)
    requires Inv(s) && Enabled(s, RemoveStep) && s.remover == Some((x, TakeOwner))
    requires slot == s.slots[x.index].(owner := None) && record == s.actors[x].(phase := Removed)
    ensures ActorsOk(s.actors[x := record], s.slots[x.index := slot], None)
    ensures SlotsOk(s.slots[x.index := slot], s.nextUnused, s.actors[x := record], None)
    ensures LookupsOk(s.lookups, s.slots[x.index := slot], s.actors[x := record])
    ensures LocksOk(s.slots[x.index := slot], s.lookups)
  {
    TakeFacts(s);
    OthersRemoved(s, x);
    ActorsWith(s.actors, s.slots, s.remover, x, record, slot, None);
    SlotsWith(s.slots, s.nextUnused, s.actors, s.remover, x, record, slot, s.nextUnused, None);
    LookupsWith(s.lookups, s.slots, s.actors, x, record, slot);
  }

  lemma TakeFree(s: State, x: Actor, record: Record, slot: Slot)
    requires Inv(s) && Enabled(s, RemoveStep) && s.remover == Some((x, TakeOwner))
    requires slot.owner.None? && slot.epoch % 2 == 0 && record.phase.Removed?
    ensures FreeOk(s.free + [x.index], s.slots[x.index := slot], s.actors[x := record])
  {
    OthersRemoved(s, x);
    FreedWith(s.free, s.slots, s.actors, x, record, slot);
  }

  lemma TakeOccupied(s: State, x: Actor, record: Record)
    requires Inv(s) && Enabled(s, RemoveStep) && s.remover == Some((x, TakeOwner))
    ensures OccupiedOk(s.free + [x.index], s.nextUnused, s.actors[x := record])
  {
    TakeFacts(s);
    OthersRemoved(s, x);
    TakeFrees(s.free, s.nextUnused, s.actors, x, record);
  }

  function Taken(s: State, x: Actor, record: Record, slot: Slot): State
    requires x.index < |s.slots| && s.live > 0
  {
    s.(slots := s.slots[x.index := slot], actors := s.actors[x := record],
       free := s.free + [x.index], live := s.live - 1, remover := None)
  }

  /** It is counted, and this is all that the step does. */
  lemma TakeIs(s: State, x: Actor, record: Record, slot: Slot)
    requires Inv(s) && Enabled(s, RemoveStep) && s.remover == Some((x, TakeOwner))
    requires slot == s.slots[x.index].(owner := None) && record == s.actors[x].(phase := Removed)
    ensures s.live > 0 && RemoveAdvance(s) == Taken(s, x, record, slot)
  {
    TakeFacts(s);
    DistinctBelow(s.free, s.nextUnused, x.index);
  }

  lemma TakeKeeps(s: State)
    requires Inv(s) && Enabled(s, RemoveStep) && s.remover.value.1.TakeOwner?
    ensures var kept := Inv(Step(s, RemoveStep)); kept
  {
    var x := s.remover.value.0;
    var slot, record := s.slots[x.index].(owner := None), s.actors[x].(phase := Removed);
    TakeIs(s, x, record, slot);
    TakenKeeps(s, x, record, slot);
  }

  lemma TakenKeeps(s: State, x: Actor, record: Record, slot: Slot)
    requires Inv(s) && Enabled(s, RemoveStep) && s.remover == Some((x, TakeOwner)) && s.live > 0
    requires slot == s.slots[x.index].(owner := None) && record == s.actors[x].(phase := Removed)
    ensures var kept := Inv(Taken(s, x, record, slot)); kept
  {
    TakeParts(s, x, record, slot);
    TakeFacts(s);
    TakeFree(s, x, record, slot);
    TakeOccupied(s, x, record);
    TakenShape(s, x, record, slot);
  }

  lemma TakeFrees(free: seq<nat>, nextUnused: nat, actors: map<Actor, Record>, x: Actor, record: Record)
    requires OccupiedOk(free, nextUnused, actors) && x in actors && x.index < nextUnused
    requires forall a :: a in actors && a != x && a.index == x.index ==> actors[a].phase.Removed?
    ensures OccupiedOk(free + [x.index], nextUnused, actors[x := record])
  {
    var free', actors' := free + [x.index], actors[x := record];
    forall i | 0 <= i < nextUnused && i !in free'
      ensures exists a :: a in actors' && a.index == i && InUse(actors'[a].phase)
    {
      assert free'[|free|] == x.index && i !in free;
      var a :| a in actors && a.index == i && InUse(actors[a].phase);
      assert a in actors' && InUse(actors'[a].phase);
    }
  }

  lemma TakenShape(s: State, x: Actor, record: Record, slot: Slot)
    requires Shape(s) && x in s.actors && s.live > 0
    ensures Shape(Taken(s, x, record, slot))
  {
  }

  /** Nothing but look-ups depends on who holds an owner mutex. */
  lemma Relock(s: State, i: nat, lock: Option<nat>)
    requires Inv(s) && i < |s.slots|
    ensures var slots' := s.slots[i := s.slots[i].(lock := lock)];
            SlotsOk(slots', s.nextUnused, s.actors, s.remover) && ActorsOk(s.actors, slots', s.remover)
            && FreeOk(s.free, slots', s.actors)
  {
  }

  lemma LookupMoves(lookups: map<nat, Lookup>, slots: seq<Slot>, actors: map<Actor, Record>,
                    t: nat, pc: LookupPc, lock: Option<nat>)
    requires LookupsOk(lookups, slots, actors) && LocksOk(slots, lookups) && t in lookups
    requires var i := lookups[t].handle.index;
             && LookupOk(t, Lookup(lookups[t].handle, pc), slots[i].(lock := lock), actors)
             && (|| lock == slots[i].lock
                 || (slots[i].lock.None? && lock == Some(t)) || (slots[i].lock == Some(t) && lock.None?))
    ensures var i := lookups[t].handle.index;
            var slots', lookups' := slots[i := slots[i].(lock := lock)], lookups[t := Lookup(lookups[t].handle, pc)];
            LookupsOk(lookups', slots', actors) && LocksOk(slots', lookups')
  {
  }

  lemma LookupLocal(t: nat, h: Handle, at: LookupPc, slot: Slot, actors: map<Actor, Record>, remover: Remover)
    requires LookupOk(t, Lookup(h, at), slot, actors) && SlotOk(slot, h.index, actors, remover)
    requires ActorOk(Actor(h.index, h.epoch), actors[Actor(h.index, h.epoch)], slot, remover)
    requires at.LockOwner? ==> slot.lock.None?
    requires slot.owner.Some? ==> slot.owner.value.epoch % 2 == 1
    ensures var (pc, lock) := NextLookup(t, h, at, slot);
            && LookupOk(t, Lookup(h, pc), slot.(lock := lock), actors)
            && (lock == slot.lock || (slot.lock.None? && lock == Some(t)) || (slot.lock == Some(t) && lock.None?))
  {
    GenerationParity(h.epoch);
    GenerationParity(slot.epoch);
  }

  lemma LookupFacts(s: State, t: nat)
    requires Inv(s) && t in s.lookups
    ensures var h := s.lookups[t].handle;
            && h.index < |s.slots| && Actor(h.index, h.epoch) in s.actors
            && LookupOk(t, s.lookups[t], s.slots[h.index], s.actors)
            && SlotOk(s.slots[h.index], h.index, s.actors, s.remover)
            && ActorOk(Actor(h.index, h.epoch), s.actors[Actor(h.index, h.epoch)], s.slots[h.index], s.remover)
            && (s.slots[h.index].owner.Some? ==> s.slots[h.index].owner.value.epoch % 2 == 1)
  {
    var h := s.lookups[t].handle;
    var slot := s.slots[h.index];
    assert SlotOk(slot, h.index, s.actors, s.remover);
    if slot.owner.Some? { assert ActorOk(slot.owner.value, s.actors[slot.owner.value], slot, s.remover); }
  }

  lemma LookupParts(s: State, t: nat, pc: LookupPc, lock: Option<nat>)
    requires Inv(s) && Enabled(s, LookupStep(t))
    requires var h := s.lookups[t].handle; (pc, lock) == NextLookup(t, h, s.lookups[t].at, s.slots[h.index])
    ensures var i := s.lookups[t].handle.index;
            var slots' := s.slots[i := s.slots[i].(lock := lock)];
            var lookups' := s.lookups[t := Lookup(s.lookups[t].handle, pc)];
            LookupsOk(lookups', slots', s.actors) && LocksOk(slots', lookups')
  {
    var Lookup(h, at) := s.lookups[t];
    LookupFacts(s, t);
    LookupLocal(t, h, at, s.slots[h.index], s.actors, s.remover);
    LookupMoves(s.lookups, s.slots, s.actors, t, pc, lock);
  }

  lemma LookupKeeps(s: State, t: nat)
    requires Inv(s) && Enabled(s, LookupStep(t))
    ensures var kept := Inv(Step(s, LookupStep(t))); kept
  {
    var Lookup(h, at) := s.lookups[t];
    var (pc, lock) := NextLookup(t, h, at, s.slots[h.index]);
    LookupParts(s, t, pc, lock);
    Relock(s, h.index, lock);
    LookupShape(s, t);
  }

  lemma LookupShape(s: State, t: nat)
    requires Shape(s) && Enabled(s, LookupStep(t))
    ensures Shape(LookupAdvance(s, t))
  {
  }

  lemma LookupBegins(lookups: map<nat, Lookup>, slots: seq<Slot>, actors: map<Actor, Record>, t: nat, h: Handle)
    requires LookupsOk(lookups, slots, actors) && LocksOk(slots, lookups) && t !in lookups
    requires h.index < |slots| && Actor(h.index, h.epoch) in actors && h.generation == h.epoch % GENERATIONS
    ensures LookupsOk(lookups[t := Lookup(h, LoadGeneration)], slots, actors)
    ensures LocksOk(slots, lookups[t := Lookup(h, LoadGeneration)])
  {
  }

  lemma BeginLookupKeeps(s: State, t: nat, h: Handle)
    requires Inv(s) && Enabled(s, BeginLookup(t, h))
    ensures var kept := Inv(Step(s, BeginLookup(t, h))); kept
  {
    LookupBegins(s.lookups, s.slots, s.actors, t, h);
  }

  lemma StepKeeps(s: State, a: Action)
    requires Inv(s) && Enabled(s, a)
    ensures var kept := Inv(Step(s, a)); kept
  {
    match a
    case Reserve(request) => ReserveKeeps(s, request);
    case Overflow =>
    case Commit(x) => CommitKeeps(s, x);
    case AbandonSpawn(x) => RecordKeeps(s, x, s.actors[x].(phase := Leaked), s.remover);
    case BeginRemove(x) => RecordKeeps(s, x, s.actors[x].(phase := Removing), Some((x, BumpGeneration)));
    case RemoveStep => if s.remover.value.1.TakeOwner? { TakeKeeps(s); } else { BumpKeeps(s); }
    case BeginLookup(t, h) => BeginLookupKeeps(s, t, h);
    case LookupStep(t) => LookupKeeps(s, t);
    case StopDispatchers =>
  }
}
