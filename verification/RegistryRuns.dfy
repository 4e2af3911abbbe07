/** Whole runs of the registry: what handles reach, what is conserved, and when it empties. */
module RegistryRuns {
  import opened Basics
  import opened RegistryModel
  import Runs

  function Next(s: State, a: Action): Option<State> {
    if Shape(s) && Enabled(s, a) then Some(Step(s, a)) else None
  }

  ghost predicate Leads(s: State, acts: seq<Action>, s': State) { Runs.Leads(Next, s, acts, s') }

  lemma {:induction false} LeadsKeeps(s: State, acts: seq<Action>, s': State)
    requires Inv(s) && Leads(s, acts, s')
    ensures Inv(s')
    decreases |acts|
  {
    if acts != [] {
      StepKeeps(s, acts[0]);
      LeadsKeeps(Step(s, acts[0]), acts[1..], s');
    }
  }

  ghost predicate Reaches(s: State, s': State) {
    exists acts :: Leads(s, acts, s')
  }

  ghost predicate Reachable(s: State) {
    exists capacity :: Reaches(Initial(capacity), s)
  }

  lemma ReachableInv(s: State)
    requires Reachable(s)
    ensures Inv(s)
  {
    var capacity :| Reaches(Initial(capacity), s);
    var acts :| Leads(Initial(capacity), acts, s);
    InitialInv(capacity);
    LeadsKeeps(Initial(capacity), acts, s);
  }

  lemma Stay(s: State)
    ensures Reaches(s, s)
  {
    assert Leads(s, [], s);
  }

  lemma Then(s: State, mid: State, s': State)
    requires Reaches(s, mid) && Reaches(mid, s')
    ensures Reaches(s, s')
  {
    var acts :| Leads(s, acts, mid);
    var more :| Leads(mid, more, s');
    Runs.LeadsOn(Next, s, acts, mid, more, s');
    assert Leads(s, acts + more, s');
  }

  /** One more step at the end. */
  lemma Hop(s: State, mid: State, a: Action)
    requires Reaches(s, mid) && Shape(mid) && Enabled(mid, a)
    ensures Reaches(s, Step(mid, a))
  {
    Runs.LeadsOne(Next, mid, a);
    assert Leads(mid, [a], Step(mid, a));
    Then(s, mid, Step(mid, a));
  }

  // ------------------------------------------------------------------- handles

  const HALF_TURN: nat := 0x8000_0000

  /** How often a slot was removed from and handed out again since epoch `e`. */
  function Recycled(slot: Slot, e: nat): int { (slot.epoch - e) / 2 }

  /** Epochs of the same generation are a whole number of 2^31 recycles apart. */
  lemma WholeTurns(e: nat, f: nat)
    requires e <= f
    ensures e % GENERATIONS == f % GENERATIONS <==> (f - e) % GENERATIONS == 0
    ensures (f - e) % GENERATIONS == 0 <==> (f - e) % 2 == 0 && (f - e) / 2 % HALF_TURN == 0
    ensures f < e + GENERATIONS && (f - e) % GENERATIONS == 0 ==> e == f
  {
  }

  /** However posts, kills, spawns and removals interleave, what a handle reaches was registered
      in its slot a whole number of 2^31 recycles after it; so it is the handle's own actor if
      and only if the slot was not recycled in between, and certainly if it was recycled fewer
      than 2^31 times up to now. */
  lemma HandleReachesOwnActor(s: State, t: nat)
    requires Reachable(s) && t in s.lookups && s.lookups[t].at.Found?
    ensures s.lookups[t].handle.index < |s.slots|
    ensures var h, a := s.lookups[t].handle, s.lookups[t].at.actor;
            var between := (a.epoch - h.epoch) / 2;
            && a.index == h.index && a in s.actors && Actor(h.index, h.epoch) in s.actors
            && 0 <= between <= Recycled(s.slots[h.index], h.epoch) && between % HALF_TURN == 0
            && (a == Actor(h.index, h.epoch) <==> between == 0)
            && (Recycled(s.slots[h.index], h.epoch) < HALF_TURN ==> a == Actor(h.index, h.epoch))
  {
    ReachableInv(s);
    var h, a := s.lookups[t].handle, s.lookups[t].at.actor;
    FoundFacts(s, t);
    WholeTurns(h.epoch, a.epoch);
  }

  lemma FoundFacts(s: State, t: nat)
    requires Inv(s) && t in s.lookups && s.lookups[t].at.Found?
    ensures var h, a := s.lookups[t].handle, s.lookups[t].at.actor;
            && h.index < |s.slots| && a.index == h.index && a in s.actors && Actor(h.index, h.epoch) in s.actors
            && a.epoch % GENERATIONS == h.epoch % GENERATIONS && h.epoch <= a.epoch <= s.slots[h.index].epoch
  {
    var h := s.lookups[t].handle;
    assert LookupOk(t, s.lookups[t], s.slots[h.index], s.actors);
  }

  /** Where a look-up ends if nothing else happens to its slot meanwhile. */
  function Undisturbed(t: nat, h: Handle, slot: Slot): LookupPc {
    if slot.generation == h.generation && slot.owner.Some? then Found(slot.owner.value) else Missed
  }

  /** A look-up that stands at `pc` before a slot which is `slot` but for its mutex. */
  ghost predicate Looking(s: State, t: nat, h: Handle, pc: LookupPc, slot: Slot, lock: Option<nat>) {
    && Shape(s) && h.index < |s.slots| && s.slots[h.index] == slot.(lock := lock)
    && t in s.lookups && s.lookups[t] == Lookup(h, pc)
  }

  lemma LookAhead(s: State, mid: State, t: nat, h: Handle, pc: LookupPc, slot: Slot, lock: Option<nat>)
      returns (s': State)
    requires Reaches(s, mid) && Looking(mid, t, h, pc, slot, lock)
    requires !pc.Found? && !pc.Missed? && (pc.LockOwner? ==> lock.None?)
    ensures Reaches(s, s')
    ensures var (pc', lock') := NextLookup(t, h, pc, slot.(lock := lock)); Looking(s', t, h, pc', slot, lock')
  {
    s' := Step(mid, LookupStep(t));
    Hop(s, mid, LookupStep(t));
    LookupShape(mid, t);
  }

  lemma LookFromLock(s: State, mid: State, t: nat, h: Handle, slot: Slot) returns (s': State)
    requires Reaches(s, mid) && Looking(mid, t, h, LockOwner, slot, None)
    ensures Reaches(s, s') && Looking(s', t, h, Undisturbed(t, h, slot), slot, None)
  {
    var s1 := LookAhead(s, mid, t, h, LockOwner, slot, None);
    s' := LookAhead(s, s1, t, h, CheckGeneration, slot, Some(t));
    if slot.generation == h.generation {
      s' := LookAhead(s, s', t, h, CloneOwner(slot.epoch), slot, Some(t));
    }
  }

  /** The steps of a look-up, one after the other. */
  lemma UndisturbedRun(s: State, t: nat, h: Handle) returns (s': State)
    requires Shape(s) && Enabled(s, BeginLookup(t, h)) && s.slots[h.index].lock.None?
    ensures Reaches(s, s') && Looking(s', t, h, Undisturbed(t, h, s.slots[h.index]), s.slots[h.index], None)
  {
    var slot := s.slots[h.index];
    Stay(s);
    Hop(s, s, BeginLookup(t, h));
    s' := LookAhead(s, Step(s, BeginLookup(t, h)), t, h, LoadGeneration, slot, None);
    if slot.generation == h.generation { s' := LookFromLock(s, s', t, h, slot); }
  }

  /** A look-up by an old handle finds somebody else's actor exactly when the slot has an owner
      that is not being removed, and was recycled a positive multiple of 2^31 times. */
  lemma StrangerExactly(s: State, t: nat, h: Handle)
    requires Reachable(s) && Issued(s, h)
    ensures h.index < |s.slots|
    ensures var slot := s.slots[h.index];
            var end := Undisturbed(t, h, slot);
            end.Found? && end.actor != Actor(h.index, h.epoch) <==>
            && slot.owner.Some? && slot.epoch % 2 == 1
            && Recycled(slot, h.epoch) > 0 && Recycled(slot, h.epoch) % HALF_TURN == 0
  {
    ReachableInv(s);
    IssuedFacts(s, h);
    StrangerBySlot(t, h, s.slots[h.index]);
  }

  lemma IssuedFacts(s: State, h: Handle)
    requires Inv(s) && Issued(s, h)
    ensures h.index < |s.slots| && HandleFits(h, s.slots[h.index])
  {
    var slot, own := s.slots[h.index], Actor(h.index, h.epoch);
    assert ActorOk(own, s.actors[own], slot, s.remover);
    assert SlotOk(slot, h.index, s.actors, s.remover);
    if slot.owner.Some? { assert ActorOk(slot.owner.value, s.actors[slot.owner.value], slot, s.remover); }
  }

  /** What the registry keeps true of a slot and a handle for it. */
  ghost predicate HandleFits(h: Handle, slot: Slot) {
    && h.generation == h.epoch % GENERATIONS && h.epoch <= slot.epoch && h.epoch % 2 == 1
    && slot.generation == slot.epoch % GENERATIONS
    && (slot.owner.Some? ==>
          && slot.owner.value.index == h.index && slot.owner.value.epoch % 2 == 1
          && slot.owner.value.epoch <= slot.epoch <= slot.owner.value.epoch + 1)
  }

  lemma OddApart(e: nat, f: nat)
    requires e <= f && e % 2 == 1
    ensures f % 2 == 1 <==> (f - e) % 2 == 0
    ensures f % 2 == 1 ==> (f == e <==> (f - e) / 2 == 0) && (f - e) / 2 >= 0
  {
  }

  /** The slot's present generation is the handle's exactly after whole turns. */
  lemma TurnedBack(h: Handle, slot: Slot)
    requires HandleFits(h, slot)
    ensures slot.generation == h.generation <==>
            slot.epoch % 2 == 1 && Recycled(slot, h.epoch) % HALF_TURN == 0
    ensures slot.epoch % 2 == 1 ==>
              (slot.epoch == h.epoch <==> Recycled(slot, h.epoch) == 0) && Recycled(slot, h.epoch) >= 0
  {
    WholeTurns(h.epoch, slot.epoch);
    OddApart(h.epoch, slot.epoch);
  }

  lemma StrangerBySlot(t: nat, h: Handle, slot: Slot)
    requires HandleFits(h, slot)
    ensures var end := Undisturbed(t, h, slot);
            end.Found? && end.actor != Actor(h.index, h.epoch) <==>
            && slot.owner.Some? && slot.epoch % 2 == 1
            && Recycled(slot, h.epoch) > 0 && Recycled(slot, h.epoch) % HALF_TURN == 0
  {
    TurnedBack(h, slot);
    OwnerEpoch(h, slot);
  }

  lemma OwnerEpoch(h: Handle, slot: Slot)
    requires HandleFits(h, slot)
    ensures slot.owner.Some? && slot.epoch % 2 == 1 ==> slot.owner.value == Actor(h.index, slot.epoch)
  {
  }

  // ------------------------------------------------------------ a full turn

  const SMALL := Request(2, 40, false, false)

  function TurnedActors(n: nat): map<Actor, Record> {
    if n == 0 then map[Actor(0, 1) := Record(Committed, SMALL)] else
    TurnedActors(n - 1)[Actor(0, 2 * n - 1) := Record(Removed, SMALL)][Actor(0, 2 * n + 1) := Record(Committed, SMALL)]
  }

  function Own(n: nat): Slot {
    Slot((2 * n + 1) % GENERATIONS, Some(Actor(0, 2 * n + 1)), None, 2 * n + 1)
  }

  /** A registry of one slot whose actor was replaced `n` times. */
  function Turned(n: nat): State {
    State([Own(n)], [], 1, 1, false, None, map[], TurnedActors(n), false)
  }

  lemma {:induction false} TurnedOwner(n: nat)
    ensures Actor(0, 2 * n + 1) in TurnedActors(n) && TurnedActors(n)[Actor(0, 2 * n + 1)] == Record(Committed, SMALL)
    ensures Actor(0, 1) in TurnedActors(n)
    ensures forall a :: a in TurnedActors(n) ==> a.index == 0 && a.epoch <= 2 * n + 1
  {
    if n > 0 { TurnedOwner(n - 1); }
  }

  /** The actor is removed... */
  function Emptied(n: nat): State {
    State([Slot((2 * n + 2) % GENERATIONS, None, None, 2 * n + 2)], [0], 1, 0, false, None, map[],
          TurnedActors(n)[Actor(0, 2 * n + 1) := Record(Removed, SMALL)], false)
  }

  function Bumping(n: nat): State {
    Turned(n).(slots := [Bumped(Own(n))], remover := Some((Actor(0, 2 * n + 1), TakeOwner)),
               actors := TurnedActors(n)[Actor(0, 2 * n + 1) := Record(Removing, SMALL)])
  }

  lemma TurnBump(n: nat)
    ensures Reaches(Turned(n), Bumping(n))
  {
    TurnedOwner(n);
    var a, s := Actor(0, 2 * n + 1), Turned(n);
    Stay(s);
    Hop(s, s, BeginRemove(a));
    var s1 := Step(s, BeginRemove(a));
    Hop(s, s1, RemoveStep);
    assert Step(s1, RemoveStep) == Bumping(n);
  }

  lemma TurnTake(n: nat)
    ensures Reaches(Bumping(n), Emptied(n))
  {
    TurnedOwner(n);
    NextGeneration(2 * n + 1);
    var s := Bumping(n);
    Stay(s);
    Hop(s, s, RemoveStep);
    var s' := Step(s, RemoveStep);
    assert s'.slots == Emptied(n).slots && s'.free == [0];
    assert s'.actors == Emptied(n).actors;
  }

  lemma TurnOut(n: nat)
    ensures Reaches(Turned(n), Emptied(n))
  {
    TurnBump(n);
    TurnTake(n);
    Then(Turned(n), Bumping(n), Emptied(n));
  }

  /** ... and another one is registered in its slot. */
  lemma TurnIn(n: nat)
    ensures Reaches(Emptied(n), Turned(n + 1))
  {
    TurnedOwner(n);
    var a, s := Actor(0, 2 * n + 3), Emptied(n);
    Stay(s);
    Hop(s, s, Reserve(SMALL));
    var s1 := Step(s, Reserve(SMALL));
    NextGeneration(2 * n + 2);
    assert s1.slots == [Slot((2 * n + 3) % GENERATIONS, None, None, 2 * n + 3)] && s1.free == [];
    Hop(s, s1, Commit(a));
    var s2 := Step(s1, Commit(a));
    assert s2.slots == [Own(n + 1)];
    assert s2.actors == TurnedActors(n + 1);
  }

  lemma FirstIn()
    ensures Reaches(Initial(1), Turned(0))
  {
    var s := Initial(1);
    Stay(s);
    Hop(s, s, Reserve(SMALL));
    var s1 := Step(s, Reserve(SMALL));
    assert s1.slots == [Slot(1, None, None, 1)] && s1.free == [];
    Hop(s, s1, Commit(Actor(0, 1)));
    var s2 := Step(s1, Commit(Actor(0, 1)));
    assert s2.slots == [Own(0)];
    assert s2.actors == TurnedActors(0);
  }

  lemma {:induction false} TurnsReachable(n: nat)
    ensures Reaches(Initial(1), Turned(n))
  {
    if n == 0 {
      FirstIn();
    } else {
      TurnsReachable(n - 1);
      TurnOut(n - 1);
      TurnIn(n - 1);
      Then(Initial(1), Turned(n - 1), Emptied(n - 1));
      Then(Initial(1), Emptied(n - 1), Turned(n));
    }
  }

  /** The run that breaks the promise: after 2^31 recycles of its slot, the handle of the very
      first actor finds the present one. */
  lemma StaleHandleAfterFullTurn()
    ensures exists s: State, t :: Reachable(s) && t in s.lookups
                                  && s.lookups[t] == Lookup(Handle(0, 1, 1), Found(Actor(0, GENERATIONS + 1)))
  {
    var s, h := Turned(HALF_TURN), Handle(0, 1, 1);
    TurnsReachable(HALF_TURN);
    assert Reachable(s);
    ReachableInv(s);
    FullyTurned();
    var s' := UndisturbedRun(s, 0, h);
    Then(Initial(1), s, s');
    assert Reachable(s') && 0 in s'.lookups;
  }

  lemma FullyTurned()
    ensures var s := Turned(HALF_TURN);
            && s.slots == [Slot(1, Some(Actor(0, GENERATIONS + 1)), None, GENERATIONS + 1)]
            && s.lookups == map[] && Issued(s, Handle(0, 1, 1))
  {
    TurnedOwner(HALF_TURN);
  }
}
