/**
 The live count that gates shutdown: what is conserved, and exactly when it can reach zero.
 */
module RegistryShutdown {
  import opened Basics
  import opened RegistryModel
  import opened RegistryRuns

  /** Every index ever handed out is either live or free; free ones are distinct and unowned,
      and `reserve` never hands out an index on which an actor is still in use. */
  lemma Conservation(s: State, request: Request)
    requires Reachable(s)
    ensures s.live + |s.free| == s.nextUnused <= |s.slots|
    ensures forall i, j :: 0 <= i < j < |s.free| ==> s.free[i] != s.free[j]
    ensures forall i :: 0 <= i < |s.free| ==> s.free[i] < s.nextUnused && s.slots[s.free[i]].owner.None?
    ensures Shape(s) && (Enabled(s, Reserve(request)) ==>
              forall a :: a in s.actors && a.index == NextIndex(s) ==> s.actors[a].phase.Removed?)
    ensures forall a, b :: a in s.actors && b in s.actors && a.index == b.index ==>
              s.actors[a].phase.Removed? || s.actors[b].phase.Removed? || a == b
  {
    ReachableInv(s);
    if Enabled(s, Reserve(request)) { ReserveFresh(s, request); }
    forall a, b | a in s.actors && b in s.actors && a.index == b.index
      ensures s.actors[a].phase.Removed? || s.actors[b].phase.Removed? || a == b
    {
      if !s.actors[a].phase.Removed? { OthersRemoved(s, a); }
    }
  }

  /** The count is zero exactly when everybody is removed. */
  lemma CountIsZeroExactly(s: State)
    requires Inv(s)
    ensures s.live == 0 <==> forall a :: a in s.actors ==> s.actors[a].phase.Removed?
  {
    if s.live == 0 {
      forall a | a in s.actors ensures s.actors[a].phase.Removed? {
        if a.index !in s.free { DistinctBelow(s.free, s.nextUnused, a.index); }
      }
    } else {
      var i := SomeMissing(s.free, s.nextUnused);
      var a :| a in s.actors && a.index == i && InUse(s.actors[a].phase);
    }
  }

  /** Fewer than `n` numbers below `n` leave one out. */
  lemma SomeMissing(free: seq<nat>, n: nat) returns (i: nat)
    requires |free| < n
    ensures i < n && i !in free
  {
    if forall k: nat :: k < n ==> k in free {
      SubsetSize(Below(n), Elements(free));
      ElementsSize(free);
    }
    i :| i < n && i !in free;
  }

  lemma {:induction false} ElementsSize(s: seq<nat>)
    ensures |Elements(s)| <= |s|
  {
    if s != [] {
      var init, last := s[..|s| - 1], s[|s| - 1];
      ElementsSize(init);
      assert s == init + [last];
      assert Elements(s) == Elements(init) + {last};
    }
  }

  // ------------------------------------------------------------ what blocks it

  lemma RequestStands(s: State, a: Action, x: Actor)
    requires Inv(s) && Enabled(s, a) && x in s.actors
    ensures x in Step(s, a).actors && Step(s, a).actors[x].request == s.actors[x].request
  {
    if a.Reserve? { ReserveFresh(s, a.request); }
  }

  /** The dispatchers cannot be stopped, because `x` is counted and was never committed. */
  ghost predicate Blocked(s: State, x: Actor) {
    && Shape(s) && !Enabled(s, StopDispatchers)
    && x in s.actors && (s.actors[x].phase.Reserved? || s.actors[x].phase.Leaked?)
  }

  /** A spawn that panics between `reserve` and `commit` keeps its slot counted as live for ever:
      whatever happens afterwards, the dispatchers are never stopped. */
  lemma AbandonedSpawnBlocksShutdown(s: State, x: Actor)
    requires Reachable(s) && x in s.actors && !Fits(s.actors[x].request)
    ensures forall s' :: Reaches(s, s') ==> Blocked(s', x)
  {
    ReachableInv(s);
    forall s' | Reaches(s, s') ensures Blocked(s', x) {
      var acts :| Leads(s, acts, s');
      UnfitForever(s, x, acts, s');
    }
  }

  lemma {:induction false} UnfitForever(s: State, x: Actor, acts: seq<Action>, s': State)
    requires Inv(s) && x in s.actors && !Fits(s.actors[x].request) && Leads(s, acts, s')
    ensures Blocked(s', x)
    decreases |acts|
  {
    if acts == [] {
      UnfitBlocks(s, x);
    } else {
      StepKeeps(s, acts[0]);
      RequestStands(s, acts[0], x);
      UnfitForever(Step(s, acts[0]), x, acts[1..], s');
    }
  }

  lemma UnfitBlocks(s: State, x: Actor)
    requires Inv(s) && x in s.actors && !Fits(s.actors[x].request)
    ensures s.live > 0 && (s.actors[x].phase.Reserved? || s.actors[x].phase.Leaked?)
  {
    CountIsZeroExactly(s);
    assert ActorOk(x, s.actors[x], s.slots[x.index], s.remover);
  }

  /** Every such request does it: a mailbox too small or too large to be built, an actor whose
      context was used before, an alias refused at the second look. */
  lemma UnfitSpawnLeaks(request: Request)
    requires !Fits(request)
    ensures exists s, x :: Reachable(s) && x in s.actors && s.actors[x].phase.Leaked? && s.actors[x].request == request
  {
    var s0, x := Initial(1), Actor(0, 1);
    Stay(s0);
    Hop(s0, s0, Reserve(request));
    var s1 := Step(s0, Reserve(request));
    assert x in s1.actors;
    Hop(s0, s1, AbandonSpawn(x));
    var s2 := Step(s1, AbandonSpawn(x));
    assert Reachable(s2) && x in s2.actors && s2.actors[x].phase.Leaked?;
  }

  // -------------------------------------------------- a spawn into a full registry

  /** The caller's guard: `reserve` finds no index exactly when every slot holds a live actor. */
  lemma FullExactly(s: State)
    requires Reachable(s)
    ensures NextIndex(s) >= |s.slots| <==> s.live == |s.slots|
  {
    ReachableInv(s);
    if |s.free| > 0 { assert s.free[|s.free| - 1] in s.free; }
  }

  /** A panic under the allocator's mutex is for ever, and nothing is removed or stopped after it. */
  lemma {:induction false} PoisonedForever(s: State, acts: seq<Action>, s': State)
    requires s.poisoned && Leads(s, acts, s')
    ensures s'.poisoned
    decreases |acts|
  {
    if acts != [] { PoisonedForever(Step(s, acts[0]), acts[1..], s'); }
  }

  /** Such a run: a registry of one slot, and two spawns that are both in order. */
  lemma OverfullRegistryPoisons()
    ensures exists s :: Reachable(s) && s.poisoned && AllFit(s.actors)
  {
    var s0 := Turned(0);
    FirstIn();
    Hop(Initial(1), s0, Overflow);
    var s1 := Step(s0, Overflow);
    assert Reachable(s1) && s1.poisoned && AllFit(s1.actors);
  }

  // ------------------------------------------------------ otherwise it empties

  ghost predicate AllFit(actors: map<Actor, Record>) {
    forall a :: a in actors ==> Fits(actors[a].request)
  }

  function PhaseRank(s: State, x: Actor): nat
    requires x in s.actors
  {
    match s.actors[x].phase
    case Reserved => 4
    case Committed => 3
    case Removing => if s.remover == Some((x, BumpGeneration)) then 2 else 1
    case Removed => 0
    case Leaked => 0
  }

  /** How many steps the look-up that holds a slot's mutex has to make. */
  function LockRank(s: State, i: nat): nat
    requires i < |s.slots|
  {
    var lock := s.slots[i].lock;
    if lock.None? || lock.value !in s.lookups then 0 else if s.lookups[lock.value].at.CheckGeneration? then 2 else 1
  }

  function Rank(s: State, x: Actor): nat
    requires x in s.actors && x.index < |s.slots|
  {
    4 * PhaseRank(s, x) + LockRank(s, x.index)
  }

  /** `x` is in use, and the allocator is free or at its service. */
  ghost predicate Pending(s: State, x: Actor) {
    && Inv(s) && AllFit(s.actors) && !s.poisoned
    && x in s.actors && InUse(s.actors[x].phase)
    && (s.remover.None? || s.remover.value.0 == x)
  }

  /** One step closer: `x` is gone and the count has dropped, or its rank has. */
  ghost predicate Closer(s: State, x: Actor, s': State) {
    && Inv(s') && AllFit(s'.actors) && !s'.poisoned
    && (if Pending(s', x) then s'.live == s.live && x.index < |s.slots| && x in s.actors && Rank(s', x) < Rank(s, x)
        else s'.remover.None? && s.live > 0 && s'.live == s.live - 1)
  }

  /** The rank has dropped and nobody has gone. */
  lemma ByRank(s: State, x: Actor, s': State)
    requires Pending(s, x) && Inv(s') && s'.live == s.live && s'.poisoned == s.poisoned
    requires x in s'.actors && x.index < |s'.slots|
    requires s'.actors == s.actors[x := s'.actors[x]] && s'.actors[x].request == s.actors[x].request
    requires InUse(s'.actors[x].phase) && (s'.remover.None? || s'.remover.value.0 == x) && Rank(s', x) < Rank(s, x)
    ensures var closer := Closer(s, x, s'); closer
  {
    assert AllFit(s'.actors);
  }

  lemma UnlockRank(s: State, x: Actor, t: nat)
    requires Shape(s) && x in s.actors && t in s.lookups && s.lookups[t].handle.index == x.index
    requires s.slots[x.index].lock == Some(t) && (s.lookups[t].at.CheckGeneration? || s.lookups[t].at.CloneOwner?)
    ensures Enabled(s, LookupStep(t))
    ensures var s' := Step(s, LookupStep(t));
            && s'.actors == s.actors && s'.live == s.live && s'.remover == s.remover && |s'.slots| == |s.slots|
            && s'.poisoned == s.poisoned
            && LockRank(s', x.index) < LockRank(s, x.index)
  {
  }

  lemma HolderOfLock(s: State, x: Actor, t: nat)
    requires Inv(s) && x in s.actors && x.index < |s.slots| && s.slots[x.index].lock == Some(t)
    ensures t in s.lookups && s.lookups[t].handle.index == x.index
    ensures s.lookups[t].at.CheckGeneration? || s.lookups[t].at.CloneOwner?
  {
    LookupFacts(s, t);
  }

  lemma ByUnlock(s: State, x: Actor, s': State)
    requires AllFit(s.actors) && !s.poisoned && x in s.actors && InUse(s.actors[x].phase) && x.index < |s.slots|
    requires s.remover.None? || s.remover.value.0 == x
    requires Inv(s') && s'.live == s.live && s'.poisoned == s.poisoned
    requires s'.actors == s.actors && s'.remover == s.remover
    requires |s'.slots| == |s.slots| && LockRank(s', x.index) < LockRank(s, x.index)
    ensures var closer := Closer(s, x, s'); closer
  {
    assert PhaseRank(s', x) == PhaseRank(s, x);
  }

  lemma UnlockCloser(s: State, x: Actor) returns (a: Action)
    requires Pending(s, x) && s.slots[x.index].lock.Some?
    ensures Enabled(s, a) && a.LookupStep?
    ensures var closer := Closer(s, x, Step(s, a)); closer
  {
    var t := s.slots[x.index].lock.value;
    a := LookupStep(t);
    HolderOfLock(s, x, t);
    UnlockRank(s, x, t);
    LookupKeeps(s, t);
    ByUnlock(s, x, Step(s, a));
  }

  lemma CommitCloser(s: State, x: Actor)
    requires Pending(s, x) && s.slots[x.index].lock.None? && s.actors[x].phase.Reserved?
    ensures Enabled(s, Commit(x))
    ensures var closer := Closer(s, x, Step(s, Commit(x))); closer
  {
    CommitKeeps(s, x);
    ByRank(s, x, Step(s, Commit(x)));
  }

  lemma BeginRank(s: State, x: Actor)
    requires Shape(s) && Enabled(s, BeginRemove(x)) && s.slots[x.index].lock.None?
    ensures var s' := Step(s, BeginRemove(x));
            && s'.live == s.live && s'.poisoned == s.poisoned && |s'.slots| == |s.slots| && x in s'.actors
            && s'.actors == s.actors[x := s'.actors[x]] && s'.actors[x] == s.actors[x].(phase := Removing)
            && s'.remover == Some((x, BumpGeneration)) && Rank(s', x) < Rank(s, x)
  {
  }

  lemma BeginCloser(s: State, x: Actor)
    requires Pending(s, x) && s.slots[x.index].lock.None? && s.actors[x].phase.Committed?
    ensures Enabled(s, BeginRemove(x))
    ensures var closer := Closer(s, x, Step(s, BeginRemove(x))); closer
  {
    CommittedIsFree(s, x);
    BeginRank(s, x);
    StepKeeps(s, BeginRemove(x));
    ByRank(s, x, Step(s, BeginRemove(x)));
  }

  lemma CommittedIsFree(s: State, x: Actor)
    requires Pending(s, x) && s.actors[x].phase.Committed?
    ensures Unlocked(s) && Shape(s)
  {
    assert ActorOk(x, s.actors[x], s.slots[x.index], s.remover);
  }

  lemma BumpCloser(s: State, x: Actor)
    requires Pending(s, x) && s.remover == Some((x, BumpGeneration)) && s.slots[x.index].lock.None?
    ensures Enabled(s, RemoveStep)
    ensures var closer := Closer(s, x, Step(s, RemoveStep)); closer
  {
    BumpKeeps(s);
  }

  lemma ByCount(s: State, x: Actor, s': State)
    requires Pending(s, x) && Inv(s') && s.live > 0 && s'.live == s.live - 1 && s'.remover.None? && !s'.poisoned
    requires s'.actors == s.actors[x := s.actors[x].(phase := Removed)]
    ensures var closer := Closer(s, x, s'); closer
  {
    assert !Pending(s', x) && AllFit(s'.actors);
  }

  lemma TakeCloser(s: State, x: Actor)
    requires Pending(s, x) && s.remover == Some((x, TakeOwner)) && s.slots[x.index].lock.None?
    ensures Enabled(s, RemoveStep)
    ensures var closer := Closer(s, x, Step(s, RemoveStep)); closer
  {
    TakeIs(s, x, s.actors[x].(phase := Removed), s.slots[x.index].(owner := None));
    TakeKeeps(s);
    ByCount(s, x, Step(s, RemoveStep));
  }

  predicate Clearing(a: Action) { a.LookupStep? || a.Commit? || a.BeginRemove? || a.RemoveStep? }

  lemma NextCloser(s: State, x: Actor) returns (a: Action)
    requires Pending(s, x)
    ensures Shape(s) && Enabled(s, a) && Clearing(a)
    ensures var closer := Closer(s, x, Step(s, a)); closer
  {
    PendingPhase(s, x);
    if s.slots[x.index].lock.Some? {
      a := UnlockCloser(s, x);
    } else if s.actors[x].phase.Reserved? {
      a := Commit(x);
      CommitCloser(s, x);
    } else if s.actors[x].phase.Committed? {
      a := BeginRemove(x);
      BeginCloser(s, x);
    } else {
      a := RemoveStep;
      if s.remover.value.1.BumpGeneration? { BumpCloser(s, x); } else { TakeCloser(s, x); }
    }
  }

  /** A removal that has begun goes on by itself. */
  lemma RemovalCloser(s: State, x: Actor) returns (a: Action)
    requires Pending(s, x) && s.remover.Some?
    ensures Shape(s) && Enabled(s, a) && (a.LookupStep? || a.RemoveStep?)
    ensures var closer := Closer(s, x, Step(s, a)); closer
    ensures Pending(Step(s, a), x) ==> Step(s, a).remover.Some?
  {
    PendingPhase(s, x);
    if s.slots[x.index].lock.Some? {
      a := UnlockCloser(s, x);
      assert Step(s, a).remover == s.remover;
    } else {
      a := RemoveStep;
      if s.remover.value.1.BumpGeneration? {
        BumpCloser(s, x);
        BumpGoesOn(s, x);
      } else {
        TakeCloser(s, x);
        TakeFacts(s);
      }
    }
  }

  lemma BumpGoesOn(s: State, x: Actor)
    requires Inv(s) && s.remover == Some((x, BumpGeneration)) && Enabled(s, RemoveStep)
    ensures Step(s, RemoveStep).remover == Some((x, TakeOwner))
  {
    assert ActorOk(x, s.actors[x], s.slots[x.index], s.remover);
    assert SlotOk(s.slots[x.index], x.index, s.actors, s.remover);
  }

  lemma PendingPhase(s: State, x: Actor)
    requires Pending(s, x)
    ensures x.index < |s.slots| && Shape(s)
    ensures var phase := s.actors[x].phase;
            phase.Reserved? || phase.Committed? || (phase.Removing? && s.remover.Some? && s.remover.value.0 == x)
  {
    assert ActorOk(x, s.actors[x], s.slots[x.index], s.remover);
  }

  /** One actor in use can be brought through to its removal. */
  lemma {:induction false} RemovesOne(s: State, x: Actor) returns (s': State)
    requires Pending(s, x) && x.index < |s.slots|
    ensures Reaches(s, s') && Inv(s') && AllFit(s'.actors) && Unlocked(s') && s.live > 0 && s'.live == s.live - 1
    decreases Rank(s, x)
  {
    var a := NextCloser(s, x);
    var next := Step(s, a);
    Stay(s);
    Hop(s, s, a);
    if Pending(next, x) {
      PendingPhase(next, x);
      s' := RemovesOne(next, x);
      Then(s, next, s');
    } else {
      s' := next;
    }
  }

  ghost predicate CanStopDispatchers(s: State) {
    exists s' :: Reaches(s, s') && Shape(s') && Enabled(s', StopDispatchers)
  }

  /** Somebody to remove next. */
  lemma SomePending(s: State) returns (x: Actor)
    requires Inv(s) && AllFit(s.actors) && !s.poisoned && (s.live > 0 || s.remover.Some?)
    ensures Pending(s, x) && x.index < |s.slots|
  {
    if s.remover.Some? {
      x := s.remover.value.0;
    } else {
      CountIsZeroExactly(s);
      x :| x in s.actors && !s.actors[x].phase.Removed?;
    }
    assert ActorOk(x, s.actors[x], s.slots[x.index], s.remover);
  }

  lemma {:induction false} Empties(s: State)
    requires Inv(s) && AllFit(s.actors) && !s.poisoned
    ensures CanStopDispatchers(s)
    decreases s.live
  {
    Stay(s);
    if s.live > 0 || s.remover.Some? {
      var x := SomePending(s);
      var s' := RemovesOne(s, x);
      Empties(s');
      var end :| Reaches(s', end) && Shape(end) && Enabled(end, StopDispatchers);
      Then(s, s', end);
    }
  }

  /** The exact condition: shutdown can still get to stop the dispatchers if and only if every
      spawn so far asked for what `register_actor` can give, and none met a full registry. */
  lemma ShutdownExactlyIfSpawnsFit(s: State)
    requires Reachable(s)
    ensures CanStopDispatchers(s) <==> AllFit(s.actors) && !s.poisoned
    ensures !AllFit(s.actors) <== exists x :: x in s.actors && s.actors[x].phase.Leaked?
  {
    ReachableInv(s);
    forall x | x in s.actors && s.actors[x].phase.Leaked? ensures !Fits(s.actors[x].request) {
      assert ActorOk(x, s.actors[x], s.slots[x.index], s.remover);
    }
    if !AllFit(s.actors) {
      var x :| x in s.actors && !Fits(s.actors[x].request);
      AbandonedSpawnBlocksShutdown(s, x);
    } else if s.poisoned {
      forall s' | Reaches(s, s') ensures s'.poisoned {
        var acts :| Leads(s, acts, s');
        PoisonedForever(s, acts, s');
      }
    } else {
      Empties(s);
    }
  }
}
