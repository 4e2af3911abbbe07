/** One pass of the timeout sweeper over its slots, and how long it then waits. */
module AskSweep {
  import opened Basics

  /** A registered ask: its awaiter is only weakly held. */
  datatype Slot = Slot(ask: nat, deadline: nat)

  const SWEEP_CAP: nat := 100

  predicate Expired(slot: Option<Slot>, now: nat) { slot.Some? && slot.value.deadline <= now }

  predicate Swept(slot: Option<Slot>, now: nat, alive: set<nat>) {
    slot.Some? && (slot.value.deadline <= now || slot.value.ask !in alive)
  }

  /** The asks to be told of their timeout, in slot order. */
  ghost function ExpiredAsks(slots: seq<Option<Slot>>, now: nat, alive: set<nat>): seq<nat> {
    if slots == [] then [] else
    var last := slots[|slots| - 1];
    ExpiredAsks(slots[..|slots| - 1], now, alive)
    + if Expired(last, now) && last.value.ask in alive then [last.value.ask] else []
  }

  ghost predicate Earliest(slots: seq<Option<Slot>>, next: Option<nat>) {
    && (forall i :: 0 <= i < |slots| && slots[i].Some? ==> next.Some? && next.value <= slots[i].value.deadline)
    && (next.Some? ==> exists i :: 0 <= i < |slots| && slots[i].Some? && slots[i].value.deadline == next.value)
  }

  lemma {:induction false} ExpiredAsksAre(slots: seq<Option<Slot>>, now: nat, alive: set<nat>, ask: nat)
    ensures ask in ExpiredAsks(slots, now, alive) <==>
            ask in alive && exists i :: 0 <= i < |slots| && Expired(slots[i], now) && slots[i].value.ask == ask
    decreases |slots|
  {
    if slots != [] {
      var n := |slots| - 1;
      ExpiredAsksAre(slots[..n], now, alive, ask);
      forall i | 0 <= i < n && Expired(slots[i], now) && slots[i].value.ask == ask
        ensures exists j :: 0 <= j < n && Expired(slots[..n][j], now) && slots[..n][j].value.ask == ask
      {
        assert slots[..n][i] == slots[i];
      }
    }
  }

  lemma EarliestMore(slots: seq<Option<Slot>>, next: Option<nat>, slot: Option<Slot>)
    requires Earliest(slots, next)
    ensures slot.None? ==> Earliest(slots + [slot], next)
    ensures slot.Some? ==>
              var earlier := next.Some? && next.value <= slot.value.deadline;
              Earliest(slots + [slot], Some(if earlier then next.value else slot.value.deadline))
  {
    var all := slots + [slot];
    assert all[|slots|] == slot;
    if next.Some? {
      var i :| 0 <= i < |slots| && slots[i].Some? && slots[i].value.deadline == next.value;
      assert all[i] == slots[i];
    }
  }

  /** One pass: exactly the expired and the abandoned slots are emptied, the asks to be timed
      out are exactly the expired ones still awaited, and the earliest deadline left is found. */
  method Sweep(slots: array<Option<Slot>>, now: nat, alive: set<nat>) returns (expired: seq<nat>, next: Option<nat>)
    modifies slots
    ensures forall i :: 0 <= i < slots.Length ==>
              slots[i] == if Swept(old(slots[i]), now, alive) then None else old(slots[i])
    ensures expired == ExpiredAsks(old(slots[..]), now, alive)
    ensures Earliest(slots[..], next)
  {
    expired, next := [], None;
    ghost var was := slots[..];
    for k := 0 to slots.Length
      invariant forall i :: 0 <= i < k ==> slots[i] == if Swept(was[i], now, alive) then None else was[i]
      invariant forall i :: k <= i < slots.Length ==> slots[i] == was[i]
      invariant expired == ExpiredAsks(was[..k], now, alive)
      invariant Earliest(slots[..k], next)
    {
      var entry := slots[k];
      assert was[..k + 1][..k] == was[..k];
      ghost var done, sofar := slots[..k], next;
      if entry.Some? && (entry.value.deadline <= now || entry.value.ask !in alive) {
        slots[k] := None;
        if entry.value.ask in alive { expired := expired + [entry.value.ask]; }
      } else if entry.Some? {
        next := Some(if next.Some? && next.value <= entry.value.deadline then next.value else entry.value.deadline);
      }
      assert slots[..k + 1] == done + [slots[k]];
      EarliestMore(done, sofar, slots[k]);
    }
    assert was[..slots.Length] == was && slots[..slots.Length] == slots[..];
  }

  /** `Instant` subtraction saturates. */
  method WaitFor(next: Option<nat>, now: nat) returns (wait: nat)
    ensures wait <= SWEEP_CAP
    ensures next.Some? && now <= next.value ==> now + wait <= next.value
    ensures next.Some? && next.value <= now ==> wait == 0
    ensures wait < SWEEP_CAP ==> next.Some? && now + wait >= next.value
  {
    if next.None? { return SWEEP_CAP; }
    var left := if next.value >= now then next.value - now else 0;
    wait := if left < SWEEP_CAP then left else SWEEP_CAP;
  }
}
