/**
 `MpscBoundedQueue` as an object: its constructor, and the three operations as they run when
 no other thread interferes. Each is proved against the sequence of mails it holds, and its
 fields are tied to the ring of `MailboxRing`, whose steps interleave.
 */
module MailboxQueue {
  import opened Basics
  import opened MailboxRing

  const MAX_CAPACITY := 0x8000_0000_0000_0000

  /** `isize::MAX`, which bounds the size of an allocation. */
  const MAX_BYTES := 0x7FFF_FFFF_FFFF_FFFF

  function Pow2(k: nat): (n: nat)
    ensures n > 0
  {
    if k == 0 then 1 else 2 * Pow2(k - 1)
  }

  lemma {:induction false} Pow2Grows(i: nat, j: nat)
    requires i < j
    ensures 2 * Pow2(i) <= Pow2(j)
    decreases j
  {
    if i < j - 1 { Pow2Grows(i, j - 1); }
  }

  /** Bitwise conjunction of two unsigned machine words. */
  function BitAnd(a: nat, b: nat): nat {
    if a == 0 || b == 0 then 0 else (a % 2) * (b % 2) + 2 * BitAnd(a / 2, b / 2)
  }

  lemma HalfRemainder(position: nat, n: nat)
    requires n > 0
    ensures position % (2 * n) == 2 * ((position / 2) % n) + position % 2
  {
    var half := position / 2;
    var q, i := half / n, half % n;
    assert half == n * q + i;
    assert position == 2 * half + position % 2;
    assert (2 * n) * q == 2 * (n * q);
    RemainderUnique(2 * n, q, 2 * i + position % 2);
  }

  lemma HalfMask(position: nat, n: nat)
    requires n > 0
    ensures BitAnd(position, 2 * n - 1) == 2 * BitAnd(position / 2, n - 1) + position % 2
  {
    assert (2 * n - 1) / 2 == n - 1 && (2 * n - 1) % 2 == 1;
  }

  /** `position & index_mask` selects the slot that the position has modulo the capacity. */
  lemma {:induction false} MaskIsRemainder(position: nat, k: nat)
    ensures BitAnd(position, Pow2(k) - 1) == position % Pow2(k)
    decreases k
  {
    if k > 0 {
      var n := Pow2(k - 1);
      assert Pow2(k) == 2 * n;
      MaskIsRemainder(position / 2, k - 1);
      HalfRemainder(position, n);
      HalfMask(position, n);
    }
  }

  /** The first of `n`, 2n, 4n, ... that is at least `capacity`. */
  function Doubled(n: nat, capacity: nat): (r: nat)
    requires n > 0
    ensures r >= capacity && r >= n
    decreases capacity - n
  {
    if n >= capacity then n else Doubled(2 * n, capacity)
  }

  /** The number of slots a mailbox of this capacity gets. */
  function Normalized(capacity: nat): (r: nat)
    ensures r >= capacity
  {
    Doubled(1, capacity)
  }

  /** The capacities for which `new` returns: it panics below two slots, where doubling overflows,
      and where the slots, of `slotBytes` bytes each, are more than any allocation may have. */
  predicate Buildable(capacity: nat, slotBytes: nat) {
    2 <= capacity <= MAX_CAPACITY && Normalized(capacity) * slotBytes <= MAX_BYTES
  }

  /** The least power of two that is at least `capacity`; fails where doubling overflows. */
  method NormalizeToPowerOfTwo(capacity: nat) returns (r: Option<nat>)
    ensures r.Some? <==> capacity <= MAX_CAPACITY
    ensures r.Some? ==> r.value == Normalized(capacity)
    ensures r.Some? ==> capacity <= r.value && (r.value == 1 || r.value < 2 * capacity)
    ensures r.Some? ==> exists k: nat :: r.value == Pow2(k)
  {
    var n := 1;
    ghost var k: nat := 0;
    while n < capacity
      invariant n == Pow2(k) && n <= MAX_CAPACITY && k <= 63
      invariant n == 1 || n < 2 * capacity
      invariant Doubled(n, capacity) == Normalized(capacity)
      decreases capacity - n
    {
      if n == MAX_CAPACITY { return None; }
      if k == 63 { Pow2At63(); }
      if n > MAX_CAPACITY / 2 { OnlyPowers(k); }
      n := 2 * n;
      k := k + 1;
    }
    return Some(n);
  }

  lemma Pow2At63()
    ensures Pow2(63) == MAX_CAPACITY
  {
    assert Pow2(8) == 0x100;
    assert Pow2(16) == 0x10000 by { Pow2Sum(8, 8); }
    assert Pow2(32) == 0x1_0000_0000 by { Pow2Sum(16, 16); }
    assert Pow2(48) == 0x1_0000_0000_0000 by { Pow2Sum(32, 16); }
    assert Pow2(56) == 0x100_0000_0000_0000 by { Pow2Sum(48, 8); }
    assert Pow2(7) == 128;
    Pow2Sum(56, 7);
  }

  lemma {:induction false} Pow2Sum(i: nat, j: nat)
    ensures Pow2(i + j) == Pow2(i) * Pow2(j)
    decreases j
  {
    if j > 0 { Pow2Sum(i, j - 1); }
  }

  lemma OnlyPowers(k: nat)
    requires k <= 63 && Pow2(k) > MAX_CAPACITY / 2
    ensures k == 63 && Pow2(k) == MAX_CAPACITY
  {
    Pow2At63();
    if k < 63 { Pow2Grows(k, 63); }
  }

  class MpscBoundedQueue {
    const capacity: nat
    const sequence: array<int>
    const data: array<Option<Mail>>
    var producerIndex: nat
    var consumerIndex: nat
    ghost var claimed: seq<Mail>
    ghost var taken: seq<Option<Mail>>

    /** The fields as a ring of the interleaved model. */
    ghost function View(): Ring
      reads this, sequence, data
    {
      Ring(capacity, sequence[..], data[..], producerIndex, consumerIndex, claimed, taken)
    }

    /** No call is in progress: the ring is sound, and every claimed ticket is readable. */
    ghost predicate Valid()
      reads this, sequence, data
    {
      && Shaped(View()) && CellsOk(View())
      && consumerIndex == |taken|
      && (forall p: nat :: |taken| <= p < |claimed| ==> SeqAt(View(), p) == p + 1)
    }

    ghost function Contents(): seq<Mail>
      reads this, sequence, data
      requires Valid()
    {
      claimed[|taken|..]
    }

    /** Panics on everything that is not buildable. */
    constructor (requested: nat, ghost slotBytes: nat)
      requires Buildable(requested, slotBytes)
      ensures capacity == Normalized(requested)
      ensures Valid() && Contents() == []
      ensures requested <= capacity < 2 * requested && exists k: nat :: capacity == Pow2(k)
      ensures fresh(sequence) && fresh(data)
    {
      var normalized := NormalizeToPowerOfTwo(requested);
      var capacity := normalized.value;
      this.capacity := capacity;
      sequence := new int[capacity](i => i);
      data := new Option<Mail>[capacity](_ => None);
      producerIndex, consumerIndex := 0, 0;
      claimed, taken := [], [];
      new;
      var r := View();
      forall p: nat | p < capacity ensures SeqAt(r, p) == p {
        RemainderUnique(capacity, 0, p);
      }
    }

    method TryEnqueue(mail: Mail) returns (ok: bool)
      requires Valid()
      modifies this, sequence, data
      ensures Valid()
      ensures ok <==> |old(Contents())| < capacity
      ensures Contents() == if ok then old(Contents()) + [mail] else old(Contents())
      ensures taken == old(taken) && claimed == if ok then old(claimed) + [mail] else old(claimed)
    {
      var position := producerIndex;
      var index := position % capacity;
      ghost var r := View();
      var difference := sequence[index] - position;
      assert sequence[index] == SeqAt(r, position);
      if difference != 0 { FullRing(r); }
      if difference < 0 {
        return false;
      }
      producerIndex := position + 1;
      data[index] := Some(mail);
      sequence[index] := position + 1;
      claimed := claimed + [mail];
      Enqueued(r, mail, View());
      return true;
    }

    method TryDequeue() returns (item: Option<Mail>)
      requires Valid()
      modifies this, sequence, data
      ensures Valid()
      ensures item == if old(Contents()) == [] then None else Some(old(Contents())[0])
      ensures Contents() == if old(Contents()) == [] then [] else old(Contents())[1..]
      ensures claimed == old(claimed)
    {
      var position := consumerIndex;
      var index := position % capacity;
      ghost var r := View();
      assert sequence[index] == SeqAt(r, position);
      if sequence[index] != position + 1 {
        return None;
      }
      item := data[index];
      sequence[index] := position + capacity;
      consumerIndex := position + 1;
      taken := taken + [item];
      Dequeued(r, View());
    }

    method TryPeek() returns (readable: bool)
      requires Valid()
      ensures readable <==> Contents() != []
    {
      var position := consumerIndex;
      ghost var r := View();
      assert sequence[position % capacity] == SeqAt(r, position);
      readable := sequence[position % capacity] == position + 1;
    }
  }

  /** With every ticket readable, the producer's slot is taken exactly when the ring is full. */
  lemma FullRing(r: Ring)
    requires Shaped(r) && CellsOk(r) && SeqAt(r, |r.claimed|) != |r.claimed|
    ensures |r.claimed| == |r.taken| + r.capacity && SeqAt(r, |r.claimed|) < |r.claimed|
  {
    SlotPeriodic(r, |r.taken|);
    assert SeqAt(r, |r.claimed|) == SeqAt(r, |r.taken|);
  }

  ghost predicate AllReadable(r: Ring)
    requires Shaped(r)
  {
    forall p: nat :: |r.taken| <= p < |r.claimed| ==> SeqAt(r, p) == p + 1
  }

  lemma Enqueued(r: Ring, mail: Mail, r': Ring)
    requires Shaped(r) && CellsOk(r) && AllReadable(r) && SeqAt(r, |r.claimed|) == |r.claimed|
    requires var i := Slot(r, |r.claimed|);
      r' == r.(producerIndex := |r.claimed| + 1, claimed := r.claimed + [mail],
               data := r.data[i := Some(mail)], sequence := r.sequence[i := |r.claimed| + 1])
    ensures Shaped(r') && CellsOk(r') && AllReadable(r') && |r.claimed| < |r.taken| + r.capacity
  {
    var pos := |r.claimed|;
    FreeSlotIsCurrent(r, pos);
    forall p: nat | Head(r) <= p < Head(r) + r.capacity
      ensures SeqAt(r', p) == (if p == pos then pos + 1 else SeqAt(r, p))
      ensures DataAt(r', p) == (if p == pos then Some(mail) else DataAt(r, p))
    {
      if p <= pos { SlotInjective(r, p, pos); } else { SlotInjective(r, pos, p); }
    }
  }

  lemma Dequeued(r: Ring, r': Ring)
    requires Shaped(r) && CellsOk(r) && AllReadable(r) && HeadPublished(r)
    requires r' == r.(sequence := r.sequence[Slot(r, Head(r)) := Head(r) + r.capacity],
                      consumerIndex := Head(r) + 1, taken := r.taken + [DataAt(r, Head(r))])
    ensures Shaped(r') && CellsOk(r') && AllReadable(r')
  {
    var pos, n := Head(r), r.capacity;
    forall p: nat | pos < p < pos + n
      ensures SeqAt(r', p) == SeqAt(r, p) && DataAt(r', p) == DataAt(r, p)
    {
      SlotInjective(r, pos, p);
    }
    SlotPeriodic(r, pos);
    assert SeqAt(r', pos + n) == pos + n;
    forall p: nat | Head(r') <= p < Head(r') + n
      ensures SeqAt(r', p) == p || SeqAt(r', p) == p + 1
      ensures p >= |r'.claimed| ==> SeqAt(r', p) == p
      ensures SeqAt(r', p) == p + 1 ==> DataAt(r', p) == Some(r'.claimed[p])
    {
      if p < pos + n { assert SeqAt(r', p) == SeqAt(r, p); }
    }
  }
}
