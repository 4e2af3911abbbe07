/**
 The bounded multi-producer single-consumer ring behind every mailbox.

 One step of the model is one atomic load, store or compare-exchange of
 `try_enqueue` / `try_dequeue`, or one access to a slot's unsynchronised data cell.
 Memory is sequentially consistent. `claimed` and `taken` are history variables:
 the mails in ticket order, and what the consumer has copied out so far.
 */
module MailboxRing {
  import opened Basics

  /** The `number`-th post of thread `producer`; no two posts share a mail. */
  datatype Mail = Mail(producer: nat, number: nat)

  datatype Ring = Ring(
    capacity: nat,
    sequence: seq<int>,
    data: seq<Option<Mail>>,
    producerIndex: nat,
    consumerIndex: nat,
    claimed: seq<Mail>,
    taken: seq<Option<Mail>>)

  /** Where a thread stands in a post. `LoadIndex` to `Publish` are inside `try_enqueue`. */
  datatype PostPc =
    | Done
    | LoadLife
    | LoadIndex
    | LoadSequence(pos: nat)
    | Claim(pos: nat)
    | Write(pos: nat)
    | Publish(pos: nat)
    | LoadFlag
    | SwapFlag
    | Push

  datatype Post = Post(number: nat, at: PostPc)

  /** Where the consumer stands in a `try_dequeue`; the last two are its results. */
  datatype Cons =
    | Out
    | Index
    | Load(pos: nat)
    | Read(pos: nat)
    | Release(pos: nat, item: Option<Mail>)
    | Advance(pos: nat, item: Option<Mail>)
    | Empty
    | Got(item: Option<Mail>)

  predicate Shaped(r: Ring) {
    r.capacity >= 2 && |r.sequence| == r.capacity && |r.data| == r.capacity
  }

  function New(capacity: nat): (r: Ring)
    requires capacity >= 2
    ensures Shaped(r)
  {
    Ring(capacity, seq(capacity, i => i), seq(capacity, i => None), 0, 0, [], [])
  }

  /** `position & index_mask`, see `MailboxQueue.MaskIsRemainder`. */
  function Slot(r: Ring, p: nat): (i: nat)
    requires Shaped(r)
    ensures i < r.capacity
  {
    p % r.capacity
  }

  function SeqAt(r: Ring, p: nat): int
    requires Shaped(r)
  {
    r.sequence[Slot(r, p)]
  }

  function DataAt(r: Ring, p: nat): Option<Mail>
    requires Shaped(r)
  {
    r.data[Slot(r, p)]
  }

  predicate InEnqueue(pc: PostPc) {
    pc.LoadIndex? || pc.LoadSequence? || pc.Claim? || pc.Write? || pc.Publish?
  }

  /** The next atomic step of a `try_enqueue(m)` standing at `pc`. */
  function EnqueueStep(r: Ring, m: Mail, pc: PostPc): (Ring, PostPc)
    requires Shaped(r) && InEnqueue(pc)
  {
    match pc
    case LoadIndex => (r, LoadSequence(r.producerIndex))
    case LoadSequence(pos) =>
      var difference := SeqAt(r, pos) - pos;
      (r, if difference == 0 then Claim(pos) else if difference < 0 then Done else LoadIndex)
    case Claim(pos) =>
      if r.producerIndex == pos then
        (r.(producerIndex := pos + 1, claimed := r.claimed + [m]), Write(pos))
      else
        (r, LoadIndex)
    case Write(pos) => (r.(data := r.data[Slot(r, pos) := Some(m)]), Publish(pos))
    case Publish(pos) => (r.(sequence := r.sequence[Slot(r, pos) := pos + 1]), LoadFlag)
  }

  predicate InDequeue(c: Cons) {
    c.Index? || c.Load? || c.Read? || c.Release? || c.Advance?
  }

  /** The next atomic step of a `try_dequeue` standing at `c`. */
  function DequeueStep(r: Ring, c: Cons): (Ring, Cons)
    requires Shaped(r) && InDequeue(c)
  {
    match c
    case Index => (r, Load(r.consumerIndex))
    case Load(pos) => (r, if SeqAt(r, pos) == pos + 1 then Read(pos) else Empty)
    case Read(pos) => (r, Release(pos, DataAt(r, pos)))
    case Release(pos, item) =>
      (r.(sequence := r.sequence[Slot(r, pos) := pos + r.capacity], taken := r.taken + [item]),
       Advance(pos, item))
    case Advance(pos, item) => (r.(consumerIndex := pos + 1), Got(item))
  }

  // ---------------------------------------------------------------- invariant

  /** The oldest unreleased ticket. */
  function Head(r: Ring): nat { |r.taken| }

  /** Whether the ticket at the head of the ring is readable. */
  predicate HeadPublished(r: Ring)
    requires Shaped(r)
  {
    SeqAt(r, Head(r)) == Head(r) + 1
  }

  ghost predicate CellsOk(r: Ring)
    requires Shaped(r)
  {
    && r.producerIndex == |r.claimed|
    && Head(r) <= |r.claimed| <= Head(r) + r.capacity
    && (forall i :: 0 <= i < |r.taken| ==> r.taken[i] == Some(r.claimed[i]))
    && (forall p: nat {:trigger SeqAt(r, p)} :: Head(r) <= p < Head(r) + r.capacity ==>
          && (SeqAt(r, p) == p || SeqAt(r, p) == p + 1)
          && (p >= |r.claimed| ==> SeqAt(r, p) == p)
          && (SeqAt(r, p) == p + 1 ==> DataAt(r, p) == Some(r.claimed[p])))
  }

  ghost predicate PostOk(r: Ring, t: nat, post: Post)
    requires Shaped(r)
  {
    match post.at
    case LoadSequence(pos) => pos <= |r.claimed|
    case Claim(pos) => pos <= |r.claimed| && pos < Head(r) + r.capacity
    case Write(pos) =>
      Head(r) <= pos < |r.claimed| && SeqAt(r, pos) == pos && r.claimed[pos] == Mail(t, post.number)
    case Publish(pos) =>
      && Head(r) <= pos < |r.claimed| && SeqAt(r, pos) == pos
      && r.claimed[pos] == Mail(t, post.number) && DataAt(r, pos) == Some(r.claimed[pos])
    case _ => true
  }

  ghost predicate ConsOk(r: Ring, c: Cons)
    requires Shaped(r)
  {
    match c
    case Load(pos) => pos == Head(r) == r.consumerIndex
    case Read(pos) => pos == Head(r) == r.consumerIndex && HeadPublished(r)
    case Release(pos, item) =>
      pos == Head(r) == r.consumerIndex < |r.claimed| && HeadPublished(r) && item == Some(r.claimed[pos])
    case Advance(pos, item) =>
      pos + 1 == Head(r) && r.consumerIndex == pos < |r.claimed| && item == Some(r.claimed[pos])
    case _ => r.consumerIndex == Head(r)
  }

  predicate BeforeClaim(pc: PostPc) {
    pc.LoadLife? || pc.LoadIndex? || pc.LoadSequence? || pc.Claim?
  }

  /** Tickets of one producer carry its post numbers in program order. */
  ghost predicate OrderOk(r: Ring, posters: map<nat, Post>) {
    && (forall i :: 0 <= i < |r.claimed| ==>
          && r.claimed[i].producer in posters
          && r.claimed[i].number <= posters[r.claimed[i].producer].number
          && (BeforeClaim(posters[r.claimed[i].producer].at) ==>
                r.claimed[i].number < posters[r.claimed[i].producer].number))
    && (forall i, j :: 0 <= i < j < |r.claimed| && r.claimed[i].producer == r.claimed[j].producer ==>
          r.claimed[i].number < r.claimed[j].number)
  }

  ghost predicate PostsOk(r: Ring, posters: map<nat, Post>)
    requires Shaped(r)
  {
    forall t :: t in posters ==> PostOk(r, t, posters[t])
  }

  predicate Writing(pc: PostPc, p: nat) { (pc.Write? || pc.Publish?) && pc.pos == p }

  /** A claimed ticket that is not readable yet has its producer in the middle of writing it. */
  ghost predicate OwnersOk(r: Ring, posters: map<nat, Post>)
    requires Shaped(r)
  {
    forall p: nat {:trigger SeqAt(r, p)} :: Head(r) <= p < |r.claimed| && SeqAt(r, p) == p ==>
      r.claimed[p].producer in posters && Writing(posters[r.claimed[p].producer].at, p)
  }

  /** What every interleaving keeps, for the posts in flight and the one consumer `c`. */
  ghost predicate RingInv(r: Ring, posters: map<nat, Post>, c: Cons) {
    Shaped(r) && CellsOk(r) && PostsOk(r, posters) && ConsOk(r, c) && OrderOk(r, posters) && OwnersOk(r, posters)
  }

  // ------------------------------------------------------------ arithmetic

  lemma MonotoneProduct(n: int, k: int)
    requires n >= 0 && k >= 1
    ensures n * k >= n
  {
  }

  lemma BigMultiple(n: int, k: int)
    requires n > 0 && k != 0
    ensures n * k >= n || n * k <= -n
  {
    if k > 0 {
      MonotoneProduct(n, k);
    } else {
      MonotoneProduct(n, -k);
      assert n * -k == -(n * k);
    }
  }

  lemma RemainderUnique(n: nat, k: nat, i: nat)
    requires i < n
    ensures (n * k + i) % n == i
  {
    var x := n * k + i;
    assert x == n * (x / n) + x % n;
    assert n * (k - x / n) == x % n - i;
    if k != x / n { BigMultiple(n, k - x / n); }
  }

  /** Two tickets less than one lap apart never share a slot. */
  lemma SlotInjective(r: Ring, p: nat, q: nat)
    requires Shaped(r) && p <= q < p + r.capacity
    ensures Slot(r, p) == Slot(r, q) <==> p == q
  {
    var n := r.capacity;
    assert p == n * (p / n) + p % n;
    assert q == n * (q / n) + q % n;
    if p % n == q % n {
      assert q - p == n * (q / n - p / n);
      if q / n != p / n { BigMultiple(n, q / n - p / n); }
    }
  }

  lemma SlotPeriodic(r: Ring, p: nat)
    requires Shaped(r)
    ensures Slot(r, p + r.capacity) == Slot(r, p)
  {
    var n, k, i := r.capacity, p / r.capacity, p % r.capacity;
    assert p == n * k + i;
    assert p + n == n * (k + 1) + i;
    RemainderUnique(n, k + 1, i);
  }

  /** Every natural number falls into exactly one lap position of the current window. */
  lemma WindowPosition(r: Ring, p: nat) returns (q: nat)
    requires Shaped(r) && CellsOk(r)
    ensures Head(r) <= q < Head(r) + r.capacity
    ensures Slot(r, q) == Slot(r, p)
    ensures q <= p ==> p == q || p >= q + r.capacity
    ensures p <= q ==> p == q || q >= p + r.capacity
  {
    q := WindowSearch(r, p, Head(r));
    if q < p < q + r.capacity { SlotInjective(r, q, p); }
    if p < q < p + r.capacity { SlotInjective(r, p, q); }
  }

  lemma WindowSearch(r: Ring, p: nat, h: nat) returns (q: nat)
    requires Shaped(r)
    ensures h <= q < h + r.capacity && Slot(r, q) == Slot(r, p)
    decreases if p < h then h - p else p - h
  {
    if p < h {
      SlotPeriodic(r, p);
      if p + r.capacity < h + r.capacity && p + r.capacity >= h { q := p + r.capacity; }
      else { q := WindowSearch(r, p + r.capacity, h); }
    } else if p >= h + r.capacity {
      SlotPeriodic(r, p - r.capacity);
      q := WindowSearch(r, p - r.capacity, h);
    } else {
      q := p;
    }
  }

  // ------------------------------------------------------------ preservation

  lemma InitialSlot(capacity: nat, p: nat)
    requires capacity >= 2 && p < capacity
    ensures SeqAt(New(capacity), p) == p
  {
    RemainderUnique(capacity, 0, p);
  }

  lemma InitialCells(capacity: nat)
    requires capacity >= 2
    ensures Shaped(New(capacity)) && CellsOk(New(capacity))
  {
    var r := New(capacity);
    forall p: nat | Head(r) <= p < Head(r) + r.capacity ensures SeqAt(r, p) == p { InitialSlot(capacity, p); }
  }

  lemma InitialRing(capacity: nat)
    requires capacity >= 2
    ensures RingInv(New(capacity), map[], Out)
  {
    InitialCells(capacity);
  }

  /** A slot read as free for `pos` really is the free slot of ticket `pos`. */
  lemma FreeSlotIsCurrent(r: Ring, pos: nat)
    requires Shaped(r) && CellsOk(r) && SeqAt(r, pos) == pos
    ensures pos < Head(r) + r.capacity
  {
    var q := WindowPosition(r, pos);
    assert SeqAt(r, q) == SeqAt(r, pos);
  }

  lemma LoadSequenceKeeps(r: Ring, posters: map<nat, Post>, c: Cons, t: nat)
    requires RingInv(r, posters, c) && t in posters && posters[t].at.LoadSequence?
    ensures var (r', pc') := EnqueueStep(r, Mail(t, posters[t].number), posters[t].at);
            RingInv(r', posters[t := posters[t].(at := pc')], c)
  {
    assert PostOk(r, t, posters[t]);
    var pos := posters[t].at.pos;
    if SeqAt(r, pos) == pos { FreeSlotIsCurrent(r, pos); }
  }

  lemma ClaimOrder(r: Ring, posters: map<nat, Post>, t: nat, r': Ring, posters': map<nat, Post>)
    requires OrderOk(r, posters) && t in posters && posters[t].at.Claim?
    requires r'.claimed == r.claimed + [Mail(t, posters[t].number)]
    requires posters' == posters[t := posters[t].(at := Write(|r.claimed|))]
    ensures OrderOk(r', posters')
  {
  }

  lemma ClaimCells(r: Ring, posters: map<nat, Post>, t: nat, r': Ring, posters': map<nat, Post>)
    requires Shaped(r) && CellsOk(r) && PostsOk(r, posters) && OwnersOk(r, posters)
    requires t in posters && posters[t].at == Claim(|r.claimed|)
    requires r' == r.(producerIndex := |r.claimed| + 1, claimed := r.claimed + [Mail(t, posters[t].number)])
    requires posters' == posters[t := posters[t].(at := Write(|r.claimed|))]
    ensures CellsOk(r') && PostsOk(r', posters') && OwnersOk(r', posters')
  {
    forall p: nat ensures SeqAt(r', p) == SeqAt(r, p) && DataAt(r', p) == DataAt(r, p) {
    }
    assert PostOk(r, t, posters[t]);
    forall u | u in posters' ensures PostOk(r', u, posters'[u]) {
      if u != t { assert PostOk(r, u, posters[u]); }
    }
  }

  lemma ClaimKeeps(r: Ring, posters: map<nat, Post>, c: Cons, t: nat)
    requires RingInv(r, posters, c) && t in posters && posters[t].at.Claim?
    ensures var (r', pc') := EnqueueStep(r, Mail(t, posters[t].number), posters[t].at);
            RingInv(r', posters[t := posters[t].(at := pc')], c)
  {
    var (r', pc') := EnqueueStep(r, Mail(t, posters[t].number), posters[t].at);
    var posters' := posters[t := posters[t].(at := pc')];
    if r.producerIndex == posters[t].at.pos {
      ClaimCells(r, posters, t, r', posters');
      ClaimOrder(r, posters, t, r', posters');
      assert SeqAt(r', Head(r')) == SeqAt(r, Head(r));
    } else {
      assert PostsOk(r', posters');
    }
  }

  lemma WriteKeeps(r: Ring, posters: map<nat, Post>, c: Cons, t: nat)
    requires RingInv(r, posters, c) && t in posters && posters[t].at.Write?
    ensures var (r', pc') := EnqueueStep(r, Mail(t, posters[t].number), posters[t].at);
            RingInv(r', posters[t := posters[t].(at := pc')], c)
  {
    assert PostOk(r, t, posters[t]);
    var m := Mail(t, posters[t].number);
    var (r', pc') := EnqueueStep(r, m, posters[t].at);
    var posters' := posters[t := posters[t].(at := pc')];
    var pos := posters[t].at.pos;
    forall p: nat | Head(r) <= p < Head(r) + r.capacity
      ensures SeqAt(r', p) == SeqAt(r, p)
      ensures p != pos ==> DataAt(r', p) == DataAt(r, p)
    {
      if p <= pos { SlotInjective(r, p, pos); } else { SlotInjective(r, pos, p); }
    }
    forall u | u in posters' ensures PostOk(r', u, posters'[u]) {
      if u != t { assert PostOk(r, u, posters[u]); }
    }
  }

  lemma PublishKeeps(r: Ring, posters: map<nat, Post>, c: Cons, t: nat)
    requires RingInv(r, posters, c) && t in posters && posters[t].at.Publish?
    ensures var (r', pc') := EnqueueStep(r, Mail(t, posters[t].number), posters[t].at);
            RingInv(r', posters[t := posters[t].(at := pc')], c)
  {
    assert PostOk(r, t, posters[t]);
    var m := Mail(t, posters[t].number);
    var (r', pc') := EnqueueStep(r, m, posters[t].at);
    var posters' := posters[t := posters[t].(at := pc')];
    var pos := posters[t].at.pos;
    forall p: nat | Head(r) <= p < Head(r) + r.capacity
      ensures SeqAt(r', p) == (if p == pos then pos + 1 else SeqAt(r, p))
      ensures DataAt(r', p) == DataAt(r, p)
    {
      if p <= pos { SlotInjective(r, p, pos); } else { SlotInjective(r, pos, p); }
    }
    forall u | u in posters' ensures PostOk(r', u, posters'[u]) {
      if u != t { assert PostOk(r, u, posters[u]); }
    }
  }

  /** What a producer's step shows the consumer: at most a newly published head. */
  lemma EnqueueFrame(r: Ring, m: Mail, pc: PostPc)
    requires Shaped(r) && InEnqueue(pc)
    ensures var (r', pc') := EnqueueStep(r, m, pc);
            && Shaped(r') && r'.capacity == r.capacity
            && r'.taken == r.taken && r'.consumerIndex == r.consumerIndex
            && r.claimed <= r'.claimed
            && (HeadPublished(r') ==> HeadPublished(r) || pc'.LoadFlag?)
            && !pc'.Push? && !pc'.SwapFlag?
  {
  }

  /** Every atomic step of every `try_enqueue` keeps the invariant. */
  lemma EnqueueKeeps(r: Ring, posters: map<nat, Post>, c: Cons, t: nat)
    requires RingInv(r, posters, c) && t in posters && InEnqueue(posters[t].at)
    ensures var (r', pc') := EnqueueStep(r, Mail(t, posters[t].number), posters[t].at);
            RingInv(r', posters[t := posters[t].(at := pc')], c)
  {
    match posters[t].at
    case LoadIndex =>
    case LoadSequence(_) => LoadSequenceKeeps(r, posters, c, t);
    case Claim(_) => ClaimKeeps(r, posters, c, t);
    case Write(_) => WriteKeeps(r, posters, c, t);
    case Publish(_) => PublishKeeps(r, posters, c, t);
  }

  lemma ReleaseKeeps(r: Ring, posters: map<nat, Post>, c: Cons)
    requires RingInv(r, posters, c) && c.Release?
    ensures var (r', c') := DequeueStep(r, c); RingInv(r', posters, c')
  {
    var (r', c') := DequeueStep(r, c);
    var pos := c.pos;
    var n := r.capacity;
    forall p: nat | pos < p < pos + n
      ensures SeqAt(r', p) == SeqAt(r, p) && DataAt(r', p) == DataAt(r, p)
    {
      SlotInjective(r, pos, p);
    }
    SlotPeriodic(r, pos);
    assert SeqAt(r', pos + n) == pos + n;
    forall p: nat | Head(r') <= p < Head(r') + n
      ensures SeqAt(r', p) == p || SeqAt(r', p) == p + 1
      ensures p >= |r'.claimed| ==> SeqAt(r', p) == p
      ensures SeqAt(r', p) == p + 1 ==> DataAt(r', p) == Some(r'.claimed[p])
    {
      if p < pos + n { assert SeqAt(r', p) == SeqAt(r, p); }
    }
    forall u | u in posters ensures PostOk(r', u, posters[u]) {
      assert PostOk(r, u, posters[u]);
    }
  }

  /** The ring looks the same to every post; only the consumer's own index may differ. */
  ghost predicate SameCells(r: Ring, r': Ring) {
    r' == r.(consumerIndex := r'.consumerIndex)
  }

  lemma SameCellsKeep(r: Ring, r': Ring, posters: map<nat, Post>, c: Cons)
    requires RingInv(r, posters, c) && SameCells(r, r')
    ensures Shaped(r') && CellsOk(r') && PostsOk(r', posters) && OrderOk(r', posters) && OwnersOk(r', posters)
    ensures HeadPublished(r') == HeadPublished(r)
  {
    forall p: nat ensures SeqAt(r', p) == SeqAt(r, p) && DataAt(r', p) == DataAt(r, p) {
    }
    forall u | u in posters ensures PostOk(r', u, posters[u]) {
      assert PostOk(r, u, posters[u]);
    }
  }

  /** Every atomic step of the single consumer keeps the invariant. */
  lemma DequeueKeeps(r: Ring, posters: map<nat, Post>, c: Cons)
    requires RingInv(r, posters, c) && InDequeue(c)
    ensures var (r', c') := DequeueStep(r, c);
            && RingInv(r', posters, c')
            && (c'.Got? ==> r'.taken == r.taken && |r'.taken| > 0 && c'.item == r'.taken[|r'.taken| - 1])
            && (c'.Empty? ==> r' == r && !HeadPublished(r))
  {
    if c.Release? {
      ReleaseKeeps(r, posters, c);
    } else {
      var (r', c') := DequeueStep(r, c);
      SameCellsKeep(r, r', posters, c);
    }
  }

  // ------------------------------------------------------------------ safety

  /** A post is turned away only if at that very load every slot is taken. */
  lemma RefusedOnlyWhenFull(r: Ring, posters: map<nat, Post>, c: Cons, t: nat)
    requires RingInv(r, posters, c) && t in posters && posters[t].at.LoadSequence?
    requires EnqueueStep(r, Mail(t, posters[t].number), posters[t].at).1 == Done
    ensures |r.claimed| - |r.taken| == r.capacity
  {
    assert PostOk(r, t, posters[t]);
    var q := WindowPosition(r, posters[t].at.pos);
    assert SeqAt(r, q) == SeqAt(r, posters[t].at.pos);
  }

  /** A thread about to write a cell is the only one with that cell: no unread mail is in it
      and no other thread is about to write it. */
  lemma NoUnreadCellOverwritten(r: Ring, posters: map<nat, Post>, c: Cons, t: nat, q: nat)
    requires RingInv(r, posters, c) && t in posters && posters[t].at.Write?
    requires Head(r) <= q < |r.claimed| && Slot(r, q) == Slot(r, posters[t].at.pos)
    ensures q == posters[t].at.pos && SeqAt(r, q) != q + 1
    ensures forall u :: u in posters && Writing(posters[u].at, q) ==> u == t
  {
    assert PostOk(r, t, posters[t]);
    var pos := posters[t].at.pos;
    if q <= pos { SlotInjective(r, q, pos); } else { SlotInjective(r, pos, q); }
    forall u | u in posters && Writing(posters[u].at, q) ensures u == t {
      assert PostOk(r, u, posters[u]);
    }
  }

  /** The consumer reads only cells that were written, and takes exactly the claimed tickets
      in order, also while `sequence` is already released and `consumer_index` not advanced. */
  lemma NoUnwrittenCellRead(r: Ring, posters: map<nat, Post>, c: Cons)
    requires RingInv(r, posters, c)
    ensures c.Read? ==> c.pos < |r.claimed| && DataAt(r, c.pos) == Some(r.claimed[c.pos])
    ensures |r.taken| <= |r.claimed| && forall i :: 0 <= i < |r.taken| ==> r.taken[i] == Some(r.claimed[i])
    ensures forall p: nat :: Head(r) <= p < Head(r) + r.capacity ==> SeqAt(r, p) == p || SeqAt(r, p) == p + 1
  {
  }

  // --------------------------------------------------- the ring on its own, all runs

  datatype World = World(ring: Ring, posters: map<nat, Post>, consumer: Cons)

  datatype Move = Begin(t: nat) | Produce(t: nat) | Consume

  predicate CanMove(w: World, a: Move)
    requires Shaped(w.ring)
  {
    match a
    case Begin(t) => t in w.posters ==> !InEnqueue(w.posters[t].at)
    case Produce(t) => t in w.posters && InEnqueue(w.posters[t].at)
    case Consume => true
  }

  function Moved(w: World, a: Move): World
    requires Shaped(w.ring) && CanMove(w, a)
  {
    match a
    case Begin(t) =>
      w.(posters := w.posters[t := Post(if t in w.posters then w.posters[t].number + 1 else 0, LoadIndex)])
    case Produce(t) =>
      var (ring', pc') := EnqueueStep(w.ring, Mail(t, w.posters[t].number), w.posters[t].at);
      World(ring', w.posters[t := w.posters[t].(at := pc')], w.consumer)
    case Consume =>
      if InDequeue(w.consumer) then
        var (ring', c') := DequeueStep(w.ring, w.consumer);
        World(ring', w.posters, c')
      else
        w.(consumer := Index)
  }

  ghost predicate Runs(w: World, moves: seq<Move>, w': World)
    decreases |moves|
  {
    if moves == [] then w == w' else
      Shaped(w.ring) && CanMove(w, moves[0]) && Runs(Moved(w, moves[0]), moves[1..], w')
  }

  lemma BeginKeeps(w: World, t: nat)
    requires RingInv(w.ring, w.posters, w.consumer) && CanMove(w, Begin(t))
    ensures RingInv(w.ring, Moved(w, Begin(t)).posters, w.consumer)
  {
    var posters' := Moved(w, Begin(t)).posters;
    forall u | u in posters' ensures PostOk(w.ring, u, posters'[u]) {
      if u != t { assert PostOk(w.ring, u, w.posters[u]); }
    }
  }

  /** Any number of producers, one consumer, any interleaving, any capacity from two up. */
  lemma {:induction false} RunsKeep(w: World, moves: seq<Move>, w': World)
    requires RingInv(w.ring, w.posters, w.consumer) && Runs(w, moves, w')
    ensures RingInv(w'.ring, w'.posters, w'.consumer)
    decreases |moves|
  {
    if moves != [] {
      match moves[0] {
        case Begin(t) => BeginKeeps(w, t);
        case Produce(t) => EnqueueKeeps(w.ring, w.posters, w.consumer, t);
        case Consume => if InDequeue(w.consumer) { DequeueKeeps(w.ring, w.posters, w.consumer); }
      }
      RunsKeep(Moved(w, moves[0]), moves[1..], w');
    }
  }

  /** Every state of every run from an empty ring is safe. */
  lemma RingSafe(capacity: nat, moves: seq<Move>, w: World)
    requires capacity >= 2 && Runs(World(New(capacity), map[], Out), moves, w)
    ensures RingInv(w.ring, w.posters, w.consumer)
    ensures |w.ring.taken| <= |w.ring.claimed| <= |w.ring.taken| + w.ring.capacity
    ensures forall i :: 0 <= i < |w.ring.taken| ==> w.ring.taken[i] == Some(w.ring.claimed[i])
  {
    InitialRing(capacity);
    RunsKeep(World(New(capacity), map[], Out), moves, w);
  }
}
