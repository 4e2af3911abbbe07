/**
 The completion cell of an ask: replies, timeouts and polls race for its mutex. Each method
 body is one critical section; the waker that `Complete` returns is woken after the section,
 in a step of its own.
 */
module AskAwaiter {
  import opened Basics

  /** A waker stands for the task it wakes, so `will_wake` is equality. */
  type Waker = nat

  datatype Cell<R> = Cell(response: Option<R>, completed: bool, timedOut: bool, waker: Option<Waker>)

  datatype Answer<R> = Pending | Response(value: R) | Mismatch | Timeout | Panic

  class AskAwaiterState<!R> {
    var response: Option<R>
    var completed: bool
    var timedOut: bool
    var waker: Option<Waker>

    ghost function View(): Cell<R>
      reads this
    {
      Cell(response, completed, timedOut, waker)
    }

    constructor ()
      ensures View() == Empty<R>()
    {
      response, completed, timedOut, waker := None, false, false, None;
    }

    method Complete(response: Option<R>, timedOut: bool) returns (woken: Option<Waker>)
      modifies this
      ensures (View(), woken) == Completed(old(View()), response, timedOut)
    {
      if completed { return None; }
      this.response := response;
      this.timedOut := timedOut;
      completed := true;
      woken := waker;
      waker := None;
    }

    method Poll(waker: Waker, fits: R -> bool) returns (answer: Answer<R>)
      modifies this
      ensures (View(), answer) == Polled(old(View()), waker, fits)
    {
      if !completed {
        var replace := match this.waker case Some(current) => current != waker case None => true;
        if replace { this.waker := Some(waker); }
        return Pending;
      }
      if timedOut { return Timeout; }
      if response.None? { return Panic; }
      answer := if fits(response.value) then Response(response.value) else Mismatch;
      response := None;
    }
  }

  function Empty<R>(): Cell<R> { Cell(None, false, false, None) }

  function Completed<R>(c: Cell<R>, response: Option<R>, timedOut: bool): (Cell<R>, Option<Waker>) {
    if c.completed then (c, None) else (Cell(response, true, timedOut, None), c.waker)
  }

  function Polled<R>(c: Cell<R>, waker: Waker, fits: R -> bool): (Cell<R>, Answer<R>) {
    if !c.completed then (c.(waker := Some(waker)), Pending) else
    if c.timedOut then (c, Timeout) else
    if c.response.None? then (c, Panic) else
    (c.(response := None), if fits(c.response.value) then Response(c.response.value) else Mismatch)
  }

  // --------------------------------------------------------------------- races

  datatype Op<R> = SetResponse(response: R) | SetTimeout | Poll(waker: Waker) | Deliver

  /** `due` are wakers taken from the cell and not woken yet; `woken` and `answers` are history. */
  datatype Race<R> = Race(cell: Cell<R>, due: seq<Waker>, woken: seq<Waker>, answers: seq<Answer<R>>)

  function Due(w: Option<Waker>): seq<Waker> { if w.Some? then [w.value] else [] }

  function After<R>(r: Race<R>, op: Op<R>, fits: R -> bool): Race<R> {
    match op
    case SetResponse(response) =>
      var (cell, w) := Completed(r.cell, Some(response), false);
      r.(cell := cell, due := r.due + Due(w))
    case SetTimeout =>
      var (cell, w) := Completed(r.cell, None, true);
      r.(cell := cell, due := r.due + Due(w))
    case Poll(waker) =>
      var (cell, answer) := Polled(r.cell, waker, fits);
      r.(cell := cell, answers := r.answers + [answer])
    case Deliver => if r.due == [] then r else r.(due := r.due[1..], woken := r.woken + [r.due[0]])
  }

  function RaceOf<R>(ops: seq<Op<R>>, fits: R -> bool): Race<R> {
    if ops == [] then Race(Empty(), [], [], [])
    else After(RaceOf(ops[..|ops| - 1], fits), ops[|ops| - 1], fits)
  }

  /** The position of the first completion, or the number of operations. */
  ghost function First<R>(ops: seq<Op<R>>): (k: nat)
    ensures k <= |ops|
    ensures k < |ops| ==> ops[k].SetResponse? || ops[k].SetTimeout?
    ensures forall i :: 0 <= i < k ==> !ops[i].SetResponse? && !ops[i].SetTimeout?
  {
    if ops == [] then 0 else
    var k := First(ops[..|ops| - 1]);
    if k < |ops| - 1 then k else if ops[|ops| - 1].SetResponse? || ops[|ops| - 1].SetTimeout? then k else k + 1
  }

  ghost function Polls<R>(ops: seq<Op<R>>): nat {
    if ops == [] then 0 else Polls(ops[..|ops| - 1]) + if ops[|ops| - 1].Poll? then 1 else 0
  }

  ghost function LastWaker<R>(ops: seq<Op<R>>): Option<Waker> {
    if ops == [] then None else
    if ops[|ops| - 1].Poll? then Some(ops[|ops| - 1].waker) else LastWaker(ops[..|ops| - 1])
  }

  /** What the n-th poll after the completion `op` returns. */
  ghost function Outcome<R>(op: Op<R>, fits: R -> bool, n: nat): Answer<R>
    requires op.SetResponse? || op.SetTimeout?
  {
    if op.SetTimeout? then Timeout else
    if n > 0 then Panic else
    if fits(op.response) then Response(op.response) else Mismatch
  }

  /** A cell that `first` has completed, after that many polls. */
  ghost predicate Settled<R>(c: Cell<R>, first: Op<R>, polls: nat) {
    && c.completed && c.waker == None && c.timedOut == first.SetTimeout?
    && (first.SetResponse? ==> c.response == if polls == 0 then Some(first.response) else None)
  }

  /** The polls before `first` were pending, and the others answered by it. */
  ghost predicate Answered<R>(answers: seq<Answer<R>>, pendings: nat, first: Op<R>, fits: R -> bool)
    requires first.SetResponse? || first.SetTimeout?
  {
    && pendings <= |answers|
    && (forall i :: 0 <= i < pendings ==> answers[i] == Pending)
    && (forall i :: pendings <= i < |answers| ==> answers[i] == Outcome(first, fits, i - pendings))
  }

  ghost predicate CellOk<R>(ops: seq<Op<R>>, c: Cell<R>) {
    var k := First(ops);
    if k == |ops| then c == Cell(None, false, false, LastWaker(ops))
    else Polls(ops[..k]) <= Polls(ops) && Settled(c, ops[k], Polls(ops) - Polls(ops[..k]))
  }

  ghost predicate AnswersOk<R>(ops: seq<Op<R>>, fits: R -> bool, answers: seq<Answer<R>>) {
    var k := First(ops);
    && |answers| == Polls(ops)
    && (if k == |ops| then forall i :: 0 <= i < |answers| ==> answers[i] == Pending
        else Answered(answers, Polls(ops[..k]), ops[k], fits))
  }

  ghost predicate WakesOk<R>(ops: seq<Op<R>>, wakes: seq<Waker>) {
    var k := First(ops);
    wakes == if k < |ops| then Due(LastWaker(ops[..k])) else []
  }

  /** How the reference definitions move with one more operation. */
  lemma Extends<R>(ops: seq<Op<R>>, op: Op<R>)
    ensures var k := First(ops);
            First(ops + [op]) == if k == |ops| && (op.Poll? || op.Deliver?) then k + 1 else k
    ensures Polls(ops + [op]) == Polls(ops) + if op.Poll? then 1 else 0
    ensures LastWaker(ops + [op]) == if op.Poll? then Some(op.waker) else LastWaker(ops)
  {
    assert (ops + [op])[..|ops|] == ops;
  }

  lemma SettledMore<R>(c: Cell<R>, first: Op<R>, polls: nat, waker: Waker, fits: R -> bool)
    requires Settled(c, first, polls) && (first.SetResponse? || first.SetTimeout?)
    ensures var (c', answer) := Polled(c, waker, fits);
            Settled(c', first, polls + 1) && answer == Outcome(first, fits, polls)
  {
  }

  lemma CellExtends<R>(ops: seq<Op<R>>, op: Op<R>, fits: R -> bool, r: Race<R>)
    requires CellOk(ops, r.cell)
    ensures CellOk(ops + [op], After(r, op, fits).cell)
  {
    Extends(ops, op);
    var k := First(ops);
    if k < |ops| {
      assert (ops + [op])[..k] == ops[..k] && (ops + [op])[k] == ops[k];
      if op.Poll? { SettledMore(r.cell, ops[k], Polls(ops) - Polls(ops[..k]), op.waker, fits); }
    } else {
      assert (ops + [op])[..k] == ops;
    }
  }

  lemma AnsweredMore<R>(answers: seq<Answer<R>>, pendings: nat, first: Op<R>, fits: R -> bool, c: Cell<R>, waker: Waker)
    requires (first.SetResponse? || first.SetTimeout?) && Answered(answers, pendings, first, fits)
    requires Settled(c, first, |answers| - pendings)
    ensures Answered(answers + [Polled(c, waker, fits).1], pendings, first, fits)
  {
    SettledMore(c, first, |answers| - pendings, waker, fits);
  }

  lemma FirstStands<R>(ops: seq<Op<R>>, op: Op<R>)
    requires First(ops) < |ops|
    ensures var k, all := First(ops), ops + [op];
            First(all) == k && all[..k] == ops[..k] && all[k] == ops[k]
    ensures Polls(ops + [op]) == Polls(ops) + if op.Poll? then 1 else 0
  {
    Extends(ops, op);
  }

  /** After the completion, a poll adds what the completion decides. */
  lemma AnswersCompleted<R>(ops: seq<Op<R>>, op: Op<R>, fits: R -> bool, r: Race<R>)
    requires CellOk(ops, r.cell) && AnswersOk(ops, fits, r.answers) && First(ops) < |ops|
    ensures var kept := AnswersOk(ops + [op], fits, After(r, op, fits).answers); kept
  {
    var k := First(ops);
    FirstStands(ops, op);
    if op.Poll? {
      AnsweredMore(r.answers, Polls(ops[..k]), ops[k], fits, r.cell, op.waker);
    } else {
      assert After(r, op, fits).answers == r.answers;
    }
  }

  /** Before it, a poll is pending. */
  lemma AnswersPending<R>(ops: seq<Op<R>>, op: Op<R>, fits: R -> bool, r: Race<R>)
    requires CellOk(ops, r.cell) && AnswersOk(ops, fits, r.answers) && First(ops) == |ops| && (op.Poll? || op.Deliver?)
    ensures AnswersOk(ops + [op], fits, After(r, op, fits).answers)
  {
    Extends(ops, op);
  }

  /** The completion itself answers nothing. */
  lemma AnswersCompletion<R>(ops: seq<Op<R>>, op: Op<R>, fits: R -> bool, r: Race<R>)
    requires AnswersOk(ops, fits, r.answers) && First(ops) == |ops| && (op.SetResponse? || op.SetTimeout?)
    ensures AnswersOk(ops + [op], fits, After(r, op, fits).answers)
  {
    Extends(ops, op);
    assert (ops + [op])[..|ops|] == ops;
    assert After(r, op, fits).answers == r.answers;
  }

  lemma AnswersExtend<R>(ops: seq<Op<R>>, op: Op<R>, fits: R -> bool, r: Race<R>)
    requires CellOk(ops, r.cell) && AnswersOk(ops, fits, r.answers)
    ensures var kept := AnswersOk(ops + [op], fits, After(r, op, fits).answers); kept
  {
    if First(ops) < |ops| {
      AnswersCompleted(ops, op, fits, r);
    } else if op.Poll? || op.Deliver? {
      AnswersPending(ops, op, fits, r);
    } else {
      AnswersCompletion(ops, op, fits, r);
    }
  }

  /** Delivering a wake moves it, and a poll or a late completion touches none. */
  lemma WakesSame<R>(op: Op<R>, fits: R -> bool, r: Race<R>)
    requires op.SetResponse? || op.SetTimeout? ==> r.cell.completed
    ensures var r' := After(r, op, fits); r'.woken + r'.due == r.woken + r.due
  {
    var r' := After(r, op, fits);
    if op.Deliver? && r.due != [] {
      assert (r.woken + [r.due[0]]) + r.due[1..] == r.woken + r.due;
    } else if op.SetResponse? || op.SetTimeout? {
      assert r.due + [] == r.due;
    }
  }

  lemma WakesTaken<R>(op: Op<R>, fits: R -> bool, r: Race<R>)
    requires (op.SetResponse? || op.SetTimeout?) && !r.cell.completed && r.woken + r.due == []
    ensures var r' := After(r, op, fits); r'.woken + r'.due == Due(r.cell.waker)
  {
    assert r.woken == [] && r.due == [];
    assert [] + Due(r.cell.waker) == Due(r.cell.waker);
  }

  lemma WakesExtend<R>(ops: seq<Op<R>>, op: Op<R>, fits: R -> bool, r: Race<R>)
    requires CellOk(ops, r.cell) && WakesOk(ops, r.woken + r.due)
    ensures var r' := After(r, op, fits); WakesOk(ops + [op], r'.woken + r'.due)
  {
    Extends(ops, op);
    var k := First(ops);
    if k < |ops| { assert (ops + [op])[..k] == ops[..k]; } else { assert (ops + [op])[..k] == ops; }
    if (op.SetResponse? || op.SetTimeout?) && !r.cell.completed {
      WakesTaken(op, fits, r);
    } else {
      WakesSame(op, fits, r);
    }
  }

  ghost predicate Ok<R>(ops: seq<Op<R>>, fits: R -> bool, r: Race<R>) {
    CellOk(ops, r.cell) && AnswersOk(ops, fits, r.answers) && WakesOk(ops, r.woken + r.due)
  }

  lemma OkExtends<R>(ops: seq<Op<R>>, op: Op<R>, fits: R -> bool, r: Race<R>)
    requires Ok(ops, fits, r)
    ensures var kept := Ok(ops + [op], fits, After(r, op, fits)); kept
  {
    CellExtends(ops, op, fits, r);
    AnswersExtend(ops, op, fits, r);
    WakesExtend(ops, op, fits, r);
  }

  lemma RaceOfMore<R>(ops: seq<Op<R>>, op: Op<R>, fits: R -> bool)
    ensures RaceOf(ops + [op], fits) == After(RaceOf(ops, fits), op, fits)
  {
    assert (ops + [op])[..|ops|] == ops;
  }

  ghost predicate Sound<R>(ops: seq<Op<R>>, fits: R -> bool) { Ok(ops, fits, RaceOf(ops, fits)) }

  lemma SoundAtFirst<R>(fits: R -> bool)
    ensures Sound([], fits)
  {
  }

  lemma SoundExtends<R>(ops: seq<Op<R>>, op: Op<R>, all: seq<Op<R>>, fits: R -> bool)
    requires Sound(ops, fits) && all == ops + [op]
    ensures var kept := Sound(all, fits); kept
  {
    OkExtends(ops, op, fits, RaceOf(ops, fits));
    RaceOfMore(ops, op, fits);
  }

  lemma {:induction false} RaceOk<R>(ops: seq<Op<R>>, fits: R -> bool)
    ensures var kept := Sound(ops, fits); kept
    decreases |ops|
  {
    if ops == [] {
      SoundAtFirst(fits);
    } else {
      var init, op := ops[..|ops| - 1], ops[|ops| - 1];
      assert ops == init + [op];
      RaceOk(init, fits);
      SoundExtends(init, op, ops, fits);
    }
  }

  /** Over every race of replies, timeouts and polls: polls before the first completion are
      pending, and only that completion decides what the polls after it return; the waker of the
      last pending poll, and no other, is woken, and exactly once as soon as no wake is due. */
  lemma FirstCompletionWins<R>(ops: seq<Op<R>>, fits: R -> bool)
    ensures var r, k := RaceOf(ops, fits), First(ops);
            && AnswersOk(ops, fits, r.answers)
            && r.woken <= (if k < |ops| then Due(LastWaker(ops[..k])) else [])
            && (r.due == [] ==> r.woken == if k < |ops| then Due(LastWaker(ops[..k])) else [])
  {
    RaceOk(ops, fits);
    var r := RaceOf(ops, fits);
    if r.due == [] { assert r.woken + r.due == r.woken; }
  }
}
