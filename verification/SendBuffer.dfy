/**
 The bounded outbound buffer of a session, and the loop that writes it to a socket. The
 socket is an oracle: what each `write` call answers is an arbitrary list.
 */
module SendBuffer {
  import opened Framing

  class Buffer {
    var data: seq<byte>
    var offset: nat
    const maxPending: nat

    /** Storage is given back as soon as everything was written. */
    ghost predicate Valid()
      reads this
    {
      offset < |data| || (offset == 0 && data == [])
    }

    ghost function Pending(): seq<byte>
      requires Valid()
      reads this
    {
      data[offset..]
    }

    constructor (maxPending: nat)
      ensures Valid() && Pending() == [] && this.maxPending == maxPending
    {
      data, offset, this.maxPending := [], 0, maxPending;
    }

    method CanWrite(count: nat) returns (can: bool)
      requires Valid()
      ensures can <==> |Pending()| + count <= maxPending
    {
      can := |data| - offset + count <= maxPending;
    }

    method Append(bytes: seq<byte>)
      requires Valid()
      modifies this
      ensures Valid() && Pending() == old(Pending()) + bytes
    {
      data := data + bytes;
    }

    method HasPending() returns (has: bool)
      requires Valid()
      ensures has <==> Pending() != []
    {
      has := offset < |data|;
    }

    method PendingSlice() returns (slice: seq<byte>)
      requires Valid()
      ensures slice == Pending()
    {
      slice := data[offset..];
    }

    /** Advancing past the end empties the buffer. */
    method Advance(count: nat)
      requires Valid()
      modifies this
      ensures Valid()
      ensures Pending() == if count <= old(|Pending()|) then old(Pending())[count..] else []
    {
      offset := offset + count;
      if offset >= |data| {
        data := [];
        offset := 0;
      }
    }
  }

  // --------------------------------------------------------------- the socket

  /** `Wrote(n)` takes at most `n` bytes of the slice it is given. */
  datatype Answer = Wrote(most: nat) | WouldBlock | Interrupted | Failed

  predicate Ends(a: Answer) { a.Failed? || a == Wrote(0) }

  class Socket {
    /** The answers still to come; a socket that has none left would block. */
    var answers: seq<Answer>
    /** Every byte taken so far. */
    var wire: seq<byte>

    constructor (answers: seq<Answer>)
      ensures this.answers == answers && wire == []
    {
      this.answers, wire := answers, [];
    }

    method Write(slice: seq<byte>) returns (answer: Answer)
      requires slice != []
      modifies this
      ensures old(answers) == [] ==> answers == [] && answer == WouldBlock && wire == old(wire)
      ensures old(answers) != [] ==>
                && answers == old(answers)[1..]
                && (Ends(answer) <==> Ends(old(answers[0])))
                && (answer.WouldBlock? <==> old(answers[0]).WouldBlock?)
      ensures answer.Wrote? ==> answer.most <= |slice| && wire == old(wire) + slice[..answer.most]
      ensures !answer.Wrote? ==> wire == old(wire)
    {
      if answers == [] { return WouldBlock; }
      answer := answers[0];
      answers := answers[1..];
      if answer.Wrote? {
        answer := Wrote(if answer.most <= |slice| then answer.most else |slice|);
        wire := wire + slice[..answer.most];
      }
    }
  }

  datatype Outcome = Continue | Closed

  /** `TcpTransport::write`. Whatever the socket answers, no byte is lost, repeated or
      reordered. The connection is reported closed exactly when the last answer used was an
      error or a write of nothing; otherwise all is written, or the socket would block. No
      answer after the first one that ends the loop is used. */
  method Write(socket: Socket, outbound: Buffer) returns (outcome: Outcome, ghost used: nat)
    requires outbound.Valid()
    modifies socket, outbound
    ensures outbound.Valid()
    ensures socket.wire + outbound.Pending() == old(socket.wire + outbound.Pending())
    ensures old(socket.wire) <= socket.wire
    ensures used <= old(|socket.answers|) && socket.answers == old(socket.answers)[used..]
    ensures outcome.Closed? <==> used > 0 && Ends(old(socket.answers)[used - 1])
    ensures outcome.Continue? && outbound.Pending() != [] ==>
              used == old(|socket.answers|) || (used > 0 && old(socket.answers)[used - 1] == WouldBlock)
    ensures used > 0 ==> GoOn(old(socket.answers), used - 1)
  {
    used := 0;
    var more := outbound.HasPending();
    while more
      invariant outbound.Valid() && (more <==> outbound.Pending() != [])
      invariant socket.wire + outbound.Pending() == old(socket.wire + outbound.Pending())
      invariant old(socket.wire) <= socket.wire
      invariant used <= old(|socket.answers|) && socket.answers == old(socket.answers)[used..]
      invariant GoOn(old(socket.answers), used)
      decreases |socket.answers|
    {
      var slice := outbound.PendingSlice();
      ghost var sent, answers := socket.wire, socket.answers;
      var answer := socket.Write(slice);
      if answers != [] { used := used + 1; }
      match answer {
      case Wrote(count) =>
        if count == 0 { return Closed, used; }
        Moved(sent, slice, count);
        outbound.Advance(count);
      case WouldBlock => return Continue, used;
      case Interrupted =>
      case Failed => return Closed, used;
      }
      more := outbound.HasPending();
    }
    outcome := Continue;
  }

  /** None of the first answers ended or blocked the loop. */
  ghost predicate GoOn(answers: seq<Answer>, used: nat) {
    used <= |answers| && forall i :: 0 <= i < used ==> !Ends(answers[i]) && answers[i] != WouldBlock
  }

  lemma Moved(sent: seq<byte>, slice: seq<byte>, count: nat)
    requires count <= |slice|
    ensures (sent + slice[..count]) + slice[count..] == sent + slice
  {
    assert slice == slice[..count] + slice[count..];
  }
}
