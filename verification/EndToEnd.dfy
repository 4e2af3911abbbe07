/**
 From one program's `send` to another's actor: frames accepted by a session, written in any
 pieces, received in any chunks, and decoded.
 */
module EndToEnd {
  import opened Framing
  import opened SessionHost
  import ReactorModel
  import opened ReactorInvariant
  import opened ReactorRuns

  ghost function Frames(payloads: seq<seq<byte>>): seq<seq<byte>> {
    seq(|payloads|, i requires 0 <= i < |payloads| => Frame(payloads[i]))
  }

  /** The payloads the receiver is willing to take, and the prefix able to announce. */
  ghost predicate Fit<M>(d: Decoder<M>, payloads: seq<seq<byte>>) {
    forall p :: p in payloads ==> |p| <= d.maxFrameLen && |p| < WORD
  }

  /** What deserializing the payloads one by one yields. */
  ghost function Messages<M>(d: Decoder<M>, payloads: seq<seq<byte>>): seq<M> {
    if payloads == [] then [] else
    var last := d.deserialize(payloads[|payloads| - 1]);
    Messages(d, payloads[..|payloads| - 1]) + if last.Some? then [last.value] else []
  }

  lemma DecodeFrame<M>(d: Decoder<M>, payload: seq<byte>)
    requires |payload| <= d.maxFrameLen && |payload| < WORD
    ensures var m := d.deserialize(payload);
            DecodeAll(d, Frame(payload)) == Stream(if m.Some? then [m.value] else [], [], false)
  {
    FrameRoundTrip(d, payload, []);
    assert Frame(payload) + [] == Frame(payload);
    assert Frame(payload)[PREFIX + |payload|..] == [];
  }

  lemma DecodeOneMore<M>(d: Decoder<M>, stream: seq<byte>, messages: seq<M>, payload: seq<byte>)
    requires DecodeAll(d, stream) == Stream(messages, [], false)
    requires |payload| <= d.maxFrameLen && |payload| < WORD
    ensures var m := d.deserialize(payload);
            DecodeAll(d, stream + Frame(payload)) == Stream(messages + if m.Some? then [m.value] else [], [], false)
  {
    DecodeContinues(d, stream, Frame(payload));
    assert [] + Frame(payload) == Frame(payload);
    DecodeFrame(d, payload);
  }

  lemma FramesMore(payloads: seq<seq<byte>>)
    requires payloads != []
    ensures var n := |payloads| - 1;
            Concat(Frames(payloads)) == Concat(Frames(payloads[..n])) + Frame(payloads[n])
  {
    var n := |payloads| - 1;
    assert Frames(payloads) == Frames(payloads[..n]) + [Frame(payloads[n])];
    ConcatMore(Frames(payloads[..n]), Frame(payloads[n]));
  }

  /** Decoding is the inverse of framing, for every sequence of payloads. */
  lemma {:induction false} DecodeFrames<M>(d: Decoder<M>, payloads: seq<seq<byte>>)
    requires Fit(d, payloads)
    ensures DecodeAll(d, Concat(Frames(payloads))) == Stream(Messages(d, payloads), [], false)
    decreases |payloads|
  {
    if payloads == [] {
      assert Frames(payloads) == [];
    } else {
      var n := |payloads| - 1;
      assert payloads[n] in payloads;
      DecodeFrames(d, payloads[..n]);
      FramesMore(payloads);
      DecodeOneMore(d, Concat(Frames(payloads[..n])), Messages(d, payloads[..n]), payloads[n]);
    }
  }

  /** Any part of a sound stream yields a prefix of its messages and is not corrupt. */
  lemma PrefixYieldsPrefix<M>(d: Decoder<M>, part: seq<byte>, whole: seq<byte>)
    requires part <= whole && !DecodeAll(d, whole).corrupt
    ensures !DecodeAll(d, part).corrupt && DecodeAll(d, part).messages <= DecodeAll(d, whole).messages
  {
    assert whole == part + whole[|part|..];
    DecodeContinues(d, part, whole[|part|..]);
  }

  /** End to end. The sending reactor is in any reachable state, after any sends and any partial
      writes; the receiving host has had any events, and what it received of the session is any
      part of the wire, in any chunks. Then no close was requested, and what its actor was posted
      is a prefix of the messages of the accepted payloads; it is all of them once nothing is
      pending and everything written has arrived. */
  lemma Delivered<M>(maxPending: nat, s: ReactorModel.State, t: nat, payloads: seq<seq<byte>>,
                     d: Decoder<M>, events: seq<Event>, id: nat)
    requires Reachable(maxPending, s) && t in s.conns
    requires s.conns[t].accepted == Frames(payloads) && Fit(d, payloads)
    requires Received(events, id).Some? && Received(events, id).value <= s.conns[t].wire
    ensures var outcome := OutcomeOf(Run(d, events).effects, id);
            && !outcome.closed
            && outcome.posted <= Messages(d, payloads)
            && (s.conns[t].pending == [] && Received(events, id).value == s.conns[t].wire ==>
                  outcome.posted == Messages(d, payloads))
  {
    var c, bytes := s.conns[t], Received(events, id).value;
    WireIsAccepted(maxPending, s, t);
    DecodeFrames(d, payloads);
    assert bytes <= c.wire + c.pending;
    PrefixYieldsPrefix(d, bytes, Concat(c.accepted));
    ChunkingInvariance(d, events, id);
    if c.pending == [] { assert c.wire + c.pending == c.wire; }
  }
}
