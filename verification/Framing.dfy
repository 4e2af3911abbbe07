/**
 Length-prefixed framing: the encoder, the one-frame decoder, and a decoder for a whole byte
 stream, which is the specification that the chunked reassembly has to meet.
 */
module Framing {
  import opened Basics

  type byte = x: int | 0 <= x < 256

  const PREFIX: nat := 4
  const WORD: nat := 0x1_0000_0000

  /** `(len as u32).to_be_bytes()`: lengths of 2^32 and more are truncated. */
  function Prefix(len: nat): (p: seq<byte>)
    ensures |p| == PREFIX
  {
    var w := len % WORD;
    [w / 0x100_0000, w / 0x1_0000 % 256, w / 0x100 % 256, w % 256]
  }

  function FromPrefix(b: seq<byte>): (n: nat)
    requires |b| >= PREFIX
    ensures n < WORD
  {
    b[0] as int * 0x100_0000 + b[1] as int * 0x1_0000 + b[2] as int * 0x100 + b[3]
  }

  lemma PrefixRoundTrip(len: nat)
    ensures FromPrefix(Prefix(len)) == len % WORD
  {
    var w := len % WORD;
    assert w == w / 0x100 * 0x100 + w % 256;
    assert w / 0x100 == w / 0x1_0000 * 0x100 + w / 0x100 % 256;
    assert w / 0x1_0000 == w / 0x100_0000 * 0x100 + w / 0x1_0000 % 256;
  }

  function Frame(payload: seq<byte>): (f: seq<byte>)
    ensures |f| == PREFIX + |payload|
  {
    Prefix(|payload|) + payload
  }

  datatype Decoded<M> = Incomplete | Corrupt | Framed(consumed: nat, message: Option<M>)

  /** A length limit and a deserializer, as a `LengthPrefixedDecoder` is built from. */
  datatype Decoder<!M> = Decoder(maxFrameLen: nat, deserialize: seq<byte> -> Option<M>) {

    function TryDecode(buffer: seq<byte>): (d: Decoded<M>)
      ensures d.Framed? ==> PREFIX <= d.consumed <= |buffer|
    {
      if |buffer| < PREFIX then Incomplete else
      var payloadLen := FromPrefix(buffer);
      if payloadLen > maxFrameLen then Corrupt else
      var total := PREFIX + payloadLen;
      if |buffer| < total then Incomplete else
      Framed(total, deserialize(buffer[PREFIX..total]))
    }
  }

  // ------------------------------------------------------------- one frame

  /** Decoding a frame in front of any bytes returns exactly its payload, and consumes exactly
      the frame, if and only if the payload fits the limit and its length fits the prefix. */
  lemma FrameRoundTrip<M>(d: Decoder<M>, payload: seq<byte>, rest: seq<byte>)
    ensures d.TryDecode(Frame(payload) + rest) == Framed(PREFIX + |payload|, d.deserialize(payload))
            <==> |payload| <= d.maxFrameLen && |payload| < WORD
  {
    var buffer := Frame(payload) + rest;
    PrefixRoundTrip(|payload|);
    assert buffer[..PREFIX] == Prefix(|payload|);
    assert FromPrefix(buffer) == FromPrefix(Prefix(|payload|));
    if |payload| < WORD {
      assert buffer[PREFIX..PREFIX + |payload|] == payload;
    }
  }

  /** More bytes never change a verdict that was already reached. */
  lemma VerdictStable<M>(d: Decoder<M>, a: seq<byte>, b: seq<byte>)
    requires !d.TryDecode(a).Incomplete?
    ensures d.TryDecode(a + b) == d.TryDecode(a)
  {
    assert FromPrefix(a + b) == FromPrefix(a);
    var total := PREFIX + FromPrefix(a);
    if |a| >= total { assert (a + b)[PREFIX..total] == a[PREFIX..total]; }
  }

  lemma IncompleteIsShort<M>(d: Decoder<M>, a: seq<byte>)
    requires d.TryDecode(a).Incomplete?
    ensures |a| < PREFIX + d.maxFrameLen
  {
  }

  // ---------------------------------------------------------- a whole stream

  /** The messages of a stream up to the first corrupt frame, and the bytes left over. */
  datatype Stream<M> = Stream(messages: seq<M>, rest: seq<byte>, corrupt: bool)

  function Prepend<M>(message: Option<M>, s: Stream<M>): Stream<M> {
    if message.Some? then s.(messages := [message.value] + s.messages) else s
  }

  function DecodeAll<M>(d: Decoder<M>, stream: seq<byte>): (s: Stream<M>)
    ensures |s.rest| <= |stream|
    ensures s.corrupt <==> d.TryDecode(s.rest).Corrupt?
    ensures !s.corrupt <==> d.TryDecode(s.rest).Incomplete?
    decreases |stream|
  {
    match d.TryDecode(stream)
    case Incomplete => Stream([], stream, false)
    case Corrupt => Stream([], stream, true)
    case Framed(consumed, message) => Prepend(message, DecodeAll(d, stream[consumed..]))
  }

  /** Decoding more of the stream continues where decoding less of it stopped. */
  function Continue<M>(d: Decoder<M>, s: Stream<M>, more: seq<byte>): Stream<M> {
    if s.corrupt then s.(rest := s.rest + more) else
    var t := DecodeAll(d, s.rest + more);
    Stream(s.messages + t.messages, t.rest, t.corrupt)
  }

  lemma ContinuePrepended<M>(d: Decoder<M>, message: Option<M>, s: Stream<M>, more: seq<byte>)
    ensures Continue(d, Prepend(message, s), more) == Prepend(message, Continue(d, s, more))
  {
    if message.Some? && !s.corrupt {
      var t := DecodeAll(d, s.rest + more);
      assert [message.value] + (s.messages + t.messages) == ([message.value] + s.messages) + t.messages;
    }
  }

  lemma DecodeFramed<M>(d: Decoder<M>, a: seq<byte>, b: seq<byte>)
    requires d.TryDecode(a).Framed?
    ensures DecodeAll(d, a + b) == Prepend(d.TryDecode(a).message, DecodeAll(d, a[d.TryDecode(a).consumed..] + b))
  {
    VerdictStable(d, a, b);
    var consumed := d.TryDecode(a).consumed;
    assert (a + b)[consumed..] == a[consumed..] + b;
  }

  lemma DecodeStuck<M>(d: Decoder<M>, a: seq<byte>, b: seq<byte>)
    requires !d.TryDecode(a).Framed?
    ensures DecodeAll(d, a + b) == Continue(d, DecodeAll(d, a), b)
  {
    if d.TryDecode(a).Corrupt? {
      VerdictStable(d, a, b);
    } else {
      var t := DecodeAll(d, a + b);
      assert [] + t.messages == t.messages;
    }
  }

  lemma {:induction false} DecodeContinues<M>(d: Decoder<M>, a: seq<byte>, b: seq<byte>)
    ensures DecodeAll(d, a + b) == Continue(d, DecodeAll(d, a), b)
    decreases |a|
  {
    var verdict := d.TryDecode(a);
    if verdict.Framed? {
      var tail := a[verdict.consumed..];
      DecodeFramed(d, a, b);
      DecodeContinues(d, tail, b);
      ContinuePrepended(d, verdict.message, DecodeAll(d, tail), b);
    } else {
      DecodeStuck(d, a, b);
    }
  }
}
