/**
 The session host: one actor and one reassembly buffer per network session. The reactor
 delivers accepts, chunks of bytes and disconnects, of many sessions in any order; the host
 spawns, posts, asks for a close, and kills.
 */
module SessionHost {
  import opened Basics
  import opened Framing

  /** What the reactor calls. */
  datatype Event = Accepted(id: nat) | Data(id: nat, bytes: seq<byte>) | Disconnected(id: nat)

  /** What the host does to the session's actor, or to the session itself. */
  datatype Effect<M> = Spawn(id: nat) | Post(id: nat, message: M) | Close(id: nat) | Kill(id: nat)

  ghost function Posts<M>(id: nat, messages: seq<M>): (e: seq<Effect<M>>)
    ensures |e| == |messages|
  {
    seq(|messages|, i requires 0 <= i < |messages| => Post(id, messages[i]))
  }

  /** The inbound buffer that is kept once `s` was decoded from `inbound + data`. */
  ghost function Kept<M>(inbound: seq<byte>, s: Stream<M>): seq<byte> {
    if s.corrupt && inbound == [] then [] else s.rest
  }

  ghost function DataEffects<M>(id: nat, s: Stream<M>): seq<Effect<M>> {
    Posts(id, s.messages) + if s.corrupt then [Close(id)] else []
  }

  /** The loop of the reassembly: what is posted now, and what the bytes from `offset` on still
      yield, is what the whole buffer yields. */
  ghost predicate Posted<M>(d: Decoder<M>, buffer: seq<byte>, offset: nat,
                            id: nat, before: seq<Effect<M>>, now: seq<Effect<M>>) {
    && offset <= |buffer|
    && var s, whole := DecodeAll(d, buffer[offset..]), DecodeAll(d, buffer);
    && s.rest == whole.rest && s.corrupt == whole.corrupt
    && now + Posts(id, s.messages) == before + Posts(id, whole.messages)
  }

  lemma PostedAtFirst<M>(d: Decoder<M>, buffer: seq<byte>, id: nat, before: seq<Effect<M>>)
    ensures Posted(d, buffer, 0, id, before, before)
  {
    assert buffer[0..] == buffer;
  }

  lemma PostedMore<M>(d: Decoder<M>, buffer: seq<byte>, offset: nat,
                      id: nat, before: seq<Effect<M>>, now: seq<Effect<M>>, consumed: nat, message: Option<M>)
    requires Posted(d, buffer, offset, id, before, now)
    requires d.TryDecode(buffer[offset..]) == Framed(consumed, message)
    ensures message.None? ==> Posted(d, buffer, offset + consumed, id, before, now)
    ensures message.Some? ==> Posted(d, buffer, offset + consumed, id, before, now + [Post(id, message.value)])
  {
    assert buffer[offset..][consumed..] == buffer[offset + consumed..];
    var s := DecodeAll(d, buffer[offset + consumed..]);
    if message.Some? {
      assert now + Posts(id, [message.value] + s.messages) == (now + [Post(id, message.value)]) + Posts(id, s.messages);
    }
  }

  /** What the loop has to achieve: the messages of the whole buffer are posted, and it stands
      where decoding the whole buffer stops. */
  ghost predicate AllPosted<M>(d: Decoder<M>, buffer: seq<byte>, offset: nat, corrupt: bool,
                               id: nat, before: seq<Effect<M>>, now: seq<Effect<M>>) {
    && offset <= |buffer|
    && var s := DecodeAll(d, buffer);
    corrupt == s.corrupt && buffer[offset..] == s.rest && now == before + Posts(id, s.messages)
  }

  lemma PostedAll<M>(d: Decoder<M>, buffer: seq<byte>, offset: nat,
                     id: nat, before: seq<Effect<M>>, now: seq<Effect<M>>)
    requires Posted(d, buffer, offset, id, before, now)
    ensures var verdict := d.TryDecode(buffer[offset..]);
            !verdict.Framed? ==> AllPosted(d, buffer, offset, verdict.Corrupt?, id, before, now)
  {
    assert now + Posts(id, []) == now;
  }

  class SessionActorHost<!M> {
    const decoder: Decoder<M>
    /** The reassembly buffer of every known session. */
    var sessions: map<nat, seq<byte>>
    /** Everything done so far, oldest first. */
    var effects: seq<Effect<M>>

    ghost function View(): (h: Host<M>)
      reads this
    {
      Host(sessions, effects)
    }

    constructor (decoder: Decoder<M>)
      ensures this.decoder == decoder
      ensures View() == Host(map[], [])
    {
      this.decoder := decoder;
      sessions, effects := map[], [];
    }

    method OnAccepted(id: nat)
      modifies this
      ensures View() == Handle(decoder, old(View()), Accepted(id))
    {
      effects := effects + [Spawn(id)];
      sessions := sessions[id := []];
    }

    /** Posts the messages of the whole frames in front of `buffer`. */
    method PostFrames(id: nat, buffer: seq<byte>) returns (offset: nat, corrupt: bool)
      modifies this`effects
      ensures offset <= |buffer|
      ensures var posted := AllPosted(decoder, buffer, offset, corrupt, id, old(effects), effects); posted
    {
      offset, corrupt := 0, false;
      ghost var before := effects;
      PostedAtFirst(decoder, buffer, id, before);
      while true
        invariant offset <= |buffer| && !corrupt
        invariant var soFar := Posted(decoder, buffer, offset, id, before, effects); soFar
        decreases |buffer| - offset
      {
        PostedAll(decoder, buffer, offset, id, before, effects);
        match decoder.TryDecode(buffer[offset..])
        case Incomplete => break;
        case Corrupt => corrupt := true; break;
        case Framed(consumed, message) =>
          PostedMore(decoder, buffer, offset, id, before, effects, consumed, message);
          offset := offset + consumed;
          if message.Some? { effects := effects + [Post(id, message.value)]; }
      }
    }

    /** Both paths of the reassembly: without a leftover the chunk is decoded where it is. */
    method OnData(id: nat, data: seq<byte>)
      modifies this
      ensures var handled := View() == Handle(decoder, old(View()), Data(id, data)); handled
    {
      if id !in sessions { return; }
      var inbound := sessions[id];
      if inbound == [] {
        assert inbound + data == data;
        var offset, corrupt := PostFrames(id, data);
        if corrupt {
          effects := effects + [Close(id)];
        } else if offset < |data| {
          sessions := sessions[id := data[offset..]];
        }
        DataHandled(decoder, old(View()), id, data, View());
        return;
      }
      inbound := inbound + data;
      var offset, corrupt := PostFrames(id, inbound);
      if offset > 0 {
        inbound := inbound[offset..];
      }
      sessions := sessions[id := inbound];
      if corrupt {
        effects := effects + [Close(id)];
      }
      DataHandled(decoder, old(View()), id, data, View());
    }

    method OnDisconnected(id: nat)
      modifies this
      ensures View() == Handle(decoder, old(View()), Disconnected(id))
    {
      if id in sessions {
        effects := effects + [Kill(id)];
        sessions := map k | k in sessions && k != id :: sessions[k];
      }
    }
  }

  // ------------------------------------------------------------ whole runs

  datatype Host<M> = Host(sessions: map<nat, seq<byte>>, effects: seq<Effect<M>>)

  ghost function Handle<M>(d: Decoder<M>, h: Host<M>, e: Event): Host<M> {
    match e
    case Accepted(id) => Host(h.sessions[id := []], h.effects + [Spawn(id)])
    case Data(id, bytes) =>
      if id !in h.sessions then h else
      var s := DecodeAll(d, h.sessions[id] + bytes);
      Host(h.sessions[id := Kept(h.sessions[id], s)], h.effects + DataEffects(id, s))
    case Disconnected(id) =>
      if id !in h.sessions then h else Host(h.sessions - {id}, h.effects + [Kill(id)])
  }

  lemma DataHandled<M>(d: Decoder<M>, h: Host<M>, id: nat, data: seq<byte>, after: Host<M>)
    requires id in h.sessions && id in after.sessions
    requires var s := DecodeAll(d, h.sessions[id] + data);
             && after.sessions - {id} == h.sessions - {id}
             && after.sessions[id] == Kept(h.sessions[id], s)
             && after.effects == (if s.corrupt then (h.effects + Posts(id, s.messages)) + [Close(id)]
                                  else h.effects + Posts(id, s.messages))
    ensures after == Handle(d, h, Data(id, data))
  {
    var s := DecodeAll(d, h.sessions[id] + data);
    var expected := h.sessions[id := Kept(h.sessions[id], s)];
    assert after.sessions == expected by {
      forall k ensures (k in after.sessions <==> k in expected)
                       && (k in expected ==> after.sessions[k] == expected[k])
      {
        if k != id {
          assert k in after.sessions <==> k in after.sessions - {id};
          assert k in h.sessions <==> k in h.sessions - {id};
          if k in h.sessions { assert (after.sessions - {id})[k] == (h.sessions - {id})[k]; }
        }
      }
    }
    assert after.effects == h.effects + DataEffects(id, s);
  }

  ghost function Run<M>(d: Decoder<M>, events: seq<Event>): Host<M> {
    if events == [] then Host(map[], []) else Handle(d, Run(d, events[..|events| - 1]), events[|events| - 1])
  }

  /** The bytes a session was sent since its accept; `None` when it is not connected. */
  ghost function Received(events: seq<Event>, id: nat): Option<seq<byte>> {
    if events == [] then None else
    var before, e := Received(events[..|events| - 1], id), events[|events| - 1];
    if e.id != id then before else
    match e
    case Accepted(_) => Some([])
    case Data(_, bytes) => if before.None? then None else Some(before.value + bytes)
    case Disconnected(_) => None
  }

  /** What a session's actor was posted since its spawn, up to the first close request. */
  datatype Outcome<M> = Outcome(posted: seq<M>, closed: bool)

  ghost function OutcomeOf<M>(effects: seq<Effect<M>>, id: nat): Outcome<M> {
    if effects == [] then Outcome([], false) else
    var before, e := OutcomeOf(effects[..|effects| - 1], id), effects[|effects| - 1];
    if e.id != id then before else
    match e
    case Spawn(_) => Outcome([], false)
    case Post(_, message) => if before.closed then before else before.(posted := before.posted + [message])
    case Close(_) => before.(closed := true)
    case Kill(_) => before
  }

  lemma OutcomeOfOne<M>(effects: seq<Effect<M>>, e: Effect<M>, id: nat)
    ensures var before := OutcomeOf(effects, id);
            OutcomeOf(effects + [e], id) ==
            if e.id != id then before else
            match e
            case Spawn(_) => Outcome([], false)
            case Post(_, message) => if before.closed then before else before.(posted := before.posted + [message])
            case Close(_) => before.(closed := true)
            case Kill(_) => before
  {
    assert (effects + [e])[..|effects|] == effects;
  }

  lemma {:induction false} OutcomeOfPosts<M>(effects: seq<Effect<M>>, to: nat, messages: seq<M>, id: nat)
    ensures var before := OutcomeOf(effects, id);
            OutcomeOf(effects + Posts(to, messages), id) ==
            if to != id || before.closed then before else before.(posted := before.posted + messages)
    decreases |messages|
  {
    if messages == [] {
      assert effects + Posts(to, messages) == effects;
    } else {
      var n := |messages| - 1;
      OutcomeOfPosts(effects, to, messages[..n], id);
      assert effects + Posts(to, messages) == (effects + Posts(to, messages[..n])) + [Post(to, messages[n])];
      OutcomeOfOne(effects + Posts(to, messages[..n]), Post(to, messages[n]), id);
      assert messages[..n] + [messages[n]] == messages;
    }
  }

  lemma OutcomeOfData<M>(effects: seq<Effect<M>>, to: nat, s: Stream<M>, id: nat)
    ensures var before := OutcomeOf(effects, id);
            OutcomeOf(effects + DataEffects(to, s), id) ==
            if to != id || before.closed then before else Outcome(before.posted + s.messages, s.corrupt)
  {
    OutcomeOfPosts(effects, to, s.messages, id);
    if s.corrupt {
      assert effects + DataEffects(to, s) == (effects + Posts(to, s.messages)) + [Close(to)];
      OutcomeOfOne(effects + Posts(to, s.messages), Close(to), id);
    } else {
      assert effects + DataEffects(to, s) == effects + Posts(to, s.messages);
    }
  }

  /** What the state of one session has to be once it received `bytes`. */
  ghost predicate InStep<M>(d: Decoder<M>, h: Host<M>, id: nat, received: Option<seq<byte>>) {
    && (id in h.sessions <==> received.Some?)
    && (received.Some? ==>
          var whole := DecodeAll(d, received.value);
          && OutcomeOf(h.effects, id) == Outcome(whole.messages, whole.corrupt)
          && (!whole.corrupt ==> h.sessions[id] == whole.rest))
  }

  lemma DataInStep<M>(d: Decoder<M>, h: Host<M>, id: nat, received: seq<byte>, bytes: seq<byte>)
    requires InStep(d, h, id, Some(received))
    ensures InStep(d, Handle(d, h, Data(id, bytes)), id, Some(received + bytes))
  {
    DecodeContinues(d, received, bytes);
    OutcomeOfData(h.effects, id, DecodeAll(d, h.sessions[id] + bytes), id);
  }

  lemma HandleInStep<M>(d: Decoder<M>, h: Host<M>, e: Event, id: nat, received: Option<seq<byte>>)
    requires InStep(d, h, id, received)
    requires e.id != id || !e.Data?
    ensures var after := if e.id != id then received else if e.Accepted? then Some([]) else None;
            InStep(d, Handle(d, h, e), id, after)
  {
    match e
    case Accepted(to) => OutcomeOfOne(h.effects, Spawn(to), id);
    case Data(to, bytes) =>
      if to in h.sessions { OutcomeOfData(h.effects, to, DecodeAll(d, h.sessions[to] + bytes), id); }
    case Disconnected(to) => OutcomeOfOne(h.effects, Kill(to), id);
  }

  /** Chunking invariance. However a stream is cut into chunks, and whatever other sessions do
      in between, a connected session's actor has been posted exactly the messages that decoding
      the whole stream at once yields; a close was requested exactly when that stream is corrupt
      (the messages are those up to that point), and otherwise the bytes kept are exactly the
      ones that decoding the whole stream leaves. */
  lemma {:induction false} ChunkingInvariance<M>(d: Decoder<M>, events: seq<Event>, id: nat)
    ensures InStep(d, Run(d, events), id, Received(events, id))
    decreases |events|
  {
    if events != [] {
      var n := |events| - 1;
      ChunkingInvariance(d, events[..n], id);
      var h, before, e := Run(d, events[..n]), Received(events[..n], id), events[n];
      if e.id == id && e.Data? {
        if before.Some? { DataInStep(d, h, id, before.value, e.bytes); }
      } else {
        HandleInStep(d, h, e, id, before);
      }
    }
  }

  /** Before any corrupt frame the leftover is shorter than one frame of the largest size. */
  lemma LeftoverBounded<M>(d: Decoder<M>, events: seq<Event>, id: nat)
    requires id in Run(d, events).sessions && !OutcomeOf(Run(d, events).effects, id).closed
    ensures |Run(d, events).sessions[id]| < PREFIX + d.maxFrameLen
  {
    ChunkingInvariance(d, events, id);
    IncompleteIsShort(d, Run(d, events).sessions[id]);
  }

  // ------------------------------------------------------- fast against slow

  /** The same bytes, decoded in place as one chunk or through the buffer as two, post the same
      messages and make the same close request; the states left behind agree if and only if the
      bytes hold no corrupt frame. */
  lemma FastAgreesWithSlow<M>(d: Decoder<M>, h: Host<M>, id: nat, a: seq<byte>, b: seq<byte>)
    requires id in h.sessions && h.sessions[id] == []
    requires a != [] && d.TryDecode(a).Incomplete?
    ensures var fast := Handle(d, h, Data(id, a + b));
            var slow := Handle(d, Handle(d, h, Data(id, a)), Data(id, b));
            fast.effects == slow.effects && (fast == slow <==> !DecodeAll(d, a + b).corrupt)
  {
    var mid := Handle(d, h, Data(id, a));
    assert [] + a == a && [] + (a + b) == a + b;
    assert mid == Host(h.sessions[id := a], h.effects) by {
      assert h.effects + DataEffects(id, DecodeAll(d, a)) == h.effects;
    }
    var s := DecodeAll(d, a + b);
    var fast, slow := Handle(d, h, Data(id, a + b)), Handle(d, mid, Data(id, b));
    assert fast.sessions[id] == Kept([], s) && slow.sessions[id] == s.rest;
    if !s.corrupt { assert fast.sessions == slow.sessions; }
  }

  /** Such bytes: a frame longer than the limit, in one chunk or in two. */
  lemma CorruptPathsDiffer<M>(deserialize: seq<byte> -> Option<M>, id: nat)
    ensures var d, h := Decoder(0, deserialize), Host(map[id := []], []);
            && DecodeAll(d, [0, 0, 0, 1]).corrupt
            && Handle(d, h, Data(id, [0, 0, 0, 1])) != Handle(d, Handle(d, h, Data(id, [0])), Data(id, [0, 0, 1]))
  {
    var d, h := Decoder(0, deserialize), Host(map[id := []], []);
    assert [0] + [0, 0, 1] == [0, 0, 0, 1];
    FastAgreesWithSlow(d, h, id, [0], [0, 0, 1]);
  }
}
