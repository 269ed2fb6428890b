/** Properties of the SPI byte protocol, for every byte stream and every message stream. */
module SpiProofs {
  import opened Message
  import opened Options
  import opened SpiProtocol

  lemma {:induction false} RunAppend(c: Codes, d: Decoder, a: seq<Byte>, b: seq<Byte>, room: nat -> bool)
    ensures Run(c, d, a + b, room) == Run(c, Run(c, d, a, room), b, room)
    decreases |a|
  {
    if a == [] {
      assert a + b == b;
    } else {
      assert (a + b)[1..] == a[1..] + b;
      RunAppend(c, Step(c, d, a[0], room), a[1..], b, room);
    }
  }

  lemma RunOne(c: Codes, d: Decoder, b: Byte, room: nat -> bool)
    ensures Run(c, d, [b], room) == Step(c, d, b, room)
  {
    assert [b][1..] == [];
  }

  lemma RunTwo(c: Codes, d: Decoder, s: seq<Byte>, room: nat -> bool)
    requires |s| >= 2
    ensures Run(c, d, s, room) == Run(c, Step(c, Step(c, d, s[0], room), s[1], room), s[2..], room)
    ensures |s| == 2 ==> Run(c, d, s, room) == Step(c, Step(c, d, s[0], room), s[1], room)
  {
    assert s[1..][1..] == s[2..];
  }

  lemma RunThree(c: Codes, d: Decoder, s: seq<Byte>, room: nat -> bool)
    requires |s| >= 3
    ensures Run(c, d, s, room)
         == Run(c, Step(c, Step(c, Step(c, d, s[0], room), s[1], room), s[2], room), s[3..], room)
  {
    RunTwo(c, d, s, room);
    assert s[2..][1..] == s[3..];
  }

  // ---- inside one frame ----

  /** Where the decoder is after `|s|` bytes of the payload with `m` triples to go before them. */
  predicate InPayload(e: Decoder, s: seq<Byte>, m: nat) {
    var k := |s|;
    if k >= 3 * m then e.state == COMMAND
    else
      && e.state == MIDI_DATA + k % 3 && e.left == (m - k / 3) % 256
      && (k % 3 == 1 ==> e.cmd == s[k - 1])
      && (k % 3 == 2 ==> e.cmd == s[k - 2] && e.val1 == s[k - 1])
  }

  lemma PartOfTriple(c: Codes, d: Decoder, s: seq<Byte>, m: nat, room: nat -> bool)
    requires d.state == MIDI_DATA && 1 <= m <= 256 && d.left == m % 256 && |s| < 3
    ensures Run(c, d, s, room).events == d.events && InPayload(Run(c, d, s, room), s, m)
  {
    if |s| == 2 {
      RunTwo(c, d, s, room);
    } else if |s| == 1 {
      assert s == [s[0]];
      RunOne(c, d, s[0], room);
    }
  }

  lemma OneTriple(c: Codes, d: Decoder, s: seq<Byte>, m: nat, room: nat -> bool) returns (e: Decoder)
    requires d.state == MIDI_DATA && 1 <= m <= 256 && d.left == m % 256 && |s| >= 3
    ensures e.events == d.events + [Midi(s[0], s[1], s[2])] && e.left == (m - 1) % 256
    ensures e.state == if m > 1 then MIDI_DATA else COMMAND
    ensures Run(c, d, s, room) == Run(c, e, s[3..], room)
  {
    e := Step(c, Step(c, Step(c, d, s[0], room), s[1], room), s[2], room);
    RunThree(c, d, s, room);
  }

  lemma PayloadShift(e: Decoder, s: seq<Byte>, m: nat)
    requires |s| >= 3 && m >= 1 && InPayload(e, s[3..], m - 1)
    ensures InPayload(e, s, m)
  {
    var k := |s|;
    assert (k - 3) % 3 == k % 3 && (k - 3) / 3 == k / 3 - 1;
  }

  /** Reading triples with `m` of them to go; the counter holds `m` modulo 256. */
  lemma {:induction false} TriplesRun(c: Codes, d: Decoder, s: seq<Byte>, m: nat, room: nat -> bool)
    requires d.state == MIDI_DATA && 1 <= m <= 256 && d.left == m % 256 && |s| <= 3 * m
    ensures Run(c, d, s, room).events == d.events + Triples(s)
    ensures InPayload(Run(c, d, s, room), s, m)
    decreases |s|
  {
    if |s| >= 3 {
      var e := OneTriple(c, d, s, m, room);
      if m > 1 {
        TriplesRun(c, e, s[3..], m - 1, room);
        PayloadShift(Run(c, d, s, room), s, m);
        assert d.events + [Midi(s[0], s[1], s[2])] + Triples(s[3..]) == d.events + Triples(s);
      } else {
        assert s[3..] == [];
      }
    } else {
      PartOfTriple(c, d, s, m, room);
    }
  }

  /** A MIDI header and what follows of its frame. */
  lemma MidiFrame(c: Codes, d: Decoder, s: seq<Byte>, room: nat -> bool)
    requires d.state == COMMAND && s != [] && s[0] >= MIDI && |s| <= 1 + 3 * Announced(s[0])
    ensures var e := Run(c, d, s, room);
      && e.events == d.events + Triples(s[1..])
      && if |s| == 1 + 3 * Announced(s[0]) then e.state == COMMAND else StandsAt(c, e, s)
  {
    TriplesRun(c, Step(c, d, s[0], room), s[1..], Announced(s[0]), room);
  }

  lemma TempoFrame(c: Codes, d: Decoder, s: seq<Byte>, room: nat -> bool)
    requires d.state == COMMAND && s != [] && s[0] == c.tempo && |s| <= 5
    ensures var e := Run(c, d, s, room);
      if |s| == 5 then e.state == COMMAND && e.events == d.events + [Tempo(Float(s[1], s[2], s[3], s[4]))]
      else e.events == d.events && StandsAt(c, e, s)
  {
    var d1 := Step(c, d, s[0], room);
    assert d1.state == TEMPO_DATA;
    TempoRest(c, d1, s[1..], room);
  }

  lemma TempoRest(c: Codes, d: Decoder, t: seq<Byte>, room: nat -> bool)
    requires d.state == TEMPO_DATA && |t| <= 4
    ensures var e := Run(c, d, t, room);
      if |t| == 4 then e.state == COMMAND && e.events == d.events + [Tempo(Float(t[0], t[1], t[2], t[3]))]
      else
        && e.events == d.events && e.state == TEMPO_DATA + |t|
        && (|t| > 0 ==> e.tempo.b0 == t[0]) && (|t| > 1 ==> e.tempo.b1 == t[1]) && (|t| > 2 ==> e.tempo.b2 == t[2])
  {
    if |t| == 1 {
      assert t == [t[0]];
      RunOne(c, d, t[0], room);
    } else if |t| == 2 {
      RunTwo(c, d, t, room);
    } else if |t| >= 3 {
      RunThree(c, d, t, room);
      if |t| == 4 {
        assert t[3..] == [t[3]];
        RunOne(c, Step(c, Step(c, Step(c, d, t[0], room), t[1], room), t[2], room), t[3], room);
      }
    }
  }

  // ---- the byte machine reads the grammar ----

  /** Decoder refinement: on every byte stream, well formed or not, the byte-at-a-time machine
      brings about the events of the whole-frame parser, and stands exactly where the parser's
      unfinished frame ends. */
  lemma {:induction false} DecoderRefinesGrammar(c: Codes, d: Decoder, s: seq<Byte>, room: nat -> bool)
    requires d.state == COMMAND
    ensures Run(c, d, s, room).events == d.events + Parse(c, s).events
    ensures StandsAt(c, Run(c, d, s, room), Parse(c, s).rest)
    decreases |s|, 2
  {
    if s == [] {
    } else if s[0] >= MIDI {
      StreamAtMidi(c, d, s, room);
    } else if s[0] == c.tempo {
      StreamAtTempo(c, d, s, room);
    } else {
      StreamAtSingle(c, d, s, room);
    }
  }

  lemma {:induction false} StreamAtSingle(c: Codes, d: Decoder, s: seq<Byte>, room: nat -> bool)
    requires d.state == COMMAND && s != [] && s[0] < MIDI && s[0] != c.tempo
    ensures Run(c, d, s, room).events == d.events + Parse(c, s).events
    ensures StandsAt(c, Run(c, d, s, room), Parse(c, s).rest)
    decreases |s|, 1
  {
    assert s[..1] == [s[0]];
    RunOne(c, d, s[0], room);
    NextFrame(c, d, s, 1, room);
  }

  lemma {:induction false} StreamAtMidi(c: Codes, d: Decoder, s: seq<Byte>, room: nat -> bool)
    requires d.state == COMMAND && s != [] && s[0] >= MIDI
    ensures Run(c, d, s, room).events == d.events + Parse(c, s).events
    ensures StandsAt(c, Run(c, d, s, room), Parse(c, s).rest)
    decreases |s|, 1
  {
    var len := 1 + 3 * Announced(s[0]);
    if |s| < len {
      MidiFrame(c, d, s, room);
    } else {
      MidiFrame(c, d, s[..len], room);
      assert s[..len][1..] == s[1..len];
      NextFrame(c, d, s, len, room);
    }
  }

  lemma {:induction false} StreamAtTempo(c: Codes, d: Decoder, s: seq<Byte>, room: nat -> bool)
    requires d.state == COMMAND && s != [] && s[0] == c.tempo
    ensures Run(c, d, s, room).events == d.events + Parse(c, s).events
    ensures StandsAt(c, Run(c, d, s, room), Parse(c, s).rest)
    decreases |s|, 1
  {
    if |s| < 5 {
      TempoFrame(c, d, s, room);
    } else {
      TempoFrame(c, d, s[..5], room);
      NextFrame(c, d, s, 5, room);
    }
  }

  /** The rest of the stream after a frame of `len` bytes. */
  lemma NextFrame(c: Codes, d: Decoder, s: seq<Byte>, len: nat, room: nat -> bool)
    requires 1 <= len <= |s| && Run(c, d, s[..len], room).state == COMMAND
    ensures var e := Run(c, d, s[..len], room);
      && Run(c, d, s, room).events == e.events + Parse(c, s[len..]).events
      && StandsAt(c, Run(c, d, s, room), Parse(c, s[len..]).rest)
    decreases |s|, 0
  {
    assert s == s[..len] + s[len..];
    RunAppend(c, d, s[..len], s[len..], room);
    DecoderRefinesGrammar(c, Run(c, d, s[..len], room), s[len..], room);
  }

  lemma FromEmpty(c: Codes, d: Decoder, s: seq<Byte>, room: nat -> bool)
    requires d.state == COMMAND && d.events == []
    ensures Run(c, d, s, room).events == Parse(c, s).events
    ensures StandsAt(c, Run(c, d, s, room), Parse(c, s).rest)
  {
    DecoderRefinesGrammar(c, d, s, room);
    assert [] + Parse(c, s).events == Parse(c, s).events;
  }

  lemma FromFresh(c: Codes, s: seq<Byte>, room: nat -> bool)
    ensures Run(c, Fresh(), s, room).events == Parse(c, s).events
    ensures StandsAt(c, Run(c, Fresh(), s, room), Parse(c, s).rest)
  {
    FromEmpty(c, Fresh(), s, room);
  }

  /** A header that announces no triples swallows 256 of them: the counter wraps. */
  lemma EmptyHeaderSwallows(c: Codes, d: Decoder, s: seq<Byte>, room: nat -> bool)
    requires d.state == COMMAND && |s| == 768
    ensures Run(c, d, [MIDI] + s, room).state == COMMAND
    ensures Run(c, d, [MIDI] + s, room).events == d.events + Triples(s)
  {
    assert ([MIDI] + s)[1..] == s;
    MidiFrame(c, d, [MIDI] + s, room);
  }

  // ---- round trip ----

  lemma {:induction false} TriplesAppend(a: seq<Byte>, x: Byte, y: Byte, z: Byte)
    requires |a| % 3 == 0
    ensures Triples(a + [x, y, z]) == Triples(a) + [Midi(x, y, z)]
    decreases |a|
  {
    if a == [] {
      assert a + [x, y, z] == [x, y, z];
    } else {
      assert (a + [x, y, z])[3..] == a[3..] + [x, y, z];
      TriplesAppend(a[3..], x, y, z);
    }
  }

  lemma {:induction false} FlatCarries(ms: seq<MidiMsg>)
    ensures Carries(Flat(ms), ms)
  {
    if ms != [] {
      FlatCarries(ms[..|ms| - 1]);
      assert forall i :: 0 <= i < |ms| - 1 ==> ms[i] == ms[..|ms| - 1][i];
    }
  }

  lemma {:induction false} FlatTriples(ms: seq<MidiMsg>)
    ensures |Flat(ms)| == 3 * |ms| && Triples(Flat(ms)) == Midis(ms) && |Midis(ms)| == |ms|
  {
    if ms != [] {
      var l, m := ms[..|ms| - 1], ms[|ms| - 1];
      FlatTriples(l);
      TriplesAppend(Flat(l), m.cmd, m.val1, m.val2);
    }
  }

  /** The decoder, at a frame boundary, gets the message `m` and is at a frame boundary again. */
  predicate Gets(c: Codes, d: Decoder, m: Msg, room: nat -> bool) {
    var e := Run(c, d, Encode(c, m), room);
    e.state == COMMAND && e.events == d.events + Meaning(c, m)
  }

  /** One message gets through exactly when the framing can carry it. */
  lemma MessageRoundTrip(c: Codes, d: Decoder, m: Msg, room: nat -> bool)
    requires d.state == COMMAND
    ensures Gets(c, d, m, room) <==> Framed(c, m)
  {
    match m
    case One(x) =>
      var s := Encode(c, m);
      MidiFrame(c, d, s, room);
      assert Triples(s[1..]) == [Midi(x.cmd, x.val1, x.val2)] by { assert s[1..][3..] == []; }
    case List(ms) => ListRoundTrip(c, d, ms, room);
    case SetTempo(t) => TempoFrame(c, d, Encode(c, m), room);
    case Command(b) => RunOne(c, d, b, room);
    case Blank => RunOne(c, d, c.nul, room);
    case Quiet => RunOne(c, d, c.ping, room);
  }

  lemma ListRoundTrip(c: Codes, d: Decoder, ms: seq<MidiMsg>, room: nat -> bool)
    requires d.state == COMMAND
    ensures Gets(c, d, List(ms), room) <==> 1 <= |ms| <= 127
  {
    FlatTriples(ms);
    if |ms| <= 127 {
      var s := [MIDI + |ms|] + Flat(ms);
      assert s[1..] == Flat(ms);
      MidiFrame(c, d, s, room);
    } else {
      assert d.events + Meaning(c, List(ms)) != d.events;
    }
  }

  /** The whole stream so far has arrived: the messages in order, nothing else, nothing pending. */
  predicate Arrived(c: Codes, d: Decoder, ms: seq<Msg>, room: nat -> bool) {
    var e := Run(c, d, EncodeAll(c, ms), room);
    e.state == COMMAND && e.events == d.events + Meanings(c, ms)
  }

  lemma ArrivedNext(c: Codes, d: Decoder, ms: seq<Msg>, room: nat -> bool)
    requires d.state == COMMAND && ms != [] && Arrived(c, d, ms[..|ms| - 1], room)
    ensures Arrived(c, d, ms, room) <==> Framed(c, ms[|ms| - 1])
  {
    var l, m := ms[..|ms| - 1], ms[|ms| - 1];
    var e := Run(c, d, EncodeAll(c, l), room);
    RunAppend(c, d, EncodeAll(c, l), Encode(c, m), room);
    MessageRoundTrip(c, e, m, room);
    assert (d.events + Meanings(c, l)) + Meaning(c, m) == d.events + (Meanings(c, l) + Meaning(c, m));
  }

  lemma ArrivedFramed(c: Codes, d: Decoder, ms: seq<Msg>, i: nat, room: nat -> bool)
    requires d.state == COMMAND && i < |ms|
    requires Arrived(c, d, ms[..i], room) && Arrived(c, d, ms[..i + 1], room)
    ensures Framed(c, ms[i])
  {
    assert ms[..i + 1][..i] == ms[..i];
    ArrivedNext(c, d, ms[..i + 1], room);
  }

  lemma {:induction false} FramedArrives(c: Codes, d: Decoder, ms: seq<Msg>, room: nat -> bool)
    requires d.state == COMMAND && forall m :: m in ms ==> Framed(c, m)
    ensures Arrived(c, d, ms, room)
  {
    if ms == [] {
      assert d.events + [] == d.events;
    } else {
      FramedArrives(c, d, ms[..|ms| - 1], room);
      ArrivedNext(c, d, ms, room);
    }
  }

  /** Frame-stream round trip: a stream of messages arrives, at every point of the stream, exactly
      when each of its messages can be framed. An empty list, an overlong list, or a lone command
      byte that opens a longer frame breaks it, and nothing else does. */
  lemma StreamRoundTrip(c: Codes, d: Decoder, ms: seq<Msg>, room: nat -> bool)
    requires d.state == COMMAND
    ensures (forall k :: 0 <= k <= |ms| ==> Arrived(c, d, ms[..k], room))
       <==> (forall i :: 0 <= i < |ms| ==> Framed(c, ms[i]))
  {
    if forall i :: 0 <= i < |ms| ==> Framed(c, ms[i]) {
      forall k | 0 <= k <= |ms| ensures Arrived(c, d, ms[..k], room) {
        FramedArrives(c, d, ms[..k], room);
      }
    }
    if forall k :: 0 <= k <= |ms| ==> Arrived(c, d, ms[..k], room) {
      forall i | 0 <= i < |ms| ensures Framed(c, ms[i]) {
        ArrivedFramed(c, d, ms, i, room);
      }
    }
  }

  /** A transfer buffer holds every frame exactly when it has room for a list of 127. */
  lemma BufferBound(c: Codes, n: nat)
    ensures (forall m :: |Encode(c, m)| <= n) <==> 382 <= n
  {
    var full := seq(127, _ => MidiMsg(0, 0, 0, 0));
    FlatTriples(full);
    assert |Encode(c, List(full))| == 382;
    forall m ensures |Encode(c, m)| <= 382 {
      if m.List? { FlatTriples(m.ms); }
    }
  }

  // ---- tempo ----

  function LastTempo(es: seq<Event>): Option<Float> {
    if es == [] then None
    else if es[|es| - 1].Tempo? then Some(es[|es| - 1].t)
    else LastTempo(es[..|es| - 1])
  }

  predicate InTempo(d: Decoder) { TEMPO_DATA <= d.state <= TEMPO_DATA_3 }

  predicate TempoOk(d: Decoder) {
    && (d.setTempo <==> LastTempo(d.events).Some? && !InTempo(d))
    && (d.setTempo ==> LastTempo(d.events) == Some(d.tempo))
  }

  lemma LastTempoAppend(es: seq<Event>, e: Event)
    ensures LastTempo(es + [e]) == if e.Tempo? then Some(e.t) else LastTempo(es)
  {
    assert (es + [e])[..|es|] == es;
  }

  lemma TempoStep(c: Codes, d: Decoder, b: Byte, room: nat -> bool)
    requires TempoOk(d)
    ensures d.state <= 7 ==> TempoOk(Step(c, d, b, room))
  {
    LastTempoAppend(d.events, Ponged);
    LastTempoAppend(d.events, TempoRequest);
    LastTempoAppend(d.events, Midi(d.cmd, d.val1, b));
    LastTempoAppend(d.events, Tempo(d.tempo.(b3 := b)));
  }

  lemma {:induction false} TempoRun(c: Codes, d: Decoder, s: seq<Byte>, room: nat -> bool)
    requires TempoOk(d) && d.state <= 7
    ensures TempoOk(Run(c, d, s, room)) && Run(c, d, s, room).state <= 7
    decreases |s|
  {
    if s != [] {
      TempoStep(c, d, s[0], room);
      TempoRun(c, Step(c, d, s[0], room), s[1..], room);
    }
  }

  /** No torn tempo: after any byte stream `set_tempo` is up exactly when some tempo frame is
      complete and no other has begun since, and then all four bytes of `incoming_tempo` are those
      of the last complete tempo frame in the stream. */
  lemma NoTornTempo(c: Codes, s: seq<Byte>, room: nat -> bool)
    ensures var e, p := Run(c, Fresh(), s, room), Parse(c, s);
      && (e.setTempo <==> LastTempo(p.events).Some? && !(p.rest != [] && p.rest[0] == c.tempo))
      && (e.setTempo ==> LastTempo(p.events) == Some(e.tempo) && !InTempo(e))
  {
    TempoRun(c, Fresh(), s, room);
    FromFresh(c, s, room);
  }

  // ---- resynchronisation ----

  /** Bytes until the decoder reads a command byte again. */
  function BytesLeft(d: Decoder): nat {
    var m := if d.left == 0 then 256 else d.left;
    if d.state == COMMAND then 0
    else if d.state <= MIDI_DATA_2 then 3 * m - (d.state - MIDI_DATA)
    else if d.state <= TEMPO_DATA_3 then 8 - d.state
    else 1
  }

  lemma BytesLeftStep(c: Codes, d: Decoder, b: Byte, room: nat -> bool)
    ensures BytesLeft(d) <= 768 && (BytesLeft(d) == 0 <==> d.state == COMMAND)
    ensures d.state != COMMAND ==> BytesLeft(Step(c, d, b, room)) == BytesLeft(d) - 1
    ensures d.state <= 7 ==> Step(c, d, b, room).state <= 7
  {
  }

  /** Bounded resynchronisation: from any state at all, reachable or not, the decoder reads a
      command byte again after exactly `BytesLeft` more bytes, at most 768, and not before. */
  lemma {:induction false} Resynchronises(c: Codes, d: Decoder, s: seq<Byte>, room: nat -> bool)
    ensures BytesLeft(d) <= 768
    ensures |s| == BytesLeft(d) ==> Run(c, d, s, room).state == COMMAND
    ensures |s| < BytesLeft(d) ==>
      Run(c, d, s, room).state != COMMAND && BytesLeft(Run(c, d, s, room)) == BytesLeft(d) - |s|
    ensures d.state <= 7 ==> Run(c, d, s, room).state <= 7
    decreases |s|
  {
    if s == [] {
      BytesLeftStep(c, d, 0, room);
    } else {
      BytesLeftStep(c, d, s[0], room);
      Resynchronises(c, Step(c, d, s[0], room), s[1..], room);
    }
  }

  // ---- transfers and the device's buffer ----

  /** One transfer after the other; the decoder keeps its state in between. */
  function RunTransfers(c: Codes, d: Decoder, ts: seq<seq<Byte>>, room: nat -> bool): Decoder
    decreases |ts|
  {
    if ts == [] then d else RunTransfers(c, Run(c, d, ts[0], room), ts[1..], room)
  }

  function Joined(ts: seq<seq<Byte>>): seq<Byte> {
    if ts == [] then [] else ts[0] + Joined(ts[1..])
  }

  lemma {:induction false} TransfersJoin(c: Codes, d: Decoder, ts: seq<seq<Byte>>, room: nat -> bool)
    ensures RunTransfers(c, d, ts, room) == Run(c, d, Joined(ts), room)
    decreases |ts|
  {
    if ts != [] {
      RunAppend(c, d, ts[0], Joined(ts[1..]), room);
      TransfersJoin(c, Run(c, d, ts[0], room), ts[1..], room);
    }
  }

  function Offered(es: seq<Event>): seq<Event> {
    if es == [] then []
    else Offered(es[..|es| - 1]) + if es[|es| - 1].Midi? then [es[|es| - 1]] else []
  }

  /** How many of the first `n` triples offered to it the device's buffer takes. */
  function Fits(room: nat -> bool, n: nat): nat {
    if n == 0 then 0 else Fits(room, n - 1) + if room(n - 1) then 1 else 0
  }

  lemma {:induction false} FitsAll(room: nat -> bool, n: nat)
    ensures Fits(room, n) <= n
    ensures Fits(room, n) < n <==> exists k :: 0 <= k < n && !room(k)
  {
    if n > 0 { FitsAll(room, n - 1); }
  }

  predicate Accounted(d: Decoder, room: nat -> bool) {
    && d.kept + d.rejected == |Offered(d.events)| && d.kept == Fits(room, d.kept + d.rejected)
    && (d.dropped <==> d.rejected > 0)
  }

  /** A byte brings about at most one event; a MIDI triple is kept exactly when there is room. */
  predicate OneEvent(d: Decoder, e: Decoder, room: nat -> bool) {
    if e.events == d.events then
      e.kept == d.kept && e.rejected == d.rejected && e.dropped == d.dropped
    else
      && e.events != [] && d.events == e.events[..|e.events| - 1]
      && (if e.events[|e.events| - 1].Midi? then
            && e.kept + e.rejected == d.kept + d.rejected + 1
            && e.kept == d.kept + (if room(d.kept + d.rejected) then 1 else 0)
            && (e.dropped <==> d.dropped || e.rejected > d.rejected)
          else e.kept == d.kept && e.rejected == d.rejected && e.dropped == d.dropped)
  }

  lemma StepOneEvent(c: Codes, d: Decoder, b: Byte, room: nat -> bool)
    ensures OneEvent(d, Step(c, d, b, room), room)
  {
  }

  lemma OneEventAccounted(d: Decoder, e: Decoder, room: nat -> bool)
    requires Accounted(d, room) && OneEvent(d, e, room)
    ensures Accounted(e, room)
  {
  }

  lemma AccountedStep(c: Codes, d: Decoder, b: Byte, room: nat -> bool)
    requires Accounted(d, room)
    ensures Accounted(Step(c, d, b, room), room)
  {
    StepOneEvent(c, d, b, room);
    OneEventAccounted(d, Step(c, d, b, room), room);
  }

  lemma {:induction false} AccountedRun(c: Codes, d: Decoder, s: seq<Byte>, room: nat -> bool)
    requires Accounted(d, room)
    ensures Accounted(Run(c, d, s, room), room)
    decreases |s|
  {
    if s != [] {
      AccountedStep(c, d, s[0], room);
      AccountedRun(c, Step(c, d, s[0], room), s[1..], room);
    }
  }

  lemma AccountedFromFresh(c: Codes, s: seq<Byte>, room: nat -> bool)
    ensures Accounted(Run(c, Fresh(), s, room), room)
  {
    AccountedRun(c, Fresh(), s, room);
  }

  /** MIDI-in accounting: however a stream is cut into transfers and whatever the device's buffer
      answers, the triples offered to it are those of the grammar, each is kept when there is room
      and rejected when there is none, and the drop flag is up exactly when one found no room. */
  lemma MidiInAccounting(c: Codes, ts: seq<seq<Byte>>, room: nat -> bool)
    ensures var e := RunTransfers(c, Fresh(), ts, room); var n := |Offered(Parse(c, Joined(ts)).events)|;
      && Offered(e.events) == Offered(Parse(c, Joined(ts)).events)
      && e.kept + e.rejected == n && e.kept == Fits(room, n)
      && (e.dropped <==> exists k :: 0 <= k < n && !room(k))
  {
    TransfersJoin(c, Fresh(), ts, room);
    AccountedFromFresh(c, Joined(ts), room);
    FromFresh(c, Joined(ts), room);
    FitsAll(room, |Offered(Parse(c, Joined(ts)).events)|);
  }

  // ---- the other fields ----

  /** Tempo request: after any byte stream the flag is up exactly when the stream holds a whole
      send_tempo frame; such a byte inside another frame does not count. */
  lemma TempoRequestFollows(c: Codes, s: seq<Byte>, room: nat -> bool)
    ensures Run(c, Fresh(), s, room).tempoRequested <==> TempoRequest in Parse(c, s).events
  {
    RequestRun(c, Fresh(), s, room);
    FromFresh(c, s, room);
  }

  lemma RequestStep(c: Codes, d: Decoder, b: Byte, room: nat -> bool)
    requires d.tempoRequested <==> TempoRequest in d.events
    ensures Step(c, d, b, room).tempoRequested <==> TempoRequest in Step(c, d, b, room).events
  {
  }

  lemma {:induction false} RequestRun(c: Codes, d: Decoder, s: seq<Byte>, room: nat -> bool)
    requires d.tempoRequested <==> TempoRequest in d.events
    ensures Run(c, d, s, room).tempoRequested <==> TempoRequest in Run(c, d, s, room).events
    decreases |s|
  {
    if s != [] {
      RequestStep(c, d, s[0], room);
      RequestRun(c, Step(c, d, s[0], room), s[1..], room);
    }
  }

  /** The last triple that is complete. */
  function LastMidi(es: seq<Event>): Option<Event> {
    if es == [] then None
    else if es[|es| - 1].Midi? then Some(es[|es| - 1])
    else LastMidi(es[..|es| - 1])
  }

  lemma LastMidiAppend(es: seq<Event>, e: Event)
    ensures LastMidi(es + [e]) == if e.Midi? then Some(e) else LastMidi(es)
  {
    assert (es + [e])[..|es|] == es;
  }

  /** The three fields hold the last triple, unless another one has begun. */
  predicate HoldsLast(d: Decoder) {
    LastMidi(d.events).Some? && d.state != MIDI_DATA_1 && d.state != MIDI_DATA_2 ==>
      LastMidi(d.events) == Some(Midi(d.cmd, d.val1, d.val2))
  }

  lemma HoldsLastStep(c: Codes, d: Decoder, b: Byte, room: nat -> bool)
    requires HoldsLast(d)
    ensures HoldsLast(Step(c, d, b, room))
  {
    LastMidiAppend(d.events, Ponged);
    LastMidiAppend(d.events, TempoRequest);
    LastMidiAppend(d.events, Midi(d.cmd, d.val1, b));
    LastMidiAppend(d.events, Tempo(d.tempo.(b3 := b)));
  }

  lemma {:induction false} HoldsLastRun(c: Codes, d: Decoder, s: seq<Byte>, room: nat -> bool)
    requires HoldsLast(d)
    ensures HoldsLast(Run(c, d, s, room))
    decreases |s|
  {
    if s != [] {
      HoldsLastStep(c, d, s[0], room);
      HoldsLastRun(c, Step(c, d, s[0], room), s[1..], room);
    }
  }

  lemma FieldsHoldLastTriple(c: Codes, s: seq<Byte>, room: nat -> bool)
    ensures var e := Run(c, Fresh(), s, room); var last := LastMidi(Parse(c, s).events);
      last.Some? && e.state != MIDI_DATA_1 && e.state != MIDI_DATA_2 ==> last == Some(Midi(e.cmd, e.val1, e.val2))
  {
    HoldsLastRun(c, Fresh(), s, room);
    FromFresh(c, s, room);
  }
}
