/** The byte protocol of pi_spi.cpp: the receiving state machine, the frames it is meant to read,
    and the frames the sender writes. */
module SpiProtocol {
  import opened Message

  /** The one-byte commands of the link; the MIDI header is the byte with bit 7 set. */
  datatype CodeTable = CodeTable(nul: Byte, ping: Byte, pong: Byte, sendTempo: Byte, tempo: Byte, diag: Byte) {
    predicate Ok() {
      && nul < 128 && ping < 128 && pong < 128 && sendTempo < 128 && tempo < 128 && diag < 128
      && nul != ping && nul != pong && nul != sendTempo && nul != tempo && nul != diag
      && ping != pong && ping != sendTempo && ping != tempo && ping != diag
      && pong != sendTempo && pong != tempo && pong != diag
      && sendTempo != tempo && sendTempo != diag && tempo != diag
    }
  }
  type Codes = c: CodeTable | c.Ok() witness CodeTable(0, 1, 2, 3, 4, 5)

  const MIDI: Byte := 128

  datatype Float = Float(b0: Byte, b1: Byte, b2: Byte, b3: Byte)

  /** What the decoder does for the rest of the program. */
  datatype Event =
    | Midi(cmd: Byte, val1: Byte, val2: Byte) // offered to the device's MIDI buffer
    | Tempo(t: Float)                         // a tempo is complete
    | TempoRequest
    | Ponged

  // ---- the receiving state machine ----

  const COMMAND: Byte := 0
  const MIDI_DATA: Byte := 1
  const MIDI_DATA_1: Byte := 2
  const MIDI_DATA_2: Byte := 3
  const TEMPO_DATA: Byte := 4
  const TEMPO_DATA_1: Byte := 5
  const TEMPO_DATA_2: Byte := 6
  const TEMPO_DATA_3: Byte := 7

  datatype Decoder = Decoder(
    state: Byte, left: Byte,
    tempo: Float, setTempo: bool, tempoRequested: bool,
    cmd: Byte, val1: Byte, val2: Byte, dropped: bool,
    events: seq<Event>, kept: nat, rejected: nat) // history

  function Fresh(): Decoder {
    Decoder(COMMAND, 0, Float(0, 0, 0, 0), false, false, 0, 0, 0, false, [], 0, 0)
  }

  /** One byte. `room(k)` is what the device's buffer answers to the `k`-th triple it is offered. */
  function Step(c: Codes, d: Decoder, b: Byte, room: nat -> bool): Decoder {
    if d.state == COMMAND then CommandStep(c, d, b)
    else if d.state == MIDI_DATA then d.(cmd := b, state := MIDI_DATA_1)
    else if d.state == MIDI_DATA_1 then d.(val1 := b, state := MIDI_DATA_2)
    else if d.state == MIDI_DATA_2 then
      var fits := room(d.kept + d.rejected);
      var left := (d.left + 255) % 256;
      d.(val2 := b, left := left, state := if left > 0 then MIDI_DATA else COMMAND,
         dropped := d.dropped || !fits,
         events := d.events + [Midi(d.cmd, d.val1, b)],
         kept := if fits then d.kept + 1 else d.kept,
         rejected := if fits then d.rejected else d.rejected + 1)
    else if d.state == TEMPO_DATA then d.(tempo := d.tempo.(b0 := b), state := TEMPO_DATA_1)
    else if d.state == TEMPO_DATA_1 then d.(tempo := d.tempo.(b1 := b), state := TEMPO_DATA_2)
    else if d.state == TEMPO_DATA_2 then d.(tempo := d.tempo.(b2 := b), state := TEMPO_DATA_3)
    else if d.state == TEMPO_DATA_3 then
      var t := d.tempo.(b3 := b);
      d.(tempo := t, state := COMMAND, setTempo := true, events := d.events + [Tempo(t)])
    else d.(state := COMMAND)
  }

  function CommandStep(c: Codes, d: Decoder, b: Byte): Decoder {
    if b >= MIDI then d.(state := MIDI_DATA, left := b % 128)
    else if b == c.pong then d.(events := d.events + [Ponged])
    else if b == c.sendTempo then d.(tempoRequested := true, events := d.events + [TempoRequest])
    else if b == c.tempo then d.(state := TEMPO_DATA, setTempo := false)
    else d
  }

  function Run(c: Codes, d: Decoder, s: seq<Byte>, room: nat -> bool): Decoder
    decreases |s|
  {
    if s == [] then d else Run(c, Step(c, d, s[0], room), s[1..], room)
  }

  // ---- the grammar: whole frames, read by recursive descent ----

  /** The number of triples a MIDI header announces. */
  function Announced(h: Byte): nat
    requires h >= MIDI
  {
    if h == MIDI then 256 else h - MIDI
  }

  /** The whole triples of a payload. */
  function Triples(s: seq<Byte>): seq<Event> {
    if |s| < 3 then [] else [Midi(s[0], s[1], s[2])] + Triples(s[3..])
  }

  /** A one-byte command. */
  function Single(c: Codes, b: Byte): seq<Event> {
    if b == c.pong then [Ponged] else if b == c.sendTempo then [TempoRequest] else []
  }

  datatype Parsed = Parsed(events: seq<Event>, rest: seq<Byte>)

  /** Frame after frame, and the unfinished frame at the end. Triples count as soon as they are whole. */
  function Parse(c: Codes, s: seq<Byte>): Parsed {
    if s == [] then Parsed([], [])
    else if s[0] >= MIDI then
      var len := 1 + 3 * Announced(s[0]);
      if |s| < len then Parsed(Triples(s[1..]), s)
      else var p := Parse(c, s[len..]); Parsed(Triples(s[1..len]) + p.events, p.rest)
    else if s[0] == c.tempo then
      if |s| < 5 then Parsed([], s)
      else var p := Parse(c, s[5..]); Parsed([Tempo(Float(s[1], s[2], s[3], s[4]))] + p.events, p.rest)
    else var p := Parse(c, s[1..]); Parsed(Single(c, s[0]) + p.events, p.rest)
  }

  /** The decoder stands where the unfinished frame `rest` ends. */
  predicate StandsAt(c: Codes, d: Decoder, rest: seq<Byte>) {
    if rest == [] then d.state == COMMAND
    else if rest[0] >= MIDI then
      var n, k := Announced(rest[0]), |rest| - 1;
      && k < 3 * n
      && d.state == MIDI_DATA + k % 3 && d.left == (n - k / 3) % 256
      && (k % 3 == 1 ==> d.cmd == rest[k])
      && (k % 3 == 2 ==> d.cmd == rest[k - 1] && d.val1 == rest[k])
    else
      && rest[0] == c.tempo && |rest| <= 4
      && d.state == TEMPO_DATA + |rest| - 1
      && (|rest| > 1 ==> d.tempo.b0 == rest[1])
      && (|rest| > 2 ==> d.tempo.b1 == rest[2])
      && (|rest| > 3 ==> d.tempo.b2 == rest[3])
  }

  // ---- what the sender writes ----

  /** The messages the sender takes from its queue, and `Quiet` when there is none. */
  datatype Msg =
    | One(m: MidiMsg)
    | List(ms: seq<MidiMsg>)
    | SetTempo(t: Float)
    | Command(b: Byte)
    | Blank
    | Quiet

  function Flat(ms: seq<MidiMsg>): seq<Byte> {
    if ms == [] then [] else Flat(ms[..|ms| - 1]) + [ms[|ms| - 1].cmd, ms[|ms| - 1].val1, ms[|ms| - 1].val2]
  }

  /** Triple after triple, the bytes are those of the messages; the port is left out. */
  predicate Carries(s: seq<Byte>, ms: seq<MidiMsg>) {
    && |s| == 3 * |ms|
    && forall i :: 0 <= i < |ms| ==> s[3 * i] == ms[i].cmd && s[3 * i + 1] == ms[i].val1 && s[3 * i + 2] == ms[i].val2
  }

  /** The bytes of one transfer; a list of more than 127 messages is skipped. */
  function Encode(c: Codes, m: Msg): seq<Byte> {
    match m
    case One(x) => [MIDI + 1, x.cmd, x.val1, x.val2]
    case List(ms) => if |ms| > 127 then [] else [MIDI + |ms|] + Flat(ms)
    case SetTempo(t) => [c.tempo, t.b0, t.b1, t.b2, t.b3]
    case Command(b) => [b]
    case Blank => [c.nul]
    case Quiet => [c.ping]
  }

  function EncodeAll(c: Codes, ms: seq<Msg>): seq<Byte> {
    if ms == [] then [] else EncodeAll(c, ms[..|ms| - 1]) + Encode(c, ms[|ms| - 1])
  }

  function Midis(ms: seq<MidiMsg>): seq<Event> {
    if ms == [] then [] else Midis(ms[..|ms| - 1]) + [Midi(ms[|ms| - 1].cmd, ms[|ms| - 1].val1, ms[|ms| - 1].val2)]
  }

  /** What a message is meant to bring about at the other end; the port is not transmitted. */
  function Meaning(c: Codes, m: Msg): seq<Event> {
    match m
    case One(x) => [Midi(x.cmd, x.val1, x.val2)]
    case List(ms) => Midis(ms)
    case SetTempo(t) => [Tempo(t)]
    case Command(b) => Single(c, b)
    case Blank => []
    case Quiet => []
  }

  function Meanings(c: Codes, ms: seq<Msg>): seq<Event> {
    if ms == [] then [] else Meanings(c, ms[..|ms| - 1]) + Meaning(c, ms[|ms| - 1])
  }

  /** The messages the framing can carry: no empty or overlong list, and no lone byte that opens a
      longer frame. */
  predicate Framed(c: Codes, m: Msg) {
    match m
    case List(ms) => 1 <= |ms| <= 127
    case Command(b) => b < MIDI && b != c.tempo
    case One(_) => true
    case SetTempo(_) => true
    case Blank => true
    case Quiet => true
  }
}
