/** MIDI messages on the wire: midi_worker.cpp against the message lengths of the MIDI 1.0
    Detailed Specification (Table II channel voice, Table V system common, Table VI system real time). */
module MidiWire {
  import opened Message
  import opened LockedQueue

  // ---- the tables ----

  /** Data bytes that follow a status byte. */
  function DataBytes(status: Byte): nat
    requires status >= 0x80
  {
    if status < 0xc0 then 2        // note off, note on, key pressure, control change
    else if status < 0xe0 then 1   // program change, channel pressure
    else if status < 0xf0 then 2   // pitch bend
    else if status == 0xf2 then 2  // song position
    else if status == 0xf1 || status == 0xf3 then 1 // time code, song select
    else 0
  }

  /** The status bytes that get through: no data byte, no system exclusive, nothing undefined, and
      not system reset. */
  predicate Sendable(status: Byte) {
    status >= 0x80 && status !in {0xf0, 0xf4, 0xf5, 0xf7, 0xf9, 0xfd, 0xff}
  }

  /** The status bytes that Tables II, V and VI define. */
  predicate Defined(status: Byte) {
    status >= 0x80 && status !in {0xf4, 0xf5, 0xf9, 0xfd}
  }

  function Wire(m: MidiMsg): seq<Byte>
    requires Sendable(m.cmd)
  {
    [m.cmd] + [m.val1, m.val2][..DataBytes(m.cmd)]
  }

  /** The message with the fields that are not transmitted set to zero. */
  function Masked(m: MidiMsg): MidiMsg
    requires Sendable(m.cmd)
  {
    MidiMsg(0, m.cmd, if DataBytes(m.cmd) >= 1 then m.val1 else 0, if DataBytes(m.cmd) >= 2 then m.val2 else 0)
  }

  /** Every data byte that goes on the wire looks like one. */
  predicate Clean(m: MidiMsg)
    requires Sendable(m.cmd)
  {
    && (DataBytes(m.cmd) >= 1 ==> m.val1 < 0x80)
    && (DataBytes(m.cmd) >= 2 ==> m.val2 < 0x80)
  }

  // ---- receiving ----

  datatype Received = Failed | Ignored | Got(m: MidiMsg)

  /** The receive callback: an empty message makes `at(0)` throw, a long one is only logged. */
  function Receive(s: seq<Byte>): Received {
    if |s| > 3 then Ignored
    else if s == [] then Failed
    else Got(MidiMsg(0, s[0], if |s| > 1 then s[1] else 0, if |s| > 2 then s[2] else 0))
  }

  // ---- a byte stream, cut before every status byte ----

  function LeadingData(s: seq<Byte>): (n: nat)
    ensures n <= |s|
    ensures forall i :: 0 <= i < n ==> s[i] < 0x80
    ensures n < |s| ==> s[n] >= 0x80
  {
    if s == [] || s[0] >= 0x80 then 0 else 1 + LeadingData(s[1..])
  }

  function Split(s: seq<Byte>): seq<seq<Byte>> {
    if s == [] then []
    else
      var n := 1 + LeadingData(s[1..]);
      [s[..n]] + Split(s[n..])
  }

  function Concat(ws: seq<seq<Byte>>): seq<Byte> {
    if ws == [] then [] else ws[0] + Concat(ws[1..])
  }

  /** The sendable messages of a sequence; the others put nothing on the wire. */
  function Sent(ms: seq<MidiMsg>): seq<MidiMsg>
    ensures forall m :: m in Sent(ms) ==> Sendable(m.cmd)
  {
    if ms == [] then [] else (if Sendable(ms[0].cmd) then [ms[0]] else []) + Sent(ms[1..])
  }

  lemma {:induction false} SentAppend(a: seq<MidiMsg>, b: seq<MidiMsg>)
    ensures Sent(a + b) == Sent(a) + Sent(b)
  {
    if a == [] {
      assert a + b == b;
    } else {
      assert (a + b)[1..] == a[1..] + b;
      SentAppend(a[1..], b);
    }
  }

  /** Of the defined messages exactly system exclusive, its end, and system reset are not sent;
      of the others none is. */
  lemma NotSent(m: MidiMsg)
    ensures Defined(m.cmd) ==> (Sent([m]) == [] <==> m.cmd in {0xf0, 0xf7, 0xff})
    ensures !Defined(m.cmd) ==> Sent([m]) == []
  {
    assert [m][1..] == [];
  }

  function Wires(ms: seq<MidiMsg>): seq<seq<Byte>>
    requires forall m :: m in ms ==> Sendable(m.cmd)
  {
    if ms == [] then [] else [Wire(ms[0])] + Wires(ms[1..])
  }

  lemma {:induction false} WiresAppend(a: seq<MidiMsg>, b: seq<MidiMsg>)
    requires forall m :: m in a + b ==> Sendable(m.cmd)
    ensures forall m :: m in a || m in b ==> m in a + b
    ensures Wires(a + b) == Wires(a) + Wires(b)
  {
    forall m | m in a || m in b ensures m in a + b {
    }
    if a == [] {
      assert a + b == b;
    } else {
      assert (a + b)[1..] == a[1..] + b;
      WiresAppend(a[1..], b);
    }
  }

  /** The bytes of one message by the tables, written out: three for note, key pressure, control
      change, pitch bend and song position; two for program change, channel pressure, time code and
      song select; one for tune request, clock, start, continue, stop and active sensing; none for
      anything else. */
  predicate Spelled(m: MidiMsg, ws: seq<seq<Byte>>) {
    if 0x80 <= m.cmd <= 0xbf || 0xe0 <= m.cmd <= 0xef || m.cmd == 0xf2 then ws == [[m.cmd, m.val1, m.val2]]
    else if 0xc0 <= m.cmd <= 0xdf || m.cmd == 0xf1 || m.cmd == 0xf3 then ws == [[m.cmd, m.val1]]
    else if m.cmd in {0xf6, 0xf8, 0xfa, 0xfb, 0xfc, 0xfe} then ws == [[m.cmd]]
    else ws == []
  }

  /** On the wire each message of a sequence is spelled out in its place, byte by byte. */
  lemma WireBytes(before: seq<MidiMsg>, m: MidiMsg, after: seq<MidiMsg>)
    ensures Spelled(m, Wires(Sent([m])))
    ensures Wires(Sent(before + [m] + after)) == Wires(Sent(before)) + Wires(Sent([m])) + Wires(Sent(after))
  {
    SentAppend(before + [m], after);
    SentAppend(before, [m]);
    WiresAppend(Sent(before + [m]), Sent(after));
    WiresAppend(Sent(before), Sent([m]));
    OneWire(m);
  }

  lemma OneWire(m: MidiMsg)
    ensures Sent([m]) == if Sendable(m.cmd) then [m] else []
    ensures Spelled(m, Wires(Sent([m])))
  {
    assert [m][1..] == [] && Sent([]) == [];
    if Sendable(m.cmd) {
      assert Wires([m]) == [Wire(m)] + Wires([]);
      var n := DataBytes(m.cmd);
      assert Wire(m) == if n == 2 then [m.cmd, m.val1, m.val2] else if n == 1 then [m.cmd, m.val1] else [m.cmd];
    }
  }

  /** The shape of one message on the wire: a status byte, then data bytes. */
  predicate Piece(w: seq<Byte>) {
    w != [] && forall i :: 1 <= i < |w| ==> w[i] < 0x80
  }

  lemma {:induction false} SplitPieces(s: seq<Byte>)
    ensures forall i :: 0 <= i < |Split(s)| ==> Piece(Split(s)[i])
    decreases |s|
  {
    if s != [] { SplitPieces(s[1 + LeadingData(s[1..])..]); }
  }

  lemma LeadingDataIs(s: seq<Byte>, n: nat)
    requires n <= |s| && (forall i :: 0 <= i < n ==> s[i] < 0x80) && (n < |s| ==> s[n] >= 0x80)
    ensures LeadingData(s) == n
  {
  }

  lemma SplitFirst(w: seq<Byte>, rest: seq<Byte>)
    requires Piece(w) && (rest != [] ==> rest[0] >= 0x80)
    ensures Split(w + rest) == [w] + Split(rest)
  {
    var s := w + rest;
    assert s[1..] == w[1..] + rest;
    LeadingDataIs(s[1..], |w| - 1);
    assert s[..|w|] == w && s[|w|..] == rest;
  }

  predicate Pieces(ws: seq<seq<Byte>>) {
    forall i :: 0 <= i < |ws| ==> Piece(ws[i]) && ws[i][0] >= 0x80
  }

  /** Pieces that begin with a status byte are found again. */
  lemma {:induction false} SplitConcat(ws: seq<seq<Byte>>)
    requires Pieces(ws)
    ensures Split(Concat(ws)) == ws
    ensures Concat(ws) != [] ==> Concat(ws)[0] >= 0x80
  {
    if ws != [] {
      SplitConcat(ws[1..]);
      SplitFirst(ws[0], Concat(ws[1..]));
      assert Piece(ws[0]);
    }
  }

  lemma {:induction false} WiresAt(ms: seq<MidiMsg>, i: nat)
    requires (forall m :: m in ms ==> Sendable(m.cmd)) && i < |ms|
    ensures |Wires(ms)| == |ms| && Wires(ms)[i] == Wire(ms[i])
  {
    if i > 0 {
      WiresAt(ms[1..], i - 1);
    } else if |ms| > 1 {
      WiresAt(ms[1..], 0);
    }
  }

  lemma {:induction false} WiresLength(ms: seq<MidiMsg>)
    requires forall m :: m in ms ==> Sendable(m.cmd)
    ensures |Wires(ms)| == |ms|
  {
    if ms != [] { WiresLength(ms[1..]); }
  }

  lemma WirePiece(m: MidiMsg)
    requires Sendable(m.cmd)
    ensures Piece(Wire(m)) <==> Clean(m)
    ensures Wire(m) != [] && Wire(m)[0] >= 0x80 && |Wire(m)| == 1 + DataBytes(m.cmd)
  {
    var w, n := Wire(m), DataBytes(m.cmd);
    assert n >= 1 ==> w[1] == m.val1;
    assert n >= 2 ==> w[2] == m.val2;
  }

  predicate AllClean(ms: seq<MidiMsg>)
    requires forall m :: m in ms ==> Sendable(m.cmd)
  {
    forall m :: m in ms ==> Clean(m)
  }

  lemma WiresPieces(ms: seq<MidiMsg>)
    requires forall m :: m in ms ==> Sendable(m.cmd)
    ensures AllClean(ms) ==> Pieces(Wires(ms))
    ensures (forall i :: 0 <= i < |Wires(ms)| ==> Piece(Wires(ms)[i])) ==> AllClean(ms)
  {
    var ws := Wires(ms);
    forall i | 0 <= i < |ms|
      ensures |ws| == |ms| && ws[i] == Wire(ms[i]) && ws[i] != [] && ws[i][0] >= 0x80
      ensures Piece(ws[i]) <==> Clean(ms[i])
    {
      WiresAt(ms, i);
      WirePiece(ms[i]);
    }
    WiresLength(ms);
    if forall i :: 0 <= i < |ws| ==> Piece(ws[i]) {
      forall m | m in ms ensures Clean(m) {
        var i :| 0 <= i < |ms| && ms[i] == m;
        assert Piece(ws[i]);
      }
    }
  }

  /** MIDI framing: the concatenated output of any sequence of messages splits back into the
      messages sent exactly when every transmitted data byte is below 0x80. */
  lemma SplitsBack(ms: seq<MidiMsg>)
    ensures Split(Concat(Wires(Sent(ms)))) == Wires(Sent(ms)) <==> AllClean(Sent(ms))
  {
    var ws := Wires(Sent(ms));
    WiresPieces(Sent(ms));
    if AllClean(Sent(ms)) {
      SplitConcat(ws);
    }
    SplitPieces(Concat(ws));
  }

  /** Each piece comes back, through the receive callback, as the message without what was not sent. */
  lemma ReceivedBack(m: MidiMsg)
    requires Sendable(m.cmd)
    ensures Receive(Wire(m)) == Got(Masked(m))
  {
    WirePiece(m);
    var w, n := Wire(m), DataBytes(m.cmd);
    assert n >= 1 ==> w[1] == m.val1;
    assert n >= 2 ==> w[2] == m.val2;
  }

  function ReceiveAll(ws: seq<seq<Byte>>): seq<Received> {
    if ws == [] then [] else [Receive(ws[0])] + ReceiveAll(ws[1..])
  }

  function Expected(ms: seq<MidiMsg>): seq<Received>
    requires forall m :: m in ms ==> Sendable(m.cmd)
  {
    if ms == [] then [] else [Got(Masked(ms[0]))] + Expected(ms[1..])
  }

  lemma {:induction false} ReceivedAllBack(ms: seq<MidiMsg>)
    requires forall m :: m in ms ==> Sendable(m.cmd)
    ensures ReceiveAll(Wires(ms)) == Expected(ms)
  {
    if ms != [] {
      ReceivedBack(ms[0]);
      ReceivedAllBack(ms[1..]);
    }
  }

  /** Round trip over a whole stream; so two clean streams with the same bytes mean the same. */
  lemma StreamRoundTrip(ms: seq<MidiMsg>)
    requires AllClean(Sent(ms))
    ensures ReceiveAll(Split(Concat(Wires(Sent(ms))))) == Expected(Sent(ms))
  {
    SplitsBack(ms);
    ReceivedAllBack(Sent(ms));
  }

  lemma WireIsUnique(a: seq<MidiMsg>, b: seq<MidiMsg>)
    requires AllClean(Sent(a))
    requires AllClean(Sent(b))
    requires Concat(Wires(Sent(a))) == Concat(Wires(Sent(b)))
    ensures Expected(Sent(a)) == Expected(Sent(b))
  {
    StreamRoundTrip(a);
    StreamRoundTrip(b);
  }

  // ---- the worker ----

  datatype Item = Midi(m: MidiMsg) | MidiList(ms: seq<MidiMsg>) | OtherKind

  /** What the worker puts on the wire: lists are dropped, because the second branch of the
      runner tests for a single message once more. */
  function HandledWires(items: seq<Item>): seq<seq<Byte>> {
    if items == [] then []
    else (if items[0].Midi? then Wires(Sent([items[0].m])) else []) + HandledWires(items[1..])
  }

  /** What the runner is written for: lists sent message by message. */
  function IntendedWires(items: seq<Item>): seq<seq<Byte>> {
    if items == [] then []
    else
      (match items[0]
       case Midi(m) => Wires(Sent([m]))
       case MidiList(ms) => Wires(Sent(ms))
       case OtherKind => [])
      + IntendedWires(items[1..])
  }

  /** Everything queued reaches the wire exactly when no list has a sendable message in it. */
  lemma {:induction false} ListsAreDropped(items: seq<Item>)
    ensures HandledWires(items) == IntendedWires(items)
       <==> forall i :: 0 <= i < |items| && items[i].MidiList? ==> Sent(items[i].ms) == []
    ensures |HandledWires(items)| <= |IntendedWires(items)|
    ensures |HandledWires(items)| == |IntendedWires(items)| ==> HandledWires(items) == IntendedWires(items)
  {
    if items != [] {
      var rest := items[1..];
      ListsAreDropped(rest);
      assert forall i :: 0 <= i < |rest| ==> rest[i] == items[i + 1];
      assert forall i :: 1 <= i < |items| ==> items[i] == rest[i - 1];
      if items[0].MidiList? {
        WiresLength(Sent(items[0].ms));
        assert [] + HandledWires(rest) == HandledWires(rest);
      }
    }
  }

  class MidiWorker {
    const oscInQ: Queue<MidiMsg>
    const spiInQ: Queue<MidiMsg>
    var midiOut: seq<seq<Byte>> // the messages handed to the port

    constructor (oscInQ: Queue<MidiMsg>, spiInQ: Queue<MidiMsg>)
      ensures this.oscInQ == oscInQ && this.spiInQ == spiInQ && midiOut == []
    {
      this.oscInQ, this.spiInQ, midiOut := oscInQ, spiInQ, [];
    }

    /** The receive callback: the message goes to both queues, to each as far as it is served. */
    method OnMessage(imsg: seq<Byte>) returns (r: Received)
      requires oscInQ.Valid() && spiInQ.Valid() && oscInQ != spiInQ
      modifies oscInQ, spiInQ
      ensures oscInQ.Valid() && spiInQ.Valid()
      ensures r == Receive(imsg)
      ensures r.Failed? <==> |imsg| == 0
      ensures r.Ignored? <==> |imsg| > 3
      ensures |imsg| == 1 ==> r == Got(MidiMsg(0, imsg[0], 0, 0))
      ensures |imsg| == 2 ==> r == Got(MidiMsg(0, imsg[0], imsg[1], 0))
      ensures |imsg| == 3 ==> r == Got(MidiMsg(0, imsg[0], imsg[1], imsg[2]))
      ensures oscInQ.isRunning == old(oscInQ.isRunning) && oscInQ.isBlocking == old(oscInQ.isBlocking)
      ensures spiInQ.isRunning == old(spiInQ.isRunning) && spiInQ.isBlocking == old(spiInQ.isBlocking)
      ensures oscInQ.iqueue == old(oscInQ.iqueue) + if r.Got? && old(oscInQ.isRunning) then [r.m] else []
      ensures spiInQ.iqueue == old(spiInQ.iqueue) + if r.Got? && old(spiInQ.isRunning) then [r.m] else []
    {
      if |imsg| > 3 { return Ignored; }
      if |imsg| == 0 { return Failed; }
      var cmd, val1, val2: Byte := imsg[0], 0, 0;
      if |imsg| > 1 {
        val1 := imsg[1];
        if |imsg| > 2 { val2 := imsg[2]; }
      }
      var m := MidiMsg(0, cmd, val1, val2);
      oscInQ.Push(m);
      spiInQ.Push(m);
      r := Got(m);
    }

    method SendMIDI(m: MidiMsg)
      modifies `midiOut
      ensures midiOut == old(midiOut) + Wires(Sent([m]))
      ensures old(midiOut) <= midiOut && Spelled(m, midiOut[|old(midiOut)|..])
    {
      OneWire(m);
      var chanCmd := m.cmd / 16 * 16;
      var msg: seq<Byte> := [];
      if chanCmd == 0xf0 {
        if m.cmd == 0xf2 {
          msg := [m.cmd, m.val1, m.val2];
        } else if m.cmd == 0xf1 || m.cmd == 0xf3 {
          msg := [m.cmd, m.val1];
        } else if m.cmd in {0xf8, 0xfa, 0xfb, 0xfc, 0xfe, 0xf6} {
          msg := [m.cmd];
        } else {
          return;
        }
      } else if chanCmd in {0x90, 0x80, 0xa0, 0xb0, 0xe0} {
        msg := [m.cmd, m.val1, m.val2];
      } else if chanCmd in {0xc0, 0xd0} {
        msg := [m.cmd, m.val1];
      } else {
        return;
      }
      assert Sendable(m.cmd) && msg == Wire(m);
      assert [m][1..] == [] && Sent([m]) == [m];
      assert Wires([m]) == [Wire(m)];
      midiOut := midiOut + [msg];
    }

    /** What `runner` does with a message it took from its queue. */
    method Handle(item: Item)
      modifies `midiOut
      ensures midiOut == old(midiOut) + HandledWires([item])
      ensures !item.Midi? ==> midiOut == old(midiOut)
      ensures item.Midi? ==> old(midiOut) <= midiOut && Spelled(item.m, midiOut[|old(midiOut)|..])
    {
      assert [item][1..] == [];
      if item.Midi? { SendMIDI(item.m); }
    }
  }
}
