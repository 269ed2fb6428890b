/** The sender and receiver of pi_spi.cpp over a transfer buffer. */
module SpiDevice {
  import opened Message
  import opened SpiProtocol
  import opened SpiProofs

  const MAX_FRAME: nat := 382

  class PiSpi {
    const codes: Codes
    const room: nat -> bool // answers of the device's MIDI buffer, in the order it is asked
    var spiInState: Byte
    var nMidiCmdIncoming: Byte
    const incomingTempo: array<Byte>
    var setTempo: bool
    var tempoRequested: bool
    var cmdIn: Byte
    var val1In: Byte
    var val2In: Byte
    var droppedMidiIn: bool
    var asked: nat
    ghost var events: seq<Event>
    ghost var kept: nat

    ghost predicate Valid()
      reads this
    {
      incomingTempo.Length == 4 && kept <= asked
    }

    ghost function Abs(): Decoder
      reads this, incomingTempo
      requires Valid()
    {
      Decoder(spiInState, nMidiCmdIncoming,
              Float(incomingTempo[0], incomingTempo[1], incomingTempo[2], incomingTempo[3]),
              setTempo, tempoRequested, cmdIn, val1In, val2In, droppedMidiIn, events, kept, asked - kept)
    }

    constructor (codes: Codes, room: nat -> bool)
      ensures Valid() && fresh(incomingTempo) && this.codes == codes && this.room == room
      ensures Abs() == Fresh()
    {
      this.codes, this.room := codes, room;
      spiInState, nMidiCmdIncoming, cmdIn, val1In, val2In := COMMAND, 0, 0, 0, 0;
      setTempo, tempoRequested, droppedMidiIn := false, false, false;
      asked, events, kept := 0, [], 0;
      incomingTempo := new Byte[4](_ => 0);
    }

    /** `deviceMidiOut.addToBuf`. */
    method AddToBuf(cmd: Byte, val1: Byte, val2: Byte) returns (ok: bool)
      requires Valid()
      modifies `asked, `events, `kept
      ensures Valid() && ok == room(old(asked)) && asked == old(asked) + 1
      ensures events == old(events) + [Midi(cmd, val1, val2)]
      ensures kept == if ok then old(kept) + 1 else old(kept)
    {
      ok := room(asked);
      asked := asked + 1;
      events := events + [Midi(cmd, val1, val2)];
      if ok { kept := kept + 1; }
    }

    /** A byte at a frame boundary. */
    method ProcessCommandByte(b: Byte) returns (ponged: bool)
      requires Valid() && spiInState == COMMAND
      modifies this
      ensures Valid() && Abs() == Step(codes, old(Abs()), b, room)
      ensures ponged <==> b == codes.pong
      ensures tempoRequested <==> old(tempoRequested) || b == codes.sendTempo
    {
      ponged := false;
      if b >= MIDI {
        spiInState := MIDI_DATA;
        nMidiCmdIncoming := b % 128;
      } else if b == codes.pong {
        events := events + [Ponged];
        return true;
      } else if b == codes.sendTempo {
        tempoRequested := true;
        events := events + [TempoRequest];
      } else if b == codes.tempo {
        spiInState := TEMPO_DATA;
        setTempo := false;
      }
    }

    /** A byte of a MIDI triple. */
    method ProcessMidiByte(b: Byte)
      requires Valid() && MIDI_DATA <= spiInState <= MIDI_DATA_2
      modifies this
      ensures Valid() && Abs() == Step(codes, old(Abs()), b, room)
    {
      if spiInState == MIDI_DATA {
        cmdIn := b;
        spiInState := MIDI_DATA_1;
      } else if spiInState == MIDI_DATA_1 {
        val1In := b;
        spiInState := MIDI_DATA_2;
      } else {
        val2In := b;
        var ok := AddToBuf(cmdIn, val1In, val2In);
        if !ok { droppedMidiIn := true; }
        nMidiCmdIncoming := (nMidiCmdIncoming + 255) % 256;
        spiInState := if nMidiCmdIncoming > 0 then MIDI_DATA else COMMAND;
      }
    }

    /** A byte of a tempo, written straight into the float. */
    method ProcessTempoByte(b: Byte)
      requires Valid() && TEMPO_DATA <= spiInState <= TEMPO_DATA_3
      modifies this, incomingTempo
      ensures Valid() && Abs() == Step(codes, old(Abs()), b, room)
    {
      incomingTempo[spiInState - TEMPO_DATA] := b;
      if spiInState < TEMPO_DATA_3 {
        spiInState := spiInState + 1;
      } else {
        spiInState := COMMAND;
        setTempo := true;
        events := events + [Tempo(Float(incomingTempo[0], incomingTempo[1], incomingTempo[2], b))];
      }
    }

    method ProcessNextSpiByte(b: Byte) returns (ponged: bool)
      requires Valid()
      modifies this, incomingTempo
      ensures Valid() && Abs() == Step(codes, old(Abs()), b, room)
      ensures ponged <==> old(spiInState) == COMMAND && b == codes.pong
      ensures tempoRequested <==> old(tempoRequested) || (old(spiInState) == COMMAND && b == codes.sendTempo)
    {
      ponged := false;
      if spiInState == COMMAND {
        ponged := ProcessCommandByte(b);
      } else if spiInState <= MIDI_DATA_2 {
        ProcessMidiByte(b);
      } else if spiInState <= TEMPO_DATA_3 {
        ProcessTempoByte(b);
      } else {
        spiInState := COMMAND;
      }
    }

    /** The received half of a transfer. Only a pong that ends the transfer is reported. */
    method ProcessTransfer(buf: array<Byte>, msgLen: nat) returns (wasPonged: bool)
      requires Valid() && buf != incomingTempo && msgLen <= buf.Length
      modifies this, incomingTempo
      ensures Valid() && Abs() == Run(codes, old(Abs()), buf[..msgLen], room)
      ensures wasPonged <==>
        && msgLen > 0 && buf[msgLen - 1] == codes.pong
        && Run(codes, old(Abs()), buf[..msgLen - 1], room).state == COMMAND
    {
      wasPonged := false;
      var i := 0;
      while i < msgLen
        invariant Valid() && 0 <= i <= msgLen && buf[..] == old(buf[..])
        invariant Abs() == Run(codes, old(Abs()), buf[..i], room)
        invariant wasPonged <==>
          && i > 0 && buf[i - 1] == codes.pong
          && Run(codes, old(Abs()), buf[..i - 1], room).state == COMMAND
      {
        ghost var d := old(Abs());
        assert buf[..i + 1] == buf[..i] + [buf[i]];
        RunAppend(codes, d, buf[..i], [buf[i]], room);
        RunOne(codes, Run(codes, d, buf[..i], room), buf[i], room);
        wasPonged := ProcessNextSpiByte(buf[i]);
        i := i + 1;
      }
    }

    /** The frame of a list, written byte by byte behind its header. */
    method EncodeList(ms: seq<MidiMsg>, buf: array<Byte>) returns (msgLen: nat)
      requires |ms| <= 127 && buf.Length >= MAX_FRAME
      modifies buf
      ensures msgLen == 1 + 3 * |ms| && buf[..msgLen] == [MIDI + |ms|] + Flat(ms)
      ensures buf[msgLen..] == old(buf[msgLen..])
    {
      buf[0] := MIDI + |ms|;
      msgLen := 0;
      for i := 0 to |ms|
        invariant msgLen == 3 * i
        invariant |Flat(ms[..i])| == 3 * i && buf[..msgLen + 1] == [MIDI + |ms|] + Flat(ms[..i])
        invariant buf[1 + 3 * |ms|..] == old(buf[1 + 3 * |ms|..])
      {
        ghost var before := buf[..msgLen + 1];
        assert ms[..i + 1][..i] == ms[..i];
        msgLen := msgLen + 1;
        buf[msgLen] := ms[i].cmd;
        msgLen := msgLen + 1;
        buf[msgLen] := ms[i].val1;
        msgLen := msgLen + 1;
        buf[msgLen] := ms[i].val2;
        assert buf[..msgLen + 1] == before + [ms[i].cmd, ms[i].val1, ms[i].val2];
      }
      assert ms[..|ms|] == ms;
      msgLen := msgLen + 1;
    }

    /** The encoder switch: writes the frame of a message and leaves the rest of the buffer alone. */
    method EncodeMessage(m: Msg, buf: array<Byte>) returns (msgLen: nat)
      requires buf.Length >= MAX_FRAME
      modifies buf
      ensures msgLen <= MAX_FRAME && buf[..msgLen] == Encode(codes, m)
      ensures buf[msgLen..] == old(buf[msgLen..])
      ensures m.Quiet? ==> buf[..msgLen] == [codes.ping]
      ensures m.Blank? ==> buf[..msgLen] == [codes.nul]
      ensures m.Command? ==> buf[..msgLen] == [m.b]
      ensures m.SetTempo? ==> buf[..msgLen] == [codes.tempo, m.t.b0, m.t.b1, m.t.b2, m.t.b3]
      ensures m.One? ==> buf[..msgLen] == [0x81, m.m.cmd, m.m.val1, m.m.val2]
      ensures m.List? && |m.ms| > 127 ==> msgLen == 0
      ensures m.List? && |m.ms| <= 127 ==>
        msgLen == 1 + 3 * |m.ms| && buf[0] == 0x80 + |m.ms| && Carries(buf[1..msgLen], m.ms)
    {
      match m
      case One(x) =>
        buf[0] := MIDI + 1;
        buf[1] := x.cmd;
        buf[2] := x.val1;
        buf[3] := x.val2;
        msgLen := 4;
      case List(ms) =>
        if |ms| > 127 { return 0; }
        msgLen := EncodeList(ms, buf);
        FlatCarries(ms);
      case SetTempo(t) =>
        buf[0] := codes.tempo;
        buf[1], buf[2], buf[3], buf[4] := t.b0, t.b1, t.b2, t.b3;
        msgLen := 5;
      case Command(b) =>
        buf[0] := b;
        msgLen := 1;
      case Blank =>
        buf[0] := codes.nul;
        msgLen := 1;
      case Quiet =>
        buf[0] := codes.ping;
        msgLen := 1;
    }
  }

  /** Sender to receiver over one buffer: what arrives is what was meant, exactly for the messages
      the framing can carry. */
  method SendAndReceive(sender: PiSpi, receiver: PiSpi, m: Msg, buf: array<Byte>)
    requires receiver.Valid() && sender.codes == receiver.codes
    requires buf.Length >= MAX_FRAME && buf != receiver.incomingTempo
    requires receiver.spiInState == COMMAND
    modifies receiver, receiver.incomingTempo, buf
    ensures receiver.Valid()
    ensures receiver.spiInState == COMMAND && receiver.events == old(receiver.events) + Meaning(receiver.codes, m)
       <==> Framed(receiver.codes, m)
  {
    var msgLen := sender.EncodeMessage(m, buf);
    MessageRoundTrip(receiver.codes, receiver.Abs(), m, receiver.room);
    var _ := receiver.ProcessTransfer(buf, msgLen);
  }
}
