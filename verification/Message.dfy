/** Bytes and MIDI messages, as in message.h and xypi_midi.h. */
module Message {

  type Byte = x: int | 0 <= x < 256

  datatype MidiMsg = MidiMsg(port: Byte, cmd: Byte, val1: Byte, val2: Byte)
}
