/**
 * The byte-code of a score. A command byte carries an opcode in its high
 * nibble and a channel in its low nibble; play-note is followed by a note
 * byte, and a command byte below 0x80 is the high half of a 15-bit
 * big-endian wait in milliseconds.
 */
module ScoreFormat {
  import opened Types

  /** A byte usable as a `TUNE_OP_*` value: at least 0x80, low nibble clear. */
  predicate IsOpcode(b: byte)
  {
    b >= 0x80 && b % 16 == 0
  }

  /**
   * The values of the four `TUNE_OP_*` opcodes. They are defined in a header
   * outside this model, so every property is stated for any table that is
   * `Valid`.
   */
  datatype OpTable = OpTable(stopNote: byte, playNote: byte, restart: byte, stop: byte)
  {
    predicate Valid()
    {
      && IsOpcode(stopNote) && IsOpcode(playNote) && IsOpcode(restart) && IsOpcode(stop)
      && stopNote != playNote && stopNote != restart && stopNote != stop
      && playNote != restart && playNote != stop
      && restart != stop
    }

    predicate Names(op: byte)
    {
      op == stopNote || op == playNote || op == restart || op == stop
    }
  }

  /** `command & 0xf0` */
  function OpcodeOf(c: byte): (op: byte)
    ensures op % 16 == 0 && op <= c < op + 16
  {
    c - c % 16
  }

  /** `command & 0x0f` */
  function ChannelOf(c: byte): (ch: nat)
    ensures ch < 16 && OpcodeOf(c) + ch == c
  {
    c % 16
  }

  /** The longest wait a command can encode, in milliseconds. */
  const MaxWait := 0x7FFF

  /** A decoded command; `Unknown` is an opcode the interpreter skips. */
  datatype Command =
    | NoteOff(chan: nat)
    | NoteOn(chan: nat, note: byte)
    | Wait(ms: nat)
    | Restart
    | Stop
    | Unknown(code: byte)

  /** Bytes a command occupies in the score. */
  function Width(cmd: Command): nat
  {
    if cmd.NoteOn? || cmd.Wait? then 2 else 1
  }

  /** The commands a score can express. */
  predicate WellFormed(ops: OpTable, cmd: Command)
  {
    match cmd
    case NoteOff(ch) => ch < 16
    case NoteOn(ch, _) => ch < 16
    case Wait(ms) => ms <= MaxWait
    case Restart => true
    case Stop => true
    case Unknown(c) => OpcodeOf(c) >= 0x80 && !ops.Names(OpcodeOf(c))
  }

  datatype Decoded = Decoded(cmd: Command, width: nat)

  /**
   * Decodes the command at offset `at`, testing the opcode in the order the
   * interpreter does. None means a read past the end of the score.
   */
  function Decode(ops: OpTable, score: seq<byte>, at: nat): (r: Option<Decoded>)
    ensures r.Some? ==> r.value.width == Width(r.value.cmd) && at + r.value.width <= |score|
    ensures r.Some? ==> WellFormed(ops, r.value.cmd)
    ensures r.None? ==> at + 1 >= |score|
  {
    if at >= |score| then None
    else
      var c := score[at];
      var op := OpcodeOf(c);
      if op == ops.stopNote then Some(Decoded(NoteOff(ChannelOf(c)), 1))
      else if op == ops.playNote then
        if at + 1 < |score| then Some(Decoded(NoteOn(ChannelOf(c), score[at + 1]), 2)) else None
      else if op < 0x80 then
        // ((unsigned)command << 8) | next byte
        if at + 1 < |score| then Some(Decoded(Wait(c as int * 256 + score[at + 1]), 2)) else None
      else if op == ops.restart then Some(Decoded(Restart, 1))
      else if op == ops.stop then Some(Decoded(Stop, 1))
      else Some(Decoded(Unknown(c), 1))
  }

  /** The canonical bytes of a command (channel nibble of restart and stop clear). */
  function Encode(ops: OpTable, cmd: Command): (bytes: seq<byte>)
    requires ops.Valid() && WellFormed(ops, cmd)
    ensures |bytes| == Width(cmd)
  {
    match cmd
    case NoteOff(ch) => [ops.stopNote + ch]
    case NoteOn(ch, n) => [ops.playNote + ch, n]
    case Wait(ms) => [ms / 256, ms % 256]
    case Restart => [ops.restart]
    case Stop => [ops.stop]
    case Unknown(c) => [c]
  }

  /** Every expressible command decodes back from its encoding, wherever it sits. */
  lemma EncodeThenDecode(ops: OpTable, cmd: Command, before: seq<byte>, after: seq<byte>)
    requires ops.Valid() && WellFormed(ops, cmd)
    ensures Decode(ops, before + Encode(ops, cmd) + after, |before|)
         == Some(Decoded(cmd, Width(cmd)))
  {
  }

  /**
   * Decoding reads exactly the bytes it consumes: re-encoding a decoded
   * command gives those bytes back, except that restart and stop drop the
   * low nibble the interpreter ignores. The re-encoding decodes to the same
   * command.
   */
  lemma DecodeThenEncode(ops: OpTable, score: seq<byte>, at: nat)
    requires ops.Valid()
    requires Decode(ops, score, at).Some?
    ensures var d := Decode(ops, score, at).value;
      && OpcodeOf(Encode(ops, d.cmd)[0]) == OpcodeOf(score[at])
      && (!d.cmd.Restart? && !d.cmd.Stop? ==> Encode(ops, d.cmd) == score[at .. at + d.width])
      && Decode(ops, Encode(ops, d.cmd), 0) == Some(d)
  {
  }
}
