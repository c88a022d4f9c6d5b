/**
 * The note-to-frequency lookup of `playNote`: one 80-entry table of MIDI note
 * frequencies (each entry is twice the frequency in Hz, rounded), indexed by a
 * two-range rule.
 */
module NoteTable {
  import opened Types

  /** `_midi_word_note_frequencies`: entry k belongs to MIDI note k + 48. */
  const WordNoteFrequencies: seq<nat> := [
    262, 277, 294, 311, 330, 349, 370, 392, 415, 440, 466, 494, 523, 554, 587, 622, 659,
    698, 740, 784, 831, 880, 932, 988, 1047, 1109, 1175, 1245, 1319, 1397, 1480, 1568, 1661, 1760,
    1865, 1976, 2093, 2217, 2349, 2489, 2637, 2794, 2960, 3136, 3322, 3520, 3729, 3951, 4186,
    4435, 4699, 4978, 5274, 5588, 5920, 6272, 6645, 7040, 7459, 7902, 8372, 8870, 9397, 9956,
    10548, 11175, 11840, 12544, 13290, 14080, 14917, 15804, 16744, 17740, 18795, 19912, 21096,
    22351, 23680, 25088]

  /** The first note whose index is shifted down; also the table's base note. */
  const SplitNote := 48

  /** The highest note `playNote` accepts. */
  const MaxNote := 127

  /**
   * The table index `playNote` reads for `note`, or None for a note it
   * rejects. Below the split the note is used unshifted, from the split on it
   * is shifted down by 48; both ranges land inside the table.
   */
  function TableIndex(note: byte): (r: Option<nat>)
    ensures r.Some? <==> note <= MaxNote
    ensures r.Some? ==> r.value < |WordNoteFrequencies|
    ensures r.Some? && note < SplitNote ==> r.value == note
    ensures r.Some? && note >= SplitNote ==> r.value + SplitNote == note
  {
    if note > MaxNote then None
    else if note < SplitNote then Some(note)
    else Some(note - SplitNote)
  }

  /** The table value `playNote` gives the channel for an accepted note. */
  function Frequency(note: byte): (f: nat)
    requires note <= MaxNote
    ensures f in WordNoteFrequencies
  {
    WordNoteFrequencies[TableIndex(note).value]
  }

  /** The note that owns table entry `k`: the inverse of the lookup on the upper range. */
  function NoteOfIndex(k: nat): (note: byte)
    requires k < |WordNoteFrequencies|
    ensures SplitNote <= note <= MaxNote
  {
    k + SplitNote
  }

  /** On notes 48..127 the lookup and `NoteOfIndex` are inverse bijections. */
  lemma UpperRangeRoundTrip(note: byte, k: nat)
    ensures SplitNote <= note <= MaxNote ==> NoteOfIndex(TableIndex(note).value) == note
    ensures k < |WordNoteFrequencies| ==> TableIndex(NoteOfIndex(k)) == Some(k)
  {
  }

  /**
   * Notes below 48 read the same entry as the note four octaves up, so notes
   * 0..47 sound exactly like notes 48..95.
   */
  lemma LowNotesAliasUpperNotes(note: byte)
    requires note < SplitNote
    ensures TableIndex(note) == TableIndex(note + SplitNote)
    ensures Frequency(note) == Frequency(note + SplitNote)
  {
  }
}
