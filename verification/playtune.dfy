/**
 * The global state of the player and the operations that change it outside
 * the interpreter: note on/off bookkeeping, foreground tones, and setup and
 * teardown. The two sine generators are reduced to a Voice each (amplitude
 * non-zero = `on`, plus the frequency last set); `speaker` is the amplifier
 * enable.
 */
module Playtune {
  import opened Types
  import NoteTable

  /** One sine generator: sounding or silent, and the frequency last set. */
  datatype Voice = Voice(on: bool, freq: nat)

  /**
   * Every variable of the core. `voice0.on` / `voice1.on` are
   * `playing_chan0` / `playing_chan1`; `score`, `start` and `cursor` stand
   * for the bytes at `score_start`, its offset and `score_cursor`.
   */
  datatype State = State(
    voice0: Voice,
    voice1: Voice,
    speaker: bool,
    numChans: byte,
    tunePlaying: bool,
    tonePlaying: bool,
    toneMutesScore: bool,
    muteScore: bool,
    duration: int32,
    score: seq<byte>,
    start: nat,
    cursor: nat)

  /** The state before any call: everything off, no channels. */
  const Initial := State(Voice(false, 0), Voice(false, 0), false, 0, false, false, false, false, 0, [], 0, 0)

  /** The speaker is enabled exactly when some channel is playing. */
  predicate SpeakerInv(st: State)
  {
    st.speaker == (st.voice0.on || st.voice1.on)
  }

  /** Everything except the two voices and the speaker is the same. */
  predicate SameControl(a: State, b: State)
  {
    a == b.(voice0 := a.voice0, voice1 := a.voice1, speaker := a.speaker)
  }

  /** `stopNote`: silences channel 0 or 1 and re-derives the speaker enable. */
  function StopNote(st: State, chan: byte): (r: State)
    ensures SpeakerInv(r)
    ensures r.voice0.on == (st.voice0.on && chan != 0) && r.voice0.freq == st.voice0.freq
    ensures r.voice1.on == (st.voice1.on && chan != 1) && r.voice1.freq == st.voice1.freq
    ensures chan > 1 ==> r.voice0 == st.voice0 && r.voice1 == st.voice1
    ensures SameControl(r, st)
  {
    var v0 := if chan == 0 then st.voice0.(on := false) else st.voice0;
    var v1 := if chan == 1 then st.voice1.(on := false) else st.voice1;
    st.(voice0 := v0, voice1 := v1, speaker := v0.on || v1.on)
  }

  /** Whether `playNote(chan, note)` gets past its two guards. */
  predicate Accepts(st: State, chan: byte, note: byte)
  {
    chan < st.numChans && note <= NoteTable.MaxNote
  }

  /**
   * `playNote`: a note on a channel that does not exist, or above 127, is
   * ignored; otherwise channel 0 or 1 starts sounding the looked-up
   * frequency and the speaker enable is re-derived.
   */
  function PlayNote(st: State, chan: byte, note: byte): (r: State)
    ensures !Accepts(st, chan, note) ==> r == st
    ensures Accepts(st, chan, note) ==> SpeakerInv(r) && SameControl(r, st)
    ensures Accepts(st, chan, note) && chan == 0 ==>
      r.voice0 == Voice(true, NoteTable.Frequency(note)) && r.voice1 == st.voice1 && r.speaker
    ensures Accepts(st, chan, note) && chan == 1 ==>
      r.voice1 == Voice(true, NoteTable.Frequency(note)) && r.voice0 == st.voice0 && r.speaker
    ensures chan > 1 ==> r.voice0 == st.voice0 && r.voice1 == st.voice1
  {
    if !Accepts(st, chan, note) then st
    else
      var f := NoteTable.Frequency(note);
      var v0 := if chan == 0 then Voice(true, f) else st.voice0;
      var v1 := if chan == 1 then Voice(true, f) else st.voice1;
      st.(voice0 := v0, voice1 := v1, speaker := v0.on || v1.on)
  }

  /** Whether `tone` gets past its guard. */
  predicate ToneAllowed(st: State, enabled: bool)
  {
    enabled && st.numChans >= 2
  }

  /**
   * `tone`: when output is enabled and both channels exist, claims channel 0
   * for the tone, silences channel 1, copies the mute policy and overwrites
   * the countdown with the tone's duration (as an `int32_t`). `enabled` is
   * the value `outputEnabled()` returns at the call.
   */
  function Tone(st: State, enabled: bool, frequency: uint32, toneDuration: uint32): (r: State)
    ensures !ToneAllowed(st, enabled) ==> r == st
    ensures ToneAllowed(st, enabled) ==>
      && r.tonePlaying
      && r.muteScore == st.toneMutesScore
      && r.voice0 == Voice(true, frequency)
      && !r.voice1.on && r.voice1.freq == st.voice1.freq
      && r.speaker && SpeakerInv(r)
      && r.duration == ToInt32(toneDuration)
      && r.tunePlaying == st.tunePlaying && r.numChans == st.numChans
      && r.toneMutesScore == st.toneMutesScore
      && r.score == st.score && r.start == st.start && r.cursor == st.cursor
  {
    if !ToneAllowed(st, enabled) then st
    else
      var v0 := Voice(true, frequency);
      var v1 := st.voice1.(on := false);
      st.(tonePlaying := true, muteScore := st.toneMutesScore,
          voice0 := v0, voice1 := v1, duration := ToInt32(toneDuration),
          speaker := v0.on || v1.on)
  }

  /** `toneMutesScore`: sets the policy the next tone copies; nothing audible changes. */
  function SetToneMutesScore(st: State, mute: bool): (r: State)
    ensures r.toneMutesScore == mute
    ensures r.(toneMutesScore := st.toneMutesScore) == st
  {
    st.(toneMutesScore := mute)
  }

  /** The loop of `stopScore`: stops channels i .. numChans-1 in turn. */
  function StopChannelsFrom(st: State, i: nat): (r: State)
    ensures SameControl(r, st)
    ensures r.voice0.freq == st.voice0.freq && r.voice1.freq == st.voice1.freq
    ensures r.voice0.on == (st.voice0.on && !(i <= 0 < st.numChans))
    ensures r.voice1.on == (st.voice1.on && !(i <= 1 < st.numChans))
    ensures i < st.numChans ==> SpeakerInv(r)
    ensures i >= st.numChans ==> r == st
    decreases st.numChans - i
  {
    if i < st.numChans then StopChannelsFrom(StopNote(st, i), i + 1) else st
  }

  /**
   * `stopScore`: stops every initialised channel and marks the score stopped.
   * With no channels initialised the loop is empty and only the flag changes.
   */
  function StopScore(st: State): (r: State)
    ensures !r.tunePlaying
    ensures r.voice0.on == (st.voice0.on && st.numChans == 0)
    ensures r.voice1.on == (st.voice1.on && st.numChans <= 1)
    ensures r.voice0.freq == st.voice0.freq && r.voice1.freq == st.voice1.freq
    ensures st.numChans > 0 ==> SpeakerInv(r)
    ensures st.numChans == 0 ==> r == st.(tunePlaying := false)
    ensures r == st.(voice0 := r.voice0, voice1 := r.voice1, speaker := r.speaker, tunePlaying := false)
  {
    StopChannelsFrom(st, 0).(tunePlaying := false)
  }

  /** `playing`: whether the score is still running. */
  function Playing(st: State): (b: bool)
    ensures b <==> st.tunePlaying
  {
    st.tunePlaying
  }

  /**
   * `closeChannels`: silences both channels, forgets the channel count and
   * clears the playback, tone and mute flags.
   */
  function CloseChannels(st: State): (r: State)
    ensures !r.voice0.on && !r.voice1.on && !r.speaker
    ensures r.voice0.freq == st.voice0.freq && r.voice1.freq == st.voice1.freq
    ensures r.numChans == 0 && !r.tunePlaying && !r.tonePlaying && !r.muteScore
    ensures r.duration == st.duration && r.toneMutesScore == st.toneMutesScore
    ensures r.score == st.score && r.start == st.start && r.cursor == st.cursor
  {
    StopNote(StopNote(st, 0), 1).(numChans := 0, tunePlaying := false, tonePlaying := false, muteScore := false)
  }

  /** `initChannel` (state effect only): two channels exist and the speaker is off. */
  function InitChannel(st: State, pin: byte): (r: State)
    ensures r.numChans == 2 && !r.speaker
    ensures r.(numChans := st.numChans, speaker := st.speaker) == st
  {
    st.(numChans := 2, speaker := false)
  }

  /** `stopScore` is idempotent. */
  lemma StopScoreIdempotent(st: State)
    ensures StopScore(StopScore(st)) == StopScore(st)
  {
  }

  /** `closeChannels` is idempotent. */
  lemma CloseChannelsIdempotent(st: State)
    ensures CloseChannels(CloseChannels(st)) == CloseChannels(st)
  {
  }

  /** After `closeChannels`, every `playNote` and every `tone` is ignored. */
  lemma ClosedIgnoresNotesAndTones(st: State, chan: byte, note: byte, enabled: bool, f: uint32, d: uint32)
    ensures PlayNote(CloseChannels(st), chan, note) == CloseChannels(st)
    ensures Tone(CloseChannels(st), enabled, f, d) == CloseChannels(st)
  {
  }

  /**
   * `initChannel` only keeps the speaker invariant when nothing was playing:
   * it switches the speaker off without touching the channel flags.
   */
  lemma InitChannelSpeakerInv(st: State, pin: byte)
    ensures SpeakerInv(InitChannel(st, pin)) <==> !st.voice0.on && !st.voice1.on
  {
  }

  /** After `initChannel`, a tone with output enabled is accepted; before it, none is. */
  lemma InitChannelEnablesTone(pin: byte, f: uint32, d: uint32)
    ensures Tone(Initial, true, f, d) == Initial
    ensures Tone(InitChannel(Initial, pin), true, f, d).tonePlaying
  {
  }

  /** The mute policy set by `toneMutesScore` is what the next accepted tone copies. */
  lemma ToneCopiesMutePolicy(st: State, mute: bool, f: uint32, d: uint32)
    requires st.numChans >= 2
    ensures Tone(SetToneMutesScore(st, mute), true, f, d).muteScore == mute
  {
  }

  /** A tone overwrites a pending score wait; a duration of 2^31 or more wraps negative. */
  lemma ToneOverwritesCountdown(st: State, f: uint32, d: uint32)
    requires st.numChans >= 2
    ensures d < 0x8000_0000 ==> Tone(st, true, f, d).duration == d
    ensures d >= 0x8000_0000 ==> Tone(st, true, f, d).duration < 0
  {
  }

  /** Every channel operation that succeeds leaves the speaker invariant holding; the rest preserve it. */
  lemma ChannelOpsKeepSpeakerInv(st: State, chan: byte, note: byte, enabled: bool, f: uint32, d: uint32, mute: bool)
    requires SpeakerInv(st)
    ensures SpeakerInv(StopNote(st, chan))
    ensures SpeakerInv(PlayNote(st, chan, note))
    ensures SpeakerInv(Tone(st, enabled, f, d))
    ensures SpeakerInv(SetToneMutesScore(st, mute))
    ensures SpeakerInv(StopScore(st))
    ensures SpeakerInv(CloseChannels(st))
  {
  }
}
