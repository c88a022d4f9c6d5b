# ArduboyPlaytune audio core, modelled in Dafny

This project models the SAMD51 audio back end of ArduboyPlaytune
(`src/ArduboyPlaytune_Audio.cpp`): a byte-code interpreter for a compact
two-channel music score, the 1 ms timer tick that counts waits down, the
note-to-frequency lookup, one-shot foreground tones, and setup/teardown.

The whole set of globals is one immutable `Playtune.State` record. Each
operation is a pure transition over it:

- `types.dfy` (`Types`): `byte`, `uint32`, `int32`, `Option`, and the
  `unsigned long` to `int32_t` conversion used when a tone seeds the countdown.
- `note_table.dfy` (`NoteTable`): `_midi_word_note_frequencies` and the
  two-range index rule of `playNote`.
- `score_format.dfy` (`ScoreFormat`): the score byte-code as a `Command` sum
  type, its decoder (`Decode`), and a canonical encoder used to state round
  trips. The `TUNE_OP_*` values are defined in `ArduboyPlaytune.h`, which is
  not part of this model. They are an `OpTable` parameter, and every property
  holds for any valid table: each opcode is at least 0x80, has a zero low
  nibble, and differs from the other three.
- `playtune.dfy` (`Playtune`): the state record and `stopNote`, `playNote`,
  `tone`, `toneMutesScore`, `stopScore`, `playing`, `closeChannels`,
  `initChannel`.
- `interpreter.dfy` (`Interpreter`): one pass of the `step` loop (`Exec`),
  `step` itself (`Step`, fuel-bounded) and `playScore`.
- `scheduler.dfy` (`Scheduler`): `TimerCallback` (`Tick`), repeated ticks, and
  the public calls as one transition (`Apply`/`Run`), with the speaker
  invariant over any run.

Each sine generator is a `Voice(on, freq)`. `on` is `playing_chanN`, which is
always set together with a non-zero amplitude. `freq` is the last frequency
written. `speaker` is the `arcada.enableSpeaker` state. The score is the byte
sequence that `score_start` points into: `start` is the offset of
`score_start` and `cursor` is the offset of `score_cursor`. The host
predicate `outputEnabled()` is a boolean parameter of `Tone`.

Behaviour of the library worth knowing:

- On expiry, the tick first silences a tone and then resumes the score. Both
  can happen in the same tick; it is not an either/or (`Scheduler.ToneThenScoreInOneTick`).
- Tone expiry switches both channels off. Channel 0 does not return to the
  score's last note. `tone_playing` is not cleared when the tone expires
  (`Scheduler.ToneExpires`); only `closeChannels` clears it.
- So after the first tone, every later expiry of a score wait still runs the
  tone-silencing branch before `step`: a score note held across a wait is cut
  at the end of that wait (`Scheduler.ToneThenScoreInOneTick`).
- `playScore` after `closeChannels` is not a no-op. Notes are refused, but
  waits, stops and restarts still run, and `tune_playing` ends up true
  (`Interpreter.PlayScoreAfterClose`).
- `playScore` sets `tune_playing` after the first batch. A score that stops at
  once is still reported as playing (`Interpreter.PlayScoreOverridesImmediateStop`).
- `step` has no fallback for an unknown opcode at or above 0x80. It skips
  that one byte and carries on.
- Notes below 48 index the same table as notes 48 and up, at `note`. So notes
  0..47 sound like notes 48..95 (`NoteTable.LowNotesAliasUpperNotes`).
- `mute_score` is written by `tone` and `closeChannels` but never read. No
  muting is modelled.

## Model

| member | source | states |
|---|---|---|
| Types.ToInt32 | src/ArduboyPlaytune_Audio.cpp:244 | storing an `unsigned long` into the `int32_t` countdown keeps the value modulo 2^32; values below 2^31 are unchanged, larger ones become negative |
| NoteTable.TableIndex | src/ArduboyPlaytune_Audio.cpp:108-118 | a note is looked up exactly when it is at most 127; its index is the note itself below 48 and the note minus 48 from 48 on, always inside the 80-entry table |
| NoteTable.Frequency | src/ArduboyPlaytune_Audio.cpp:113-118 | an accepted note's frequency is one of the entries of `_midi_word_note_frequencies` |
| NoteTable.UpperRangeRoundTrip | src/ArduboyPlaytune_Audio.cpp:114-118 | on notes 48..127 the lookup is a bijection onto the table: entry k belongs to note k + 48 and back |
| NoteTable.LowNotesAliasUpperNotes | src/ArduboyPlaytune_Audio.cpp:114-118 | a note below 48 reads the same entry, and so plays the same frequency, as the note 48 above it |
| ScoreFormat.OpcodeOf | src/ArduboyPlaytune_Audio.cpp:191 | the opcode is the command byte with its low nibble cleared |
| ScoreFormat.ChannelOf | src/ArduboyPlaytune_Audio.cpp:192 | the channel is the low nibble, below 16, and opcode plus channel rebuild the command byte |
| ScoreFormat.Decode | src/ArduboyPlaytune_Audio.cpp:189-216 | every decoded command is expressible (channel below 16, wait at most 32767, unknown opcodes at least 0x80), its width is 1 or 2 by kind and fits in the score, and decoding can fail only at the score's last byte or beyond it |
| ScoreFormat.EncodeThenDecode | src/ArduboyPlaytune_Audio.cpp:182-215 | every expressible command decodes back to itself from its bytes, whatever precedes or follows them |
| ScoreFormat.DecodeThenEncode | src/ArduboyPlaytune_Audio.cpp:190-215 | re-encoding a decoded command gives back the consumed bytes (restart and stop drop only the ignored low nibble), and decodes to the same command |
| Playtune.StopNote | src/ArduboyPlaytune_Audio.cpp:139-155 | channel 0 or 1 is switched off, and no other channel flag changes; frequencies and all control state are unchanged; afterwards the speaker is on exactly when a channel is playing |
| Playtune.PlayNote | src/ArduboyPlaytune_Audio.cpp:102-137 | a note on a channel at or above the channel count, or above 127, changes nothing; otherwise channel 0 or 1 sounds the looked-up frequency, the other channel is untouched, and the speaker invariant holds |
| Playtune.Tone | src/ArduboyPlaytune_Audio.cpp:227-250 | with output disabled or fewer than two channels nothing changes; otherwise channel 0 sounds the tone, channel 1 is silenced, the speaker is on, `tone_playing` is set, `mute_score` copies the policy, and the countdown is overwritten with the tone duration; the score cursor and `tune_playing` are untouched |
| Playtune.SetToneMutesScore | src/ArduboyPlaytune_Audio.cpp:252-255 | the policy flag takes the given value and no other field of the state changes |
| Playtune.StopChannelsFrom | src/ArduboyPlaytune_Audio.cpp:168-169 | the loop switches off exactly the channels 0 and 1 that lie in i .. count-1, keeps the frequencies and control state, and re-derives the speaker once it has stopped any channel |
| Playtune.StopScore | src/ArduboyPlaytune_Audio.cpp:166-171 | the score is marked stopped; channel 0 goes off when at least one channel exists, channel 1 when two do; frequencies are kept; with no channels only the flag changes |
| Playtune.CloseChannels | src/ArduboyPlaytune_Audio.cpp:219-225 | both channels and the speaker are off, the channel count is 0, and `tune_playing`, `tone_playing`, `mute_score` are cleared; the countdown and cursor are kept |
| Playtune.InitChannel | src/ArduboyPlaytune_Audio.cpp:92-100 | two channels exist and the speaker is off; no other field of the state changes |
| Playtune.StopScoreIdempotent | src/ArduboyPlaytune_Audio.cpp:166-171 | stopping the score twice is the same as stopping it once |
| Playtune.CloseChannelsIdempotent | src/ArduboyPlaytune_Audio.cpp:219-225 | closing twice is the same as closing once |
| Playtune.ClosedIgnoresNotesAndTones | src/ArduboyPlaytune_Audio.cpp:219-234 | after `closeChannels` every `playNote` and every `tone` leaves the state unchanged |
| Playtune.InitChannelSpeakerInv | src/ArduboyPlaytune_Audio.cpp:92-100 | `initChannel` leaves the speaker consistent with the channels exactly when no channel was playing |
| Playtune.InitChannelEnablesTone | src/ArduboyPlaytune_Audio.cpp:227-234 | from power-on a tone is refused; after `initChannel` an enabled tone is accepted |
| Playtune.ToneCopiesMutePolicy | src/ArduboyPlaytune_Audio.cpp:236-237 | the next accepted tone copies the policy last set by `toneMutesScore` into `mute_score` |
| Playtune.ToneOverwritesCountdown | src/ArduboyPlaytune_Audio.cpp:244 | an accepted tone replaces any pending wait with its duration; a duration of 2^31 or more becomes negative |
| Playtune.ChannelOpsKeepSpeakerInv | src/ArduboyPlaytune_Audio.cpp:132-136 | `stopNote`, `playNote`, `tone`, `toneMutesScore`, `stopScore` and `closeChannels` all preserve "speaker on exactly when a channel plays" |
| Interpreter.Exec | src/ArduboyPlaytune_Audio.cpp:190-215 | one loop pass faults exactly when the command is cut off by the end of the score; a continuing pass keeps `tune_playing`, the countdown and the speaker invariant; an ending pass is a wait or a stop, moves the cursor forward and leaves the channels alone; no pass touches the score, channel count or tone flags |
| Interpreter.Step | src/ArduboyPlaytune_Audio.cpp:185-217 | a batch never touches the score, channel count or tone flags; it ends at a stop (flag cleared, countdown kept) or at a wait (flag kept, countdown in 0..32767); the cursor ends within the score, and past the score's start when it began at or after it; the speaker invariant is kept |
| Interpreter.PlayScore | src/ArduboyPlaytune_Audio.cpp:157-164 | `playScore` succeeds exactly when its first `step` batch from the new score's start does, and a failure is that batch's failure; on success the new score is installed, the cursor is past its start, the score is playing, the countdown is either kept (the batch stopped) or a wait in 0..32767, and the channel count, tone flag, mute policy and `mute_score` are kept |
| Interpreter.ExecCommand | src/ArduboyPlaytune_Audio.cpp:189-216 | stop-note, restart, stop and unknown opcodes consume one byte, play-note and wait two; restart only resets the cursor to the start; a wait sets only the countdown; a stop clears only `tune_playing` |
| Interpreter.StepWait | src/ArduboyPlaytune_Audio.cpp:182-205 | a command byte c below 0x80 followed by b ends the batch with countdown c*256+b, which is at most 32767, cursor advanced by 2, and nothing else changed |
| Interpreter.StepFuelMonotone | src/ArduboyPlaytune_Audio.cpp:189-216 | a batch that completes within some fuel gives the same result with any larger fuel |
| Interpreter.RestartFirstDiverges | src/ArduboyPlaytune_Audio.cpp:207-210 | a score that starts with restart never reaches a wait or a stop |
| Interpreter.NoChannelsStepNeverSounds | src/ArduboyPlaytune_Audio.cpp:104-107 | with no channels initialised a batch can silence channels but never start one |
| Interpreter.PlayScoreIsStep | src/ArduboyPlaytune_Audio.cpp:160-163 | for every state and score, `playScore`'s result is the state left by `step` from the score's start with `tune_playing` then set, or that batch's failure |
| Interpreter.PlayScoreAfterClose | src/ArduboyPlaytune_Audio.cpp:157-164 | after `closeChannels`, `playScore` leaves both channels and the speaker off, yet reports the score as playing |
| Interpreter.PlayScoreRunsLeadingNotes | src/ArduboyPlaytune_Audio.cpp:157-164 | two note-ons and a wait at the head of a score are all executed by `playScore`: both channels sound, the countdown is seeded, and the score is playing |
| Interpreter.PlayScoreOverridesImmediateStop | src/ArduboyPlaytune_Audio.cpp:161-163 | a score whose first command is stop is still reported as playing after `playScore`, with the cursor one past the start |
| Scheduler.SilenceTone | src/ArduboyPlaytune_Audio.cpp:71-76 | tone expiry switches both channels and the speaker off and changes nothing else |
| Scheduler.Expire | src/ArduboyPlaytune_Audio.cpp:70-80 | at zero a tone is silenced and then a playing score resumes; with no score playing the countdown stays at zero; with a score playing the result is exactly `step` run from that state; `tone_playing` is never cleared and `tune_playing` never set |
| Scheduler.Tick | src/ArduboyPlaytune_Audio.cpp:68-81 | a countdown at or below zero changes nothing, above one it only decrements, and from one, with no score playing, the countdown ends at zero; a tick never clears `tone_playing`, never sets `tune_playing`, and keeps the speaker invariant |
| Scheduler.CountdownOnlyCounts | src/ArduboyPlaytune_Audio.cpp:68-70 | during the first n-1 ticks of a countdown of n only the countdown changes |
| Scheduler.WaitExpiresOnNthTick | src/ArduboyPlaytune_Audio.cpp:68-80 | a wait of n resumes the score on exactly the n-th tick |
| Scheduler.IdleCountdownStalls | src/ArduboyPlaytune_Audio.cpp:68 | with the countdown at zero or below, any number of ticks changes nothing |
| Scheduler.ZeroWaitNeverResumes | src/ArduboyPlaytune_Audio.cpp:202-205 | a wait of 0 ms leaves the score suspended for ever |
| Scheduler.LongToneNeverExpires | src/ArduboyPlaytune_Audio.cpp:244 | a tone of 2^31 ms or more is never silenced by the tick |
| Scheduler.ToneExpires | src/ArduboyPlaytune_Audio.cpp:71-76 | a tone's last tick with no score playing silences both channels and the speaker but leaves `tone_playing` set |
| Scheduler.ToneThenScoreInOneTick | src/ArduboyPlaytune_Audio.cpp:71-79 | with `tone_playing` set (it stays set after the tone ends) and a score playing, the expiring tick silences both channels and then resumes the score from the silenced state |
| Scheduler.ToneReplacesScoreWait | src/ArduboyPlaytune_Audio.cpp:244 | a tone started during a score wait decides when the score resumes: after the tone's duration, from the silenced state |
| Scheduler.Apply | src/ArduboyPlaytune_Audio.cpp:102-255 | each of `playScore`, `stopScore`, `playNote`, `stopNote`, `tone`, `toneMutesScore`, `closeChannels` and the tick preserves the speaker invariant (`initChannel` is excluded: see Left out) |
| Scheduler.SpeakerInvAlongRun | src/ArduboyPlaytune_Audio.cpp:132-136 | the speaker invariant holds after any sequence of those eight calls that starts where it holds |
| Scheduler.SetupEstablishesSpeakerInv | src/ArduboyPlaytune_Audio.cpp:92-100 | from power-on followed by one `initChannel`, the speaker invariant holds after any later sequence of those eight calls |
| Scheduler.PlayingReflectsLifecycle | src/ArduboyPlaytune_Audio.cpp:173-176 | models `playing()`: it is true after `playScore`, false after `stopScore` and `closeChannels`, and a tick can clear it but not set it |

## Left out

- Diagnostic output (`Serial.print`): it has no effect on the state.
- `AudioMemory`, `pinMode`/`digitalWrite` and the `arcada.timerCallback` registration in `initChannel`: these are hardware and library calls. `initChannel` is modelled only as "two channels, speaker off".
- The sine generators: amplitude is reduced to the on/off flag. `ARCADA_MAX_VOLUME` and the `float` conversion of the frequency are not modelled. A channel holds the integer table entry, or the tone's `unsigned int` frequency.
- The `TUNE_OP_*` values: `ArduboyPlaytune.h` is not part of this model. The opcodes are a validated parameter.
- Interleaving of the timer interrupt with main-context calls (`volatile`, races): ticks and calls are atomic transitions.
- `all_muted` and the `outputEnabled()` call in `step`: the value is never read, so it has no effect.
- `tone_only`: it is only ever written false. `wait_timer_*`, `second` and `_midi_byte_note_frequencies` are never used.
- Out-of-bounds score reads: the source reads past the end of the buffer (undefined behaviour). The model reports `ReadPastEnd` instead.
- Non-termination of `step`: a score that restarts without ever waiting loops forever. The model gives `step` a fuel bound and reports `OutOfFuel`. `StepFuelMonotone` shows that more fuel never changes a completed result. `RestartFirstDiverges` shows the simplest such loop is reported for every fuel.
- The constructor, which only stores the `outputEnabled` callback: the callback's current value is passed to `Tone` directly.
- NoteTable.Frequency: states only that the result is a table entry. Its exact position is given by `TableIndex`. Bounds or ordering of the table values are not proved.
- Scheduler.Apply: covers `playScore`, `stopScore`, `playNote`, `stopNote`, `tone`, `toneMutesScore`, `closeChannels` and the tick, but not `initChannel`, which is one-time setup. Calling it again while a note sounds turns the speaker off with the channel still playing, so the speaker invariant is not kept (`Playtune.InitChannelSpeakerInv`). The run lemmas therefore start after a single `initChannel`.
