/**
 * The timer tick (`TimerCallback`): one tick per millisecond counts the
 * shared `duration` down; when it reaches zero an active tone is silenced
 * and then, if the score is playing, the interpreter runs its next batch.
 * Also the public calls as one transition, and the invariant they keep.
 */
module Scheduler {
  import opened Types
  import opened ScoreFormat
  import opened Playtune
  import opened Interpreter

  /** The silencing at the end of a tone: both generators off, speaker off. */
  function SilenceTone(st: State): (r: State)
    ensures !r.voice0.on && !r.voice1.on && !r.speaker && SpeakerInv(r)
    ensures r.voice0.freq == st.voice0.freq && r.voice1.freq == st.voice1.freq
    ensures SameControl(r, st)
  {
    st.(voice0 := st.voice0.(on := false), voice1 := st.voice1.(on := false), speaker := false)
  }

  /**
   * The countdown has just reached zero: a tone (if `tonePlaying`) is
   * silenced first, and then the score (if playing) is resumed; both may
   * happen in the same tick. `tonePlaying` itself is never cleared here.
   */
  function Expire(ops: OpTable, st: State, fuel: nat): (r: Outcome)
    ensures r.Ok? ==> r.st.tonePlaying == st.tonePlaying && r.st.numChans == st.numChans
    ensures r.Ok? && r.st.tunePlaying ==> st.tunePlaying
    ensures !st.tunePlaying ==> r.Ok? && r.st.duration == st.duration
    ensures !st.tunePlaying && st.tonePlaying ==> r == Ok(SilenceTone(st))
    ensures !st.tunePlaying && !st.tonePlaying ==> r == Ok(st)
    ensures r.Ok? && (st.tonePlaying || SpeakerInv(st)) ==> SpeakerInv(r.st)
    ensures st.tunePlaying ==> r == Step(ops, if st.tonePlaying then SilenceTone(st) else st, fuel)
  {
    var s := if st.tonePlaying then SilenceTone(st) else st;
    if s.tunePlaying then Step(ops, s, fuel) else Ok(s)
  }

  /** `TimerCallback`: one tick of the shared countdown. */
  function Tick(ops: OpTable, st: State, fuel: nat): (r: Outcome)
    ensures st.duration <= 0 ==> r == Ok(st)
    ensures st.duration > 1 ==> r == Ok(st.(duration := st.duration - 1))
    ensures st.duration == 1 && !st.tunePlaying ==> r.Ok? && r.st.duration == 0
    ensures r.Ok? ==> r.st.tonePlaying == st.tonePlaying && r.st.numChans == st.numChans
    ensures r.Ok? && r.st.tunePlaying ==> st.tunePlaying
    ensures r.Ok? && SpeakerInv(st) ==> SpeakerInv(r.st)
  {
    if st.duration > 0 then
      var s := st.(duration := st.duration - 1);
      if s.duration == 0 then Expire(ops, s, fuel) else Ok(s)
    else Ok(st)
  }

  /** `k` ticks in a row, stopping at the first fault. */
  function Ticks(ops: OpTable, st: State, k: nat, fuel: nat): Outcome
    decreases k
  {
    if k == 0 then Ok(st)
    else match Ticks(ops, st, k - 1, fuel)
      case Ok(s) => Tick(ops, s, fuel)
      case ReadPastEnd => ReadPastEnd
      case OutOfFuel => OutOfFuel
  }

  /**
   * A countdown of n only counts during its first n - 1 ticks: nothing but
   * `duration` changes, so the interpreter does not run.
   */
  lemma {:induction false} CountdownOnlyCounts(ops: OpTable, st: State, k: nat, fuel: nat)
    requires 0 <= k < st.duration
    ensures Ticks(ops, st, k, fuel) == Ok(st.(duration := st.duration - k))
    decreases k
  {
    if k > 0 {
      CountdownOnlyCounts(ops, st, k - 1, fuel);
    }
  }

  /**
   * A wait of n milliseconds resumes the score on exactly the n-th tick:
   * the n-th tick is the one that finds the countdown at 1.
   */
  lemma WaitExpiresOnNthTick(ops: OpTable, st: State, fuel: nat)
    requires st.duration > 0
    ensures Ticks(ops, st, st.duration - 1, fuel) == Ok(st.(duration := 1))
    ensures Ticks(ops, st, st.duration, fuel) == Expire(ops, st.(duration := 0), fuel)
    ensures st.tunePlaying && !st.tonePlaying ==>
      Ticks(ops, st, st.duration, fuel) == Step(ops, st.(duration := 0), fuel)
  {
    var one := st.(duration := 1);
    CountdownOnlyCounts(ops, st, st.duration - 1, fuel);
    assert Ticks(ops, st, st.duration, fuel) == Tick(ops, one, fuel);
    assert one.(duration := one.duration - 1) == st.(duration := 0);
  }

  /** A countdown at zero or below never moves: no tick changes anything. */
  lemma {:induction false} IdleCountdownStalls(ops: OpTable, st: State, k: nat, fuel: nat)
    requires st.duration <= 0
    ensures Ticks(ops, st, k, fuel) == Ok(st)
    decreases k
  {
    if k > 0 {
      IdleCountdownStalls(ops, st, k - 1, fuel);
    }
  }

  /** A wait of zero never resumes the score: it stays at the same cursor for ever. */
  lemma ZeroWaitNeverResumes(ops: OpTable, st: State, fuel: nat, k: nat)
    requires ops.Valid() && fuel > 0
    requires st.cursor + 1 < |st.score| && st.score[st.cursor] == 0 && st.score[st.cursor + 1] == 0
    ensures Step(ops, st, fuel).Ok?
    ensures Ticks(ops, Step(ops, st, fuel).st, k, fuel) == Step(ops, st, fuel)
  {
    StepWait(ops, st, fuel);
    IdleCountdownStalls(ops, Step(ops, st, fuel).st, k, fuel);
  }

  /**
   * A tone of 2^31 ms or more is stored as a negative `int32_t`, so it is
   * never silenced by the tick.
   */
  lemma LongToneNeverExpires(ops: OpTable, st: State, f: uint32, d: uint32, k: nat, fuel: nat)
    requires st.numChans >= 2 && d >= 0x8000_0000
    ensures var t := Tone(st, true, f, d);
      t.voice0.on && Ticks(ops, t, k, fuel) == Ok(t)
  {
    IdleCountdownStalls(ops, Tone(st, true, f, d), k, fuel);
  }

  /**
   * When a tone's countdown runs out with no score playing, both channels
   * go silent and the speaker is disabled, but `tonePlaying` stays set.
   */
  lemma ToneExpires(ops: OpTable, st: State, fuel: nat)
    requires st.tonePlaying && !st.tunePlaying && st.duration == 1
    ensures Tick(ops, st, fuel) == Ok(SilenceTone(st.(duration := 0)))
    ensures Tick(ops, st, fuel).st.tonePlaying
    ensures !Tick(ops, st, fuel).st.voice0.on && !Tick(ops, st, fuel).st.voice1.on
  {
  }

  /**
   * With both a tone and a score active, the expiring tick silences the tone
   * and then resumes the score from the silenced state, in that order.
   */
  lemma ToneThenScoreInOneTick(ops: OpTable, st: State, fuel: nat)
    requires st.tonePlaying && st.tunePlaying && st.duration == 1
    ensures Tick(ops, st, fuel) == Step(ops, SilenceTone(st.(duration := 0)), fuel)
  {
  }

  /**
   * A tone started during a score wait takes over the countdown: the score
   * next resumes when the tone's own duration has elapsed.
   */
  lemma ToneReplacesScoreWait(ops: OpTable, st: State, f: uint32, d: uint32, fuel: nat)
    requires st.numChans >= 2 && st.tunePlaying && 0 < d < 0x8000_0000
    ensures var t := Tone(st, true, f, d);
      && Ticks(ops, t, d - 1, fuel) == Ok(t.(duration := 1))
      && Ticks(ops, t, d, fuel) == Step(ops, SilenceTone(t.(duration := 0)), fuel)
  {
    var t := Tone(st, true, f, d);
    WaitExpiresOnNthTick(ops, t, fuel);
  }

  /**
   * The entry points used after setup, and the timer tick: `playScore`,
   * `stopScore`, `playNote`, `stopNote`, `tone`, `toneMutesScore`,
   * `closeChannels` and the tick. `initChannel` is the one-time setup call
   * and is not among them:
   * run again while a note sounds, it disables the speaker with a channel
   * still playing (`InitChannelSpeakerInv`).
   */
  datatype Call =
    | PlayScoreCall(score: seq<byte>, start: nat)
    | StopScoreCall
    | PlayNoteCall(chan: byte, note: byte)
    | StopNoteCall(chan: byte)
    | ToneCall(enabled: bool, frequency: uint32, toneDuration: uint32)
    | ToneMutesScoreCall(mute: bool)
    | CloseChannelsCall
    | TickCall

  /** One call applied to the state. */
  function Apply(ops: OpTable, st: State, call: Call, fuel: nat): (r: Outcome)
    ensures r.Ok? && SpeakerInv(st) ==> SpeakerInv(r.st)
  {
    match call
    case PlayScoreCall(score, start) => PlayScore(ops, st, score, start, fuel)
    case StopScoreCall => Ok(StopScore(st))
    case PlayNoteCall(chan, note) => Ok(PlayNote(st, chan, note))
    case StopNoteCall(chan) => Ok(StopNote(st, chan))
    case ToneCall(enabled, f, d) => Ok(Tone(st, enabled, f, d))
    case ToneMutesScoreCall(mute) => Ok(SetToneMutesScore(st, mute))
    case CloseChannelsCall => Ok(CloseChannels(st))
    case TickCall => Tick(ops, st, fuel)
  }

  /** A sequence of calls, stopping at the first fault. */
  function Run(ops: OpTable, st: State, calls: seq<Call>, fuel: nat): Outcome
    decreases |calls|
  {
    if calls == [] then Ok(st)
    else match Apply(ops, st, calls[0], fuel)
      case Ok(s) => Run(ops, s, calls[1..], fuel)
      case ReadPastEnd => ReadPastEnd
      case OutOfFuel => OutOfFuel
  }

  /**
   * Any sequence of `Call`s (every entry point except `initChannel`,
   * plus ticks) keeps the speaker enabled exactly when a channel is playing.
   */
  lemma {:induction false} SpeakerInvAlongRun(ops: OpTable, st: State, calls: seq<Call>, fuel: nat)
    requires SpeakerInv(st)
    ensures Run(ops, st, calls, fuel).Ok? ==> SpeakerInv(Run(ops, st, calls, fuel).st)
    decreases |calls|
  {
    if calls != [] && Apply(ops, st, calls[0], fuel).Ok? {
      SpeakerInvAlongRun(ops, Apply(ops, st, calls[0], fuel).st, calls[1..], fuel);
    }
  }

  /** Setup establishes the speaker invariant from the power-on state. */
  lemma SetupEstablishesSpeakerInv(pin: byte, calls: seq<Call>, ops: OpTable, fuel: nat)
    ensures var r := Run(ops, InitChannel(Initial, pin), calls, fuel);
      r.Ok? ==> SpeakerInv(r.st)
  {
    SpeakerInvAlongRun(ops, InitChannel(Initial, pin), calls, fuel);
  }

  /**
   * `playing` is true after `playScore` and false after `stopScore` and
   * `closeChannels`; a tick can clear it (at a stop) but never set it.
   */
  lemma PlayingReflectsLifecycle(ops: OpTable, st: State, score: seq<byte>, start: nat, fuel: nat)
    ensures PlayScore(ops, st, score, start, fuel).Ok? ==> Playing(PlayScore(ops, st, score, start, fuel).st)
    ensures !Playing(StopScore(st)) && !Playing(CloseChannels(st))
    ensures Tick(ops, st, fuel).Ok? && Playing(Tick(ops, st, fuel).st) ==> Playing(st)
  {
  }
}
