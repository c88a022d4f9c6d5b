/**
 * The score interpreter (`step`) and `playScore`. `step` executes commands
 * from the cursor until a wait or a stop; it is given a fuel bound so that a
 * score that loops through restart without ever waiting is reported rather
 * than left undefined, and a read past the end of the score is reported as
 * well.
 */
module Interpreter {
  import opened Types
  import opened ScoreFormat
  import opened Playtune
  import NoteTable

  /** The result of running the interpreter. */
  datatype Outcome =
    | Ok(st: State)
    | ReadPastEnd   // the score ran out before a wait or stop: undefined behaviour in `step`
    | OutOfFuel     // more commands than the fuel allows without a wait or stop

  /** What `step` never touches. */
  predicate StepFrame(a: State, b: State)
  {
    && a.score == b.score && a.start == b.start && a.numChans == b.numChans
    && a.tonePlaying == b.tonePlaying && a.toneMutesScore == b.toneMutesScore
    && a.muteScore == b.muteScore
  }

  /** How a batch of commands ended: at a wait, or at a stop. */
  predicate EndedAtWaitOrStop(before: State, after: State)
  {
    || (!after.tunePlaying && after.duration == before.duration)
    || (after.tunePlaying == before.tunePlaying && 0 <= after.duration <= MaxWait)
  }

  /** The effect of one pass through the loop of `step`. */
  datatype Action =
    | Continue(st: State)   // keep executing commands
    | Break(st: State)      // a wait or a stop ended the batch
    | Fault                 // the command runs past the end of the score

  /**
   * One pass through the loop of `step`: decode the command at the cursor,
   * advance past it and execute it. Restart moves the cursor back to the
   * score's start and an unknown opcode is skipped.
   */
  function Exec(ops: OpTable, st: State): (a: Action)
    ensures a.Fault? <==> Decode(ops, st.score, st.cursor).None?
    ensures !a.Fault? ==> StepFrame(st, a.st)
    ensures a.Continue? ==> a.st.tunePlaying == st.tunePlaying && a.st.duration == st.duration
    ensures a.Continue? && st.start <= st.cursor ==> st.start <= a.st.cursor
    ensures a.Continue? && SpeakerInv(st) ==> SpeakerInv(a.st)
    ensures a.Break? ==> EndedAtWaitOrStop(st, a.st) && a.st.cursor <= |st.score|
    ensures a.Break? ==> a.st.cursor > st.cursor && a.st.voice0 == st.voice0 && a.st.voice1 == st.voice1
    ensures a.Break? ==> a.st.speaker == st.speaker
  {
    match Decode(ops, st.score, st.cursor)
    case None => Fault
    case Some(d) =>
      var next := st.(cursor := st.cursor + d.width);
      match d.cmd
      case NoteOff(ch) => Continue(StopNote(next, ch))
      case NoteOn(ch, note) => Continue(PlayNote(next, ch, note))
      case Wait(ms) => Break(next.(duration := ms))
      case Restart => Continue(next.(cursor := st.start))
      case Stop => Break(next.(tunePlaying := false))
      case Unknown(_) => Continue(next)
  }

  /**
   * `step`: execute commands from the cursor until a wait (which seeds the
   * countdown) or a stop (which clears `tunePlaying`).
   */
  function Step(ops: OpTable, st: State, fuel: nat): (r: Outcome)
    ensures r.Ok? ==> StepFrame(st, r.st)
    ensures r.Ok? ==> EndedAtWaitOrStop(st, r.st)
    ensures r.Ok? ==> r.st.cursor <= |st.score|
    ensures r.Ok? && st.start <= st.cursor ==> st.start < r.st.cursor
    ensures r.Ok? && SpeakerInv(st) ==> SpeakerInv(r.st)
    decreases fuel
  {
    if fuel == 0 then OutOfFuel
    else match Exec(ops, st)
      case Continue(s) => Step(ops, s, fuel - 1)
      case Break(s) => Ok(s)
      case Fault => ReadPastEnd
  }

  /**
   * `playScore`: point the cursor at the new score, execute its first batch
   * and then mark the score as playing, whether or not that batch stopped.
   */
  function PlayScore(ops: OpTable, st: State, score: seq<byte>, start: nat, fuel: nat): (r: Outcome)
    ensures r.Ok? ==> r.st.tunePlaying && Playing(r.st)
    ensures r.Ok? ==> r.st.score == score && r.st.start == start && start < r.st.cursor <= |score|
    ensures r.Ok? ==> r.st.numChans == st.numChans && r.st.tonePlaying == st.tonePlaying
    ensures r.Ok? && SpeakerInv(st) ==> SpeakerInv(r.st)
    ensures r.Ok? ==> r.st.toneMutesScore == st.toneMutesScore && r.st.muteScore == st.muteScore
    ensures r.Ok? ==> r.st.duration == st.duration || 0 <= r.st.duration <= MaxWait
    ensures r.Ok? <==> Step(ops, st.(score := score, start := start, cursor := start), fuel).Ok?
    ensures !r.Ok? ==> r == Step(ops, st.(score := score, start := start, cursor := start), fuel)
  {
    match Step(ops, st.(score := score, start := start, cursor := start), fuel)
    case Ok(s) => Ok(s.(tunePlaying := true))
    case ReadPastEnd => ReadPastEnd
    case OutOfFuel => OutOfFuel
  }

  /**
   * `playScore`'s result is exactly the first batch `step` runs from the new
   * score's start, with the score then marked as playing.
   */
  lemma PlayScoreIsStep(ops: OpTable, st: State, score: seq<byte>, start: nat, fuel: nat)
    ensures var b := Step(ops, st.(score := score, start := start, cursor := start), fuel);
      PlayScore(ops, st, score, start, fuel) == (if b.Ok? then Ok(b.st.(tunePlaying := true)) else b)
  {
  }

  /**
   * What each command does to the cursor and the state: note-off, restart,
   * stop and an unknown opcode consume one byte, note-on and wait two;
   * restart resumes from the score's start and changes nothing else; a wait
   * ends the batch leaving `tunePlaying` as it was; a stop ends it clearing
   * only `tunePlaying`.
   */
  lemma ExecCommand(ops: OpTable, st: State)
    requires Decode(ops, st.score, st.cursor).Some?
    ensures var cmd := Decode(ops, st.score, st.cursor).value.cmd;
      && (cmd.NoteOff? ==> Exec(ops, st) == Continue(StopNote(st.(cursor := st.cursor + 1), cmd.chan)))
      && (cmd.NoteOn? ==> Exec(ops, st) == Continue(PlayNote(st.(cursor := st.cursor + 2), cmd.chan, cmd.note)))
      && (cmd.Wait? ==> Exec(ops, st) == Break(st.(cursor := st.cursor + 2, duration := cmd.ms)))
      && (cmd.Restart? ==> Exec(ops, st) == Continue(st.(cursor := st.start)))
      && (cmd.Stop? ==> Exec(ops, st) == Break(st.(cursor := st.cursor + 1, tunePlaying := false)))
      && (cmd.Unknown? ==> Exec(ops, st) == Continue(st.(cursor := st.cursor + 1)))
  {
  }

  /**
   * A command byte `c` below 0x80 followed by `b` is a wait of `c * 256 + b`
   * milliseconds, at most 32767; it ends the batch and leaves `tunePlaying`
   * unchanged.
   */
  lemma StepWait(ops: OpTable, st: State, fuel: nat)
    requires ops.Valid() && fuel > 0
    requires st.cursor + 1 < |st.score| && st.score[st.cursor] < 0x80
    ensures var ms := st.score[st.cursor] as int * 256 + st.score[st.cursor + 1];
      && 0 <= ms <= MaxWait
      && Step(ops, st, fuel) == Ok(st.(cursor := st.cursor + 2, duration := ms))
  {
  }

  /** More fuel never changes a result that did not run out of fuel. */
  lemma {:induction false} StepFuelMonotone(ops: OpTable, st: State, f: nat, g: nat)
    requires f <= g
    requires Step(ops, st, f) != OutOfFuel
    ensures Step(ops, st, g) == Step(ops, st, f)
    decreases f
  {
    assert f > 0;
    if Exec(ops, st).Continue? {
      StepFuelMonotone(ops, Exec(ops, st).st, f - 1, g - 1);
    }
  }

  /**
   * A score whose first command is restart never reaches a wait or a stop:
   * `step` loops for ever, whatever fuel it is given.
   */
  lemma {:induction false} RestartFirstDiverges(ops: OpTable, st: State, fuel: nat)
    requires ops.Valid()
    requires st.cursor == st.start < |st.score|
    requires OpcodeOf(st.score[st.start]) == ops.restart
    ensures Step(ops, st, fuel) == OutOfFuel
    decreases fuel
  {
    if fuel > 0 {
      assert Decode(ops, st.score, st.cursor) == Some(Decoded(Restart, 1));
      assert Exec(ops, st) == Continue(st);
      RestartFirstDiverges(ops, st, fuel - 1);
    }
  }

  /** With no channels initialised, `step` can silence a channel but never start one. */
  lemma {:induction false} NoChannelsStepNeverSounds(ops: OpTable, st: State, fuel: nat)
    requires st.numChans == 0
    ensures Step(ops, st, fuel).Ok? ==>
      (Step(ops, st, fuel).st.voice0.on ==> st.voice0.on) && (Step(ops, st, fuel).st.voice1.on ==> st.voice1.on)
    decreases fuel
  {
    if fuel > 0 && Exec(ops, st).Continue? {
      var s := Exec(ops, st).st;
      assert (s.voice0.on ==> st.voice0.on) && (s.voice1.on ==> st.voice1.on) by {
        ExecCommand(ops, st);
      }
      NoChannelsStepNeverSounds(ops, s, fuel - 1);
    }
  }

  /**
   * After `closeChannels`, `playScore` produces no sound, but it still marks
   * the score as playing.
   */
  lemma PlayScoreAfterClose(ops: OpTable, st: State, score: seq<byte>, start: nat, fuel: nat)
    ensures var r := PlayScore(ops, CloseChannels(st), score, start, fuel);
      r.Ok? ==> !r.st.voice0.on && !r.st.voice1.on && !r.st.speaker && r.st.tunePlaying
  {
    var c := CloseChannels(st);
    NoChannelsStepNeverSounds(ops, c.(score := score, start := start, cursor := start), fuel);
  }

  /**
   * `playScore` executes the leading zero-time commands at once: two note-ons
   * followed by a wait leave both channels sounding, the countdown seeded and
   * the score playing before any tick.
   */
  lemma PlayScoreRunsLeadingNotes(ops: OpTable, st: State, n0: byte, n1: byte, hi: byte, lo: byte, fuel: nat)
    requires ops.Valid() && st.numChans == 2
    requires n0 <= NoteTable.MaxNote && n1 <= NoteTable.MaxNote && hi < 0x80
    requires fuel >= 3
    ensures var score := [ops.playNote, n0, ops.playNote + 1, n1, hi, lo];
      var r := PlayScore(ops, st, score, 0, fuel);
      && r.Ok?
      && r.st.voice0 == Voice(true, NoteTable.Frequency(n0))
      && r.st.voice1 == Voice(true, NoteTable.Frequency(n1))
      && r.st.speaker && r.st.tunePlaying
      && r.st.duration == hi as int * 256 + lo
      && r.st.cursor == 6
  {
    var score := [ops.playNote, n0, ops.playNote + 1, n1, hi, lo];
    var s0 := st.(score := score, start := 0, cursor := 0);
    assert OpcodeOf(ops.playNote + 1) == ops.playNote;
    assert Decode(ops, score, 0) == Some(Decoded(NoteOn(0, n0), 2));
    var s1 := PlayNote(s0.(cursor := 2), 0, n0);
    assert Exec(ops, s0) == Continue(s1);
    assert Decode(ops, score, 2) == Some(Decoded(NoteOn(1, n1), 2));
    var s2 := PlayNote(s1.(cursor := 4), 1, n1);
    assert Exec(ops, s1) == Continue(s2);
    assert Step(ops, s0, fuel) == Step(ops, s2, fuel - 2);
    StepWait(ops, s2, fuel - 2);
  }

  /**
   * A score that stops at once is still reported as playing after
   * `playScore`: the flag is set after the first batch, overriding its stop.
   */
  lemma PlayScoreOverridesImmediateStop(ops: OpTable, st: State, score: seq<byte>, start: nat, fuel: nat)
    requires ops.Valid() && fuel > 0
    requires start < |score| && OpcodeOf(score[start]) == ops.stop
    ensures PlayScore(ops, st, score, start, fuel)
         == Ok(st.(score := score, start := start, cursor := start + 1, tunePlaying := true))
  {
  }
}
