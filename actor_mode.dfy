/** The global Scatter/Chase timetable and the Frightened overlay
    (src/actor/mode.rs). */
module ActorMode {
  import opened Wrappers
  import opened Timers

  datatype Mode = Scatter | Chase

  datatype FrightenedMode = Disabled | Enabled

  datatype Duration = Finite(ms: nat) | Infinite

  /** The phase table; the last entry never ends. */
  const MODE_TABLE: seq<(Mode, Duration)> := [
    (Scatter, Finite(7000)),
    (Chase, Finite(20000)),
    (Scatter, Finite(7000)),
    (Chase, Finite(20000)),
    (Scatter, Finite(5000)),
    (Chase, Finite(20000)),
    (Scatter, Finite(5000)),
    (Chase, Infinite)
  ]

  const LAST: nat := |MODE_TABLE| - 1

  const FRIGHTENED_MS: nat := 6000

  /** Eight entries alternating Scatter and Chase, starting with Scatter; only the last is infinite. */
  lemma ModeTableShape()
    ensures |MODE_TABLE| == 8 && LAST == 7
    ensures forall i | 0 <= i < |MODE_TABLE| :: MODE_TABLE[i].0 == (if i % 2 == 0 then Scatter else Chase)
    ensures forall i | 0 <= i < |MODE_TABLE| :: MODE_TABLE[i].1.Infinite? <==> i == LAST
    ensures forall i | 0 <= i < LAST :: MODE_TABLE[i].1.ms > 0
  {
  }

  /** The four resources: Mode, FrightenedMode, ModeTimer (index and timer) and FrightenedTimer. */
  datatype ModeState = ModeState(
    mode: Mode,
    frightened: FrightenedMode,
    index: nat,
    modeTimer: Timer,
    frightenedTimer: Timer)
  {
    /** `tick_mode` as the source has it; None is the panic of indexing past
        the end of MODE_TABLE. */
    function TickModeAsWritten(delta: nat): (r: Option<ModeState>)
      ensures r.None? <==> Tick(modeTimer, delta).finished && index + 1 >= |MODE_TABLE|
    {
      var t := Tick(modeTimer, delta);
      if !t.finished then
        Some(this.(modeTimer := t))
      else if index + 1 >= |MODE_TABLE| then
        None
      else
        var (newMode, newDuration) := MODE_TABLE[index + 1];
        Some(this.(
          index := index + 1,
          mode := newMode,
          modeTimer := if newDuration.Finite? then SetDuration(t, newDuration.ms) else Pause(Reset(t))))
    }

    /** `tick_mode` with the last entry kept permanent: a finish there only
        resets and pauses the timer again. Everywhere else it is the source's. */
    function TickMode(delta: nat): (r: ModeState)
      ensures index + 1 < |MODE_TABLE| ==> Some(r) == TickModeAsWritten(delta)
      ensures index >= LAST ==> r.index == index && r.mode == mode
    {
      var t := Tick(modeTimer, delta);
      if !t.finished then
        this.(modeTimer := t)
      else if index + 1 >= |MODE_TABLE| then
        this.(modeTimer := Pause(Reset(t)))
      else
        var (newMode, newDuration) := MODE_TABLE[index + 1];
        this.(
          index := index + 1,
          mode := newMode,
          modeTimer := if newDuration.Finite? then SetDuration(t, newDuration.ms) else Pause(Reset(t)))
    }

    /** `start_frightened_timer`: on a change to Enabled, freeze the mode timer
        and restart the frightened timer from zero. */
    function StartFrightenedTimer(changed: bool): (r: ModeState)
      ensures r.mode == mode && r.index == index && r.frightened == frightened
      ensures changed && frightened == Enabled ==>
                r.modeTimer == Pause(modeTimer) &&
                r.frightenedTimer == Unpause(Reset(frightenedTimer))
      ensures !(changed && frightened == Enabled) ==> r == this
    {
      if changed && frightened == Enabled then
        this.(modeTimer := Pause(modeTimer), frightenedTimer := Unpause(Reset(frightenedTimer)))
      else
        this
    }

    /** `tick_frightened`; the boolean says whether FrightenedMode was written. */
    function TickFrightened(delta: nat): (r: (ModeState, bool))
      ensures r.0.mode == mode && r.0.index == index
      ensures r.1 <==> Tick(frightenedTimer, delta).finished
      ensures r.1 ==> r.0.frightened == Disabled && r.0.modeTimer == Unpause(modeTimer)
                      && r.0.frightenedTimer == Pause(Tick(frightenedTimer, delta))
      ensures !r.1 ==> r.0 == this.(frightenedTimer := Tick(frightenedTimer, delta))
    {
      var ft := Tick(frightenedTimer, delta);
      if ft.finished then
        (this.(modeTimer := Unpause(modeTimer), frightenedTimer := Pause(ft), frightened := Disabled), true)
      else
        (this.(frightenedTimer := ft), false)
    }

    /** One frame of the mode systems in their scheduled order: tick_mode,
        tick_frightened, eat_energizer (src/food.rs, here as "an energizer was
        eaten"), start_frightened_timer. */
    function Frame(delta: nat, energizerEaten: bool): ModeState
    {
      var s1 := TickMode(delta);
      var (s2, written) := s1.TickFrightened(delta);
      var s3 := if energizerEaten then s2.(frightened := Enabled) else s2;
      s3.StartFrightenedTimer(written || energizerEaten)
    }

    /** The same frame with tick_mode as written; None once it panics. */
    function FrameAsWritten(delta: nat, energizerEaten: bool): Option<ModeState>
    {
      match TickModeAsWritten(delta)
      case None => None
      case Some(s1) =>
        var (s2, written) := s1.TickFrightened(delta);
        var s3 := if energizerEaten then s2.(frightened := Enabled) else s2;
        Some(s3.StartFrightenedTimer(written || energizerEaten))
    }
  }

  /** The resources' initial values. */
  function InitialState(): (s: ModeState)
    ensures s.mode == MODE_TABLE[0].0 == Scatter && s.index == 0
    ensures s.modeTimer == NewTimer(7000, Repeating)
    ensures s.frightened == Disabled
    ensures s.frightenedTimer == Pause(NewTimer(FRIGHTENED_MS, Once))
  {
    ModeState(MODE_TABLE[0].0, Disabled, 0,
              NewTimer(MODE_TABLE[0].1.ms, Repeating),
              Pause(NewTimer(FRIGHTENED_MS, Once)))
  }

  /** What every reachable state satisfies: the index is in the table, the
      mode is the entry's, the mode timer is repeating with the entry's
      duration while that is finite, and the frightened timer is a 6 s one-shot. */
  ghost predicate Inv(s: ModeState)
  {
    && s.index < |MODE_TABLE|
    && s.mode == MODE_TABLE[s.index].0
    && s.modeTimer.mode == Repeating && s.modeTimer.duration > 0
    && (s.index < LAST ==> s.modeTimer.duration == MODE_TABLE[s.index].1.ms)
    && (s.index == LAST ==> s.modeTimer.elapsed < s.modeTimer.duration)
    && s.frightenedTimer.mode == Once && s.frightenedTimer.duration == FRIGHTENED_MS
  }

  lemma InitialSatisfiesInv()
    ensures Inv(InitialState())
  {
  }

  /** A finish of the mode timer below the last entry moves to the next entry;
      otherwise index and mode stay. */
  lemma TickModeAdvances(s: ModeState, delta: nat)
    requires Inv(s)
    ensures var r := s.TickMode(delta);
            if Tick(s.modeTimer, delta).finished && s.index < LAST
            then r.index == s.index + 1 && r.mode == MODE_TABLE[r.index].0 &&
                 (MODE_TABLE[r.index].1.Finite? ==> r.modeTimer.duration == MODE_TABLE[r.index].1.ms && !r.modeTimer.paused) &&
                 (MODE_TABLE[r.index].1.Infinite? ==> r.modeTimer.paused && r.modeTimer.elapsed == 0)
            else r.index == s.index && r.mode == s.mode
  {
  }

  lemma {:induction false} FramePreservesInv(s: ModeState, delta: nat, energizerEaten: bool)
    requires Inv(s)
    ensures Inv(s.Frame(delta, energizerEaten))
  {
    var s1 := s.TickMode(delta);
    var t := Tick(s.modeTimer, delta);
    if t.finished && s.index < LAST {
      var next := MODE_TABLE[s.index + 1].1;
      if next.Infinite? {
        assert s.index + 1 == LAST;
        assert s1.modeTimer.elapsed == 0 < s1.modeTimer.duration;
      }
    } else if !t.finished && s.index == LAST {
      assert s1.modeTimer.elapsed < s1.modeTimer.duration;
    }
    assert Inv(s1);
  }

  /** Once the last entry is reached the mode is Chase for good. */
  lemma LastEntryIsPermanent(s: ModeState, delta: nat, energizerEaten: bool)
    requires Inv(s) && s.index == LAST
    ensures var r := s.Frame(delta, energizerEaten);
            r.index == LAST && r.mode == Chase && Inv(r)
  {
    FramePreservesInv(s, delta, energizerEaten);
  }

  /** Neither frightened system touches the mode or the index. */
  lemma FrightenedNeverChangesMode(s: ModeState, delta: nat, changed: bool)
    ensures s.StartFrightenedTimer(changed).mode == s.mode
    ensures s.StartFrightenedTimer(changed).index == s.index
    ensures s.TickFrightened(delta).0.mode == s.mode
    ensures s.TickFrightened(delta).0.index == s.index
  {
  }

  /** A (re)trigger always restarts the full 6 s, whatever was left of it. */
  lemma RetriggerRestartsFrightened(s: ModeState)
    requires Inv(s) && s.frightened == Enabled
    ensures var r := s.StartFrightenedTimer(true);
            r.frightenedTimer.elapsed == 0 && !r.frightenedTimer.paused && !r.frightenedTimer.finished &&
            r.frightenedTimer.duration == FRIGHTENED_MS
  {
  }

  /** The frame in which an energizer is eaten leaves the mode timer paused,
      frozen at the time it had reached, and the frightened timer running from zero. */
  lemma EnergizerFreezesModeTimer(s: ModeState, delta: nat)
    requires Inv(s) && !s.modeTimer.paused && s.modeTimer.elapsed + delta < s.modeTimer.duration
    ensures var r := s.Frame(delta, true);
            r.frightened == Enabled && r.index == s.index && r.mode == s.mode &&
            r.modeTimer.paused && r.modeTimer.elapsed == s.modeTimer.elapsed + delta &&
            r.modeTimer.duration == s.modeTimer.duration &&
            r.frightenedTimer.elapsed == 0 && !r.frightenedTimer.paused && !r.frightenedTimer.finished
  {
  }

  /** While frightened and before the 6 s are up, a frame advances only the
      frightened timer; the frozen mode timer keeps its elapsed time. */
  lemma FrightenedFrameHoldsModeTimer(s: ModeState, delta: nat)
    requires Inv(s) && s.modeTimer.paused && s.frightened == Enabled
    requires !s.frightenedTimer.paused && !s.frightenedTimer.finished
    requires s.frightenedTimer.elapsed + delta < FRIGHTENED_MS
    ensures s.Frame(delta, false) ==
            s.(modeTimer := s.modeTimer.(finished := false),
               frightenedTimer := s.frightenedTimer.(elapsed := s.frightenedTimer.elapsed + delta))
  {
  }

  /** When the 6 s are up, the mode timer resumes exactly where it was frozen. */
  lemma FrightenedExpiryResumes(s: ModeState, delta: nat)
    requires Inv(s) && s.modeTimer.paused && s.frightened == Enabled
    requires !s.frightenedTimer.paused && !s.frightenedTimer.finished
    requires s.frightenedTimer.elapsed + delta >= FRIGHTENED_MS
    ensures var r := s.Frame(delta, false);
            r.frightened == Disabled && r.index == s.index && r.mode == s.mode &&
            r.modeTimer == Unpause(s.modeTimer).(finished := false) && r.frightenedTimer.paused
  {
  }

  /** Runs frames (delta, energizer eaten) with tick_mode as written. */
  function RunAsWritten(s: ModeState, frames: seq<(nat, bool)>): Option<ModeState>
    decreases |frames|
  {
    if frames == [] then Some(s)
    else match s.FrameAsWritten(frames[0].0, frames[0].1)
      case None => None
      case Some(s') => RunAsWritten(s', frames[1..])
  }

  /** The first seven phases played through without energizers: 84 s in all. */
  const REACH: seq<(nat, bool)> :=
    [(7000, false), (20000, false), (7000, false), (20000, false), (5000, false), (20000, false), (5000, false)]

  /** Duration of a finite entry. */
  function EntryMs(i: nat): nat
    requires i < |MODE_TABLE|
  {
    match MODE_TABLE[i].1
    case Finite(ms) => ms
    case Infinite => 0
  }

  /** The resources when phase `i` begins and no energizer has been eaten;
      after the first phase the repeating timer still reports the finish
      that ended the previous one. */
  function PhaseStart(i: nat): ModeState
    requires i < LAST
  {
    ModeState(MODE_TABLE[i].0, Disabled, i, Timer(EntryMs(i), 0, Repeating, false, i > 0),
              Pause(NewTimer(FRIGHTENED_MS, Once)))
  }

  /** The resources on reaching the last entry: its timer reset and paused,
      still with the 5 s duration of entry 6. */
  const LAST_REACHED: ModeState :=
    ModeState(Chase, Disabled, LAST, Timer(5000, 0, Repeating, true, false), Pause(NewTimer(FRIGHTENED_MS, Once)))

  /** A phase played to its end, without an energizer, begins the next one. */
  lemma FinishPhase(i: nat)
    requires i < LAST
    ensures REACH[i] == (EntryMs(i), false)
    ensures PhaseStart(i).FrameAsWritten(EntryMs(i), false) ==
            Some(if i + 1 < LAST then PhaseStart(i + 1) else LAST_REACHED)
  {
    ModeTableShape();
  }

  lemma {:induction false} RunFromPhase(i: nat)
    requires i < LAST
    ensures RunAsWritten(PhaseStart(i), REACH[i..]) == Some(LAST_REACHED)
    decreases LAST - i
  {
    FinishPhase(i);
    assert REACH[i..][0] == REACH[i];
    assert REACH[i..][1..] == REACH[i + 1..];
    if i + 1 < LAST {
      RunFromPhase(i + 1);
    } else {
      assert REACH[i + 1..] == [];
    }
  }

  /** Playing REACH from the start arrives at the last entry with its timer
      reset and paused, but still holding the 5 s duration of entry 6. */
  lemma ReachLastEntry()
    ensures var s7 := RunAsWritten(InitialState(), REACH);
            && s7.Some? && s7.value.index == LAST && s7.value.mode == Chase
            && s7.value.modeTimer.paused && s7.value.modeTimer.elapsed == 0
            && s7.value.modeTimer.mode == Repeating && s7.value.modeTimer.duration == 5000
            && s7.value.frightenedTimer.mode == Once && s7.value.frightenedTimer.duration == FRIGHTENED_MS
  {
    assert InitialState() == PhaseStart(0);
    RunFromPhase(0);
    assert REACH[0..] == REACH;
  }

  /** At the last entry with a paused, reset mode timer of duration `d`:
      eat an energizer, let the 6 s run out, and `d` milliseconds later the
      resumed timer finishes and MODE_TABLE[8] is read. */
  lemma FrightenedEpisodeAtLastEntryPanics(s: ModeState)
    requires s.index == LAST && s.modeTimer.paused && s.modeTimer.elapsed == 0
    requires s.modeTimer.mode == Repeating
    requires s.frightenedTimer.mode == Once && s.frightenedTimer.duration == FRIGHTENED_MS
    ensures RunAsWritten(s, [(0, true), (FRIGHTENED_MS, false), (s.modeTimer.duration, false)]).None?
  {
    var tail := [(0, true), (FRIGHTENED_MS, false), (s.modeTimer.duration, false)];
    var f1 := s.Frame(0, true);
    assert f1.frightened == Enabled && f1.modeTimer.paused && !f1.frightenedTimer.paused;
    assert f1.frightenedTimer.elapsed == 0 && !f1.frightenedTimer.finished;
    var f2 := f1.Frame(FRIGHTENED_MS, false);
    assert !f2.modeTimer.paused && f2.modeTimer.elapsed == 0 && f2.index == LAST;
    assert f2.TickModeAsWritten(s.modeTimer.duration).None?;
    assert RunAsWritten(f2, tail[2..]).None?;
    assert RunAsWritten(f1, tail[1..]).None?;
  }

  /** Counterexample to "the last entry is permanent" in the code as written:
      play through the timetable without energizers, eat an energizer, let
      the 6 s run out, and 5 s later the game indexes past the table. */
  lemma PermanentChaseEndsInPanic()
    ensures var s7 := RunAsWritten(InitialState(), REACH);
            s7.Some? && s7.value.index == LAST && s7.value.mode == Chase &&
            RunAsWritten(s7.value, [(0, true), (6000, false), (5000, false)]).None?
  {
    ReachLastEntry();
    FrightenedEpisodeAtLastEntryPanics(RunAsWritten(InitialState(), REACH).value);
  }

  /** `ModeTimer`, `Mode`, `FrightenedMode` and `FrightenedTimer` as the
      resources the systems update in place. */
  class ModeController {
    var mode: Mode
    var frightened: FrightenedMode
    var index: nat
    var modeTimer: Timer
    var frightenedTimer: Timer

    function State(): ModeState
      reads this
    {
      ModeState(mode, frightened, index, modeTimer, frightenedTimer)
    }

    constructor ()
      ensures State() == InitialState()
    {
      mode := MODE_TABLE[0].0;
      frightened := Disabled;
      index := 0;
      modeTimer := NewTimer(MODE_TABLE[0].1.ms, Repeating);
      frightenedTimer := Pause(NewTimer(FRIGHTENED_MS, Once));
    }

    method TickMode(delta: nat)
      modifies this
      ensures State() == old(State()).TickMode(delta)
    {
      modeTimer := Tick(modeTimer, delta);
      if !modeTimer.finished {
        return;
      }
      if index + 1 >= |MODE_TABLE| {
        modeTimer := Pause(Reset(modeTimer));
        return;
      }
      index := index + 1;
      var (newMode, newDuration) := MODE_TABLE[index];
      mode := newMode;
      if newDuration.Finite? {
        modeTimer := SetDuration(modeTimer, newDuration.ms);
      } else {
        modeTimer := Reset(modeTimer);
        modeTimer := Pause(modeTimer);
      }
    }

    method StartFrightenedTimer(changed: bool)
      modifies this
      ensures State() == old(State()).StartFrightenedTimer(changed)
    {
      if changed && frightened == Enabled {
        modeTimer := Pause(modeTimer);
        frightenedTimer := Reset(frightenedTimer);
        frightenedTimer := Unpause(frightenedTimer);
      }
    }

    /** Returns whether FrightenedMode was written (its change flag). */
    method TickFrightened(delta: nat) returns (written: bool)
      modifies this
      ensures (State(), written) == old(State()).TickFrightened(delta)
    {
      frightenedTimer := Tick(frightenedTimer, delta);
      written := frightenedTimer.finished;
      if written {
        modeTimer := Unpause(modeTimer);
        frightenedTimer := Pause(frightenedTimer);
        frightened := Disabled;
      }
    }
  }
}
