/** The Scatter/Chase timetable of the earlier snapshot (src/mode.rs): a
    single Mode resource that also has a Frightened value, and a timer that
    is paused, not reset, when the last entry is reached. */
module LegacyMode {
  import opened Wrappers
  import opened Timers

  datatype Mode = Scatter | Chase | Frightened

  datatype Duration = Finite(ms: nat) | Infinite

  const MODE_TABLE: seq<(Mode, Duration)> := [
    (Scatter, Finite(7000)),
    (Chase, Finite(20000)),
    (Scatter, Finite(7000)),
    (Chase, Finite(20000)),
    (Scatter, Finite(5000)),
    (Chase, Finite(20000)),
    (Scatter, Finite(5000)),
    (Chase, Infinite)
  ]

  const LAST: nat := |MODE_TABLE| - 1

  /** The table alternates Scatter and Chase and never names Frightened. */
  lemma ModeTableShape()
    ensures |MODE_TABLE| == 8 && LAST == 7
    ensures forall i | 0 <= i < |MODE_TABLE| :: MODE_TABLE[i].0 != Frightened
    ensures forall i | 0 <= i < |MODE_TABLE| :: MODE_TABLE[i].0 == (if i % 2 == 0 then Scatter else Chase)
    ensures forall i | 0 <= i < |MODE_TABLE| :: MODE_TABLE[i].1.Infinite? <==> i == LAST
  {
  }

  /** The Mode resource and the ModeTimer (index and timer). */
  datatype ModeState = ModeState(mode: Mode, index: nat, timer: Timer)

  /** Mode resource and ModeTimer defaults: the first entry, a repeating 7 s timer. */
  function InitialState(): (s: ModeState)
    ensures s.mode == Scatter && s.index == 0
    ensures s.timer == NewTimer(7000, Repeating)
  {
    ModeState(MODE_TABLE[0].0, 0, NewTimer(MODE_TABLE[0].1.ms, Repeating))
  }

  /** `tick_mode`; None is the panic of indexing past the end of the table. */
  function AfterTickMode(s: ModeState, delta: nat): (r: Option<ModeState>)
    ensures r.None? <==> Tick(s.timer, delta).finished && s.index + 1 >= |MODE_TABLE|
  {
    var t := Tick(s.timer, delta);
    if !t.finished then Some(s.(timer := t))
    else if s.index + 1 >= |MODE_TABLE| then None
    else
      var (newMode, newDuration) := MODE_TABLE[s.index + 1];
      Some(ModeState(newMode, s.index + 1,
                     match newDuration
                     case Finite(ms) => SetDuration(t, ms)
                     case Infinite => Pause(t)))
  }

  /** What holds between ticks: the mode is the table's entry, the timer is
      repeating, and on the last entry it is paused. */
  ghost predicate Inv(s: ModeState)
  {
    && s.index < |MODE_TABLE|
    && s.mode == MODE_TABLE[s.index].0
    && s.timer.mode == Repeating
    && (s.index < LAST ==> s.timer.duration == MODE_TABLE[s.index].1.ms && !s.timer.paused)
    && (s.index == LAST ==> s.timer.paused)
  }

  lemma InitialSatisfiesInv()
    ensures Inv(InitialState())
  {
  }

  /** Provided a paused repeating timer never reports finished, the index
      never passes 7 and `tick_mode` never indexes past the table. A finish
      moves to the next entry and its mode; the mode is never Frightened. */
  lemma {:induction false} TickModePreservesInv(s: ModeState, delta: nat)
    requires Inv(s)
    ensures AfterTickMode(s, delta).Some?
    ensures Inv(AfterTickMode(s, delta).value)
    ensures AfterTickMode(s, delta).value.mode != Frightened
    ensures Tick(s.timer, delta).finished ==>
              AfterTickMode(s, delta).value.index == s.index + 1 &&
              AfterTickMode(s, delta).value.mode == MODE_TABLE[s.index + 1].0
    ensures !Tick(s.timer, delta).finished ==> AfterTickMode(s, delta).value.index == s.index
  {
    ModeTableShape();
    if s.index == LAST {
      assert !Tick(s.timer, delta).finished;
    }
  }

  /** Once on the last entry, the mode is Chase for good. */
  lemma LastEntryIsPermanent(s: ModeState, delta: nat)
    requires Inv(s) && s.index == LAST
    ensures AfterTickMode(s, delta) == Some(s.(timer := Tick(s.timer, delta)))
    ensures AfterTickMode(s, delta).value.mode == Chase
  {
  }

  class ModeController {
    var mode: Mode
    var index: nat
    var timer: Timer

    function State(): ModeState
      reads this
    {
      ModeState(mode, index, timer)
    }

    ghost predicate Valid()
      reads this
    {
      Inv(State())
    }

    constructor ()
      ensures State() == InitialState() && Valid()
    {
      mode := Scatter;
      index := 0;
      timer := NewTimer(7000, Repeating);
    }

    method TickMode(delta: nat)
      requires Valid()
      modifies this
      ensures Valid()
      ensures Some(State()) == AfterTickMode(old(State()), delta)
    {
      TickModePreservesInv(State(), delta);
      timer := Tick(timer, delta);
      if !timer.finished {
        return;
      }
      index := index + 1;
      var (newMode, newDuration) := MODE_TABLE[index];
      mode := newMode;
      if newDuration.Finite? {
        timer := SetDuration(timer, newDuration.ms);
      } else {
        timer := Pause(timer);
      }
    }
  }
}
