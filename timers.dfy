/** An abstract countdown timer standing in for the engine's `Timer`.
    Times are whole milliseconds. The behaviour assumed of the engine:
    - a paused timer does not advance; a paused repeating timer reports not
      finished, a paused one-shot timer keeps its finished flag;
    - a one-shot timer that has finished stays finished (and does not advance)
      until it is reset;
    - a running timer finishes when its elapsed time reaches its duration; a
      repeating one then keeps the remainder, a one-shot one stops at its duration. */
module Timers {

  datatype TimerMode = Once | Repeating

  datatype Timer = Timer(duration: nat, elapsed: nat, mode: TimerMode, paused: bool, finished: bool)

  function NewTimer(duration: nat, mode: TimerMode): (t: Timer)
    ensures t.duration == duration && t.mode == mode
    ensures t.elapsed == 0 && !t.paused && !t.finished
  {
    Timer(duration, 0, mode, false, false)
  }

  /** Advance by `delta` milliseconds. */
  function Tick(t: Timer, delta: nat): (r: Timer)
    ensures r.duration == t.duration && r.mode == t.mode && r.paused == t.paused
    ensures t.paused ==> r.elapsed == t.elapsed && (r.finished <==> t.mode == Once && t.finished)
    ensures !t.paused && t.mode == Once && t.finished ==> r == t
    ensures !t.paused && !(t.mode == Once && t.finished) ==> (r.finished <==> t.elapsed + delta >= t.duration)
    ensures !t.paused && !r.finished ==> r.elapsed == t.elapsed + delta
    ensures t.mode == Repeating && 0 < t.duration && t.elapsed < t.duration ==> r.elapsed < t.duration
  {
    if t.paused then
      t.(finished := t.mode == Once && t.finished)
    else if t.mode == Once && t.finished then
      t
    else
      var e := t.elapsed + delta;
      if e < t.duration then
        t.(elapsed := e, finished := false)
      else if t.mode == Repeating then
        t.(elapsed := if t.duration == 0 then 0 else e % t.duration, finished := true)
      else
        t.(elapsed := t.duration, finished := true)
  }

  function Pause(t: Timer): (r: Timer)
    ensures r.paused && r.(paused := t.paused) == t
  {
    t.(paused := true)
  }

  function Unpause(t: Timer): (r: Timer)
    ensures !r.paused && r.(paused := t.paused) == t
  {
    t.(paused := false)
  }

  /** Back to zero elapsed time and not finished; duration, mode and pause state are kept. */
  function Reset(t: Timer): (r: Timer)
    ensures r.elapsed == 0 && !r.finished
    ensures r.duration == t.duration && r.mode == t.mode && r.paused == t.paused
  {
    t.(elapsed := 0, finished := false)
  }

  /** Changes the duration only; the time already elapsed is kept. */
  function SetDuration(t: Timer, duration: nat): (r: Timer)
    ensures r.duration == duration && r.(duration := t.duration) == t
  {
    t.(duration := duration)
  }
}
