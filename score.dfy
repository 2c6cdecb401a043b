/** The score and the high score (src/score.rs), both unsigned 32-bit. */
module Score {

  const U32_LIMIT: nat := 0x1_0000_0000

  predicate IsU32(n: int)
  {
    0 <= n < U32_LIMIT
  }

  type U32 = n: nat | n < U32_LIMIT

  /** The Score and HighScore resources. */
  class Scoreboard {
    var score: U32
    var high: U32

    /** Both start at zero. */
    constructor ()
      ensures score == 0 && high == 0
    {
      score := 0;
      high := 0;
    }

    /** `Score += points`. The addition is checked: a score past the u32
        range is not representable, so the caller must stay inside it. */
    method Add(points: nat)
      requires IsU32(score + points)
      modifies this
      ensures score == old(score) + points
      ensures high == old(high)
    {
      score := score + points;
    }

    /** `update_high_score`: the high score follows a changed score upward only. */
    method UpdateHighScore(scoreChanged: bool)
      modifies this
      ensures score == old(score)
      ensures high == if scoreChanged && old(score) > old(high) then old(score) else old(high)
      ensures high >= old(high)
      ensures scoreChanged ==> high >= score
    {
      if scoreChanged && score > high {
        high := score;
      }
    }
  }

  /** The high score after a sequence of frames, each a score delta and
      whether the score changed that frame. */
  function HighAfter(score: nat, high: nat, frames: seq<(nat, bool)>): (h: nat)
    ensures h >= high
    ensures frames != [] && frames[|frames| - 1].1 ==> h >= score + SumPoints(frames)
    decreases |frames|
  {
    if frames == [] then high
    else
      var n := |frames| - 1;
      var before := HighAfter(score, high, frames[..n]);
      var s := score + SumPoints(frames);
      if frames[n].1 && s > before then s else before
  }

  function SumPoints(frames: seq<(nat, bool)>): nat
    decreases |frames|
  {
    if frames == [] then 0 else SumPoints(frames[..|frames| - 1]) + frames[|frames| - 1].0
  }

  /** The high score never decreases over any run, and it is at least every
      score that was reached on a changed frame. */
  lemma {:induction false} HighScoreMonotone(score: nat, high: nat, frames: seq<(nat, bool)>, k: nat)
    requires k <= |frames|
    ensures HighAfter(score, high, frames[..k]) <= HighAfter(score, high, frames)
    decreases |frames|
  {
    if k < |frames| {
      var n := |frames| - 1;
      assert frames[..n][..k] == frames[..k];
      HighScoreMonotone(score, high, frames[..n], k);
    } else {
      assert frames[..k] == frames;
    }
  }
}
