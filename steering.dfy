/** The greedy one-step choice shared by `closest_dir_to_target`
    (src/actor/ghost/mod.rs, and the identical copy in src/ghost/mod.rs) and
    the inline loop of src/ghost.rs: walk the candidates in the order
    Up, Left, Down, Right and keep a running best that a candidate replaces
    only when it is admissible and strictly nearer. */
module Steering {
  import opened Wrappers
  import opened Grid
  import opened Layout

  /** A candidate direction, whether it may be taken, and its squared distance to the target. */
  datatype Candidate = Candidate(dir: Dir, open: bool, dist: int)

  /** The running best; NoBest stands for the initial `f32::MAX`, which every
      admissible candidate beats. */
  datatype Best = NoBest | Best(dir: Dir, dist: int)

  function Consider(b: Best, c: Candidate): Best
  {
    if c.open && (b.NoBest? || c.dist < b.dist) then Best(c.dir, c.dist) else b
  }

  /** The running best after scanning `cs` left to right. */
  function Scan(cs: seq<Candidate>): Best
    decreases |cs|
  {
    if cs == [] then NoBest else Consider(Scan(cs[..|cs| - 1]), cs[|cs| - 1])
  }

  /** `cs[k]` is admissible, no admissible candidate is nearer, and every
      admissible candidate before it is strictly farther. */
  ghost predicate IsFirstMinimum(cs: seq<Candidate>, k: int)
  {
    && 0 <= k < |cs|
    && cs[k].open
    && (forall j | 0 <= j < |cs| && cs[j].open :: cs[k].dist <= cs[j].dist)
    && (forall j | 0 <= j < k && cs[j].open :: cs[j].dist > cs[k].dist)
  }

  /** A first minimum of the prefix stays one when the last candidate does not beat it. */
  lemma KeepFirstMinimum(cs: seq<Candidate>, k: int)
    requires |cs| > 0 && IsFirstMinimum(cs[..|cs| - 1], k)
    requires !(cs[|cs| - 1].open && cs[|cs| - 1].dist < cs[k].dist)
    ensures IsFirstMinimum(cs, k)
  {
    var n := |cs| - 1;
    assert cs[k] == cs[..n][k];
    forall j | 0 <= j < |cs| && cs[j].open ensures cs[k].dist <= cs[j].dist {
      if j < n {
        assert cs[j] == cs[..n][j];
      }
    }
    forall j | 0 <= j < k && cs[j].open ensures cs[j].dist > cs[k].dist {
      assert cs[j] == cs[..n][j];
    }
  }

  /** The last candidate is the first minimum when it is admissible and every
      admissible candidate before it is strictly farther. */
  lemma LastIsFirstMinimum(cs: seq<Candidate>)
    requires |cs| > 0 && cs[|cs| - 1].open
    requires forall j | 0 <= j < |cs| - 1 && cs[j].open :: cs[j].dist > cs[|cs| - 1].dist
    ensures IsFirstMinimum(cs, |cs| - 1)
  {
    var n := |cs| - 1;
    forall j | 0 <= j < |cs| && cs[j].open ensures cs[n].dist <= cs[j].dist {
      if j < n {
        assert cs[j].dist > cs[n].dist;
      }
    }
  }

  lemma {:induction false} ScanFindsFirstMinimum(cs: seq<Candidate>)
    ensures Scan(cs).NoBest? <==> forall j | 0 <= j < |cs| :: !cs[j].open
    ensures Scan(cs).Best? ==>
              exists k :: IsFirstMinimum(cs, k) && Scan(cs) == Best(cs[k].dir, cs[k].dist)
  {
    if cs != [] {
      var n := |cs| - 1;
      var init := cs[..n];
      ScanFindsFirstMinimum(init);
      var b := Scan(init);
      assert Scan(cs) == Consider(b, cs[n]);
      if b.Best? {
        var k :| IsFirstMinimum(init, k) && b == Best(init[k].dir, init[k].dist);
        assert init[k] == cs[k];
        assert cs[k].open;
        if cs[n].open && cs[n].dist < b.dist {
          forall j | 0 <= j < n && cs[j].open ensures cs[j].dist > cs[n].dist {
            assert cs[j] == init[j];
          }
          LastIsFirstMinimum(cs);
        } else {
          KeepFirstMinimum(cs, k);
        }
      } else {
        assert forall j | 0 <= j < n :: !init[j].open;
        forall j | 0 <= j < n ensures !cs[j].open {
          assert cs[j] == init[j];
        }
        if cs[n].open {
          LastIsFirstMinimum(cs);
        }
      }
    }
  }

  /** The candidates are the four directions in the order Up, Left, Down, Right. */
  ghost predicate InOrder(cs: seq<Candidate>)
  {
    |cs| == 4 && forall i | 0 <= i < 4 :: cs[i].dir == DIRECTIONS[i]
  }

  lemma RankOfDirections(k: int)
    requires 0 <= k < 4
    ensures Rank(DIRECTIONS[k]) == k
  {
  }

  function ChosenDir(cs: seq<Candidate>): Option<Dir>
  {
    match Scan(cs)
    case NoBest => None
    case Best(d, _) => Some(d)
  }

  /** The choice in direction terms: None exactly when no direction is
      admissible; otherwise an admissible direction at least as near as every
      admissible one and strictly nearer than every admissible earlier one. */
  lemma ChosenDirSpec(cs: seq<Candidate>)
    requires InOrder(cs)
    ensures var r := ChosenDir(cs);
            && (r.None? <==> forall d :: !cs[Rank(d)].open)
            && (r.Some? ==> cs[Rank(r.value)].open)
            && (r.Some? ==> forall d | cs[Rank(d)].open :: cs[Rank(r.value)].dist <= cs[Rank(d)].dist)
            && (r.Some? ==> forall d | cs[Rank(d)].open && Rank(d) < Rank(r.value) ::
                              cs[Rank(d)].dist > cs[Rank(r.value)].dist)
  {
    ScanFindsFirstMinimum(cs);
    if Scan(cs).NoBest? {
      forall d ensures !cs[Rank(d)].open { }
    } else {
      var k :| IsFirstMinimum(cs, k) && Scan(cs) == Best(cs[k].dir, cs[k].dist);
      RankOfDirections(k);
    }
  }

  // ---------------------------------------------------------------------------
  // The candidates of closest_dir_to_target

  /** Stepping from `source` in direction `d` lands on an open tile that is not `original`. */
  predicate Admissible(layout: Layout, source: GridLocation, original: Option<GridLocation>, d: Dir)
    requires CanProbeAround(source)
  {
    var loc := Shift(source, d);
    !Collides(layout, loc) && original != Some(loc)
  }

  function Distance(source: GridLocation, target: GridLocation, d: Dir): int
  {
    DistanceSquared(Shift(source, d), target)
  }

  function CandidateFor(layout: Layout, source: GridLocation, target: GridLocation,
                        original: Option<GridLocation>, d: Dir): Candidate
    requires CanProbeAround(source)
  {
    Candidate(d, Admissible(layout, source, original, d), Distance(source, target, d))
  }

  function Candidates(layout: Layout, source: GridLocation, target: GridLocation,
                      original: Option<GridLocation>): (cs: seq<Candidate>)
    requires CanProbeAround(source)
    ensures InOrder(cs)
    ensures forall d :: cs[Rank(d)] == CandidateFor(layout, source, target, original, d)
  {
    [CandidateFor(layout, source, target, original, Up),
     CandidateFor(layout, source, target, original, Left),
     CandidateFor(layout, source, target, original, Down),
     CandidateFor(layout, source, target, original, Right)]
  }

  /** What `closest_dir_to_target(layout, source, target, original)` returns. */
  function ClosestDir(layout: Layout, source: GridLocation, target: GridLocation,
                      original: Option<GridLocation>): (r: Option<Dir>)
    requires CanProbeAround(source)
    ensures r.None? <==> forall d :: !Admissible(layout, source, original, d)
    ensures r.Some? ==> Admissible(layout, source, original, r.value)
    ensures r.Some? ==> forall d | Admissible(layout, source, original, d) ::
                          Distance(source, target, r.value) <= Distance(source, target, d)
    ensures r.Some? ==> forall d | Admissible(layout, source, original, d) && Rank(d) < Rank(r.value) ::
                          Distance(source, target, d) > Distance(source, target, r.value)
  {
    var cs := Candidates(layout, source, target, original);
    ChosenDirSpec(cs);
    ChosenDir(cs)
  }

  /** The chosen neighbour is never a wall and never the excluded tile. */
  lemma ClosestDirNeverUTurns(layout: Layout, source: GridLocation, target: GridLocation, original: GridLocation)
    requires CanProbeAround(source)
    ensures var r := ClosestDir(layout, source, target, Some(original));
            r.Some? ==> Shift(source, r.value) != original && !Collides(layout, Shift(source, r.value))
  {
  }

  /** An open maze: no tile anywhere. */
  const EMPTY: Layout := seq(HEIGHT_TILES, _ => seq(WIDTH_TILES, _ => None))

  lemma EmptyIsOpen(loc: GridLocation)
    requires InRows(loc.y)
    ensures !Collides(EMPTY, loc)
  {
    assert EMPTY[loc.y] == seq(WIDTH_TILES, _ => None);
  }

  /** A four-way tie goes to Up, the first direction of the order, because
      only a strictly nearer candidate replaces the running best. */
  lemma TieGoesToEarliest()
    ensures ClosestDir(EMPTY, GridLocation(5, 5), GridLocation(5, 5), None) == Some(Up)
  {
    var source := GridLocation(5, 5);
    EmptyIsOpen(Shift(source, Up));
    assert Admissible(EMPTY, source, None, Up) && Distance(source, source, Up) == 1;
    forall d ensures Distance(source, source, d) >= 1 {
      ShiftByDistance(source, d, 1);
    }
  }

  /** With Up excluded as the tile it came from, the tie goes to Left, the next in the order. */
  lemma TieSkipsOrigin()
    ensures ClosestDir(EMPTY, GridLocation(5, 5), GridLocation(5, 5), Some(GridLocation(5, 6))) == Some(Left)
  {
    var source := GridLocation(5, 5);
    EmptyIsOpen(Shift(source, Left));
    assert Admissible(EMPTY, source, Some(GridLocation(5, 6)), Left) && Distance(source, source, Left) == 1;
    assert !Admissible(EMPTY, source, Some(GridLocation(5, 6)), Up);
    forall d ensures Distance(source, source, d) >= 1 {
      ShiftByDistance(source, d, 1);
    }
  }
}
