/** Ghost state and the ghost systems (src/actor/ghost/mod.rs). Component
    presence becomes fields: Target is an Option, Frightened, Respawning and
    InHouse are flags, Food is an Option holding the points. Engine change
    detection becomes `changed` parameters. Each system is modelled for one
    ghost its query matches; ghosts do not interact inside these systems. */
module ActorGhost {
  import opened Wrappers
  import opened Grid
  import opened Layout
  import opened Timers
  import opened Steering
  import opened ActorMode
  import opened ActorMovement

  datatype Personality = Blinky | Pinky | Inky | Clyde

  /** The points a frightened ghost is worth. */
  const FRIGHTENED_POINTS: nat := 200

  /** `Target::default()`. */
  const DEFAULT_TARGET := GridLocation(0, 0)

  /** Everything the ghost systems read or write of one ghost. */
  datatype GhostState = GhostState(
    personality: Personality,
    scatterTarget: GridLocation,
    motion: Motion,
    target: Option<GridLocation>,
    frightened: bool,
    food: Option<nat>,
    respawning: bool,
    inHouse: bool)

  /** `ActiveGhost`: a ghost that is not respawning, frightened or in the house. */
  predicate Active(s: GhostState)
  {
    !s.respawning && !s.frightened && !s.inHouse
  }

  /** What the systems keep true together: Frightened and its Food come and go
      together, a frightened ghost has no Target, and a respawning ghost is
      not frightened. */
  predicate Coherent(s: GhostState)
  {
    && (s.frightened <==> s.food == Some(FRIGHTENED_POINTS))
    && (s.frightened ==> s.target.None?)
    && !(s.respawning && s.frightened)
  }

  /** The rows the steering systems probe around the tile ahead exist. */
  predicate CanLookAhead(layout: Layout, loc: GridLocation, dir: Dir)
  {
    var ahead := Shift(loc, dir);
    InRows(ahead.y) && (!Collides(layout, ahead) ==> CanProbeAround(ahead))
  }

  // ---------------------------------------------------------------------------
  // closest_dir_to_target

  /** The running-best loop of `closest_dir_to_target`; `bestDistance` None
      stands for the initial `f32::MAX`. */
  method ClosestDirToTarget(layout: Layout, source: GridLocation, target: GridLocation,
                            originalLoc: Option<GridLocation>) returns (bestDir: Option<Dir>)
    requires CanProbeAround(source)
    ensures bestDir == ClosestDir(layout, source, target, originalLoc)
  {
    ghost var cs := Candidates(layout, source, target, originalLoc);
    var bestDistance: Option<int> := None;
    bestDir := None;
    var i := 0;
    while i < |DIRECTIONS|
      invariant 0 <= i <= |DIRECTIONS|
      invariant bestDir.None? <==> bestDistance.None?
      invariant Scan(cs[..i]) == if bestDir.None? then NoBest else Best(bestDir.value, bestDistance.value)
    {
      var dir := DIRECTIONS[i];
      var loc := Shift(source, dir);
      ProbeAround(source, dir);
      var collision := Collides(layout, loc);
      var distance := DistanceSquared(loc, target);
      assert cs[..i + 1][..i] == cs[..i];
      assert cs[i] == CandidateFor(layout, source, target, originalLoc, dir);
      if !collision && originalLoc != Some(loc) && (bestDistance.None? || distance < bestDistance.value) {
        bestDir := Some(dir);
        bestDistance := Some(distance);
      }
      i := i + 1;
    }
    assert cs[..4] == cs;
  }

  // ---------------------------------------------------------------------------
  // choose_next_dir

  function AfterChooseNextDir(layout: Layout, s: GhostState, locChanged: bool): GhostState
    requires locChanged && s.target.Some? && !s.frightened ==> CanLookAhead(layout, s.motion.loc, s.motion.dir)
  {
    var ahead := Shift(s.motion.loc, s.motion.dir);
    if locChanged && s.target.Some? && !s.frightened && !Collides(layout, ahead) then
      s.(motion := s.motion.(nextDir := ClosestDir(layout, ahead, s.target.value, Some(s.motion.loc))))
    else s
  }

  /** A ghost that has just entered a tile, has a Target and is not frightened
      decides its next direction for the tile ahead: the admissible
      neighbour of that tile nearest the Target, never the tile it stands on;
      when the tile ahead is a wall, or the ghost was not selected, nothing
      changes. Only NextDir is ever written. */
  lemma ChooseNextDirEffect(layout: Layout, s: GhostState, locChanged: bool)
    requires locChanged && s.target.Some? && !s.frightened ==> CanLookAhead(layout, s.motion.loc, s.motion.dir)
    ensures var r := AfterChooseNextDir(layout, s, locChanged);
            var ahead := Shift(s.motion.loc, s.motion.dir);
            && r == s.(motion := s.motion.(nextDir := r.motion.nextDir))
            && (!locChanged || s.target.None? || s.frightened || Collides(layout, ahead) ==> r == s)
            && (locChanged && s.target.Some? && !s.frightened && !Collides(layout, ahead) ==>
                  && (r.motion.nextDir.None? <==> forall d :: !Admissible(layout, ahead, Some(s.motion.loc), d))
                  && (r.motion.nextDir.Some? ==>
                        var next := Shift(ahead, r.motion.nextDir.value);
                        && !Collides(layout, next)
                        && next != s.motion.loc
                        && forall d | Admissible(layout, ahead, Some(s.motion.loc), d) ::
                             DistanceSquared(next, s.target.value) <= Distance(ahead, s.target.value, d)))
  {
  }

  method ChooseNextDir(layout: Layout, g: Ghost, locChanged: bool)
    requires locChanged && g.target.Some? && !g.frightened ==> CanLookAhead(layout, g.body.loc, g.body.dir)
    modifies g.body
    ensures g.State() == AfterChooseNextDir(layout, old(g.State()), locChanged)
  {
    if locChanged && g.target.Some? && !g.frightened {
      var nextLoc := Shift(g.body.loc, g.body.dir);
      if !Collides(layout, nextLoc) {
        var d := ClosestDirToTarget(layout, nextLoc, g.target.value, Some(g.body.loc));
        g.body.nextDir := d;
      }
    }
  }

  // ---------------------------------------------------------------------------
  // scatter

  function AfterScatter(mode: Mode, s: GhostState): GhostState
  {
    if mode == Mode.Scatter && Active(s) && s.target.Some? then s.(target := Some(s.scatterTarget)) else s
  }

  /** In Scatter mode every active ghost with a Target aims at its own
      corner; in Chase mode, and for any other ghost, nothing changes. Doing
      it twice is doing it once. */
  lemma ScatterEffect(mode: Mode, s: GhostState)
    ensures var r := AfterScatter(mode, s);
            && r == s.(target := r.target)
            && (mode == Mode.Scatter && Active(s) && s.target.Some? ==> r.target == Some(s.scatterTarget))
            && (mode == Chase || !Active(s) || s.target.None? ==> r == s)
            && AfterScatter(mode, r) == r
  {
  }

  method Scatter(mode: Mode, g: Ghost)
    modifies g
    ensures g.State() == AfterScatter(mode, old(g.State()))
  {
    if mode != Mode.Scatter {
      return;
    }
    if !g.respawning && !g.frightened && !g.inHouse && g.target.Some? {
      if g.target.value != g.scatterTarget {
        g.target := Some(g.scatterTarget);
      }
    }
  }

  // ---------------------------------------------------------------------------
  // become_frightened and stop_frightened

  function AfterBecomeFrightened(fm: FrightenedMode, changed: bool, s: GhostState): GhostState
  {
    if changed && fm == Enabled && Active(s) then
      s.(frightened := true, food := Some(FRIGHTENED_POINTS), target := None)
    else s
  }

  function AfterStopFrightened(fm: FrightenedMode, changed: bool, s: GhostState): GhostState
  {
    if changed && fm == Disabled && s.frightened then
      s.(frightened := false, food := None, target := Some(DEFAULT_TARGET))
    else s
  }

  /** Becoming frightened happens only on a change to Enabled and only to an
      active ghost, which gains Frightened and Food worth 200 and loses its
      Target; stopping happens only on a change to Disabled and only to a
      frightened ghost, which loses both and gets the default Target. */
  lemma FrightenedTransitions(fm: FrightenedMode, changed: bool, s: GhostState)
    ensures var r := AfterBecomeFrightened(fm, changed, s);
            && (changed && fm == Enabled && Active(s) ==>
                  r.frightened && r.food == Some(FRIGHTENED_POINTS) && r.target.None? && !Active(r))
            && (!(changed && fm == Enabled && Active(s)) ==> r == s)
            && r == s.(frightened := r.frightened, food := r.food, target := r.target)
    ensures var r := AfterStopFrightened(fm, changed, s);
            && (changed && fm == Disabled && s.frightened ==>
                  !r.frightened && r.food.None? && r.target == Some(DEFAULT_TARGET))
            && (!(changed && fm == Disabled && s.frightened) ==> r == s)
            && r == s.(frightened := r.frightened, food := r.food, target := r.target)
  {
  }

  /** An active ghost that is frightened and later calmed down is active
      again, aiming at the default Target until a targeting system runs. */
  lemma FrightenedRoundTrip(s: GhostState)
    requires Active(s) && s.food.None?
    ensures var r := AfterStopFrightened(Disabled, true, AfterBecomeFrightened(Enabled, true, s));
            r == s.(target := Some(DEFAULT_TARGET)) && Active(r)
  {
  }

  method BecomeFrightened(fm: FrightenedMode, changed: bool, g: Ghost)
    modifies g
    ensures g.State() == AfterBecomeFrightened(fm, changed, old(g.State()))
  {
    if !changed || fm == Disabled {
      return;
    }
    if !g.respawning && !g.frightened && !g.inHouse {
      g.frightened := true;
      g.food := Some(FRIGHTENED_POINTS);
      g.target := None;
    }
  }

  method StopFrightened(fm: FrightenedMode, changed: bool, g: Ghost)
    modifies g
    ensures g.State() == AfterStopFrightened(fm, changed, old(g.State()))
  {
    if !changed || fm == Enabled {
      return;
    }
    if g.frightened {
      g.frightened := false;
      g.food := None;
      g.target := Some(DEFAULT_TARGET);
    }
  }

  // ---------------------------------------------------------------------------
  // frightened

  /** The first direction of `order` whose tile, seen from `ahead`, is open
      and is not `loc`. */
  function FirstOpen(layout: Layout, ahead: GridLocation, loc: GridLocation, order: seq<Dir>): (r: Option<Dir>)
    requires CanProbeAround(ahead)
    ensures r.None? <==> forall i | 0 <= i < |order| :: !Admissible(layout, ahead, Some(loc), order[i])
    ensures r.Some? ==> exists k | 0 <= k < |order| ::
              && order[k] == r.value
              && Admissible(layout, ahead, Some(loc), order[k])
              && forall j | 0 <= j < k :: !Admissible(layout, ahead, Some(loc), order[j])
    decreases |order|
  {
    if order == [] then None
    else if Admissible(layout, ahead, Some(loc), order[0]) then
      assert order[0] == order[0];
      Some(order[0])
    else
      var r := FirstOpen(layout, ahead, loc, order[1..]);
      assert forall i | 1 <= i < |order| :: order[i] == order[1..][i - 1];
      if r.Some? then
        var k :| 0 <= k < |order| - 1 && order[1..][k] == r.value
                 && Admissible(layout, ahead, Some(loc), order[1..][k])
                 && forall j | 0 <= j < k :: !Admissible(layout, ahead, Some(loc), order[1..][j]);
        assert order[k + 1] == r.value;
        r
      else r
  }

  /** One step of the search: the head when it is open, else the search of the rest. */
  lemma FirstOpenStep(layout: Layout, ahead: GridLocation, loc: GridLocation, order: seq<Dir>)
    requires CanProbeAround(ahead) && order != []
    ensures FirstOpen(layout, ahead, loc, order) ==
            if Admissible(layout, ahead, Some(loc), order[0]) then Some(order[0])
            else FirstOpen(layout, ahead, loc, order[1..])
  {
  }

  function AfterFrightened(layout: Layout, s: GhostState, locChanged: bool, randomDir: Dir): GhostState
    requires locChanged && s.frightened ==> CanLookAhead(layout, s.motion.loc, s.motion.dir)
  {
    var ahead := Shift(s.motion.loc, s.motion.dir);
    if locChanged && s.frightened && !Collides(layout, ahead) then
      match FirstOpen(layout, ahead, s.motion.loc, [randomDir] + DIRECTIONS)
      case Some(d) => s.(motion := s.motion.(nextDir := Some(d)))
      case None => s
    else s
  }

  /** A frightened ghost that has just entered a tile whose tile ahead is
      open tries the random direction first, then Up, Left, Down, Right; it
      takes the first one open from the tile ahead that does not lead back,
      and keeps its NextDir if none does. */
  lemma FrightenedEffect(layout: Layout, s: GhostState, locChanged: bool, randomDir: Dir)
    requires locChanged && s.frightened ==> CanLookAhead(layout, s.motion.loc, s.motion.dir)
    ensures var r := AfterFrightened(layout, s, locChanged, randomDir);
            var ahead := Shift(s.motion.loc, s.motion.dir);
            && r == s.(motion := s.motion.(nextDir := r.motion.nextDir))
            && (!locChanged || !s.frightened || Collides(layout, ahead) ==> r == s)
            && (locChanged && s.frightened && !Collides(layout, ahead) ==>
                  && (Admissible(layout, ahead, Some(s.motion.loc), randomDir) ==> r.motion.nextDir == Some(randomDir))
                  && (!Admissible(layout, ahead, Some(s.motion.loc), randomDir) ==>
                        r.motion.nextDir == match FirstOpen(layout, ahead, s.motion.loc, DIRECTIONS)
                                            case Some(d) => Some(d)
                                            case None => s.motion.nextDir)
                  && ((forall d :: !Admissible(layout, ahead, Some(s.motion.loc), d)) ==> r == s)
                  && (r != s ==> r.motion.nextDir.Some? &&
                                 Admissible(layout, ahead, Some(s.motion.loc), r.motion.nextDir.value)))
  {
    var ahead := Shift(s.motion.loc, s.motion.dir);
    if locChanged && s.frightened && !Collides(layout, ahead) {
      var order := [randomDir] + DIRECTIONS;
      assert order[0] == randomDir;
      FirstOpenStep(layout, ahead, s.motion.loc, order);
      assert order[1..] == DIRECTIONS;
      if forall d :: !Admissible(layout, ahead, Some(s.motion.loc), d) {
        assert forall i | 0 <= i < |order| :: !Admissible(layout, ahead, Some(s.motion.loc), order[i]);
      }
    }
  }

  method Frightened(layout: Layout, g: Ghost, locChanged: bool, randomDir: Dir)
    requires locChanged && g.frightened ==> CanLookAhead(layout, g.body.loc, g.body.dir)
    modifies g.body
    ensures g.State() == AfterFrightened(layout, old(g.State()), locChanged, randomDir)
  {
    if !locChanged || !g.frightened {
      return;
    }
    var loc := g.body.loc;
    var nextLoc := Shift(loc, g.body.dir);
    if Collides(layout, nextLoc) {
      return;
    }
    var d := FirstOpenDir(layout, nextLoc, loc, [randomDir] + DIRECTIONS);
    if d.Some? {
      g.body.nextDir := d;
    }
  }

  /** The candidate loop of `frightened`: try each direction of `order` in
      turn and break at the first whose tile is open and is not `loc`. */
  method FirstOpenDir(layout: Layout, ahead: GridLocation, loc: GridLocation, order: seq<Dir>)
    returns (found: Option<Dir>)
    requires CanProbeAround(ahead)
    ensures found == FirstOpen(layout, ahead, loc, order)
  {
    found := None;
    var i := 0;
    while i < |order|
      invariant 0 <= i <= |order|
      invariant FirstOpen(layout, ahead, loc, order[i..]) == FirstOpen(layout, ahead, loc, order)
    {
      var candidateDir := order[i];
      var candidateLoc := Shift(ahead, candidateDir);
      ProbeAround(ahead, candidateDir);
      FirstOpenStep(layout, ahead, loc, order[i..]);
      var collision := Collides(layout, candidateLoc);
      if !collision && candidateLoc != loc {
        found := Some(candidateDir);
        return;
      }
      assert order[i..][1..] == order[i + 1..];
      i := i + 1;
    }
  }

  // ---------------------------------------------------------------------------
  // Respawning

  function AfterStartRespawning(layout: Layout, s: GhostState, eaten: bool): GhostState
    requires eaten ==> CanProbeAround(s.motion.loc)
  {
    if eaten then
      var start := s.motion.start;
      var r := s.(respawning := true, target := Some(start), frightened := false, food := None);
      match ClosestDir(layout, s.motion.loc, start, None)
      case Some(d) => r.(motion := r.motion.(dir := d))
      case None => r
    else s
  }

  function AfterFinishRespawning(s: GhostState, locChanged: bool): GhostState
  {
    if s.respawning && locChanged && s.motion.start == s.motion.loc then s.(respawning := false) else s
  }

  /** An eaten ghost starts respawning: it is no longer frightened, aims at
      its start tile, and faces the open neighbour nearest it (turning back
      is allowed) unless every neighbour is a wall. It stops respawning
      exactly when it has just entered its start tile. */
  lemma RespawnEffect(layout: Layout, s: GhostState, eaten: bool, locChanged: bool)
    requires eaten ==> CanProbeAround(s.motion.loc)
    ensures var r := AfterStartRespawning(layout, s, eaten);
            && (!eaten ==> r == s)
            && (eaten ==> r.respawning && !r.frightened && r.food.None? && r.target == Some(s.motion.start) && !Active(r))
            && (eaten ==> r.motion == s.motion.(dir := r.motion.dir))
            && (eaten && (exists d :: !Collides(layout, Shift(s.motion.loc, d))) ==>
                  var next := Shift(s.motion.loc, r.motion.dir);
                  && !Collides(layout, next)
                  && (forall d | !Collides(layout, Shift(s.motion.loc, d)) ::
                        DistanceSquared(next, s.motion.start) <= Distance(s.motion.loc, s.motion.start, d))
                  && (forall d | !Collides(layout, Shift(s.motion.loc, d)) && Rank(d) < Rank(r.motion.dir) ::
                        Distance(s.motion.loc, s.motion.start, d) > DistanceSquared(next, s.motion.start)))
            && (eaten && (forall d :: Collides(layout, Shift(s.motion.loc, d))) ==> r.motion.dir == s.motion.dir)
    ensures var r := AfterFinishRespawning(s, locChanged);
            && (s.respawning ==> (!r.respawning <==> locChanged && s.motion.loc == s.motion.start))
            && r == s.(respawning := r.respawning)
            && (!s.respawning ==> r == s)
  {
    if eaten {
      forall d ensures Admissible(layout, s.motion.loc, None, d) <==> !Collides(layout, Shift(s.motion.loc, d)) {
        ProbeAround(s.motion.loc, d);
      }
      if exists d :: !Collides(layout, Shift(s.motion.loc, d)) {
        var d :| !Collides(layout, Shift(s.motion.loc, d));
        assert Admissible(layout, s.motion.loc, None, d);
      } else {
        forall d ensures !Admissible(layout, s.motion.loc, None, d) {
          assert Collides(layout, Shift(s.motion.loc, d));
        }
      }
    }
  }

  method StartRespawningEatenGhost(layout: Layout, g: Ghost, eaten: bool)
    requires eaten ==> CanProbeAround(g.body.loc)
    modifies g, g.body
    ensures g.State() == AfterStartRespawning(layout, old(g.State()), eaten)
  {
    if eaten {
      var start := g.body.start;
      g.respawning := true;
      g.target := Some(start);
      g.frightened := false;
      g.food := None;
      var d := ClosestDirToTarget(layout, g.body.loc, start, None);
      if d.Some? {
        g.body.dir := d.value;
      }
    }
  }

  method FinishRespawningEatenGhost(g: Ghost, locChanged: bool)
    modifies g
    ensures g.State() == AfterFinishRespawning(old(g.State()), locChanged)
  {
    if g.respawning && locChanged {
      if g.body.start == g.body.loc {
        g.respawning := false;
      }
    }
  }

  // ---------------------------------------------------------------------------
  // The shared shape of the four `chase` systems

  function AfterChase(mode: Mode, p: Personality, newTarget: GridLocation, s: GhostState): GhostState
  {
    if mode == Chase && Active(s) && s.personality == p && s.target.Some? then s.(target := Some(newTarget)) else s
  }

  /** In Chase mode an active ghost of personality `p` that has a Target aims
      at `newTarget`; outside Chase mode, and for any other ghost, nothing
      changes. Only the Target is written, so a second run with the same
      inputs changes nothing. */
  lemma ChaseEffect(mode: Mode, p: Personality, newTarget: GridLocation, s: GhostState)
    ensures var r := AfterChase(mode, p, newTarget, s);
            && r == s.(target := r.target)
            && (mode == Chase && Active(s) && s.personality == p && s.target.Some? ==> r.target == Some(newTarget))
            && (mode == Mode.Scatter || !Active(s) || s.personality != p || s.target.None? ==> r == s)
            && AfterChase(mode, p, newTarget, r) == r
            && (Coherent(s) ==> Coherent(r))
  {
  }

  /** The common loop body of the `chase` systems: write the Target only when it differs. */
  method ChaseWith(mode: Mode, p: Personality, newTarget: GridLocation, g: Ghost) returns (written: bool)
    modifies g
    ensures g.State() == AfterChase(mode, p, newTarget, old(g.State()))
    ensures written <==> g.target != old(g.target)
  {
    written := false;
    if mode != Chase {
      return;
    }
    if !g.respawning && !g.frightened && !g.inHouse && g.personality == p && g.target.Some? {
      if g.target.value != newTarget {
        g.target := Some(newTarget);
        written := true;
      }
    }
  }

  /** Every ghost system keeps a coherent ghost coherent. */
  lemma SystemsKeepCoherent(layout: Layout, s: GhostState, mode: Mode, fm: FrightenedMode,
                            changed: bool, locChanged: bool, eaten: bool, randomDir: Dir)
    requires Coherent(s)
    ensures locChanged && s.target.Some? && !s.frightened && CanLookAhead(layout, s.motion.loc, s.motion.dir) ==>
              Coherent(AfterChooseNextDir(layout, s, locChanged))
    ensures Coherent(AfterScatter(mode, s))
    ensures Coherent(AfterBecomeFrightened(fm, changed, s))
    ensures Coherent(AfterStopFrightened(fm, changed, s))
    ensures locChanged && s.frightened && CanLookAhead(layout, s.motion.loc, s.motion.dir) ==>
              Coherent(AfterFrightened(layout, s, locChanged, randomDir))
    ensures CanProbeAround(s.motion.loc) ==> Coherent(AfterStartRespawning(layout, s, eaten))
    ensures Coherent(AfterFinishRespawning(s, locChanged))
    ensures forall p, t :: Coherent(AfterChase(mode, p, t, s))
  {
  }

  /** One ghost's components. */
  class Ghost {
    const personality: Personality
    const scatterTarget: GridLocation
    const body: Mover
    var target: Option<GridLocation>
    var frightened: bool
    var food: Option<nat>
    var respawning: bool
    var inHouse: bool

    function State(): GhostState
      reads this, body
    {
      GhostState(personality, scatterTarget, body.View(), target, frightened, food, respawning, inHouse)
    }

    /** `GhostSpawner::spawn`: a ghost moving left from `location`, with its
        personality's scatter corner, the default Target and no pending
        direction. */
    constructor Spawn(p: Personality, corner: GridLocation, location: GridLocation)
      ensures fresh(body)
      ensures personality == p && scatterTarget == corner
      ensures body.View() == Motion(location, Left, None, Some(Shift(location, Left)), location, 0,
                                    NewTimer(ANIMATION_MS, Repeating))
      ensures target == Some(DEFAULT_TARGET)
      ensures !frightened && food.None? && !respawning && !inHouse
      ensures Coherent(State()) && Active(State())
    {
      personality := p;
      scatterTarget := corner;
      body := new Mover.MovingLeft(location);
      target := Some(DEFAULT_TARGET);
      frightened := false;
      food := None;
      respawning := false;
      inHouse := false;
    }
  }
}
