/** Ghost state and systems of the earlier snapshot (src/ghost/mod.rs).
    Frightened is a value of the one Mode resource; there is no ghost house.
    The steering choice itself is the same code as in the newer tree and is
    modelled once, by ActorGhost.ClosestDirToTarget. */
module LegacyGhost {
  import opened Wrappers
  import opened Grid
  import opened Layout
  import opened Timers
  import opened Steering
  import opened LegacyMode
  import opened LegacyMovement
  import ActorGhost

  type Personality = ActorGhost.Personality

  const FRIGHTENED_POINTS: nat := 200

  const DEFAULT_TARGET := GridLocation(0, 0)

  datatype GhostState = GhostState(
    personality: Personality,
    scatterTarget: GridLocation,
    motion: LegacyMovement.Motion,
    target: Option<GridLocation>,
    frightened: bool,
    food: Option<nat>,
    respawning: bool)

  /** The filter the Blinky chase names: not respawning and not frightened. */
  predicate Active(s: GhostState)
  {
    !s.respawning && !s.frightened
  }

  predicate Coherent(s: GhostState)
  {
    && (s.frightened <==> s.food == Some(FRIGHTENED_POINTS))
    && (s.frightened ==> s.target.None?)
    && !(s.respawning && s.frightened)
  }

  predicate CanLookAhead(layout: Layout, loc: GridLocation, dir: Dir)
  {
    var ahead := Shift(loc, dir);
    InRows(ahead.y) && (!Collides(layout, ahead) ==> CanProbeAround(ahead))
  }

  // ---------------------------------------------------------------------------
  // choose_next_dir: no Frightened filter, only the Target requirement

  function AfterChooseNextDir(layout: Layout, s: GhostState, locChanged: bool): GhostState
    requires locChanged && s.target.Some? ==> CanLookAhead(layout, s.motion.loc, s.motion.dir)
  {
    var ahead := Shift(s.motion.loc, s.motion.dir);
    if locChanged && s.target.Some? && !Collides(layout, ahead) then
      s.(motion := s.motion.(nextDir := ClosestDir(layout, ahead, s.target.value, Some(s.motion.loc))))
    else s
  }

  /** A ghost with a Target steers exactly as in the newer tree; a coherent
      frightened ghost has no Target, so it is left to the frightened system. */
  lemma ChooseNextDirEffect(layout: Layout, s: GhostState, locChanged: bool)
    requires locChanged && s.target.Some? ==> CanLookAhead(layout, s.motion.loc, s.motion.dir)
    ensures var r := AfterChooseNextDir(layout, s, locChanged);
            var ahead := Shift(s.motion.loc, s.motion.dir);
            && r == s.(motion := s.motion.(nextDir := r.motion.nextDir))
            && (!locChanged || s.target.None? || Collides(layout, ahead) ==> r == s)
            && (Coherent(s) && s.frightened ==> r == s)
            && (locChanged && s.target.Some? && !Collides(layout, ahead) ==>
                  && (r.motion.nextDir.None? <==> forall d :: !Admissible(layout, ahead, Some(s.motion.loc), d))
                  && (r.motion.nextDir.Some? ==>
                        var next := Shift(ahead, r.motion.nextDir.value);
                        && !Collides(layout, next)
                        && next != s.motion.loc
                        && (forall d | Admissible(layout, ahead, Some(s.motion.loc), d) ::
                              DistanceSquared(next, s.target.value) <= Distance(ahead, s.target.value, d))
                        && (forall d | Admissible(layout, ahead, Some(s.motion.loc), d) &&
                                       Rank(d) < Rank(r.motion.nextDir.value) ::
                              Distance(ahead, s.target.value, d) > DistanceSquared(next, s.target.value))))
  {
  }

  method ChooseNextDir(layout: Layout, g: Ghost, locChanged: bool)
    requires locChanged && g.target.Some? ==> CanLookAhead(layout, g.body.loc, g.body.dir)
    modifies g.body
    ensures g.State() == AfterChooseNextDir(layout, old(g.State()), locChanged)
  {
    if locChanged && g.target.Some? {
      var nextLoc := Shift(g.body.loc, g.body.dir);
      if !Collides(layout, nextLoc) {
        var d := ActorGhost.ClosestDirToTarget(layout, nextLoc, g.target.value, Some(g.body.loc));
        g.body.nextDir := d;
      }
    }
  }

  // ---------------------------------------------------------------------------
  // scatter, become_frightened, stop_frightened

  function AfterScatter(mode: Mode, s: GhostState): GhostState
  {
    if mode == Mode.Scatter && !s.respawning && s.target.Some? then s.(target := Some(s.scatterTarget)) else s
  }

  /** In Scatter mode every ghost that is not respawning and has a Target
      aims at its corner; otherwise nothing changes. */
  lemma ScatterEffect(mode: Mode, s: GhostState)
    ensures var r := AfterScatter(mode, s);
            && r == s.(target := r.target)
            && (mode == Mode.Scatter && !s.respawning && s.target.Some? ==> r.target == Some(s.scatterTarget))
            && (mode != Mode.Scatter || s.respawning || s.target.None? ==> r == s)
            && AfterScatter(mode, r) == r
  {
  }

  method Scatter(mode: Mode, g: Ghost)
    modifies g
    ensures g.State() == AfterScatter(mode, old(g.State()))
  {
    if mode != Mode.Scatter {
      return;
    }
    if !g.respawning && g.target.Some? {
      if g.target.value != g.scatterTarget {
        g.target := Some(g.scatterTarget);
      }
    }
  }

  function AfterBecomeFrightened(mode: Mode, changed: bool, s: GhostState): GhostState
  {
    if changed && mode == Frightened && !s.respawning then
      s.(frightened := true, food := Some(FRIGHTENED_POINTS), target := None)
    else s
  }

  function AfterStopFrightened(mode: Mode, changed: bool, s: GhostState): GhostState
  {
    if changed && mode != Frightened && !s.respawning then
      s.(frightened := false, food := None, target := Some(DEFAULT_TARGET))
    else s
  }

  /** Becoming frightened fires on a change to Frightened for every ghost not
      respawning. Stopping fires on every other change of Mode, Scatter to
      Chase included, and resets the Target of every ghost not respawning,
      frightened or not. */
  lemma FrightenedTransitions(mode: Mode, changed: bool, s: GhostState)
    ensures var r := AfterBecomeFrightened(mode, changed, s);
            && (changed && mode == Frightened && !s.respawning ==>
                  r.frightened && r.food == Some(FRIGHTENED_POINTS) && r.target.None?)
            && (!(changed && mode == Frightened && !s.respawning) ==> r == s)
            && r == s.(frightened := r.frightened, food := r.food, target := r.target)
    ensures var r := AfterStopFrightened(mode, changed, s);
            && (changed && mode != Frightened && !s.respawning ==>
                  !r.frightened && r.food.None? && r.target == Some(DEFAULT_TARGET))
            && (!(changed && mode != Frightened && !s.respawning) ==> r == s)
            && r == s.(frightened := r.frightened, food := r.food, target := r.target)
  {
  }

  /** The observable difference from the newer tree: an ordinary switch from
      Scatter to Chase throws away a Target the ghost already had. */
  lemma ModeSwitchResetsTarget(s: GhostState)
    requires !s.respawning && s.target.Some? && s.target.value != DEFAULT_TARGET
    ensures AfterStopFrightened(Chase, true, s).target == Some(DEFAULT_TARGET)
    ensures AfterStopFrightened(Chase, true, s).target != s.target
  {
  }

  method BecomeFrightened(mode: Mode, changed: bool, g: Ghost)
    modifies g
    ensures g.State() == AfterBecomeFrightened(mode, changed, old(g.State()))
  {
    if !changed || mode != Frightened {
      return;
    }
    if !g.respawning {
      g.frightened := true;
      g.food := Some(FRIGHTENED_POINTS);
      g.target := None;
    }
  }

  method StopFrightened(mode: Mode, changed: bool, g: Ghost)
    modifies g
    ensures g.State() == AfterStopFrightened(mode, changed, old(g.State()))
  {
    if !changed || mode == Frightened {
      return;
    }
    if !g.respawning {
      g.frightened := false;
      g.food := None;
      g.target := Some(DEFAULT_TARGET);
    }
  }

  // ---------------------------------------------------------------------------
  // frightened

  function AfterFrightened(layout: Layout, s: GhostState, locChanged: bool, randomDir: Dir): GhostState
    requires locChanged && s.frightened ==> CanLookAhead(layout, s.motion.loc, s.motion.dir)
  {
    var ahead := Shift(s.motion.loc, s.motion.dir);
    if locChanged && s.frightened && !Collides(layout, ahead) then
      match ActorGhost.FirstOpen(layout, ahead, s.motion.loc, [randomDir] + DIRECTIONS)
      case Some(d) => s.(motion := s.motion.(nextDir := Some(d)))
      case None => s
    else s
  }

  /** The random direction is taken when it is open and does not lead back;
      otherwise the first such of Up, Left, Down, Right; otherwise NextDir stays. */
  lemma FrightenedEffect(layout: Layout, s: GhostState, locChanged: bool, randomDir: Dir)
    requires locChanged && s.frightened ==> CanLookAhead(layout, s.motion.loc, s.motion.dir)
    ensures var r := AfterFrightened(layout, s, locChanged, randomDir);
            var ahead := Shift(s.motion.loc, s.motion.dir);
            && r == s.(motion := s.motion.(nextDir := r.motion.nextDir))
            && (!locChanged || !s.frightened || Collides(layout, ahead) ==> r == s)
            && (locChanged && s.frightened && !Collides(layout, ahead) ==>
                  && (Admissible(layout, ahead, Some(s.motion.loc), randomDir) ==> r.motion.nextDir == Some(randomDir))
                  && (!Admissible(layout, ahead, Some(s.motion.loc), randomDir) ==>
                        r.motion.nextDir == match ActorGhost.FirstOpen(layout, ahead, s.motion.loc, DIRECTIONS)
                                            case Some(d) => Some(d)
                                            case None => s.motion.nextDir)
                  && ((forall d :: !Admissible(layout, ahead, Some(s.motion.loc), d)) ==> r == s))
  {
    var ahead := Shift(s.motion.loc, s.motion.dir);
    if locChanged && s.frightened && !Collides(layout, ahead) {
      var order := [randomDir] + DIRECTIONS;
      assert order[0] == randomDir;
      ActorGhost.FirstOpenStep(layout, ahead, s.motion.loc, order);
      assert order[1..] == DIRECTIONS;
      if forall d :: !Admissible(layout, ahead, Some(s.motion.loc), d) {
        assert forall i | 0 <= i < |order| :: !Admissible(layout, ahead, Some(s.motion.loc), order[i]);
      }
    }
  }

  method FrightenedSystem(layout: Layout, g: Ghost, locChanged: bool, randomDir: Dir)
    requires locChanged && g.frightened ==> CanLookAhead(layout, g.body.loc, g.body.dir)
    modifies g.body
    ensures g.State() == AfterFrightened(layout, old(g.State()), locChanged, randomDir)
  {
    if !locChanged || !g.frightened {
      return;
    }
    var loc := g.body.loc;
    var nextLoc := Shift(loc, g.body.dir);
    if Collides(layout, nextLoc) {
      return;
    }
    var d := ActorGhost.FirstOpenDir(layout, nextLoc, loc, [randomDir] + DIRECTIONS);
    if d.Some? {
      g.body.nextDir := d;
    }
  }

  // ---------------------------------------------------------------------------
  // Respawning

  function AfterStartRespawning(layout: Layout, s: GhostState, eaten: bool): GhostState
    requires eaten ==> CanProbeAround(s.motion.loc)
  {
    if eaten then
      var start := s.motion.start;
      s.(respawning := true, target := Some(start), frightened := false, food := None,
         motion := s.motion.(nextDir := ClosestDir(layout, s.motion.loc, start, None)))
    else s
  }

  function AfterFinishRespawning(s: GhostState, locChanged: bool): GhostState
  {
    if s.respawning && locChanged && s.motion.start == s.motion.loc then s.(respawning := false) else s
  }

  /** An eaten ghost starts respawning toward its start tile and its NextDir
      (not its Dir) becomes the nearest open neighbour, or None when it is
      walled in. It stops respawning exactly when it has just entered its
      start tile. */
  lemma RespawnEffect(layout: Layout, s: GhostState, eaten: bool, locChanged: bool)
    requires eaten ==> CanProbeAround(s.motion.loc)
    ensures var r := AfterStartRespawning(layout, s, eaten);
            && (!eaten ==> r == s)
            && (eaten ==> r.respawning && !r.frightened && r.food.None? && r.target == Some(s.motion.start))
            && (eaten ==> r.motion == s.motion.(nextDir := r.motion.nextDir))
            && (eaten ==> (r.motion.nextDir.None? <==> forall d :: Collides(layout, Shift(s.motion.loc, d))))
            && (eaten && r.motion.nextDir.Some? ==>
                  var next := Shift(s.motion.loc, r.motion.nextDir.value);
                  && !Collides(layout, next)
                  && (forall d | !Collides(layout, Shift(s.motion.loc, d)) ::
                        DistanceSquared(next, s.motion.start) <= Distance(s.motion.loc, s.motion.start, d))
                  && (forall d | !Collides(layout, Shift(s.motion.loc, d)) && Rank(d) < Rank(r.motion.nextDir.value) ::
                        Distance(s.motion.loc, s.motion.start, d) > DistanceSquared(next, s.motion.start)))
    ensures var r := AfterFinishRespawning(s, locChanged);
            && (s.respawning ==> (!r.respawning <==> locChanged && s.motion.loc == s.motion.start))
            && r == s.(respawning := r.respawning)
  {
    if eaten {
      forall d ensures Admissible(layout, s.motion.loc, None, d) <==> !Collides(layout, Shift(s.motion.loc, d)) {
        ProbeAround(s.motion.loc, d);
      }
    }
  }

  method StartRespawningEatenGhost(layout: Layout, g: Ghost, eaten: bool)
    requires eaten ==> CanProbeAround(g.body.loc)
    modifies g, g.body
    ensures g.State() == AfterStartRespawning(layout, old(g.State()), eaten)
  {
    if eaten {
      var start := g.body.start;
      g.respawning := true;
      g.target := Some(start);
      g.frightened := false;
      g.food := None;
      var d := ActorGhost.ClosestDirToTarget(layout, g.body.loc, start, None);
      g.body.nextDir := d;
    }
  }

  method FinishRespawningEatenGhost(g: Ghost, locChanged: bool)
    modifies g
    ensures g.State() == AfterFinishRespawning(old(g.State()), locChanged)
  {
    if g.respawning && locChanged {
      if g.body.start == g.body.loc {
        g.respawning := false;
      }
    }
  }

  // ---------------------------------------------------------------------------
  // The shared shape of the four `chase` systems

  /** `activeOnly` is true for Blinky, whose query is limited to active
      ghosts; Pinky, Inky and Clyde act on every ghost of theirs with a Target. */
  function AfterChase(mode: Mode, p: Personality, activeOnly: bool, newTarget: GridLocation, s: GhostState): GhostState
  {
    if mode == Chase && (!activeOnly || Active(s)) && s.personality == p && s.target.Some? then
      s.(target := Some(newTarget))
    else s
  }

  lemma ChaseEffect(mode: Mode, p: Personality, activeOnly: bool, newTarget: GridLocation, s: GhostState)
    ensures var r := AfterChase(mode, p, activeOnly, newTarget, s);
            && r == s.(target := r.target)
            && (mode == Chase && (!activeOnly || Active(s)) && s.personality == p && s.target.Some? ==>
                  r.target == Some(newTarget))
            && (mode != Chase || s.personality != p || s.target.None? ==> r == s)
            && (activeOnly && !Active(s) ==> r == s)
            && AfterChase(mode, p, activeOnly, newTarget, r) == r
            && (Coherent(s) ==> Coherent(r))
  {
  }

  method ChaseWith(mode: Mode, p: Personality, activeOnly: bool, newTarget: GridLocation, g: Ghost)
    returns (written: bool)
    modifies g
    ensures g.State() == AfterChase(mode, p, activeOnly, newTarget, old(g.State()))
    ensures written <==> g.target != old(g.target)
  {
    written := false;
    if mode != Chase {
      return;
    }
    if (!activeOnly || (!g.respawning && !g.frightened)) && g.personality == p && g.target.Some? {
      if g.target.value != newTarget {
        g.target := Some(newTarget);
        written := true;
      }
    }
  }

  /** Every system keeps a coherent ghost coherent. */
  lemma SystemsKeepCoherent(layout: Layout, s: GhostState, mode: Mode, changed: bool,
                            locChanged: bool, eaten: bool, randomDir: Dir)
    requires Coherent(s)
    ensures locChanged && s.target.Some? && CanLookAhead(layout, s.motion.loc, s.motion.dir) ==>
              Coherent(AfterChooseNextDir(layout, s, locChanged))
    ensures Coherent(AfterScatter(mode, s))
    ensures Coherent(AfterBecomeFrightened(mode, changed, s))
    ensures Coherent(AfterStopFrightened(mode, changed, s))
    ensures locChanged && s.frightened && CanLookAhead(layout, s.motion.loc, s.motion.dir) ==>
              Coherent(AfterFrightened(layout, s, locChanged, randomDir))
    ensures CanProbeAround(s.motion.loc) ==> Coherent(AfterStartRespawning(layout, s, eaten))
    ensures Coherent(AfterFinishRespawning(s, locChanged))
  {
  }

  class Ghost {
    const personality: Personality
    const scatterTarget: GridLocation
    const body: LegacyMovement.Mover
    var target: Option<GridLocation>
    var frightened: bool
    var food: Option<nat>
    var respawning: bool

    function State(): GhostState
      reads this, body
    {
      GhostState(personality, scatterTarget, body.View(), target, frightened, food, respawning)
    }

    /** A ghost moving left from `location` with the default Target. */
    constructor Spawn(p: Personality, corner: GridLocation, location: GridLocation)
      ensures fresh(body) && body.loc == location && body.start == location && body.dir == Left
      ensures personality == p && scatterTarget == corner
      ensures target == Some(DEFAULT_TARGET) && !frightened && food.None? && !respawning
      ensures Coherent(State())
    {
      personality := p;
      scatterTarget := corner;
      body := new LegacyMovement.Mover.MovingLeft(location);
      target := Some(DEFAULT_TARGET);
      frightened := false;
      food := None;
      respawning := false;
    }
  }
}
