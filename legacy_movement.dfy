/** Tile movement of the earlier snapshot (src/movement.rs): moves are timed
    steps between whole tiles, walls are whatever tile kinds an entity's
    Collides set names, and the sideways wrap works on tile columns. */
module LegacyMovement {
  import opened Wrappers
  import opened Grid
  import opened Layout
  import opened Timers
  import ActorMovement

  /** How long one tile step takes, in milliseconds. */
  const MOVE_MS: nat := 90

  /** Columns an entity may stray past either edge before it reappears on the other side. */
  const MARGIN: int := 2

  function Reverse(d: Dir): (r: Dir)
  {
    match d
    case Left => Right
    case Right => Left
    case Down => Up
    case Up => Down
  }

  /** Reversing is an involution without fixed points, and undoes a step. */
  lemma ReverseInvolution(d: Dir, loc: GridLocation)
    ensures Reverse(Reverse(d)) == d && Reverse(d) != d
    ensures Shift(Shift(loc, d), Reverse(d)) == loc
  {
  }

  /** `Collides::at`: an empty tile never collides; any other collides
      exactly when its kind is in the entity's set. */
  predicate CollidesAt(collides: set<Tile>, layout: Layout, loc: GridLocation)
    requires InRows(loc.y)
  {
    match Get(layout, loc)
    case None => false
    case Some(tile) => tile in collides
  }

  lemma CollidesAtSpec(collides: set<Tile>, layout: Layout, loc: GridLocation)
    requires InRows(loc.y)
    ensures Get(layout, loc).None? ==> !CollidesAt(collides, layout, loc)
    ensures Get(layout, loc).Some? ==> (CollidesAt(collides, layout, loc) <==> Get(layout, loc).value in collides)
    ensures CollidesAt({}, layout, loc) == false
    ensures CollidesAt({Wall}, layout, loc) == Collides(layout, loc)
  {
  }

  /** A step in progress toward `destination`; `progress` runs from 0 to 1. */
  datatype GridMoving = GridMoving(destination: GridLocation, progress: real, durationMs: nat)

  datatype Motion = Motion(
    loc: GridLocation,
    dir: Dir,
    nextDir: Option<Dir>,
    moving: Option<GridMoving>,
    start: GridLocation,
    collides: set<Tile>,
    moveRandom: bool,
    spriteIndex: bv64,
    animationTimer: Timer)

  /** The order `move_random` tries directions in. */
  const RANDOM_ORDER: seq<Dir> := [Left, Right, Up, Down]

  predicate RandomOption(collides: set<Tile>, layout: Layout, loc: GridLocation, current: Dir, d: Dir)
    requires CanProbeAround(loc)
  {
    ProbeAround(loc, d);
    !CollidesAt(collides, layout, Shift(loc, d)) && d != Reverse(current)
  }

  /** The directions `move_random` may pick, in the order it collects them. */
  function RandomOptions(collides: set<Tile>, layout: Layout, loc: GridLocation, current: Dir, order: seq<Dir>): (ds: seq<Dir>)
    requires CanProbeAround(loc)
    ensures forall d :: d in ds <==> d in order && RandomOption(collides, layout, loc, current, d)
    ensures |ds| <= |order|
    decreases |order|
  {
    if order == [] then []
    else
      var n := |order| - 1;
      var before := RandomOptions(collides, layout, loc, current, order[..n]);
      assert order == order[..n] + [order[n]];
      if RandomOption(collides, layout, loc, current, order[n]) then before + [order[n]] else before
  }

  /** The candidate list, built with a push per admissible direction. */
  method CollectRandomOptions(collides: set<Tile>, layout: Layout, loc: GridLocation, current: Dir)
    returns (dirs: seq<Dir>)
    requires CanProbeAround(loc)
    ensures dirs == RandomOptions(collides, layout, loc, current, RANDOM_ORDER)
  {
    dirs := [];
    var i := 0;
    while i < |RANDOM_ORDER|
      invariant 0 <= i <= |RANDOM_ORDER|
      invariant dirs == RandomOptions(collides, layout, loc, current, RANDOM_ORDER[..i])
    {
      var dir := RANDOM_ORDER[i];
      ProbeAround(loc, dir);
      assert RANDOM_ORDER[..i + 1][..i] == RANDOM_ORDER[..i];
      if !CollidesAt(collides, layout, Shift(loc, dir)) && dir != Reverse(current) {
        dirs := dirs + [dir];
      }
      i := i + 1;
    }
    assert RANDOM_ORDER[..4] == RANDOM_ORDER;
  }

  /** `move_random` with the random choice given as `pick`: a random walker
      that is not mid-step takes one of the options, or keeps its Dir when
      there is none. */
  function AfterMoveRandom(layout: Layout, m: Motion, pick: nat): Motion
    requires m.moveRandom && m.moving.None? ==> CanProbeAround(m.loc)
  {
    if m.moveRandom && m.moving.None? then
      var options := RandomOptions(m.collides, layout, m.loc, m.dir, RANDOM_ORDER);
      if options == [] then m else m.(dir := options[pick % |options|])
    else m
  }

  /** The new direction never reverses the old one and never leads into a
      colliding tile; with no option the direction stays. */
  lemma MoveRandomEffect(layout: Layout, m: Motion, pick: nat)
    requires m.moveRandom && m.moving.None? ==> CanProbeAround(m.loc)
    ensures var r := AfterMoveRandom(layout, m, pick);
            && r == m.(dir := r.dir)
            && (m.moveRandom && m.moving.None? ==>
                  var options := RandomOptions(m.collides, layout, m.loc, m.dir, RANDOM_ORDER);
                  && (options == [] ==> r == m)
                  && (options != [] ==> r.dir in options && r.dir != Reverse(m.dir) &&
                                        !CollidesAt(m.collides, layout, Shift(m.loc, r.dir))))
            && (!(m.moveRandom && m.moving.None?) ==> r == m)
  {
    if m.moveRandom && m.moving.None? {
      var options := RandomOptions(m.collides, layout, m.loc, m.dir, RANDOM_ORDER);
      if options != [] {
        assert options[pick % |options|] in options;
      }
    }
  }

  /** Every option can come up: the pick `k` selects the `k`-th option. */
  lemma MoveRandomCanPickAny(layout: Layout, m: Motion, k: nat)
    requires m.moveRandom && m.moving.None? && CanProbeAround(m.loc)
    requires k < |RandomOptions(m.collides, layout, m.loc, m.dir, RANDOM_ORDER)|
    ensures AfterMoveRandom(layout, m, k).dir == RandomOptions(m.collides, layout, m.loc, m.dir, RANDOM_ORDER)[k]
  {
    PickInRange(RandomOptions(m.collides, layout, m.loc, m.dir, RANDOM_ORDER), k);
  }

  lemma PickInRange(options: seq<Dir>, k: nat)
    requires k < |options|
    ensures options[k % |options|] == options[k]
  {
  }

  /** `move_dir`: a stationary entity starts a 90 ms step toward the tile
      ahead unless that tile collides for it. */
  function AfterMoveDir(layout: Layout, m: Motion): (r: Motion)
    requires m.moving.None? ==> InRows(Shift(m.loc, m.dir).y)
    ensures r == m.(moving := r.moving)
    ensures m.moving.Some? ==> r == m
    ensures m.moving.None? ==>
              (r.moving.Some? <==> !CollidesAt(m.collides, layout, Shift(m.loc, m.dir))) &&
              (r.moving.Some? ==> r.moving.value == GridMoving(Shift(m.loc, m.dir), 0.0, MOVE_MS))
  {
    if m.moving.None? && !CollidesAt(m.collides, layout, Shift(m.loc, m.dir)) then
      m.(moving := Some(GridMoving(Shift(m.loc, m.dir), 0.0, MOVE_MS)))
    else m
  }

  /** The wrapped column: `(x + 2) rem_euclid 32 - 2`. Dafny's `%` is
      Euclidean, as `rem_euclid` is. */
  function WrapX(x: int): (r: int)
    ensures -MARGIN <= r < WIDTH_TILES as int + MARGIN
    ensures (r - x) % (WIDTH_TILES as int + 2 * MARGIN) == 0
  {
    (x + MARGIN) % (WIDTH_TILES as int + MARGIN * 2) - MARGIN
  }

  /** The wrap leaves the columns -2..29 alone. */
  lemma WrapKeepsScreenColumns(x: int)
    requires -MARGIN <= x < WIDTH_TILES as int + MARGIN
    ensures WrapX(x) == x
  {
    assert 0 <= x + MARGIN < WIDTH_TILES as int + 2 * MARGIN;
  }

  /** So applying the wrap twice is applying it once. */
  lemma WrapIdempotent(x: int)
    ensures WrapX(WrapX(x)) == WrapX(x)
  {
    WrapKeepsScreenColumns(WrapX(x));
  }

  /** Columns one screen width (plus margins) apart wrap to the same column. */
  lemma WrapPeriodic(x: int)
    ensures WrapX(x + WIDTH_TILES as int + 2 * MARGIN) == WrapX(x)
  {
    var w := WIDTH_TILES as int + 2 * MARGIN;
    assert (x + w + MARGIN) % w == (x + MARGIN) % w by {
      assert x + w + MARGIN == (x + MARGIN) + 1 * w;
    }
  }

  /** The wrap of a location moves it sideways only. */
  function Wrapped(loc: GridLocation): (r: GridLocation)
    ensures r.y == loc.y && r.x == WrapX(loc.x)
  {
    loc.(x := WrapX(loc.x))
  }

  class Mover {
    var loc: GridLocation
    var dir: Dir
    var nextDir: Option<Dir>
    var moving: Option<GridMoving>
    var start: GridLocation
    var collides: set<Tile>
    var moveRandom: bool
    var spriteIndex: bv64
    var animationTimer: Timer

    function View(): Motion
      reads this
    {
      Motion(loc, dir, nextDir, moving, start, collides, moveRandom, spriteIndex, animationTimer)
    }

    /** `moving_left` with the default MovementBundle: facing Left, already
        half way into the step to the left neighbour, colliding with nothing
        until the spawner sets its Collides set. */
    constructor MovingLeft(location: GridLocation)
      ensures loc == location && dir == Left && start == location
      ensures moving == Some(GridMoving(Shift(location, Left), 0.5, MOVE_MS))
      ensures nextDir.None? && collides == {} && !moveRandom
      ensures spriteIndex == 0 && animationTimer == NewTimer(ActorMovement.ANIMATION_MS, Repeating)
    {
      loc := location;
      dir := Left;
      nextDir := None;
      moving := Some(GridMoving(Shift(location, Left), 0.5, MOVE_MS));
      start := location;
      collides := {};
      moveRandom := false;
      spriteIndex := 0;
      animationTimer := NewTimer(ActorMovement.ANIMATION_MS, Repeating);
    }
  }

  method MoveRandom(layout: Layout, m: Mover, pick: nat)
    requires m.moveRandom && m.moving.None? ==> CanProbeAround(m.loc)
    modifies m
    ensures m.View() == AfterMoveRandom(layout, old(m.View()), pick)
  {
    if m.moveRandom && m.moving.None? {
      var dirs := CollectRandomOptions(m.collides, layout, m.loc, m.dir);
      if |dirs| > 0 {
        m.dir := dirs[pick % |dirs|];
      }
    }
  }

  method MoveDir(layout: Layout, m: Mover)
    requires m.moving.None? ==> InRows(Shift(m.loc, m.dir).y)
    modifies m
    ensures m.View() == AfterMoveDir(layout, old(m.View()))
  {
    if m.moving.None? {
      var newLoc := Shift(m.loc, m.dir);
      if !CollidesAt(m.collides, layout, newLoc) {
        m.moving := Some(GridMoving(newLoc, 0.0, MOVE_MS));
      }
    }
  }

  /** `animate` for an entity mid-step. */
  method Animate(m: Mover, delta: nat)
    modifies m
    ensures m.moving.None? ==> m.View() == old(m.View())
    ensures m.moving.Some? ==>
              m.View() == old(m.View()).(animationTimer := Tick(old(m.animationTimer), delta),
                                         spriteIndex := if Tick(old(m.animationTimer), delta).finished
                                                        then ActorMovement.ToggledIndex(old(m.spriteIndex))
                                                        else old(m.spriteIndex))
  {
    if m.moving.Some? {
      m.animationTimer := Tick(m.animationTimer, delta);
      if m.animationTimer.finished {
        m.spriteIndex := m.spriteIndex ^ 1;
      }
    }
  }

  /** `set_sprite_direction` for an entity whose Dir changed. */
  method SetSpriteDirection(m: Mover, dirChanged: bool)
    modifies m
    ensures m.View() == old(m.View()).(spriteIndex :=
              if dirChanged then ActorMovement.FacedIndex(old(m.dir), old(m.spriteIndex)) else old(m.spriteIndex))
  {
    if dirChanged {
      var index: bv64 := match m.dir
        case Right => 0
        case Left => 2
        case Up => 4
        case Down => 6;
      m.spriteIndex := index | (m.spriteIndex & 1);
    }
  }

  /** `wrap_left_right` writes the column of every entity, wrapped or not,
      so its location counts as changed on every frame: `locChanged` is
      always true. */
  method WrapLeftRight(m: Mover) returns (locChanged: bool)
    modifies m
    ensures m.View() == old(m.View()).(loc := Wrapped(old(m.loc)))
    ensures locChanged
  {
    m.loc := m.loc.(x := (m.loc.x + MARGIN) % (WIDTH_TILES as int + MARGIN * 2) - MARGIN);
    locChanged := true;
  }
}
