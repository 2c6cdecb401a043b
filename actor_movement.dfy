/** Tile-level movement of the player and the ghosts (src/actor/movement.rs):
    committing a pending direction, starting a move, and the sprite-index bits. */
module ActorMovement {
  import opened Wrappers
  import opened Grid
  import opened Layout
  import opened Timers

  /** The animation timer every moving entity carries: 200 ms, repeating. */
  const ANIMATION_MS: nat := 200

  /** The movement components of one entity: GridLocation, Dir, NextDir,
      MovingTo (the destination tile of the move in progress), StartLocation
      and the sprite's atlas index. */
  datatype Motion = Motion(
    loc: GridLocation,
    dir: Dir,
    nextDir: Option<Dir>,
    movingTo: Option<GridLocation>,
    start: GridLocation,
    spriteIndex: bv64,
    animationTimer: Timer)

  /** `move_dir`: an entity that is not moving starts toward the tile ahead unless it is a wall. */
  function StartMove(layout: Layout, m: Motion): (r: Motion)
    requires m.movingTo.None? ==> InRows(Shift(m.loc, m.dir).y)
    ensures r == m.(movingTo := r.movingTo)
    ensures m.movingTo.Some? ==> r.movingTo == m.movingTo
    ensures m.movingTo.None? ==>
              (r.movingTo.Some? <==> !Collides(layout, Shift(m.loc, m.dir))) &&
              (r.movingTo.Some? ==> r.movingTo.value == Shift(m.loc, m.dir))
  {
    if m.movingTo.Some? then m
    else
      var newLoc := Shift(m.loc, m.dir);
      if !Collides(layout, newLoc) then m.(movingTo := Some(newLoc)) else m
  }

  /** The precondition of `change_to_next_dir`: the tile it probes is on a row. */
  predicate CanCommit(m: Motion)
  {
    m.movingTo.None? && m.nextDir.Some? ==> InRows(Shift(m.loc, m.nextDir.value).y)
  }

  /** `change_to_next_dir`: between moves, Dir takes NextDir when that is
      set and not blocked by a wall. NextDir itself is kept. */
  function CommitNextDir(layout: Layout, m: Motion): (r: Motion)
    requires CanCommit(m)
    ensures r == m.(dir := r.dir)
    ensures m.movingTo.None? && m.nextDir.Some? && !Collides(layout, Shift(m.loc, m.nextDir.value))
            ==> r.dir == m.nextDir.value
    ensures !(m.movingTo.None? && m.nextDir.Some? && !Collides(layout, Shift(m.loc, m.nextDir.value)))
            ==> r == m
  {
    if m.movingTo.None? && m.nextDir.Some? then
      var next := m.nextDir.value;
      if !Collides(layout, Shift(m.loc, next)) && m.dir != next then m.(dir := next) else m
    else m
  }

  lemma CommitNextDirIdempotent(layout: Layout, m: Motion)
    requires CanCommit(m)
    ensures CanCommit(CommitNextDir(layout, m))
    ensures CommitNextDir(layout, CommitNextDir(layout, m)) == CommitNextDir(layout, m)
  {
  }

  /** Atlas row of each facing: Right 0, Left 2, Up 4, Down 6. */
  function SpriteBase(d: Dir): (b: bv64)
    ensures b & 1 == 0 && b <= 6
  {
    match d
    case Right => 0
    case Left => 2
    case Up => 4
    case Down => 6
  }

  lemma SpriteBasesDistinct(d: Dir, e: Dir)
    ensures SpriteBase(d) == SpriteBase(e) <==> d == e
  {
  }

  /** `set_sprite_direction`: the facing's base index with the animation bit kept. */
  function FacedIndex(d: Dir, index: bv64): (r: bv64)
    ensures r & 1 == index & 1
    ensures r & !1 == SpriteBase(d)
  {
    SpriteBase(d) | (index & 1)
  }

  /** `animate`: flip the animation bit. */
  function ToggledIndex(index: bv64): (r: bv64)
    ensures r != index
    ensures r & 1 != index & 1
    ensures r & !1 == index & !1
  {
    index ^ 1
  }

  lemma ToggleTwiceRestores(index: bv64)
    ensures ToggledIndex(ToggledIndex(index)) == index
  {
  }

  /** Animation and facing commute bit for bit: facing after a flip is a flip after facing. */
  lemma FacingKeepsAnimationBit(d: Dir, index: bv64)
    ensures FacedIndex(d, ToggledIndex(index)) == ToggledIndex(FacedIndex(d, index))
  {
  }

  /** `animate`: an entity with a move in progress ticks its animation timer
      and flips the animation bit when the timer has just finished; a
      stationary entity is untouched. */
  function Animated(m: Motion, delta: nat): (r: Motion)
    ensures m.movingTo.None? ==> r == m
    ensures m.movingTo.Some? ==>
              r == m.(animationTimer := Tick(m.animationTimer, delta), spriteIndex := r.spriteIndex)
    ensures m.movingTo.Some? ==>
              (r.spriteIndex != m.spriteIndex <==> Tick(m.animationTimer, delta).finished)
  {
    if m.movingTo.None? then m
    else
      var t := Tick(m.animationTimer, delta);
      var index := if t.finished then ToggledIndex(m.spriteIndex) else m.spriteIndex;
      m.(animationTimer := t, spriteIndex := index)
  }

  /** The components of one moving entity, updated in place by the systems below. */
  class Mover {
    var loc: GridLocation
    var dir: Dir
    var nextDir: Option<Dir>
    var movingTo: Option<GridLocation>
    var start: GridLocation
    var spriteIndex: bv64
    var animationTimer: Timer

    function View(): Motion
      reads this
    {
      Motion(loc, dir, nextDir, movingTo, start, spriteIndex, animationTimer)
    }

    /** `moving_left`: an entity at `location`, facing Left, with no pending
        direction, already moving to the tile on its left, and remembering
        `location` as its start; the animation timer is a fresh repeating
        200 ms one. */
    constructor MovingLeft(location: GridLocation)
      ensures loc == location && dir == Left && nextDir == None
      ensures movingTo == Some(Shift(location, Left)) && start == location
      ensures spriteIndex == 0 && animationTimer == NewTimer(ANIMATION_MS, Repeating)
    {
      loc := location;
      dir := Left;
      nextDir := None;
      movingTo := Some(Shift(location, Left));
      start := location;
      spriteIndex := 0;
      animationTimer := NewTimer(ANIMATION_MS, Repeating);
    }
  }

  method MoveDir(layout: Layout, m: Mover)
    requires m.movingTo.None? ==> InRows(Shift(m.loc, m.dir).y)
    modifies m
    ensures m.View() == StartMove(layout, old(m.View()))
  {
    if m.movingTo.None? {
      var newLoc := Shift(m.loc, m.dir);
      if !Collides(layout, newLoc) {
        m.movingTo := Some(newLoc);
      }
    }
  }

  /** Returns whether Dir was written (its change flag). */
  method ChangeToNextDir(layout: Layout, m: Mover) returns (dirChanged: bool)
    requires CanCommit(m.View())
    modifies m
    ensures m.View() == CommitNextDir(layout, old(m.View()))
    ensures dirChanged <==> m.dir != old(m.dir)
  {
    dirChanged := false;
    if m.movingTo.None? {
      if m.nextDir.Some? {
        var next := m.nextDir.value;
        if !Collides(layout, Shift(m.loc, next)) && m.dir != next {
          m.dir := next;
          dirChanged := true;
        }
      }
    }
  }

  method Animate(m: Mover, delta: nat)
    modifies m
    ensures m.View() == Animated(old(m.View()), delta)
  {
    if m.movingTo.Some? {
      m.animationTimer := Tick(m.animationTimer, delta);
      if m.animationTimer.finished {
        m.spriteIndex := m.spriteIndex ^ 1;
      }
    }
  }

  /** `set_sprite_direction` for an entity whose Dir changed. */
  method SetSpriteDirection(m: Mover, dirChanged: bool)
    modifies m
    ensures m.View() == old(m.View()).(spriteIndex :=
              if dirChanged then FacedIndex(old(m.dir), old(m.spriteIndex)) else old(m.spriteIndex))
  {
    if dirChanged {
      var index: bv64 := match m.dir
        case Right => 0
        case Left => 2
        case Up => 4
        case Down => 6;
      m.spriteIndex := index | (m.spriteIndex & 1);
    }
  }
}
