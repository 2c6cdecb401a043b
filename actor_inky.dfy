/** Inky (src/actor/ghost/inky.rs): mirrors Blinky through the tile two
    ahead of the player. */
module ActorInky {
  import opened Wrappers
  import opened Grid
  import Layout
  import opened ActorMode
  import opened ActorGhost

  /** Inky's scatter corner, bottom right. */
  const SCATTER := GridLocation(Layout.WIDTH_TILES as int - 1, 0)

  /** The tile two ahead of the player is the midpoint of Blinky's tile and
      Inky's target, coordinate by coordinate. */
  function ChaseTarget(playerLoc: GridLocation, playerDir: Dir, blinkyLoc: GridLocation): (t: GridLocation)
    ensures var ahead := Walk(playerLoc, playerDir, 2);
            t.x + blinkyLoc.x == 2 * ahead.x && t.y + blinkyLoc.y == 2 * ahead.y
  {
    ShiftByIsWalk(playerLoc, playerDir, 2);
    var ahead := ShiftBy(playerLoc, playerDir, 2);
    GridLocation(2 * ahead.x - blinkyLoc.x, 2 * ahead.y - blinkyLoc.y)
  }

  /** Blinky at (0,0) and the player at (5,0) facing Right give (14,0). */
  lemma ChaseTargetExample()
    ensures ChaseTarget(GridLocation(5, 0), Right, GridLocation(0, 0)) == GridLocation(14, 0)
  {
  }

  /** When Blinky stands on the tile two ahead of the player, Inky aims at it too. */
  lemma ChaseTargetFixedPoint(playerLoc: GridLocation, playerDir: Dir)
    ensures var ahead := ShiftBy(playerLoc, playerDir, 2);
            ChaseTarget(playerLoc, playerDir, ahead) == ahead
  {
  }

  method Spawn(location: GridLocation) returns (g: Ghost)
    ensures fresh(g) && fresh(g.body)
    ensures g.personality == Inky && g.scatterTarget == GridLocation(27, 0)
    ensures g.body.loc == location && g.target == Some(DEFAULT_TARGET) && Active(g.State())
  {
    g := new Ghost.Spawn(Inky, SCATTER, location);
  }

  method Chase(mode: Mode, g: Ghost, playerLoc: GridLocation, playerDir: Dir, blinkyLoc: GridLocation)
    returns (written: bool)
    modifies g
    ensures g.State() == AfterChase(mode, Inky, ChaseTarget(playerLoc, playerDir, blinkyLoc), old(g.State()))
    ensures written <==> g.target != old(g.target)
  {
    var newTarget := ShiftBy(playerLoc, playerDir, 2);
    newTarget := newTarget.(x := newTarget.x + (newTarget.x - blinkyLoc.x));
    newTarget := newTarget.(y := newTarget.y + (newTarget.y - blinkyLoc.y));
    written := ChaseWith(mode, Inky, newTarget, g);
  }
}
