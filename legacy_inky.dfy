/** Inky in the earlier snapshot (src/ghost/inky.rs): the same target as in
    the newer tree, for every Inky with a Target. */
module LegacyInky {
  import opened Wrappers
  import opened Grid
  import Layout
  import ActorGhost
  import ActorInky
  import opened LegacyMode
  import opened LegacyGhost

  const SCATTER := GridLocation(Layout.WIDTH_TILES as int - 1, 0)

  method Spawn(location: GridLocation) returns (g: Ghost)
    ensures fresh(g) && fresh(g.body)
    ensures g.personality == ActorGhost.Inky && g.scatterTarget == GridLocation(27, 0)
    ensures g.body.loc == location && g.target == Some(DEFAULT_TARGET)
  {
    g := new Ghost.Spawn(ActorGhost.Inky, SCATTER, location);
  }

  method Chase(mode: Mode, g: Ghost, playerLoc: GridLocation, playerDir: Dir, blinkyLoc: GridLocation)
    returns (written: bool)
    modifies g
    ensures g.State() == AfterChase(mode, ActorGhost.Inky, false,
                                    ActorInky.ChaseTarget(playerLoc, playerDir, blinkyLoc), old(g.State()))
    ensures written <==> g.target != old(g.target)
  {
    var newTarget := ShiftBy(playerLoc, playerDir, 2);
    newTarget := newTarget.(x := newTarget.x + (newTarget.x - blinkyLoc.x));
    newTarget := newTarget.(y := newTarget.y + (newTarget.y - blinkyLoc.y));
    written := ChaseWith(mode, ActorGhost.Inky, false, newTarget, g);
  }
}
