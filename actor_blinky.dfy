/** Blinky (src/actor/ghost/blinky.rs): chases the player's own tile. */
module ActorBlinky {
  import opened Grid
  import opened Wrappers
  import Layout
  import opened ActorMode
  import opened ActorGhost

  /** Blinky's scatter corner, near the top right. */
  const SCATTER := GridLocation(Layout.WIDTH_TILES as int - 3, Layout.HEIGHT_TILES as int - 1)

  method Spawn(location: GridLocation) returns (g: Ghost)
    ensures fresh(g) && fresh(g.body)
    ensures g.personality == Blinky && g.scatterTarget == GridLocation(25, 35)
    ensures g.body.loc == location && g.target == Some(DEFAULT_TARGET) && Active(g.State())
  {
    g := new Ghost.Spawn(Blinky, SCATTER, location);
  }

  method Chase(mode: Mode, g: Ghost, playerLoc: GridLocation) returns (written: bool)
    modifies g
    ensures g.State() == AfterChase(mode, Blinky, playerLoc, old(g.State()))
    ensures written <==> g.target != old(g.target)
  {
    written := ChaseWith(mode, Blinky, playerLoc, g);
  }
}
