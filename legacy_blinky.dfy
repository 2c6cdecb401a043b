/** Blinky in the earlier snapshot (src/ghost/blinky.rs): the one chase
    limited to active ghosts. */
module LegacyBlinky {
  import opened Wrappers
  import opened Grid
  import Layout
  import ActorGhost
  import opened LegacyMode
  import opened LegacyGhost

  const SCATTER := GridLocation(Layout.WIDTH_TILES as int - 3, Layout.HEIGHT_TILES as int - 1)

  /** `GhostSpawner::spawn::<Blinky>`. */
  method Spawn(location: GridLocation) returns (g: Ghost)
    ensures fresh(g) && fresh(g.body)
    ensures g.personality == ActorGhost.Blinky && g.scatterTarget == GridLocation(25, 35)
    ensures g.body.loc == location && g.target == Some(DEFAULT_TARGET)
  {
    g := new Ghost.Spawn(ActorGhost.Blinky, SCATTER, location);
  }

  method Chase(mode: Mode, g: Ghost, playerLoc: GridLocation) returns (written: bool)
    modifies g
    ensures g.State() == AfterChase(mode, ActorGhost.Blinky, true, playerLoc, old(g.State()))
    ensures written <==> g.target != old(g.target)
  {
    written := ChaseWith(mode, ActorGhost.Blinky, true, playerLoc, g);
  }
}
