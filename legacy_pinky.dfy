/** Pinky in the earlier snapshot (src/ghost/pinky.rs): the same target as
    in the newer tree, for every Pinky with a Target. */
module LegacyPinky {
  import opened Wrappers
  import opened Grid
  import Layout
  import ActorGhost
  import ActorPinky
  import opened LegacyMode
  import opened LegacyGhost

  const SCATTER := GridLocation(2, Layout.HEIGHT_TILES as int - 1)

  method Spawn(location: GridLocation) returns (g: Ghost)
    ensures fresh(g) && fresh(g.body)
    ensures g.personality == ActorGhost.Pinky && g.scatterTarget == GridLocation(2, 35)
    ensures g.body.loc == location && g.target == Some(DEFAULT_TARGET)
  {
    g := new Ghost.Spawn(ActorGhost.Pinky, SCATTER, location);
  }

  method Chase(mode: Mode, g: Ghost, playerLoc: GridLocation, playerDir: Dir) returns (written: bool)
    modifies g
    ensures g.State() == AfterChase(mode, ActorGhost.Pinky, false, ActorPinky.ChaseTarget(playerLoc, playerDir), old(g.State()))
    ensures written <==> g.target != old(g.target)
  {
    var newTarget := ShiftBy(playerLoc, playerDir, 4);
    written := ChaseWith(mode, ActorGhost.Pinky, false, newTarget, g);
  }
}
