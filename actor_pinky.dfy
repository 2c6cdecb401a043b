/** Pinky (src/actor/ghost/pinky.rs): aims four tiles ahead of the player. */
module ActorPinky {
  import opened Grid
  import opened Wrappers
  import Layout
  import opened ActorMode
  import opened ActorGhost

  /** Pinky's scatter corner, near the top left. */
  const SCATTER := GridLocation(2, Layout.HEIGHT_TILES as int - 1)

  function ChaseTarget(playerLoc: GridLocation, playerDir: Dir): (t: GridLocation)
    ensures DistanceSquared(playerLoc, t) == 16
    ensures t == Walk(playerLoc, playerDir, 4)
  {
    ShiftByDistance(playerLoc, playerDir, 4);
    ShiftByIsWalk(playerLoc, playerDir, 4);
    ShiftBy(playerLoc, playerDir, 4)
  }

  method Spawn(location: GridLocation) returns (g: Ghost)
    ensures fresh(g) && fresh(g.body)
    ensures g.personality == Pinky && g.scatterTarget == GridLocation(2, 35)
    ensures g.body.loc == location && g.target == Some(DEFAULT_TARGET) && Active(g.State())
  {
    g := new Ghost.Spawn(Pinky, SCATTER, location);
  }

  method Chase(mode: Mode, g: Ghost, playerLoc: GridLocation, playerDir: Dir) returns (written: bool)
    modifies g
    ensures g.State() == AfterChase(mode, Pinky, ChaseTarget(playerLoc, playerDir), old(g.State()))
    ensures written <==> g.target != old(g.target)
  {
    var newTarget := ShiftBy(playerLoc, playerDir, 4);
    written := ChaseWith(mode, Pinky, newTarget, g);
  }
}
