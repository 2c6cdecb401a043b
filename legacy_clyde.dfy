/** Clyde in the earlier snapshot (src/ghost/clyde.rs): the same target as
    in the newer tree, for every Clyde with a Target. */
module LegacyClyde {
  import opened Wrappers
  import opened Grid
  import ActorGhost
  import ActorClyde
  import opened LegacyMode
  import opened LegacyGhost

  const SCATTER := GridLocation(0, 0)

  method Spawn(location: GridLocation) returns (g: Ghost)
    ensures fresh(g) && fresh(g.body)
    ensures g.personality == ActorGhost.Clyde && g.scatterTarget == GridLocation(0, 0)
    ensures g.body.loc == location && g.target == Some(DEFAULT_TARGET)
  {
    g := new Ghost.Spawn(ActorGhost.Clyde, SCATTER, location);
  }

  method Chase(mode: Mode, g: Ghost, playerLoc: GridLocation) returns (written: bool)
    modifies g
    ensures g.State() == AfterChase(mode, ActorGhost.Clyde, false,
                                    ActorClyde.ChaseTarget(playerLoc, old(g.body.loc)), old(g.State()))
    ensures written <==> g.target != old(g.target)
  {
    var dist := DistanceSquared(playerLoc, g.body.loc);
    var newTarget := if dist > 8 * 8 then playerLoc else SCATTER;
    written := ChaseWith(mode, ActorGhost.Clyde, false, newTarget, g);
  }
}
