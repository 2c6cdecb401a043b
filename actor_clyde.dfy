/** Clyde (src/actor/ghost/clyde.rs): chases the player from afar and
    retreats to his corner within eight tiles. */
module ActorClyde {
  import opened Wrappers
  import opened Grid
  import opened ActorMode
  import opened ActorGhost

  /** Clyde's scatter corner, bottom left. */
  const SCATTER := GridLocation(0, 0)

  /** The shyness radius, squared. */
  const SHY_RADIUS_SQUARED: int := 8 * 8

  function ChaseTarget(playerLoc: GridLocation, clydeLoc: GridLocation): (t: GridLocation)
    ensures t == playerLoc <==> DistanceSquared(playerLoc, clydeLoc) > 64 || playerLoc == SCATTER
    ensures t == playerLoc || t == SCATTER
  {
    if DistanceSquared(playerLoc, clydeLoc) > SHY_RADIUS_SQUARED then playerLoc else SCATTER
  }

  /** Exactly eight tiles away counts as near: Clyde heads for his corner. */
  lemma ChaseTargetAtRadius(playerLoc: GridLocation)
    ensures ChaseTarget(playerLoc, ShiftBy(playerLoc, Up, 8)) == SCATTER
    ensures ChaseTarget(playerLoc, ShiftBy(playerLoc, Up, 9)) == playerLoc
  {
    ShiftByDistance(playerLoc, Up, 8);
    ShiftByDistance(playerLoc, Up, 9);
  }

  method Spawn(location: GridLocation) returns (g: Ghost)
    ensures fresh(g) && fresh(g.body)
    ensures g.personality == Clyde && g.scatterTarget == GridLocation(0, 0)
    ensures g.body.loc == location && g.target == Some(DEFAULT_TARGET) && Active(g.State())
  {
    g := new Ghost.Spawn(Clyde, SCATTER, location);
  }

  method Chase(mode: Mode, g: Ghost, playerLoc: GridLocation) returns (written: bool)
    modifies g
    ensures g.State() == AfterChase(mode, Clyde, ChaseTarget(playerLoc, old(g.body.loc)), old(g.State()))
    ensures written <==> g.target != old(g.target)
  {
    var dist := DistanceSquared(playerLoc, g.body.loc);
    var newTarget := if dist > SHY_RADIUS_SQUARED then playerLoc else SCATTER;
    written := ChaseWith(mode, Clyde, newTarget, g);
  }
}
