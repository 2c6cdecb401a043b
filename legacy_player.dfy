/** The player of the earlier snapshot (src/player.rs): the same keyboard
    priority and lives, but any ghost on the player's tile is deadly,
    whatever its state. */
module LegacyPlayer {
  import opened Wrappers
  import opened Grid
  import opened ActorPlayer
  import LegacyMovement
  import LegacyGhost

  method PlayerControls(keys: Keys, player: LegacyMovement.Mover)
    modifies player
    ensures player.View() == old(player.View()).(nextDir := Requested(keys, old(player.nextDir)))
  {
    if keys.left {
      player.nextDir := Some(Left);
    }
    if keys.right {
      player.nextDir := Some(Right);
    }
    if keys.down {
      player.nextDir := Some(Down);
    }
    if keys.up {
      player.nextDir := Some(Up);
    }
  }

  /** One PlayerDied exactly when some ghost, frightened and respawning ones
      included, is on the player's tile. */
  method DieWhenTouchingGhost(player: GridLocation, ghosts: seq<LegacyGhost.GhostState>) returns (deaths: nat)
    ensures deaths <= 1
    ensures deaths == 1 <==> exists i | 0 <= i < |ghosts| :: ghosts[i].motion.loc == player
  {
    var i := 0;
    while i < |ghosts|
      invariant 0 <= i <= |ghosts|
      invariant forall j | 0 <= j < i :: ghosts[j].motion.loc != player
    {
      if player == ghosts[i].motion.loc {
        return 1;
      }
      i := i + 1;
    }
    return 0;
  }
}
