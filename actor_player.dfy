/** The player (src/actor/player.rs): keyboard steering, dying on a ghost,
    lives, and the speed the Frightened overlay grants. */
module ActorPlayer {
  import opened Wrappers
  import opened Grid
  import opened ActorMode
  import opened ActorMovement
  import opened ActorGhost

  /** `Lives::default()`. */
  const STARTING_LIVES: nat := 5

  /** `BASE_SPEED`, in pixels per second. */
  const BASE_SPEED: real := 88.0

  /** The arrow keys held down this frame. */
  datatype Keys = Keys(left: bool, right: bool, down: bool, up: bool)

  /** The steering the player asks for: Up beats Down beats Right beats
      Left; with no arrow held the pending direction stays. */
  function Requested(keys: Keys, current: Option<Dir>): (r: Option<Dir>)
    ensures !(keys.left || keys.right || keys.down || keys.up) ==> r == current
    ensures keys.up ==> r == Some(Up)
    ensures !keys.up && keys.down ==> r == Some(Down)
    ensures !keys.up && !keys.down && keys.right ==> r == Some(Right)
    ensures !keys.up && !keys.down && !keys.right && keys.left ==> r == Some(Left)
  {
    if keys.up then Some(Up)
    else if keys.down then Some(Down)
    else if keys.right then Some(Right)
    else if keys.left then Some(Left)
    else current
  }

  /** `player_controls`: one `if` per key, each later one overriding the earlier. */
  method PlayerControls(keys: Keys, player: Mover)
    modifies player
    ensures player.View() == old(player.View()).(nextDir := Requested(keys, old(player.nextDir)))
  {
    if keys.left {
      player.nextDir := Some(Left);
    }
    if keys.right {
      player.nextDir := Some(Right);
    }
    if keys.down {
      player.nextDir := Some(Down);
    }
    if keys.up {
      player.nextDir := Some(Up);
    }
  }

  predicate Deadly(g: GhostState, player: GridLocation)
  {
    Active(g) && g.motion.loc == player
  }

  /** `die_when_touching_ghost`: the number of PlayerDied events sent, one
      exactly when some active ghost is on the player's tile. */
  method DieWhenTouchingGhost(player: GridLocation, ghosts: seq<GhostState>) returns (deaths: nat)
    ensures deaths <= 1
    ensures deaths == 1 <==> exists i | 0 <= i < |ghosts| :: Deadly(ghosts[i], player)
  {
    var i := 0;
    while i < |ghosts|
      invariant 0 <= i <= |ghosts|
      invariant forall j | 0 <= j < i :: !Deadly(ghosts[j], player)
    {
      var g := ghosts[i];
      if Active(g) && player == g.motion.loc {
        return 1;
      }
      i := i + 1;
    }
    return 0;
  }

  /** The Lives resource. */
  class Lives {
    var lives: nat

    constructor ()
      ensures lives == STARTING_LIVES
    {
      lives := STARTING_LIVES;
    }

    /** `lose_life_when_dying`: one life per PlayerDied event, never below zero. */
    method LoseLifeWhenDying(deaths: nat)
      modifies this
      ensures lives == if old(lives) >= deaths then old(lives) - deaths else 0
      ensures old(lives) - lives == if deaths < old(lives) then deaths else old(lives)
    {
      var i := 0;
      while i < deaths
        invariant 0 <= i <= deaths
        invariant lives == if old(lives) >= i then old(lives) - i else 0
      {
        lives := if lives >= 1 then lives - 1 else 0;
        i := i + 1;
      }
    }
  }

  /** The player's speed factor: faster while the ghosts are frightened. */
  function SpeedFactor(fm: FrightenedMode): (f: real)
    ensures f == 0.9 <==> fm == Enabled
    ensures f == 0.8 <==> fm.Disabled?
  {
    if fm == Enabled then 0.9 else 0.8
  }

  /** The player's entity: its movement components and its Speed. */
  class Player {
    const body: Mover
    var speed: real

    /** `spawn_pac_man`: moving left from `location` at the normal factor. */
    constructor Spawn(location: GridLocation)
      ensures fresh(body) && body.loc == location && body.start == location
      ensures body.dir == Left && body.nextDir.None? && body.movingTo == Some(Shift(location, Left))
      ensures speed == BASE_SPEED * SpeedFactor(Disabled)
    {
      body := new Mover.MovingLeft(location);
      speed := BASE_SPEED * 0.8;
    }

    /** `set_speed`: acts only on a change of FrightenedMode. */
    method SetSpeed(fm: FrightenedMode, changed: bool)
      modifies this
      ensures speed == if changed then BASE_SPEED * SpeedFactor(fm) else old(speed)
    {
      if !changed {
        return;
      }
      var newSpeed := if fm == Enabled then 0.9 else 0.8;
      speed := BASE_SPEED * newSpeed;
    }
  }
}
