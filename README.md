# Pac-Man game logic in Dafny

This project models the tile-level game logic of aelred/pac-man, a Pac-Man
clone in Rust on the Bevy engine, and proves properties of it.

The repository carries two generations of the same game, and both are modelled:

- **The current generation** (`src/actor/…`, `src/food.rs`, `src/score.rs`, `src/layout.rs`,
  `src/grid.rs`):
  - the Scatter/Chase timetable and the Frightened overlay;
  - tile movement and the sprite-index bits;
  - the ghost systems (`choose_next_dir`, `scatter`, `become_frightened` / `stop_frightened`,
    `frightened`, respawning, and the four personalities' `chase` targets);
  - the player systems (controls, death, lives, speed);
  - eating food, scoring and the high score.
- **The older generation** (`src/movement.rs`, `src/mode.rs`, `src/ghost/…`,
  `src/player.rs`, and the earliest `src/ghost.rs`). Here:
  - Frightened is a third `Mode`;
  - movement is driven by a `Collides` tile set;
  - random walkers pick among the non-reversing open directions;
  - a wrap-around system folds the column into the screen.

Each Bevy system is modelled for one entity its query selects, because the
entities do not interact within a system. The engine's change detection
(`Changed<…>`, `is_changed()`) becomes explicit boolean parameters.
Components become fields:

- an entity whose components are updated in place is a `class` (`Mover`, `Ghost`,
  `Player`, `Lives`, `Scoreboard`, `World`, `ModeController`);
- each class has a view datatype (`Motion`, `GhostState`, `ModeState`);
- specification functions on the view (`AfterScatter`, `AfterFrightened`, …) say
  what one system does to one entity;
- every system method that updates a class is proved equal to its specification function;
- lemmas state what the specification functions mean.

Shared steering logic lives in `Steering`: the running-best scan is shown to
pick the first direction, in the order Up, Left, Down, Right, whose admissible
tile is strictly nearest the target. It serves both generations of
`closest_dir_to_target` and the earliest `choose_next_dir`.

Modules:

- **Shared:**
  - `Wrappers`, `Grid`, `Layout`, `Timers`, `Steering`;
  - `ActorMode`, `ActorMovement`, `ActorGhost`;
  - `ActorBlinky`, `ActorPinky`, `ActorInky`, `ActorClyde`;
  - `ActorPlayer`, `Score`, `Food`.
- **Older generation:**
  - `LegacyMode`, `LegacyMovement`, `LegacyGhost`;
  - `LegacyBlinky`, `LegacyPinky`, `LegacyInky`, `LegacyClyde`;
  - `LegacyPlayer`;
  - `EarliestGhost` (for `src/ghost.rs`).

Where this model interprets while the source stays silent or inconsistent:

- **src/ghost/mod.rs and `ActiveGhost`.** It does not define `ActiveGhost`, yet src/ghost/blinky.rs
  filters on it. The model reads it as "not respawning and not frightened", which is the current
  generation's definition without the `InHouse` component, which that generation does not have.
- **src/movement.rs and `NextDir`.** It does not define `NextDir`, yet src/ghost/mod.rs and
  src/player.rs use it. The older `Mover` carries a `nextDir` field for them.
- **The older grid and `GridMoving`.** The older grid module is not part of this model. A
  `GridMoving` built with `..default()` is taken to start at progress 0.
- **The engine `Timer`.** Its behaviour is an assumption, stated at the head of `Timers`:
  - a paused timer does not advance;
  - a paused repeating timer reports not finished;
  - a finished one-shot timer stays finished until it is reset.

## Model

| member | source | states |
|---|---|---|
| Grid.Rank | src/actor/ghost/mod.rs:150 | every direction has a position in the tie-break order Up, Left, Down, Right |
| Grid.DistanceSquared | src/actor/ghost/mod.rs:332-334 | the squared distance is never negative and is zero exactly on the same tile |
| Grid.ShiftByOffsets | src/grid.rs:126-137 | Left is -x, Right +x, Down -y, Up +y, by the given amount |
| Grid.ShiftByAdditive | src/grid.rs:126-137 | shifting by a then by b is shifting by a + b |
| Grid.ShiftOppositeCancels | src/grid.rs:126-137 | a shift followed by the opposite shift returns to the start |
| Grid.ShiftByMovesOneAxis | src/grid.rs:126-137 | a shift changes one coordinate only; a non-zero shift always moves |
| Grid.ShiftByDistance | src/grid.rs:126-137 | a shift by a lands at squared distance a² |
| Grid.ShiftByIsWalk | src/grid.rs:122-137 | a shift by n equals n single-tile shifts |
| Grid.ToUnscaledVec2 | src/grid.rs:139-141 | the vector holds the tile's own coordinates |
| Layout.Get | src/layout.rs:51-53 | a lookup needs a row in 0..36 and clamps the column into 0..27 |
| Layout.GetClampsColumns | src/layout.rs:51-53 | every column left of the maze reads column 0, and every column right of it reads column 27 |
| Layout.OnlyWallsCollide | src/layout.rs:55-57 | only a Wall tile collides; doors, dots, empty tiles and the rest never do |
| Layout.DecodeEncode | src/layout.rs:33-44 | every tile has a byte that decodes back to it |
| Layout.EncodeDecode | src/layout.rs:33-44 | exactly the bytes 0x01, 0x02 and 0x04–0x0A decode to a tile; every other byte is empty |
| Layout.LittleEndianU32 | src/layout.rs:27 | the header offset is the little-endian u32 of the four header bytes: it is below 2³², and byte i of it is the i-th header byte |
| Layout.DecodeRows | src/layout.rs:29-46 | the row loops succeed iff the image data from the offset holds a full grid, fail with ImageDataTooShort otherwise, and fill row r, column c from byte offset + 28·r + c |
| Layout.Load | src/layout.rs:20-49 | decoding fails on a short header, on an offset past the end, or when the image data runs out; on success, row r, column c is byte offset + 28·r + c |
| Timers.Tick | src/actor/mode.rs:78-95 | a running timer finishes when its elapsed time reaches the duration, and a paused one does not advance |
| Timers.Reset | src/actor/mode.rs:89-93 | a reset clears the elapsed time and the finished flag and keeps the rest |
| Steering.ScanFindsFirstMinimum | src/actor/ghost/mod.rs:325-342 | the running-best scan returns the first admissible candidate with the strictly smallest distance, and nothing exactly when none is admissible |
| Steering.ChosenDirSpec | src/actor/ghost/mod.rs:328-339 | over the four ordered candidates, the chosen direction is admissible, is nearest, and no earlier direction is as near |
| Steering.ClosestDir | src/actor/ghost/mod.rs:319-343 | returns None iff no neighbour is open and different from the original tile; otherwise the returned one is open, is not the original tile, is at least as near as every admissible one, and is strictly nearer than every admissible one of lower rank |
| Steering.ClosestDirNeverUTurns | src/actor/ghost/mod.rs:336 | with an original tile given, the chosen neighbour is never that tile |
| Steering.TieGoesToEarliest | src/actor/ghost/mod.rs:336 | in an empty maze, a four-way tie goes to Up, because only a strictly nearer candidate replaces the best |
| Steering.TieSkipsOrigin | src/actor/ghost/mod.rs:336 | when Up is the tile the ghost came from, the tie goes to Left |
| ActorMode.ModeTableShape | src/actor/mode.rs:122-131 | eight entries alternating Scatter and Chase from Scatter; only the last is infinite |
| ActorMode.InitialState | src/actor/mode.rs:37-76 | the game starts in Scatter at entry 0 with a repeating 7 s timer, Frightened disabled and its 6 s timer paused |
| ActorMode.ModeState.TickModeAsWritten | src/actor/mode.rs:78-95 | as written, tick_mode panics exactly when the mode timer finishes at the last entry |
| ActorMode.ModeState.TickMode | src/actor/mode.rs:78-95 | below the last entry it behaves as the source; at the last entry the index and mode never change |
| ActorMode.ModeState.StartFrightenedTimer | src/actor/mode.rs:97-107 | on a change to Enabled it pauses the mode timer and restarts the frightened timer from zero; otherwise it changes nothing |
| ActorMode.ModeState.TickFrightened | src/actor/mode.rs:109-120 | when the frightened timer finishes, FrightenedMode becomes Disabled, the mode timer resumes and the frightened timer pauses; otherwise only the frightened timer advances |
| ActorMode.InitialSatisfiesInv | src/actor/mode.rs:37-76 | the initial resources satisfy the timetable invariant |
| ActorMode.TickModeAdvances | src/actor/mode.rs:78-95 | a finish below the last entry moves to the next entry with its mode and duration, and the infinite entry resets and pauses the timer |
| ActorMode.FramePreservesInv | src/actor/mode.rs:8-22 | a whole frame of the mode systems, in their scheduled order, preserves the invariant |
| ActorMode.LastEntryIsPermanent | src/actor/mode.rs:130 | once the infinite entry is reached, the mode is Chase for good (corrected tick_mode) |
| ActorMode.FrightenedNeverChangesMode | src/actor/mode.rs:97-120 | neither frightened system touches the mode or the table index |
| ActorMode.RetriggerRestartsFrightened | src/actor/mode.rs:97-107 | a second energizer restarts the full 6 s |
| ActorMode.EnergizerFreezesModeTimer | src/actor/mode.rs:97-107 | the frame an energizer is eaten freezes the mode timer at the time it had reached |
| ActorMode.FrightenedFrameHoldsModeTimer | src/actor/mode.rs:109-120 | before the 6 s are up, a frame advances only the frightened timer |
| ActorMode.FrightenedExpiryResumes | src/actor/mode.rs:109-120 | when the 6 s are up, the mode timer resumes exactly where it was frozen |
| ActorMode.FinishPhase | src/actor/mode.rs:78-95 | a phase played to its end without an energizer begins the next entry, and entry 6 ends in the paused last entry |
| ActorMode.RunFromPhase | src/actor/mode.rs:78-95 | from the start of any phase, playing the rest of the timetable reaches the last entry |
| ActorMode.ReachLastEntry | src/actor/mode.rs:78-95 | playing 84 s without energizers reaches the last entry with a paused timer that still holds the 5 s duration of entry 6 |
| ActorMode.FrightenedEpisodeAtLastEntryPanics | src/actor/mode.rs:109-119 | at the last entry, an energizer followed by its expiry resumes the timer, and one duration later tick_mode as written panics |
| ActorMode.PermanentChaseEndsInPanic | src/actor/mode.rs:78-95 | as written, the permanent Chase entry ends in a panic after 84 s of play, an energizer, 6 s and 5 s more |
| ActorMode.ModeController.TickMode | src/actor/mode.rs:78-95 | the resource update equals the corrected tick_mode |
| ActorMode.ModeController.StartFrightenedTimer | src/actor/mode.rs:97-107 | the resource update equals the specification function |
| ActorMode.ModeController.TickFrightened | src/actor/mode.rs:109-120 | the resource update equals the specification function, and the flag says whether FrightenedMode was written |
| ActorMovement.StartMove | src/actor/movement.rs:95-108 | a stationary entity starts moving to the tile ahead exactly when it is not a wall; nothing else changes |
| ActorMovement.CommitNextDir | src/actor/movement.rs:110-121 | between moves, Dir takes NextDir exactly when it is set and its tile is not a wall; nothing else changes |
| ActorMovement.CommitNextDirIdempotent | src/actor/movement.rs:110-121 | committing a second time changes nothing |
| ActorMovement.SpriteBase | src/actor/movement.rs:136-147 | each facing's atlas base is even and at most 6 |
| ActorMovement.SpriteBasesDistinct | src/actor/movement.rs:136-147 | different facings have different bases |
| ActorMovement.FacedIndex | src/actor/movement.rs:136-147 | facing sets the base and keeps the animation bit |
| ActorMovement.ToggledIndex | src/actor/movement.rs:123-134 | animating flips the animation bit only |
| ActorMovement.ToggleTwiceRestores | src/actor/movement.rs:123-134 | two flips restore the index |
| ActorMovement.FacingKeepsAnimationBit | src/actor/movement.rs:123-147 | facing and animating commute |
| ActorMovement.Animated | src/actor/movement.rs:123-134 | only a moving entity animates; the index changes exactly when its timer has just finished |
| ActorMovement.Mover.MovingLeft | src/actor/movement.rs:81-93 | a new entity faces Left, is already moving to the tile on its left, and remembers its start |
| ActorMovement.MoveDir | src/actor/movement.rs:95-108 | the update equals StartMove |
| ActorMovement.ChangeToNextDir | src/actor/movement.rs:110-121 | the update equals CommitNextDir, and the returned flag is Dir's change flag |
| ActorMovement.Animate | src/actor/movement.rs:123-134 | the update equals Animated |
| ActorMovement.SetSpriteDirection | src/actor/movement.rs:136-147 | on a Dir change the sprite index becomes the faced index |
| ActorGhost.ClosestDirToTarget | src/actor/ghost/mod.rs:319-343 | the loop with its f32::MAX start returns ClosestDir |
| ActorGhost.ChooseNextDirEffect | src/actor/ghost/mod.rs:153-169 | a ghost that has just entered a tile, has a Target and is not frightened gets as NextDir the open neighbour of the tile ahead nearest the Target, never its own tile; otherwise nothing changes |
| ActorGhost.ChooseNextDir | src/actor/ghost/mod.rs:153-169 | the update equals AfterChooseNextDir |
| ActorGhost.ScatterEffect | src/actor/ghost/mod.rs:171-190 | in Scatter, every active ghost with a Target aims at its corner; otherwise nothing changes; scattering twice is scattering once |
| ActorGhost.Scatter | src/actor/ghost/mod.rs:171-190 | the update equals AfterScatter |
| ActorGhost.FrightenedTransitions | src/actor/ghost/mod.rs:192-237 | on a change to Enabled, an active ghost gains Frightened and Food 200 and loses its Target; on a change to Disabled, a frightened ghost loses both and gets the default Target; nothing else changes |
| ActorGhost.FrightenedRoundTrip | src/actor/ghost/mod.rs:192-237 | becoming frightened and then stopping leaves an active ghost active, with only its Target reset |
| ActorGhost.BecomeFrightened | src/actor/ghost/mod.rs:192-215 | the update equals AfterBecomeFrightened |
| ActorGhost.StopFrightened | src/actor/ghost/mod.rs:217-237 | the update equals AfterStopFrightened |
| ActorGhost.FirstOpen | src/actor/ghost/mod.rs:253-268 | returns the first direction in the order that is admissible from the tile ahead, or None iff none is |
| ActorGhost.FrightenedEffect | src/actor/ghost/mod.rs:239-270 | a frightened ghost takes the random direction when it is admissible, otherwise the first admissible one of Up, Left, Down, Right; it keeps NextDir when none is |
| ActorGhost.FirstOpenDir | src/actor/ghost/mod.rs:260-268 | the candidate loop with its early break returns FirstOpen |
| ActorGhost.Frightened | src/actor/ghost/mod.rs:239-270 | the update equals AfterFrightened |
| ActorGhost.RespawnEffect | src/actor/ghost/mod.rs:272-317 | an eaten ghost respawns: not frightened, no Food, aiming at its start, and, when a neighbour is open, facing the open neighbour nearest the start, the earliest of Up, Left, Down, Right on ties; it stops respawning exactly when it enters its start tile |
| ActorGhost.StartRespawningEatenGhost | src/actor/ghost/mod.rs:272-299 | the update equals AfterStartRespawning |
| ActorGhost.FinishRespawningEatenGhost | src/actor/ghost/mod.rs:301-317 | the update equals AfterFinishRespawning |
| ActorGhost.ChaseEffect | src/actor/ghost/blinky.rs:25-41 | in Chase, an active ghost of the personality with a Target aims at the new target; otherwise nothing changes; the effect is idempotent and keeps the ghost coherent |
| ActorGhost.ChaseWith | src/actor/ghost/blinky.rs:31-40 | the update equals AfterChase, and the flag says whether the Target was written |
| ActorGhost.SystemsKeepCoherent | src/actor/ghost/mod.rs:137-148 | every ghost system keeps Frightened and Food together, keeps a frightened ghost without a Target, and never makes a ghost both respawning and frightened |
| ActorGhost.Ghost.Spawn | src/actor/ghost/assets.rs:12-38 | a new ghost moves left with its corner, the default Target and nothing pending, and is active and coherent |
| ActorBlinky.Spawn | src/actor/ghost/blinky.rs:18-21 | Blinky's corner is (25, 35) |
| ActorBlinky.Chase | src/actor/ghost/blinky.rs:25-41 | Blinky targets the player's tile |
| ActorPinky.ChaseTarget | src/actor/ghost/pinky.rs:23-40 | Pinky targets four tiles ahead of the player, at squared distance 16 |
| ActorPinky.Spawn | src/actor/ghost/pinky.rs:16-19 | Pinky's corner is (2, 35) |
| ActorPinky.Chase | src/actor/ghost/pinky.rs:23-40 | Pinky's Target becomes ChaseTarget |
| ActorInky.ChaseTarget | src/actor/ghost/inky.rs:20-42 | the tile two ahead of the player is the midpoint between Blinky and Inky's target |
| ActorInky.ChaseTargetExample | src/actor/ghost/inky.rs:20-42 | with the player at (5, 0) facing Right and Blinky at (0, 0), the target is (14, 0) |
| ActorInky.ChaseTargetFixedPoint | src/actor/ghost/inky.rs:20-42 | with Blinky on the tile two ahead of the player, Inky targets that tile |
| ActorInky.Spawn | src/actor/ghost/inky.rs:13-16 | Inky's corner is (27, 0) |
| ActorInky.Chase | src/actor/ghost/inky.rs:20-42 | Inky's Target becomes ChaseTarget |
| ActorClyde.ChaseTarget | src/actor/ghost/clyde.rs:17-43 | Clyde targets the player exactly when farther than 8 tiles (squared 64), or when the player stands on the corner, and the corner otherwise |
| ActorClyde.ChaseTargetAtRadius | src/actor/ghost/clyde.rs:17-43 | for every player tile, at distance 8 Clyde goes to his corner, and at distance 9 he chases |
| ActorClyde.Spawn | src/actor/ghost/clyde.rs:13 | Clyde's corner is (0, 0) |
| ActorClyde.Chase | src/actor/ghost/clyde.rs:17-43 | Clyde's Target becomes ChaseTarget |
| ActorPlayer.Requested | src/actor/player.rs:53-71 | with no key held NextDir is kept; otherwise Up beats Down, Down beats Right and Right beats Left, as the last of the sequential ifs wins |
| ActorPlayer.PlayerControls | src/actor/player.rs:53-71 | only NextDir changes, to Requested |
| ActorPlayer.DieWhenTouchingGhost | src/actor/player.rs:73-86 | at most one death per frame, and exactly one iff an active ghost shares the player's tile |
| ActorPlayer.Lives.constructor | src/actor/player.rs:45-49 | the game starts with 5 lives |
| ActorPlayer.Lives.LoseLifeWhenDying | src/actor/player.rs:88-93 | each death costs a life, saturating at zero |
| ActorPlayer.SpeedFactor | src/actor/player.rs:95-107 | the factor is 0.9 iff Frightened is enabled and 0.8 iff it is disabled |
| ActorPlayer.Player.Spawn | src/level.rs:188-204 | Pac-Man starts moving left at 0.8 of the base speed |
| ActorPlayer.Player.SetSpeed | src/actor/player.rs:95-107 | the speed changes only when FrightenedMode changed |
| Food.FoodAt | src/food.rs:44-50 | the eaten entities at one tile are exactly the food there, in entity order |
| Food.EatOnePlayer | src/food.rs:39-51 | one player eats exactly the food on its tile |
| Food.FoodOnTile | src/food.rs:45-49 | the inner loop collects exactly the food on one tile, in entity order |
| Food.Eat | src/food.rs:39-51 | the outer loop emits, player by player, the food on each player's tile |
| Food.Points | src/food.rs:61-65 | the points of a batch are defined exactly when every eaten entity is food |
| Food.PointsAppend | src/food.rs:61-65 | the points of two batches add up |
| Food.PointsPrefix | src/food.rs:61-65 | a prefix of a batch is worth no more than the batch |
| Food.AddScore | src/food.rs:61-65 | succeeds iff every eaten entity is food and the sum fits in u32; on success the score grows by exactly the points |
| Food.EatEnergizer | src/food.rs:67-77 | FrightenedMode is written, to Enabled, iff an energizer was eaten |
| Food.Despawned | src/food.rs:53-59 | an eaten entity disappears unless it is a ghost; all others stay |
| Food.World.Destroy | src/food.rs:53-59 | the update equals Despawned |
| Score.Scoreboard.Add | src/score.rs:31-35 | the score grows by the points and the high score is untouched |
| Score.Scoreboard.UpdateHighScore | src/score.rs:46-50 | the high score rises to the score when that changed and is higher, and never falls |
| Score.HighAfter | src/score.rs:46-50 | the high score never falls, and after a frame whose score changed it is at least the score |
| Score.HighScoreMonotone | src/score.rs:46-50 | over any run, the high score after a prefix is at most the high score after the whole run |
| LegacyMovement.ReverseInvolution | src/movement.rs:39-46 | reversing twice is the identity, and no direction is its own reverse |
| LegacyMovement.CollidesAtSpec | src/movement.rs:55-58 | a tile collides for an entity iff its tile is in the entity's Collides set; with {Wall} this is the layout's own collision |
| LegacyMovement.RandomOptions | src/movement.rs:93-98 | the options are exactly the open, non-reversing directions, and there are at most as many as directions tried |
| LegacyMovement.CollectRandomOptions | src/movement.rs:93-98 | the push loop builds RandomOptions |
| LegacyMovement.MoveRandomEffect | src/movement.rs:86-103 | a random walker between steps takes one of the options, never reversing and never into a colliding tile, and keeps Dir when there is none |
| LegacyMovement.MoveRandomCanPickAny | src/movement.rs:99-101 | every option can be chosen by some random pick |
| LegacyMovement.AfterMoveDir | src/movement.rs:105-120 | a stationary entity starts a 90 ms step to the tile ahead exactly when that tile does not collide for it |
| LegacyMovement.WrapX | src/movement.rs:148-154 | the wrapped column lies in -2..29 and is congruent to the input modulo 32 |
| LegacyMovement.WrapKeepsScreenColumns | src/movement.rs:148-154 | wrapping leaves the columns -2..29 alone |
| LegacyMovement.WrapIdempotent | src/movement.rs:148-154 | wrapping twice is wrapping once |
| LegacyMovement.WrapPeriodic | src/movement.rs:148-154 | columns 32 apart wrap to the same column |
| LegacyMovement.Wrapped | src/movement.rs:148-154 | only the column changes |
| LegacyMovement.Mover.MovingLeft | src/movement.rs:73-84 | a new entity faces Left and is halfway into a 90 ms step to the tile on its left |
| LegacyMovement.MoveRandom | src/movement.rs:86-103 | the update equals AfterMoveRandom for the given pick |
| LegacyMovement.MoveDir | src/movement.rs:105-120 | the update equals AfterMoveDir |
| LegacyMovement.Animate | src/movement.rs:122-133 | only an entity mid-step animates, flipping the bit when its timer has just finished |
| LegacyMovement.SetSpriteDirection | src/movement.rs:135-146 | on a Dir change the sprite index becomes the faced index |
| LegacyMovement.WrapLeftRight | src/movement.rs:148-154 | every location is rewritten each frame and its change flag is always set |
| LegacyMode.ModeTableShape | src/mode.rs:62-71 | eight entries alternating Scatter and Chase; Frightened never appears; only the last is infinite |
| LegacyMode.InitialState | src/mode.rs:22-40 | the game starts in Scatter at entry 0 with a repeating 7 s timer |
| LegacyMode.AfterTickMode | src/mode.rs:42-60 | None, meaning a panic, exactly when the timer finishes at the last entry |
| LegacyMode.InitialSatisfiesInv | src/mode.rs:22-40 | the initial state satisfies the invariant |
| LegacyMode.TickModePreservesInv | src/mode.rs:42-60 | from a reachable state tick_mode never panics, advances the index by one on a finish, and never yields Frightened |
| LegacyMode.LastEntryIsPermanent | src/mode.rs:54-59 | the paused infinite entry stays Chase for good |
| LegacyMode.ModeController.TickMode | src/mode.rs:42-60 | the resource update equals AfterTickMode |
| LegacyGhost.ChooseNextDirEffect | src/ghost/mod.rs:132-145 | a ghost that has just entered a tile and has a Target gets as NextDir the open neighbour of the tile ahead nearest the Target, the earliest of Up, Left, Down, Right on ties, or None when there is none; frightened ghosts are not excluded |
| LegacyGhost.ChooseNextDir | src/ghost/mod.rs:132-145 | the update equals AfterChooseNextDir |
| LegacyGhost.ScatterEffect | src/ghost/mod.rs:147-157 | in Scatter, every ghost that is not respawning and has a Target aims at its corner |
| LegacyGhost.Scatter | src/ghost/mod.rs:147-157 | the update equals AfterScatter |
| LegacyGhost.FrightenedTransitions | src/ghost/mod.rs:159-208 | a change to Frightened frightens every ghost that is not respawning; a change to any other mode un-frightens it and gives it the default Target |
| LegacyGhost.ModeSwitchResetsTarget | src/ghost/mod.rs:186-208 | every Scatter/Chase switch resets the Target of every ghost that is not respawning |
| LegacyGhost.BecomeFrightened | src/ghost/mod.rs:159-184 | the update equals AfterBecomeFrightened |
| LegacyGhost.StopFrightened | src/ghost/mod.rs:186-208 | the update equals AfterStopFrightened |
| LegacyGhost.FrightenedEffect | src/ghost/mod.rs:210-241 | the random direction first, then Up, Left, Down, Right; the first admissible one is taken, and NextDir is kept when none is |
| LegacyGhost.FrightenedSystem | src/ghost/mod.rs:210-241 | the update equals AfterFrightened |
| LegacyGhost.RespawnEffect | src/ghost/mod.rs:243-301 | an eaten ghost respawns toward its start, with NextDir set to the open neighbour nearest the start (the earliest on ties), or cleared when it is walled in; respawning ends on reaching the start |
| LegacyGhost.StartRespawningEatenGhost | src/ghost/mod.rs:243-276 | the update equals AfterStartRespawning |
| LegacyGhost.FinishRespawningEatenGhost | src/ghost/mod.rs:278-301 | the update equals AfterFinishRespawning |
| LegacyGhost.ChaseEffect | src/ghost/blinky.rs:24-40 | in Chase, a ghost of the personality with a Target aims at the new target; the effect is idempotent and keeps coherence |
| LegacyGhost.ChaseWith | src/ghost/blinky.rs:30-39 | the update equals AfterChase, and the flag says whether the Target was written |
| LegacyGhost.SystemsKeepCoherent | src/ghost/mod.rs:123-127 | every older ghost system keeps Frightened and Food together and a frightened ghost without a Target |
| LegacyGhost.Ghost.Spawn | src/ghost/spawner.rs:12-31 | a new ghost moves left with its corner and the default Target |
| LegacyBlinky.Spawn | src/ghost/blinky.rs:17-20 | Blinky's corner is (25, 35) |
| LegacyBlinky.Chase | src/ghost/blinky.rs:24-40 | Blinky targets the player, but only while active |
| LegacyPinky.Spawn | src/ghost/pinky.rs:13-16 | Pinky's corner is (2, 35) |
| LegacyPinky.Chase | src/ghost/pinky.rs:23-40 | Pinky targets four tiles ahead of the player |
| LegacyInky.Spawn | src/ghost/inky.rs:13-16 | Inky's corner is (27, 0) |
| LegacyInky.Chase | src/ghost/inky.rs:23-45 | Inky targets the reflection of Blinky through the tile two ahead of the player |
| LegacyClyde.Spawn | src/ghost/clyde.rs:13 | Clyde's corner is (0, 0) |
| LegacyClyde.Chase | src/ghost/clyde.rs:17-43 | Clyde chases beyond 8 tiles and otherwise goes to his corner |
| LegacyPlayer.PlayerControls | src/player.rs:42-60 | only NextDir changes, to the last held key in the order Left, Right, Down, Up |
| LegacyPlayer.DieWhenTouchingGhost | src/player.rs:62-75 | at most one death per frame, and exactly one iff any ghost shares the player's tile |
| EarliestGhost.CandidatesAround | src/ghost.rs:42-53 | the four candidates are in the order Up, Left, Down, Right, judged by the entity's Collides set |
| EarliestGhost.ChooseNextDirEffect | src/ghost.rs:26-56 | whenever some neighbour of the tile ahead is admissible, NextDir becomes the nearest one, the earliest on ties; it is left as it was when none qualifies |
| EarliestGhost.ChooseNextDir | src/ghost.rs:26-56 | the loop, which writes NextDir as it goes, equals AfterChooseNextDir |

## Left out

- Rendering, the texture atlases and colours, names, and the UI, text and diagnostics modules are left out: they do not affect game state.
- Speed changes of ghosts and the texture swaps in the ghost systems are left out: speed is only read by the floating-point motion, which is itself not modelled.
- `move_to`, `update_grid_location_from_transform` and the current generation's `wrap_left_right` are left out: they move a floating-point `Transform` in pixels. What the model keeps is the tile each move goes to.
- Bevy's scheduler, system labels and sets, and the deferral of `Commands` to the end of the stage are left out. Each system applies its effect at once, and `ActorMode.ModeState.Frame` fixes one order. A `stop_frightened` Target insert and a `scatter` in the same frame are therefore not interleaved as in the engine.
- The loop over a query's entities is left out: each system is modelled for one entity, since the entities do not interact within a system. `Food.Eat`, `ActorPlayer.DieWhenTouchingGhost` and `Food.World.Destroy` are the exceptions, because there the entities do interact.
- The `get_single().unwrap()` and `single()` panics are left out: src/actor/ghost/blinky.rs:35, pinky.rs:33, inky.rs:31-32 and clyde.rs:27, src/actor/player.rs:57, 78 and 106, and their counterparts in src/ghost/… and src/player.rs. The model assumes exactly one player and one Blinky, whose location (and, for the player, direction) is a parameter. This holds because src/level.rs:148-177 spawns one entity per PacMan or Blinky tile of the maze, and the only gameplay entities ever despawned are eaten food (src/food.rs:56).
- Randomness (`thread_rng`) is left out: the random direction and the random pick are parameters.
- Frame time is left out: the delta is a parameter, in whole milliseconds.
- The engine `Timer` is left out: it is replaced by the abstract timer in `Timers`.
- f32 distances are left out: the model computes them as exact integers. The tiles are small, so every distance the game computes is exact in f32, and the `f32::MAX` start becomes "no best yet".
- `InHouse` is left out: src/actor/ghost/house.rs defines it but no system adds or removes it. The model keeps it as a flag that only takes part in `Active`.
- The bitmap asset and the actual maze are left out. `Layout.Load` decodes any byte sequence; the level and asset-loading code is not part of this model.
- ActorGhost.CanLookAhead and LegacyGhost.CanLookAhead are slightly stronger than the two `frightened` systems need (src/actor/ghost/mod.rs:239-270, src/ghost/mod.rs:210-241). Both systems stop at the first open candidate, yet these predicates ask that every row around the tile ahead exists. For `choose_next_dir` in both generations, and for the earliest src/ghost.rs, the source probes all four candidates, so the same predicate is exactly its condition for not panicking off the maze.
- Score.Scoreboard.Add requires that the sum fits in u32: an overflowing `+=` panics in a debug build and wraps in a release build.
- Food.AddScore returns false where the source panics, on a non-Food entity or a u32 overflow. It does not model the points already added before the panic.
- The `Ghost` enum's default of Blinky is left out: the older spawner uses it only to choose an atlas.
- src/actor/ghost/pinky.rs is left out as written: it still uses the older names `impl Personality for Pinky` and `Ghost::Pinky`. It is modelled with the trait and constant names of its three siblings.
- ActorMode.ModeState.TickMode is the corrected tick_mode. The code as written is `ActorMode.ModeState.TickModeAsWritten`, whose panic is shown below.

## Findings

| source | as written | input that shows it | evidently intended | confidence | as-written member | corrected member |
|---|---|---|---|---|---|---|
| src/actor/mode.rs:78-95, 109-119 | At the infinite last entry, tick_mode resets and pauses the mode timer but keeps the 5 s duration of entry 6. tick_frightened unpauses the mode timer whenever a frightened episode ends. The timer then finishes 5 s later, and `MODE_TABLE[index + 1]` reads entry 8 of an 8-entry table. | Play 84 s without an energizer, reaching the last entry. Then eat an energizer, let its 6 s run out, and play 5 s more. | The last Chase entry lasts for the rest of the level, and a frightened episode holds it as it does every other entry. | not executed | ActorMode.PermanentChaseEndsInPanic | ActorMode.LastEntryIsPermanent |
