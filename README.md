# Space-invaders game core, modelled in Dafny

This project models the game logic of a browser "space invaders" game built
on Three.js:

- the game controller (`src/game/Game.ts`): frame gate, per-frame update, scoring, waves, pause, level skip, tilt input, game start;
- the enemy formation (`src/game/EnemyGroup.ts`);
- the player's ship (`src/game/Player.ts`);
- the projectiles (`src/game/Projectile.ts`);
- the key-state tracker (`src/game/utils/inputHandler.ts`);
- the enemy grid spawner (`src/game/Enemy.ts`);
- the older, self-contained game loop (`src/game/Game.tsx`).

One module per source file:

| file | module | models |
|---|---|---|
| basics.dfy | Basics | optional values, positions, planes, `Math.abs/min/max`, `Array.prototype.splice(j, 1)` |
| projectile.dfy | Projectiles | `Projectile` and `createProjectile` |
| player.dfy | Players | the `Player` class: fire gate, cooldown, projectile list |
| enemy.dfy | Enemies | enemy records, the grid layout, `spawnEnemyGrid` |
| formation.dfy | Formation | the `EnemyGroup` class and the value-level view of a formation |
| input.dfy | Input | `createInputHandler`: held keys, held and key-up handlers |
| tick.dfy | Tick | what one `update` frame does, as functions on values, and its properties |
| game.dfy | Controller | the `Game` class, whose methods are proved to follow module Tick |
| legacy.dfy | Legacy | the older `Game.tsx` loop, its collision bugs and the corrected loop |

Classes are used where the source mutates objects in place: `Player`,
`EnemyGroup`, the input handler, `Game` and the legacy game object. Pure
computations are functions. Each loop the model runs is a method proved
against a specification function. The one exception is the nested collision
loop of `Game.tsx` as written: it appears only as functions
(`Legacy.AsWrittenCollisions`), because the game object runs the corrected
loop instead (see Findings). For example:

- `Controller.Game.Update` ends in the state `Tick.TickWorld` computes.
- `Legacy.LegacyGame.UpdateGame` ends in the state `Legacy.Frame` computes.

The properties are lemmas about those functions.

JavaScript numbers are `real`. Key codes are `int`. The score is an `int`.

The delegate's notifications (`onScoreChanged`, `onStartGame`,
`onGameOver`, `onPaused`, `onResumed`) are kept as an event log, in the
order they are sent.

The following behaviour is modelled as given functions, because its body is
not part of this model:

- `Math.random()`: the caller supplies the rounded random number.
- A projectile's `update()` and its `deleted` flag: the caller supplies a step function, `Tick.Oracle.advanceProjectile`.
- `checkPlaneCollision`, which measures the Three.js bounding box: the caller supplies `Tick.Oracle.crossesDeadline`.

The projectile loop in `Game.ts` is a `forEach` that splices the array it
walks. The model reproduces this exactly:

- `forEach` visits the indices below the starting length that still exist.
- `splice` shifts the later projectiles down.
- So the projectile right behind a hitting one is not checked against that formation (`Tick.HitSkipsFollower`).

## Model

| member | source | states |
|---|---|---|
| Basics.Clamp | src/game/Game.ts:105 | `Math.min(Math.max(r, lo), hi)` lies in [lo, hi], is r inside the range, lo below it and hi above it |
| Basics.Splice | src/game/Game.ts:346 | `splice(j, 1)` shortens the list by one when j is an index and leaves it alone past the end |
| Basics.SpliceAt | src/game/Game.ts:346 | after `splice(j, 1)` the elements before j keep their index and those after it move down by one |
| Projectiles.NewProjectile | src/game/Projectile.ts:47-54 | `new Projectile(origin)` copies only x from the origin, sits at y = -5 and keeps the mesh-default z |
| Projectiles.NewProjectileIgnoresYZ | src/game/Projectile.ts:47-54 | two origins give the same projectile if and only if they have the same x |
| Projectiles.CreateProjectile | src/game/Projectile.ts:5-21 | `createProjectile` places the mesh at all three origin coordinates |
| Projectiles.ConstructionsAgree | src/game/Projectile.ts:47-54 | the class constructor and `createProjectile` agree if and only if the origin is at y = -5 and z = 0 |
| Players.Player.constructor | src/game/Player.ts:4-18 | a new player may shoot, has no projectiles and stands at z = 10; its motion is the one supplied |
| Players.Player.Shoot | src/game/Player.ts:20-31 | with the gate closed nothing changes; otherwise exactly one projectile from the ship's position is appended and the gate closes |
| Players.Player.CooldownExpired | src/game/Player.ts:28-30 | the timer callback re-opens the gate and changes nothing else |
| Players.Player.Move | src/game/Game.ts:118-129 | `move(direction)` is recorded with its direction and the ship goes where the supplied motion puts it, given its position, step size and call history; the fire gate, projectiles and settings are unchanged |
| Players.Player.Update | src/game/Game.ts:324 | `update()` is recorded and the ship goes where the supplied motion puts it; the fire gate, projectiles and settings are unchanged |
| Players.ShootCooldownScenario | src/game/Player.ts:20-31 | shot, shot during the cooldown, cooldown, shot: exactly two projectiles and the gate is closed |
| Enemies.Slot | src/game/Enemy.ts:75-81 | defines the slot of row r, column c: origin plus c times (spacing.x + size) in x, origin.y + spacing.y in y, origin plus r times (spacing.z + size) in z |
| Enemies.GridRow | src/game/Enemy.ts:70-85 | defines the inner loop's positions: the slots of one row, column 0 first |
| Enemies.Grid | src/game/Enemy.ts:69-86 | defines the nested loops' positions: the rows one after another, row 0 first |
| Enemies.Placed | src/game/Enemy.ts:72-81 | defines one spawned enemy: `createEnemyInstance(options)` with its mesh moved to the given slot |
| Enemies.GridRowAt | src/game/Enemy.ts:70-84 | a grid row has cols slots, and column c is at the slot formula for (row, c) |
| Enemies.GridRowSize | src/game/Enemy.ts:70-84 | a row holds cols slots, none when cols is not positive |
| Enemies.GridSize | src/game/Enemy.ts:69-86 | a grid holds rows * cols enemies, none when either count is not positive |
| Enemies.GridAt | src/game/Enemy.ts:69-86 | row-major order: the enemy of row r, column c is number r * cols + c and sits at the slot formula |
| Enemies.GridKeepsPrefix | src/game/Enemy.ts:69-86 | adding a row keeps the enemies of the earlier rows where they were |
| Enemies.GridLastRow | src/game/Enemy.ts:69-86 | the new row follows the earlier rows |
| Enemies.CreateEnemyMesh | src/game/Enemy.ts:15-17 | defines `createEnemyMesh(size)`: a clone of the loaded enemy mesh, whatever the size |
| Enemies.CreateEnemyInstance | src/game/Enemy.ts:90-101 | a new enemy may shoot and has the requested health, or 10 without options |
| Enemies.EnemyInstanceIgnoresSize | src/game/Enemy.ts:90-101 | two option sets give the same enemy if and only if they have the same health, because the size is unused |
| Enemies.SpawnEnemyGrid | src/game/Enemy.ts:64-88 | one enemy per grid slot, in row-major order, each a fresh instance moved to its slot |
| Enemies.SpawnedEnemiesReady | src/game/Enemy.ts:64-88 | every spawned enemy has the configured health, may shoot and keeps the template's rotation |
| Formation.InitialDirection | src/game/EnemyGroup.ts:53 | the direction is -1 or +1, and -1 exactly when the rounded random number is 0 |
| Formation.Advance | src/game/EnemyGroup.ts:91-101 | defines one `update()` on the formation's transform: turn at x beyond ±25, then move speedX in the direction and speedZ forward |
| Formation.AdvanceWellFormed | src/game/EnemyGroup.ts:91-101 | a step keeps the direction a unit step and keeps the members |
| Formation.AdvanceStaysInBand | src/game/EnemyGroup.ts:91-101 | a formation inside [-25 - speedX, 25 + speedX] stays inside it after a step |
| Formation.AdvanceNStaysInBand | src/game/EnemyGroup.ts:91-101 | after any number of steps the formation is still in its band, has crept by exactly n * speedZ, and keeps its members and speeds |
| Formation.IndexOf | src/game/EnemyGroup.ts:78 | `indexOf` returns -1 exactly for a non-member, and otherwise an index holding the element |
| Formation.IndexOfFirst | src/game/EnemyGroup.ts:78 | no index before the one `indexOf` returns holds the element |
| Formation.RemoveFirst | src/game/EnemyGroup.ts:76-85 | defines the members after `removeEntity`: the first copy of the member cut, the rest in order |
| Formation.RemoveFirstAt | src/game/EnemyGroup.ts:76-85 | `indexOf` then `splice(index, 1)`, skipped on -1, removes exactly the first copy |
| Formation.RemoveFirstSpec | src/game/EnemyGroup.ts:76-85 | a non-member leaves the list unchanged; otherwise only the first copy of the element is cut out |
| Formation.RemoveFirstMultiset | src/game/EnemyGroup.ts:76-85 | removal drops exactly one copy of a member and nothing else, and the length falls by one exactly for a member |
| Formation.InWindow | src/game/EnemyGroup.ts:117-121 | defines the `find` predicate: the member is within 10 of the group-local query in both z and x; y plays no part |
| Formation.FirstHit | src/game/EnemyGroup.ts:117-121 | the index found is -1 or a member within the hit window |
| Formation.FirstHitSpec | src/game/EnemyGroup.ts:117-121 | `find` returns the first member in the window, and -1 only when no member is in it |
| Formation.CollidingEntity | src/game/EnemyGroup.ts:111-122 | defines `getCollidingEntity` on the formation's values: the first member within 10 of the query in group-local x and z, or none |
| Formation.CollidingEntitySpec | src/game/EnemyGroup.ts:111-122 | the query is taken into group-local x and z; the result is None if and only if no member is within 10 on both axes, and otherwise the first such member |
| Formation.RemoveHitMember | src/game/Game.ts:339-344 | removing the member that the hit query returned deletes exactly its slot |
| Formation.RemoveCollidingEntity | src/game/Game.ts:339-344 | a hit removes exactly one member from the formation |
| Formation.EnemyGroup.constructor | src/game/EnemyGroup.ts:53-68 | a new group is empty, at the origin, with the random direction and speeds 0.4 and 0.2 |
| Formation.EnemyGroup.Add | src/game/EnemyGroup.ts:70-74 | `add` appends the member and the group is no longer empty |
| Formation.EnemyGroup.RemoveEntity | src/game/EnemyGroup.ts:76-85 | `removeEntity` removes the first copy of the member, and `isEmpty` is set exactly when no member is left |
| Formation.EnemyGroup.Update | src/game/EnemyGroup.ts:91-104 | the group turns right left of -25 and left right of +25, then moves speedX in its direction and speedZ forward; its members are unchanged |
| Formation.EnemyGroup.GetCollidingEntity | src/game/EnemyGroup.ts:111-122 | nothing if and only if no member is within 10 of the query in group-local x and z; otherwise a member inside that window |
| Formation.CreateGrid | src/game/EnemyGroup.ts:22-51 | the new group holds one member per grid slot in row-major order, with the speeds of the options |
| Formation.AddRow | src/game/EnemyGroup.ts:34-48 | the inner loop appends exactly the slots of one row, left to right |
| Input.Without | src/game/utils/inputHandler.ts:57 | defines the held keys after `pressedKeys.delete(k)`: the other keys in their order |
| Input.WithoutAppend | src/game/utils/inputHandler.ts:57 | deleting a key from a concatenation deletes it from each part: the other keys keep their relative order |
| Input.WithoutMembers | src/game/utils/inputHandler.ts:57 | deleting a key leaves exactly the other keys, each once, and leaves the list unchanged when the key is not held |
| Input.HeldActions | src/game/utils/inputHandler.ts:68-80 | defines what `run` invokes: for each held key in insertion order, its held-key handler if it has one |
| Input.HeldActionsAppend | src/game/utils/inputHandler.ts:68-80 | `run` serves the keys one at a time, in the order they went down |
| Input.HeldActionsSingle | src/game/utils/inputHandler.ts:73-79 | one key invokes its handler once, or nothing when it has none |
| Input.HeldActionsBound | src/game/utils/inputHandler.ts:68-80 | only registered handlers are invoked, at most one per held key, and exactly one per key if and only if every held key has one |
| Input.InputHandler.constructor | src/game/utils/inputHandler.ts:50-55 | a new handler has no held keys and no handlers |
| Input.InputHandler.OnKeyDown | src/game/utils/inputHandler.ts:65-67 | the key is held afterwards; a key already held keeps its place and is not added twice |
| Input.InputHandler.OnKeyUp | src/game/utils/inputHandler.ts:56-64 | the key is no longer held and the other keys keep their order; its key-up handler runs exactly once if registered |
| Input.InputHandler.Run | src/game/utils/inputHandler.ts:68-80 | every held key, in order, invokes its held-key handler if it has one |
| Tick.Kill | src/game/Game.ts:343-346 | defines one hit: `removeEntity` on the formation, 50 points with a score notification, `splice(j, 1)` on the projectiles |
| Tick.Sweep | src/game/Game.ts:338-348 | the projectile loop never adds projectiles, and keeps at least the indices it has passed |
| Tick.ScoreRunSteps | src/game/Game.ts:393-400 | each notification of a run of kills reports a rise of exactly 50, from the previous score |
| Tick.KillStep | src/game/Game.ts:343-346 | one kill removes exactly one projectile and one member and leaves the formation's transform alone |
| Tick.SweepProjectiles | src/game/Game.ts:338-348 | the loop only removes projectiles |
| Tick.SweepShape | src/game/Game.ts:338-348 | the loop removes exactly one member per projectile removed, and only removes members |
| Tick.SweepKeepsTransform | src/game/Game.ts:338-348 | the loop keeps the formation well formed, and keeps its position, direction and speeds |
| Tick.SweepScore | src/game/Game.ts:338-348 | each projectile consumed raised the score by exactly 50 and sent exactly one score notification, in order |
| Tick.SweepAccounting | src/game/Game.ts:338-348 | together: the projectile, member, score and notification accounting of one formation's loop |
| Tick.KillAccounting | src/game/Game.ts:389-400 | one kill followed by the rest of the loop keeps the score and notification accounting |
| Tick.SweepSkipBound | src/game/Game.ts:338-348 | because each hit skips the next projectile, a loop over L projectiles from index k scores at most (L - k + 1) / 2 kills |
| Tick.SweepKeepsIndex | src/game/Game.ts:338-348 | the loop never touches a projectile below the index it has reached |
| Tick.Visit | src/game/Game.ts:338-348 | one visit moves one index on, removes at most one projectile and keeps those below the index |
| Tick.HitSkipsFollower | src/game/Game.ts:338-348 | the projectile right behind a hitting one slides into the visited index and is not checked against this formation |
| Tick.ExtendsTrans | src/game/Game.ts:334-354 | notification logs that only grow by tick notifications compose |
| Tick.ScoreRunExtends | src/game/Game.ts:393-400 | a run of kill notifications only appends tick notifications |
| Tick.EndGameExtends | src/game/Game.ts:382-387 | `gameOver` appends one game-over notification |
| Tick.SweepExtends | src/game/Game.ts:338-348 | a whole loop keeps the formation well formed, scores 50 per projectile consumed and sends only kill notifications |
| Tick.EndGame | src/game/Game.ts:382-387 | defines `gameOver`: stop the game and report the score and the reason |
| Tick.StepGroup | src/game/Game.ts:334-354 | defines one formation's turn in the `forEach`: `update()`, the hit loop, then the deadline test |
| Tick.AdvanceGroups | src/game/Game.ts:334-354 | defines the whole `forEach` over the formations, in list order |
| Tick.StepGroupAccounting | src/game/Game.ts:334-354 | one formation's step keeps the number of formations, scores 50 per projectile consumed, can only stop the game and sends only tick notifications |
| Tick.AdvanceGroupsAccounting | src/game/Game.ts:334-354 | the same holds for the whole `forEach` over the formations |
| Tick.WaveOptions | src/game/Game.ts:362-371 | defines the options of the next wave: spacing 20, origin (-30, 0, -250), size 5, health 10 and the current speeds |
| Tick.SpawnedView | src/game/Game.ts:362-371 | defines the formation `spawnNextWave` adds: a 5 × 5 grid at the origin with a random direction |
| Tick.SpawnedViewWellFormed | src/game/Game.ts:362-371 | a spawned wave is a well-formed formation of 5 * 5 members |
| Tick.SpawnNextWave | src/game/Game.ts:362-380 | defines `spawnNextWave` on the frame state: append the 5 × 5 wave built with the current speeds, then raise the difficulty |
| Tick.NextDifficulty | src/game/Game.ts:373-379 | defines the difficulty step after a spawn: speeds +0.1 and +0.05, fire timeout down by 0.09 to at least 0.01, step size up by 0.1 to at most 10 |
| Tick.NextDifficultyBounds | src/game/Game.ts:373-379 | after a spawn the formations are faster by 0.1 and 0.05, the fire timeout is at least 0.01 and never grows, and the step size is at most 10 and never shrinks |
| Tick.DifficultyAfterBounds | src/game/Game.ts:362-380 | after any number of waves the speeds have grown linearly and the two player limits hold |
| Tick.AdvanceProjectiles | src/game/Game.ts:326 | projectile i becomes the step applied to projectile i; none is added or removed |
| Tick.LiveProjectiles | src/game/Game.ts:329-331 | the filter keeps no deleted projectile and never adds one |
| Tick.LiveProjectilesMembers | src/game/Game.ts:329-331 | a projectile is kept if and only if it is not marked deleted; none is duplicated; with none marked the list is unchanged |
| Tick.LiveProjectilesAppend | src/game/Game.ts:329-331 | the filter keeps the order: filtering a concatenation filters each part in turn |
| Tick.NonEmptyViews | src/game/Game.ts:333 | the filter never adds formations |
| Tick.NonEmptyViewsMembers | src/game/Game.ts:333 | the filter keeps exactly the formations with members, and changes nothing when none is empty |
| Tick.NonEmptyViewsIn | src/game/Game.ts:333 | a formation is kept if and only if it has members |
| Tick.NonEmptyViewsKeepsAll | src/game/Game.ts:333 | with no empty formation the filter changes nothing |
| Tick.NonEmptyViewsAppend | src/game/Game.ts:333 | the filter distributes over concatenation: the kept formations keep their relative order |
| Tick.NonEmptyViewsMultiset | src/game/Game.ts:333 | the filter never duplicates a formation |
| Tick.TickWorld | src/game/Game.ts:322-360 | defines `update()` after the player's own step: step and filter the projectiles, filter the formations, step each formation, spawn a wave when none is left |
| Tick.TickScore | src/game/Game.ts:322-360 | a frame raises the score by exactly 50 per live projectile consumed, so a projectile scores at most once per frame across all formations |
| Tick.OneProjectileOneKill | src/game/Game.ts:322-360 | with a single projectile a frame scores at most one kill, however many formations are in range |
| Tick.TickWaves | src/game/Game.ts:322-360 | a wave is spawned exactly when no formation had members at the start of the frame, with the speeds from before the increase; the frame sends only kill and game-over notifications and can only stop the game |
| Tick.EmptiedFormationIsReplaced | src/game/Game.ts:333-359 | once the only formation is empty, the next frame replaces it with exactly one new wave |
| Tick.TiltToX | src/game/Game.ts:105-106 | the tilt is clamped to [-40, 40] and mapped linearly onto [-70, 70] |
| Tick.TiltToXMonotone | src/game/Game.ts:105-106 | tilting further never moves the ship back |
| Controller.MoveBy | src/game/Game.ts:118-130 | defines `player.move(direction)` on the player's values: record the call and take the position from the ship motion |
| Controller.Perform | src/game/Game.ts:118-132 | defines one held-key handler: the arrows move by -1 and +1, space runs `shoot` |
| Controller.PerformAll | src/game/Game.ts:118-132 | defines the held-key handlers of one `run`, applied in order |
| Controller.PerformAllAppend | src/game/utils/inputHandler.ts:68-80 | serving two lists of actions is serving their concatenation |
| Controller.PerformAllEffect | src/game/Game.ts:118-132 | a frame's held keys make one move call per arrow, in order; the ship fires at most one projectile, and exactly one when the gate was open and space is held, from where the ship is when the first shot is taken; without an arrow the ship does not move |
| Controller.HeldActionsArePlayerActions | src/game/Game.ts:118-132 | held-key handlers that only touch the player can never pause the game or skip the level |
| Controller.Game.constructor | src/game/Game.ts:268-279 | the new state has score 0, no formations, the finish plane and speeds 0.3 and 0.2; the game is neither started nor paused |
| Controller.Game.ResetGameState | src/game/Game.ts:254-279 | a fresh player, score 0, no formations, the finish plane and the initial speeds |
| Controller.Game.Pause | src/game/Game.ts:281-286 | the game is paused and one pause notification is sent, even when already paused |
| Controller.Game.Resume | src/game/Game.ts:288-294 | the game is running and one resume notification is sent, even when not paused |
| Controller.Game.StartLevel | src/game/Game.ts:179-186 | every formation is dropped and nothing else changes |
| Controller.Game.GameOver | src/game/Game.ts:382-387 | the loop stops and the current score is reported with the fixed reason |
| Controller.Game.UpdateScore | src/game/Game.ts:393-400 | the score grows by the amount and the new and old score are reported |
| Controller.Game.OnEnemyKilled | src/game/Game.ts:389-391 | a kill is worth exactly 50 and sends one notification |
| Controller.Game.HandleDeviceOrientationChange | src/game/Game.ts:100-107 | a missing or zero tilt changes nothing; otherwise the ship's x is set to the clamped, scaled tilt, in [-70, 70] |
| Controller.Game.SpawnNextWave | src/game/Game.ts:362-380 | a 5 x 5 formation with the current speeds is appended, then the difficulty rises |
| Controller.Game.KillWith | src/game/Game.ts:343-346 | `removeEntity`, `onEnemyKilled` and `splice(j, 1)` perform one kill |
| Controller.Game.ResolveHits | src/game/Game.ts:338-348 | the projectile loop on the object ends in the state of the loop on values |
| Controller.Game.StepFormation | src/game/Game.ts:334-354 | a formation's update, its projectile loop and the deadline test give one formation's step |
| Controller.Game.UpdateProjectiles | src/game/Game.ts:326 | every projectile is updated in order |
| Controller.Game.Update | src/game/Game.ts:322-360 | `update` records the player's update, moves the ship by the supplied motion, and then changes the state exactly as one frame of module Tick |
| Controller.Game.Dispatch | src/game/Game.ts:118-149 | the arrows call `move(-1)`/`move(1)`, space shoots, escape toggles the pause with its notification, and L drops every formation |
| Controller.Game.DispatchHeld | src/game/Game.ts:118-132 | the held-key handlers, in order, act on the player only |
| Controller.Game.Render | src/game/Game.ts:296-316 | before the start nothing happens; otherwise the held keys are served and, unless paused, one frame runs, after which the ship is where the player's update puts it |
| Controller.Game.OnKeyDown | src/game/utils/inputHandler.ts:65-67 | the key is held afterwards, once, and both handler maps are unchanged |
| Controller.Game.OnKeyUp | src/game/Game.ts:135-149 | the key is released and both handler maps are unchanged; escape toggles the pause and keeps the formations, L drops the formations and keeps the pause, other keys change nothing else; the score, the started flag, the finish plane, the speeds and the player's settings never change |
| Controller.Game.OnStartGame | src/game/Game.ts:154-177 | the start is announced, the state is fresh (a new player with an empty call log and the game's ship motion, score 0, no formations, initial speeds), the handlers are installed and the game runs unpaused |
| Legacy.Perform | src/game/Game.tsx:142-175 | defines one held-key handler: the arrows move x by ∓2, space runs the local `shoot` |
| Legacy.PerformAll | src/game/Game.tsx:142-175 | defines the held-key handlers of one `run`, applied in order |
| Legacy.PerformAllAppend | src/game/Game.tsx:100 | serving two lists of key actions is serving their concatenation |
| Legacy.PerformAllEffect | src/game/Game.tsx:142-175 | the ship moves exactly 2 per arrow (right minus left), only in x; earlier projectiles are kept and one is added exactly when the gate was open and space is held |
| Legacy.Turn | src/game/Game.tsx:109-114 | the direction turns right left of -50 and left right of +50 |
| Legacy.OffsetStaysInBand | src/game/Game.tsx:109-116 | once inside [-50.2, 50.2] the shared offset never leaves it |
| Legacy.Shift | src/game/Game.tsx:118-119 | defines the move of one enemy: y-rotation +0.01, x + stepX |
| Legacy.Drift | src/game/Game.tsx:102-107 | defines the projectiles' flight: every z falls by 0.5 |
| Legacy.Collides | src/game/Game.tsx:122-125 | defines the hit test: the projectile at or past the enemy's depth and within 5 of it in x |
| Legacy.AsWrittenInner | src/game/Game.tsx:121-132 | defines the inner `forEach` as written: every hit splices projectile j and whatever enemy is at index i now, and testing of the captured enemy goes on |
| Legacy.AsWrittenOuter | src/game/Game.tsx:117-133 | defines the outer `forEach` as written: it visits the indices of the original length over the list as the splices leave it |
| Legacy.AsWrittenCollisions | src/game/Game.tsx:117-133 | defines the whole nested collision loop as written |
| Legacy.FirstCollision | src/game/Game.tsx:121-125 | the index found is -1 or a projectile that hits the enemy |
| Legacy.FirstCollisionSpec | src/game/Game.tsx:121-125 | the projectile found is the first that hits, and -1 means none does |
| Legacy.AsWrittenKillsNeighbour | src/game/Game.tsx:117-133 | two projectiles on the same enemy, as written, also remove a neighbour that no projectile is near |
| Legacy.AsWrittenSkipsNextEnemy | src/game/Game.tsx:117-133 | as written, the enemy behind a hit enemy is not moved that frame |
| Legacy.Resolve | src/game/Game.tsx:117-133 | defines the corrected loop: each enemy moved once; the first projectile hitting it, if any, removed with it |
| Legacy.ResolveCounts | src/game/Game.tsx:117-133 | the corrected loop removes one projectile per enemy it removes and never creates one |
| Legacy.ResolveSurvivorsMoved | src/game/Game.tsx:117-133 | every surviving enemy is an enemy moved exactly once |
| Legacy.ResolveSurvivorsUntouched | src/game/Game.tsx:117-133 | no surviving enemy is hit by a surviving projectile |
| Legacy.ResolveKeepsUntouched | src/game/Game.tsx:117-133 | an enemy that no projectile touches survives, moved once |
| Legacy.ResolveKeepsUntouchedAfterHit | src/game/Game.tsx:117-133 | the same after an earlier enemy took a projectile |
| Legacy.ResolveFixesCounterexamples | src/game/Game.tsx:117-133 | on the two counterexample inputs the corrected loop keeps and moves the untouched enemy |
| Legacy.ResolveAt | src/game/Game.tsx:117-133 | one step of the corrected loop either moves the enemy or removes it with its projectile |
| Legacy.Frame | src/game/Game.tsx:99-134 | defines `updateGame` with the corrected loop: serve the keys, fly the projectiles, turn and move the offset, resolve the hits |
| Legacy.AsWrittenFrame | src/game/Game.tsx:99-134 | defines `updateGame` as written, with the nested collision loop in place of the corrected one |
| Legacy.AsWrittenFrameKillsNeighbour | src/game/Game.tsx:99-134 | a whole frame as written loses an enemy that no projectile is near, and the corrected frame keeps it |
| Legacy.LegacyGame.constructor | src/game/Game.tsx:136-193 | `setupGame` builds a 5 x 5 grid at (-30, 0, -150), no projectiles, offset 0 moving left, and the arrow and space handlers |
| Legacy.LegacyGame.FireShot | src/game/Game.tsx:142-151 | with the gate closed nothing changes; otherwise one projectile at the ship is added and the gate closes |
| Legacy.LegacyGame.CooldownExpired | src/game/Game.tsx:148-150 | the timer callback re-opens the gate |
| Legacy.LegacyGame.ServeKeys | src/game/Game.tsx:154-175 | the held-key handlers invoked by `run` act on the ship in order |
| Legacy.LegacyGame.FlyProjectiles | src/game/Game.tsx:102-107 | every projectile moves 0.5 towards negative z |
| Legacy.LegacyGame.FindHit | src/game/Game.tsx:121-125 | a forward scan finds the first projectile hitting the enemy, or -1 when none does |
| Legacy.LegacyGame.ResolveLists | src/game/Game.tsx:117-133 | the corrected collision loop over the two lists computes `Resolve` |
| Legacy.LegacyGame.ResolveCollisions | src/game/Game.tsx:117-133 | the game's enemies and projectiles become those of the corrected loop |
| Legacy.LegacyGame.UpdateGame | src/game/Game.tsx:99-134 | one frame serves the keys, flies the projectiles, turns and moves the offset, and resolves the hits with the corrected loop |

## Left out

- Rendering, cameras, lights, materials, the post-processing effects and the star background: none of them affect the game state.
- The React components and the screen overlays are UI only.
- Asset loading (`loadEnemyMesh`): the loaded enemy mesh is a parameter (`template`).
- `checkPlaneCollision` is supplied by the caller (`Oracle.crossesDeadline`). It measures the Three.js bounding box of the group's meshes, which this model does not hold.
- `Player.update`, `Player.move`, `stepSize` and `fireTimeout` are used by `Game.ts` but not defined in `Player.ts`.
  - The two methods are recorded in a call log, and the ship's new position comes from a caller-supplied `ShipMotion` of its position, step size and call history.
  - The two fields are plain fields whose initial values the caller supplies.
- Players.Player.Move and Players.Player.Update: the model assumes these two calls change only the ship's position, not the fire gate, the projectiles, `stepSize` or `fireTimeout`. Their bodies are not part of this model.
- Controller.Game.constructor builds the state that `setupGameState` would build. The source constructor (`Game.ts:47-62`) leaves `state` unset until `onStartGame` runs.
- A projectile's `update()`, `deleted` and `delete()` are used by `Game.ts` but not defined in `Projectile.ts`. The step is supplied by the caller (`Oracle.advanceProjectile`), and `deleted` is a flag only that step sets.
- Formation.EnemyGroup.Update: the model assumes that each member's own `update()` (`EnemyGroup.ts:103`) leaves the member's local position unchanged (`ensures entities == old(entities)`). The enemy class that defines it is not part of this model. `getCollidingEntity` reads that position, so every hit and kill count in module Tick rests on this assumption.
- `new Enemy()` in `createGrid` uses a default export that `Enemy.ts` does not have. A formation member is modelled as its local position, the only part of it the formation reads or writes.
- Legacy.LegacyGame.ServeKeys: `Game.tsx` imports `createInputHandler` from `./inputHandler`, a file that is not part of this model. The legacy game is assumed to have the same `pressedKeys`, `keyHandlers` and `run` behaviour as `src/game/utils/inputHandler.ts`, and its constructor and `UpdateGame` rest on that assumption.
- Enemies.SpawnEnemyGrid and Formation.CreateGrid take `rows` and `cols` as integers. The source counts are JavaScript numbers, and a fractional count would run ceil(count) iterations. Every caller passes 5.
- `createPlayerInstance`, used by `Game.tsx`, is not part of this model. The legacy game receives the player's position and fire gate.
- `Math.random()` is a parameter: the rounded random number.
- `setTimeout` is a method the caller runs when the timer fires (`CooldownExpired`). Time itself is not modelled.
- `requestAnimationFrame`: `Render` models one frame; the caller repeats it.
- Event-listener registration, touch input, the device-orientation permission request and `destroy()` are not modelled.
- IEEE-754 rounding is not modelled: numbers are reals.
- Controller.Game.HandleDeviceOrientationChange: a `NaN` tilt, which the source also ignores, cannot occur with reals.
- The delegate's callbacks are optional in the source. The model always records the notification.
- Formations are held by `Game` as values (`Formation.GroupView`), not shared objects. The `EnemyGroup` methods are proved to make the same changes, but aliasing between formations is not modelled.
- `Controller.Game.StartLevel` keeps the projectiles in the player's list. The source only takes them off the scene; the model does the same.
- The legacy projectile loop calls `projectile.remove()` past z = 500. That call is not modelled: it removes nothing from the game's lists, and the projectiles only ever move towards negative z.
- `enemy.mesh.position.y -= 70` on a hit legacy enemy is not modelled. The enemy has already left the list, and the hit test reads only x and z.
- The code's behaviour is modelled as written:
  - `pause` and `resume` notify even when the state does not change;
  - `gameOver` may be reported once per formation that crosses the deadline in the same frame;
  - a formation emptied during a frame stays in the list until the next frame's filter.

## Findings

| source | as written | input that shows it | evidently intended | confidence | as-written member | corrected member |
|---|---|---|---|---|---|---|
| src/game/Game.tsx:117-133 | after a hit, the inner `forEach` goes on testing the captured enemy, and every further hit calls `enemies.splice(i, 1)` again | enemies at x = 0 and x = 100 (z = 0); projectiles at x = 0, 50, 0 (z = -1): both enemies are removed although nothing is near the second | a removed enemy takes one projectile and is checked no further; an enemy no projectile touches survives | not executed | Legacy.AsWrittenKillsNeighbour | Legacy.ResolveKeepsUntouched |
| src/game/Game.tsx:117-133 | `enemies.splice(i, 1)` inside the outer `forEach` moves the next enemy into index i, which the loop has already visited | enemies at x = 0 and x = 100 (z = 0); one projectile at x = 0 (z = -1): the enemy at x = 100 is not moved that frame | every enemy that is not hit moves once per frame | not executed | Legacy.AsWrittenSkipsNextEnemy | Legacy.ResolveSurvivorsMoved |
