# Games front end: the game logic, modelled in Dafny

The repository is a small React front end with two canvas games and a list of
games kept in a Redux slice.  This project models the logic under the drawing
and the React plumbing:

- **the platform game** (`src/util/platformGame.ts`): twenty randomly laid-out
  levels of floors with a goal post on the last floor; a 10 x 10 player that
  walks, crouches to 12 x 5, jumps 30 up and up to 60 sideways; death with a
  cloud of debris below the lowest floor, and the advance to the next level
  (wrapping after the last) when the goal is reached;
- **the dodge game** (`src/util/dodgeGame.ts`): a 15 x 15 player dragged with
  the mouse among enemies that bounce off the walls; any collision restarts the
  game, and after ten seconds random events add, replace or speed up enemies;
- **the games slice** (`src/features/games/gamesSlice.ts`): `add`, `update` and
  `remove` on the list of games, which starts out null, and the three reducers
  of the `fetchAll` request.

Each game's module-level variables become one class (`PlatformGame.Platform`,
`DodgeGame.Dodge`), each handler and one tick of each game loop a method on it.
The slice state is the class `GamesSlice.GamesState`.  Player, enemies, levels
and games are datatype values held in those fields; the loops that build or
rewrite them are methods with loop invariants, each proved against a ghost
function or predicate about which the listed properties are proved as lemmas.

`Math.random()` is replaced by `Randomness.Source`, a pseudo-random generator of
which callers know only that each draw lies in [0, 1).  `getRandomInt` itself is
modelled exactly (`Randomness.Draw`), including what it does when the rounded
range is empty or reversed, so every property holds for every sequence of draws.

Modules: `Wrappers` (Option), `Randomness`, `Geometry` (the box, the collision
test and the horizontal bounds test that both games write identically),
`PlatformLevels` (the level generator), `PlatformGame`, `DodgeGame`,
`GamesSlice`.

Where the code and a plain reading of it part ways, the model follows the code:

- `generateRandomEvent` picks an enemy in [0, len - 2] only when there are at
  least two; with one enemy it picks that one.  With none (a canvas at most 0
  wide) the index is -1 or 0.  Index 0 holds no enemy, so the event throws
  (`Event.Failed`), possibly after a replacement has been written there.  Index -1
  is an ordinary property of the array (`Dodge.stray`), invisible to its length
  and to `forEach`: the first replacement written there also throws, but a later
  event that draws -1 replaces or speeds up that hidden enemy without throwing.
  `init` makes a new array, which drops it.
- A replacement enemy's height becomes the old enemy's WIDTH (the second
  assignment overwrites the first); enemies are squares, so the two agree on
  enemies that were never replaced.
- `moveEnemy` sets the vertical speed at the top and bottom walls to the size of
  the horizontal speed, not the vertical one.
- The enemy pass of the dodge tick goes on walking the old enemy array after a
  collision has called `init`; later enemies of that array are still tested
  against the re-centred player, and the new enemies are not moved.
- A piece of debris drifts sideways by `getRandomInt(0, 1)`, which is always 0.
- `generateLevels` throws when a level ends with no floor, which can only happen
  on a canvas at most 50 wide; `start` then leaves the levels and the player as
  they were.

## Model

| member | source | states |
|---|---|---|
| Randomness.Ceil | src/util/platformGame.ts:203 | the result is the least integer not below `x` |
| Randomness.Draw | src/util/platformGame.ts:202-206 | `getRandomInt` returns an integer in [ceil(min), floor(max)) when that range is non-empty, else between floor(max) and ceil(min) inclusive |
| Randomness.DrawWithin | src/util/dodgeGame.ts:77-81 | with a non-empty rounded range the draw lies in [min, max) |
| Randomness.SymmetricDrawWithin | src/util/platformGame.ts:192-193 | `getRandomInt(-w, w)` lies in [-w, w) for every positive `w` |
| Randomness.DrawZeroOne | src/util/platformGame.ts:322-323 | `getRandomInt(0, 1)` is always 0 |
| Randomness.Source.Next | src/util/platformGame.ts:205 | each `Math.random()` value lies in [0, 1) |
| Randomness.RandomInt | src/util/platformGame.ts:202-206 | one call of `getRandomInt` keeps `Draw`'s range |
| Geometry.Colliding | src/util/platformGame.ts:164-171 | `gameObjectsColliding`: the boxes overlap on both axes, every comparison strict (the same test as src/util/dodgeGame.ts:144-151) |
| Geometry.CanMoveX | src/util/platformGame.ts:173-175 | `canMoveXAxis`: the object at `x` lies between 0 and the canvas' right edge (the same test as src/util/dodgeGame.ts:124-126) |
| Geometry.CollidingSymmetric | src/util/platformGame.ts:164-171 | the collision test does not depend on argument order |
| Geometry.TouchingDoesNotCollide | src/util/dodgeGame.ts:144-151 | boxes that only share an edge do not collide |
| Geometry.SameBoxCollides | src/util/platformGame.ts:164-171 | a box of positive size collides with itself |
| Geometry.CollidingIffSharedPoint | src/util/platformGame.ts:164-171 | for positive sizes, colliding holds exactly when the boxes share an interior point |
| PlatformLevels.GoalOn | src/util/platformGame.ts:98-105 | the goal post is 5 x 50, its right edge on the last floor's right edge and its bottom on the floor's bottom |
| PlatformLevels.FloorsOrdered | src/util/platformGame.ts:79-96 | in a generated level every floor ends at least 30 before any later floor starts, so floors never overlap and `x` strictly increases |
| PlatformLevels.GoalInsideCanvas | src/util/platformGame.ts:80-105 | the goal post ends before the canvas' right edge |
| PlatformLevels.GenerateLevels | src/util/platformGame.ts:68-111 | `count` levels, each with 1 to 9 floors at half height, the first at x = 0, gaps in [30, 60 + player width), all before the right edge, goal on the last floor; it throws only on a canvas at most 50 wide |
| PlatformGame.CanMoveY | src/util/platformGame.ts:177-179 | `canMoveYAxis`: at least half the height below the status bar and its padding, and above the bottom |
| PlatformGame.Crouched | src/util/platformGame.ts:244-249 | the ArrowDown press halves the height and widens by 1.2 |
| PlatformGame.Stood | src/util/platformGame.ts:264-270 | the ArrowDown release doubles the height, narrows by 1.2 and raises the player by half the new height |
| PlatformGame.Respawned | src/util/platformGame.ts:125-132 | the player placed one width right of the first floor and 20 above it, alive, without jump or debris |
| PlatformGame.InDeathBand | src/util/platformGame.ts:315 | the player is between 2 and 8 heights below the lowest floor |
| PlatformGame.JumpFrom | src/util/platformGame.ts:228-240 | a jump aims 30 above the player and 60 to the left when left is held, else 60 to the right when right is held, else straight up |
| PlatformGame.CrouchRoundTrip | src/util/platformGame.ts:244-249 | crouching and standing up restores the width and the height exactly, moving the player up by half its height |
| PlatformGame.StepToward | src/util/platformGame.ts:288-292 | the jump's sideways step moves at most one unit, toward the landing point, only into bounds, and stays put only at the target or at a wall |
| PlatformGame.Walk | src/util/platformGame.ts:303-312 | walking moves at most one unit in the held direction, only when it stays in bounds, so a player in bounds stays in bounds; with both keys held the left step undoes the right one, so only a player at the right wall moves, leftward |
| PlatformGame.MovedKeepsShape | src/util/platformGame.ts:288-313 | the movement step never changes the size, the death flag or the debris |
| PlatformGame.JumpMovesTowardLanding | src/util/platformGame.ts:288-313 | during a jump, except on the tick that lands, `x` moves at most one unit, toward the landing point and into bounds |
| PlatformGame.AscentRisesOrTurns | src/util/platformGame.ts:293-300 | while ascending the player rises by exactly one below the apex, or the jump turns downward |
| PlatformGame.FallsWithoutFloor | src/util/platformGame.ts:301-302 | not ascending and without floor contact, the player falls by one |
| PlatformGame.LandingEndsJump | src/util/platformGame.ts:303-312 | landing without crouching ends the jump, keeps `y` and walks within bounds |
| PlatformGame.NextLevel | src/util/platformGame.ts:331-337 | the next level is the following one, and the first after the last |
| PlatformGame.ScanFloors | src/util/platformGame.ts:281-286 | floor contact holds exactly when some floor collides with the player; the maximum is the largest floor `y`, at least 0 |
| PlatformGame.GenerateDeathEffect | src/util/platformGame.ts:187-200 | 10 to 14 pieces, each within one player size of the player and a third or a quarter of its size |
| PlatformGame.Platform.constructor | src/util/platformGame.ts:39-66 | the initial values: 500 wide, level 0, no input held, a 10 x 10 player at the origin, no levels |
| PlatformGame.Platform.Start | src/util/platformGame.ts:213-220 | 20 laid-out levels and the player placed on the active level's first floor; on a canvas wider than 50 this always succeeds |
| PlatformGame.Platform.InitLevel | src/util/platformGame.ts:125-132 | the player stands one width right of the first floor and 20 above it, alive, without jump or debris |
| PlatformGame.Platform.KeyDown | src/util/platformGame.ts:221-258 | Enter restarts the level; ArrowUp starts a jump only when up was not held and no jump is active; ArrowDown crouches once; arrows set their flag; the shape always matches the crouch flag |
| PlatformGame.Platform.KeyUp | src/util/platformGame.ts:259-279 | releasing an arrow clears its flag; releasing ArrowDown after a crouch stands up, restoring the 10 x 10 shape |
| PlatformGame.Platform.Tick | src/util/platformGame.ts:280-340 | one tick keeps the levels, the inputs and the shape invariant |
| PlatformGame.Platform.Move | src/util/platformGame.ts:288-313 | the player after the movement step is `Moved` of the player before |
| PlatformGame.Platform.StepTowardLanding | src/util/platformGame.ts:288-292 | during a jump `x` takes the step toward the landing point |
| PlatformGame.Platform.StepVertically | src/util/platformGame.ts:293-313 | ascend, turn at the apex, fall, or land and walk |
| PlatformGame.Platform.Settle | src/util/platformGame.ts:314-338 | in the death band the player dies and gets or drifts its debris; a dead player outside it restarts level 0; reaching the goal enters the next level; otherwise nothing changes |
| PlatformGame.Platform.DriftPieces | src/util/platformGame.ts:320-324 | every piece falls by one, nothing else changes |
| DodgeGame.CanMoveY | src/util/dodgeGame.ts:134-136 | `canMoveYAxis`: the whole height between the top and the bottom of the field |
| DodgeGame.MouseOnCoversObject | src/util/dodgeGame.ts:109-116 | a press anywhere on the object grabs it |
| DodgeGame.MouseOnGameObject | src/util/dodgeGame.ts:109-116 | the hit test: a press counts from 10 left of and above the object to half its size beyond its right and bottom edges |
| DodgeGame.GeneratedInField | src/util/dodgeGame.ts:49-51 | on a field at least 20 wide a generated enemy lies wholly inside it |
| DodgeGame.BatchSizeIsCeiling | src/util/dodgeGame.ts:46-48 | `generateEnemies(amount)` makes the ceiling of `amount` enemies, none for a non-positive amount |
| DodgeGame.Bounced | src/util/dodgeGame.ts:157-170 | the horizontal speed keeps its size and points away from a side wall touched; at the top or bottom wall the vertical speed becomes the size of the horizontal one, pointing away; then the enemy advances by its speeds |
| DodgeGame.BounceKeepsMoving | src/util/dodgeGame.ts:157-170 | an enemy moving on both axes still does after bouncing |
| DodgeGame.BottomBounceTakesHorizontalSpeed | src/util/dodgeGame.ts:163-164 | an enemy falling at speed 1 onto the bottom leaves it at speed 4 when it moves sideways at 4 |
| DodgeGame.MoveEnemy | src/util/dodgeGame.ts:157-170 | the field-by-field updates compute `Bounced` |
| DodgeGame.Transplant | src/util/dodgeGame.ts:220-224 | the replacement takes the old enemy's position, its height becomes the old width, all else comes from the new enemy, so a generated newcomer yields a replacement |
| DodgeGame.SpeedUp | src/util/dodgeGame.ts:227-230 | the axis-by-axis update is the accelerated enemy, which still moves on both axes |
| DodgeGame.Faster | src/util/dodgeGame.ts:227-230 | the sped-up speed is never 0, keeps a non-zero speed's sign and grows its size by one |
| DodgeGame.GenerateEnemies | src/util/dodgeGame.ts:46-69 | one enemy per pass, each a square of side 15 to 19 inside the drawn range, starting where it is, with non-zero speeds in [-4, 3] |
| DodgeGame.Dodge.constructor | src/util/dodgeGame.ts:20-39 | the initial values: 500 wide, stopped, a 15 x 15 player at the origin, no enemies |
| DodgeGame.Dodge.Start | src/util/dodgeGame.ts:249-254 | takes the width and initialises |
| DodgeGame.Dodge.Init | src/util/dodgeGame.ts:194-203 | stops the game, centres the player, ends the drag and generates `canvasWidth / 100` enemies in a new array, with nothing at index -1 |
| DodgeGame.Dodge.MouseDown | src/util/dodgeGame.ts:255-269 | a press on the player starts a drag and the game, resetting the clock only when it was stopped; any other press changes nothing |
| DodgeGame.Dodge.MouseUp | src/util/dodgeGame.ts:270-272 | the drag ends, nothing else changes |
| DodgeGame.Dodge.MouseMove | src/util/dodgeGame.ts:273-284 | while dragging a running game each axis follows the mouse only when it stays in the field, so a player in the field stays in it |
| DodgeGame.Dodge.MoveEnemies | src/util/dodgeGame.ts:287-298 | the game restarts exactly when some enemy, moved if the game runs, collides with the player; otherwise every enemy has bounced (or stayed, when stopped) and the player is unchanged |
| DodgeGame.Dodge.GenerateRandomEvent | src/util/dodgeGame.ts:208-234 | nothing before 10 running seconds; otherwise `rnd` is drawn in [0, 999]: 999 and only 999 spawns, appending one generated enemy; 51..99 replaces the picked enemy, keeping its place and putting its width in the height; 0..50 makes both its speeds one faster; 100..998 does nothing; the drawn index is returned: on a field of one or more it is a pickable enemy's, and on an empty field it is -1 or 0; drawing -1 with an enemy stored there replaces or speeds that enemy up, and any other empty-field event below 100 throws, a replacement having first written its new enemy at the drawn index |
| DodgeGame.Dodge.Tick | src/util/dodgeGame.ts:285-302 | after a restart the random event does nothing; otherwise the player is unchanged |
| GamesSlice.Without | src/features/games/gamesSlice.ts:54-60 | the removal keeps no game of the id and only games of the list |
| GamesSlice.Replaced | src/features/games/gamesSlice.ts:47-53 | the update keeps the length |
| GamesSlice.AddKeepsIdsIncreasing | src/features/games/gamesSlice.ts:37-45 | with increasing ids, the added id is new and ids stay increasing |
| GamesSlice.WithoutKeepsOthers | src/features/games/gamesSlice.ts:54-60 | the removal deletes every game of the id and keeps every other game as often as before |
| GamesSlice.WithoutDistributes | src/features/games/gamesSlice.ts:54-60 | removal from a joined list is removal from each part, so survivors keep their order |
| GamesSlice.WithoutIdempotent | src/features/games/gamesSlice.ts:54-60 | removing twice is removing once |
| GamesSlice.WithoutAbsent | src/features/games/gamesSlice.ts:55-58 | removing an absent id changes nothing |
| GamesSlice.WithoutKeepsIdsIncreasing | src/features/games/gamesSlice.ts:54-60 | removal keeps ids increasing |
| GamesSlice.RemoveStep | src/features/games/gamesSlice.ts:55-59 | one pass of the descending loop, splicing or keeping index `i`, extends the removal by one place |
| GamesSlice.ReplacedAbsent | src/features/games/gamesSlice.ts:48-52 | updating an absent id changes nothing |
| GamesSlice.ReplacedKeepsIds | src/features/games/gamesSlice.ts:47-53 | updating never changes the ids, so increasing ids stay increasing |
| GamesSlice.GamesState.constructor | src/features/games/gamesSlice.ts:22-26 | no list yet, not loading, no error |
| GamesSlice.GamesState.Add | src/features/games/gamesSlice.ts:36-46 | appends one game with the last id plus one (1 on an empty list), earlier games unchanged; on a null list it throws and nothing changes |
| GamesSlice.GamesState.Update | src/features/games/gamesSlice.ts:47-53 | every game of the payload's id becomes the payload, all others stay, the length is kept; on a null list it throws |
| GamesSlice.GamesState.Remove | src/features/games/gamesSlice.ts:54-60 | the list becomes the original with exactly the games of the id deleted, in order; on a null list it throws |
| GamesSlice.GamesState.Games | src/features/games/gamesSlice.ts:79 | the `getGames` selector reads the list |
| GamesSlice.GamesState.IsLoading | src/features/games/gamesSlice.ts:80 | the `isLoading` selector reads the loading flag |
| GamesSlice.GamesState.Pending | src/features/games/gamesSlice.ts:63-65 | raises the loading flag, nothing else |
| GamesSlice.GamesState.Fulfilled | src/features/games/gamesSlice.ts:66-69 | stops loading and takes the fetched list |
| GamesSlice.GamesState.Rejected | src/features/games/gamesSlice.ts:70-74 | stops loading, empties the list and records an error |

## Left out

- Drawing (`drawLevel`, `drawGameObject`, `drawStatusBar`, `refreshCanvas`, `drawTimer`, `drawBackground`) and colours: calls into the browser's 2D canvas with no logic.
- Timers: the `setInterval` loop drivers, `stop`, the platform game's `onresize` restart and the dodge game's one-second `gameTime` clock; one tick is a method and `gameTime` a field the caller advances.
- DOM plumbing: bounding rectangles, client-coordinate offsets and event cancelling; handlers take canvas coordinates or a key.
- `Math.random`: replaced by a pseudo-random source; only its range [0, 1) is relied on.
- Floating point: coordinates are exact reals, so the crouch round trip through `/ 2`, `* 1.2` and `/ 1.2` is exact here and not in IEEE doubles; game ids are unbounded integers.
- In-place updates of objects (enemy fields, debris `y`, `state.values`) are modelled as reassigning a value held in a field; the objects are never aliased, so nothing observable is lost.
- `add` spreads its whole payload into the new game; the model keeps only the name and the platforms.
- Whether the game loop runs: every `start` is preceded by `stop`, so after a `start` whose level generator throws the loop is stopped and only the key handlers of an earlier start remain; the model does not record the loop, so `Tick` stays callable there.
- React components, the mock games API, `createAsyncThunk` and the store wiring: UI composition and asynchronous plumbing outside the game logic.
- PlatformGame.Platform.Tick: its contract states only what the whole tick keeps; each of its steps is specified by `ScanFloors`, `Move` and `Settle`.
- DodgeGame.Dodge.Tick: its contract states only how the two steps combine; each step is specified by `MoveEnemies` and `GenerateRandomEvent`.
- Randomness.Source.Next: promises only the range of a draw, not the generator's sequence.
