# Crystal Rush — a verified model of the simulation core

Crystal Rush is a browser platformer: a player runs and jumps through
levels, collects coins and crystals, stomps enemies and has to reach the
goal before the level timer runs out; progress is kept in the browser's
local storage. This project models the game's simulation rules (not its
rendering) in Dafny and proves what those rules promise.

One module per source file:

| module | source | form |
|---|---|---|
| `Utils` | js/utils.js | pure functions: strict AABB overlap, clamp, lerp, point-in-rectangle, `M:SS` time formatting (with a decimal reader to state the round trip), and the `Distinct` predicate shared by the object lists |
| `Entities` | js/entities.js | `Body` (the fields every entity shares), `Platform` with `adjustColor`, classes `Coin` and `Crystal` whose methods update their fields in place |
| `Physics` | js/physics.js | gravity, friction, collision-side classification, resolution, and the per-frame `update` with its loop over the platforms |
| `Players` | js/player.js | class `Player`: input handling, animation and invincibility ticks, damage, coin collection, reset |
| `Enemies` | js/enemies.js | class `Enemy` with the three kinds (forest sprite, rock golem, void moth): patrol, damage, stomp-or-hit classification |
| `Levels` | js/level.js | the level table, class `Level` (built from level data by loops that push new objects) and class `LevelManager` |
| `Cameras` | js/game.js | class `Camera`: smoothed follow, clamped to the level bounds |
| `Games` | js/game.js | class `Game`: the state machine (menu, playing, paused, gameover, levelcomplete), the per-frame `update`, the Escape toggle and the frame-delta cap of `gameLoop` |
| `Storage` | js/storage.js | class `GameStorage` over one storage slot: next-level ids, recording a finished level, reset, migration |

Every class has a `Model()` function that reads its fields into a value
record (`PlayerState`, `EnemyState`, `CoinState`, `CrystalState`,
`LevelState`, `CameraState`, `GameState`); each method that changes
fields ensures `Model() == Spec(old(Model()), …)` for a pure specification
function, and the promises of the game are proved as lemmas about those
functions. `Game.Update` is proved against `GameUpdate`, which composes the
timer, the player and level moves, the coin, crystal and enemy sweeps, the
goal and fall checks and the camera step in the source's order.

Modelling choices:

- JavaScript numbers are exact `real`s; counters the game only ever changes
  by whole steps (lives, coins, health, timers, score, time remaining) are
  `int`s.
- `Math.sin` is a parameter `sin: real -> real` (coin pulse, void moth
  height); keyboard and touch input is the triple `Input(left, right, jump)`.
- Inheritance (`Platform`, `Coin`, … extend `Entity`) becomes composition:
  each class holds a `Body` value; `PhysicsEngine.update` takes a `Body` and
  returns the new one.
- The browser's storage is the `GameStorage` field `slot` (what is saved)
  and the constant `available` (whether storage works). The saved record is
  a `SaveData` value whose five top-level keys are `Option`s, so a missing
  key is `None`. The date `new Date().toISOString()` is the parameter `now`.
- `requestAnimationFrame` and `performance.now()` become the `currentTime`
  and `now` parameters of `Game.GameLoop`, `Game.StartGame` and
  `Game.ResumeGame`.
- Where the source would throw (a level id without `world<n>`/`level<n>`, a
  saved record missing `progress`), the model returns `None`.

Observations the proofs make explicit (all as in the source):

- A fatal enemy hit does not end the frame: the goal check after it can
  still turn `gameover` into `levelcomplete` and add the time bonus
  (`Games.FatalHitThenGoal`).
- Finishing level 4 of world 3 unlocks world 4, which has no levels
  (`Storage.LastLevelUnlocksWorldFour`).
- In `PhysicsEngine.update`, `onGround` is cleared before friction is
  applied, so friction never changes `vx` there (`Physics.Integrate`).
- Platforms are resolved in list order, and the order can change the
  result (`Physics.PlatformOrderMatters`).
- `Player.reset` always puts the player at (100, 300), not at the level's
  start (`Players.ResetSpec`).
- `LevelManager.getNextLevel` returns the current key, and
  `Game.loadNextLevel` restarts world 1 level 1 (`Games.Game.LoadNextLevel`).

## Model

| member | source | states |
|---|---|---|
| Utils.CheckCollision | js/utils.js:5-10 | for rectangles of positive size, the result is true exactly when their open extents overlap on both axes |
| Utils.CollisionSymmetric | js/utils.js:5-10 | the overlap test does not depend on the order of its arguments |
| Utils.EdgeTouchingDoesNotCollide | js/utils.js:5-10 | rectangles that only share an edge do not collide |
| Utils.Clamp | js/utils.js:13-15 | within [min, max] when min <= max, the value itself when already in range, min below the range, max above it, and min when min > max |
| Utils.Lerp | js/utils.js:18-20 | amount 0 gives start, amount 1 gives end, and an amount in [0, 1] gives a value between the two |
| Utils.LerpBetween | js/utils.js:18-20 | the interpolation formula stays between start and end for amounts in [0, 1] |
| Utils.CornersInRect | js/utils.js:38-41 | the test is inclusive: all four corners of a rectangle lie in it |
| Utils.CollisionCommonPoint | js/utils.js:38-41 | two colliding rectangles have a point that lies in both |
| Utils.NatToString | js/utils.js:47 | the decimal rendering of a number is a non-empty digit string, one digit long exactly below 10 |
| Utils.NatToStringRoundTrip | js/utils.js:47 | reading the decimal rendering back gives the number |
| Utils.PadStart | js/utils.js:47 | padStart keeps a long enough string, otherwise reaches the target length with the original as suffix and padding in front |
| Utils.PaddedSeconds | js/utils.js:46-47 | seconds below 60 padded to two characters are two digits that read back as the seconds |
| Utils.FormatTimeParses | js/utils.js:44-48 | `mins:ss` with ss below 60 reads back as 60 * mins + ss |
| Utils.FormatTime | js/utils.js:44-48 | formatTime(s) reads back as s: minutes, a colon and two-digit seconds with 60 * minutes + seconds = s |
| Entities.NewBody | js/entities.js:4-13 | a new entity has the given position and size, zero velocity, is not on the ground and is active |
| Entities.Bounds | js/entities.js:23-30 | the bounds are exactly the entity's x, y, width and height |
| Entities.Deactivated | js/entities.js:119-122 | collecting clears `active` and changes no other field |
| Entities.DeactivatedIdempotent | js/entities.js:182-185 | deactivating twice is the same as deactivating once |
| Entities.NewPlatform | js/entities.js:34-38 | a platform is a new entity with the given box and the given colour, or the default brown when none is given |
| Entities.ToInt32 | js/entities.js:66-67 | the 32-bit conversion of the shift operators lands in the signed 32-bit range and keeps values already in it |
| Entities.ClampChannel | js/entities.js:67-69 | a channel is clamped into [0, 255] and kept when already there |
| Entities.TrimStart | js/entities.js:66 | parseInt's first step: exactly the leading white space and line terminators of ECMA-262 are dropped, and what is left does not start with one |
| Entities.StripSign | js/entities.js:66 | one leading '+' or '-' is removed, and the sign is negative exactly when it was '-' |
| Entities.StripHexPrefix | js/entities.js:66 | radix 16 drops one leading "0x" or "0X" and nothing else |
| Entities.ParseIntHexOfDigits | js/entities.js:66 | a string that starts with a hex digit (and not with "0x") reads as the value of its leading digits |
| Entities.ParseIntHexOfHex | js/entities.js:66 | a string of hex digits reads back as its value |
| Entities.TrimStartSkips | js/entities.js:66 | white space in front of a string is trimmed away entirely |
| Entities.ParseIntHexSkipsWhiteSpace | js/entities.js:66 | leading white space does not change what parseInt reads |
| Entities.ParseIntHexMinus | js/entities.js:66 | a '-' in front of the digits negates their value |
| Entities.ParseIntHexPlus | js/entities.js:66 | a '+' in front of the digits changes nothing |
| Entities.ParseIntHexPrefix | js/entities.js:66 | a "0x" or "0X" in front of the digits is skipped |
| Entities.AdjustedChannels | js/entities.js:66-69 | all three adjusted channels lie in [0, 255] |
| Entities.SameParseSameChannels | js/entities.js:66-69 | the channels depend on the colour only through what parseInt reads from it after the first '#' is removed |
| Entities.AdjustColorSkipsHexPrefix | js/entities.js:66-69 | "#0x" followed by digits adjusts like "#" followed by the same digits |
| Entities.AdjustColorReadsSign | js/entities.js:66-69 | "#-12" is read as -0x12, so its shifted bytes give the channels 0, 255 and 238 |
| Entities.AdjustColorSkipsWhiteSpace | js/entities.js:66-69 | white space after the '#' does not change the adjusted channels |
| Entities.AdjustColor | js/entities.js:65-71 | the result is `#` and exactly six lower-case hex digits whose value packs the three clamped channels |
| Entities.AdjustColorReadsBack | js/entities.js:65-71 | parseInt reads the six digits of an adjusted colour back as the three packed channels |
| Entities.ToHexRoundTrip | js/entities.js:70 | `toString(16)` reads back as the number |
| Entities.ToHexLength | js/entities.js:70 | a number below 16^k has at most k hex digits, so the packed colour never needs more than six |
| Entities.PaddedHexValue | js/entities.js:70 | zero padding keeps the hex value |
| Entities.LowerHexInjective | js/entities.js:65-71 | two lower-case hex strings of equal length and equal value are equal |
| Entities.LowerHexValue | js/entities.js:65-71 | lower-casing keeps the hex value |
| Entities.PackUnpack | js/entities.js:66-70 | splitting a 24-bit number into channels and packing them again gives the number |
| Entities.AdjustZeroValue | js/entities.js:65-71 | with amount 0 the channels of a six-digit colour pack back to the colour's own value |
| Entities.AdjustColorZero | js/entities.js:65-71 | adjusting a six-digit colour by 0 returns the same colour in lower case |
| Entities.HashAndDigitsOfValue | js/entities.js:70 | '#' and six lower-case digits with the value of a six-digit colour are that colour in lower case |
| Entities.NewCoinState | js/entities.js:75-81 | a coin is a new 20 x 20 entity with rotation 0 and scale 1 |
| Entities.CoinSpin | js/entities.js:83-86 | each update turns the coin by 0.05 and leaves its body alone |
| Entities.CollectCoin | js/entities.js:119-122 | a collected coin is inactive and otherwise unchanged |
| Entities.CollectCoinIdempotent | js/entities.js:119-122 | collecting a coin twice leaves the same state as collecting it once |
| Entities.Coin.Update | js/entities.js:83-86 | the coin's new state is CoinSpin of its old one |
| Entities.Coin.Collect | js/entities.js:119-122 | the coin's new state is CollectCoin of its old one |
| Entities.NewCrystalState | js/entities.js:126-131 | a crystal is a new 30 x 40 entity with the given or default colour, glow 0 rising |
| Entities.Glow | js/entities.js:133-138 | the glow changes by exactly 0.02 times the direction; the direction stays 1 or -1 and flips exactly when the glow leaves [0, 1]; the glow invariant is kept |
| Entities.GlowBounded | js/entities.js:133-138 | from a new crystal, any number of updates keeps the glow within [-0.02, 1.02] and the direction 1 or -1 |
| Entities.GlowKept | js/entities.js:133-138 | the glow invariant holds after any number of updates |
| Entities.CollectCrystal | js/entities.js:182-185 | a collected crystal is inactive and otherwise unchanged |
| Entities.CollectCrystalIdempotent | js/entities.js:182-185 | collecting a crystal twice leaves the same state as collecting it once |
| Entities.Crystal.Update | js/entities.js:133-138 | the crystal's new state is Glow of its old one |
| Entities.Crystal.Collect | js/entities.js:182-185 | the crystal's new state is CollectCrystal of its old one |
| Physics.ApplyGravity | js/physics.js:10-15 | off the ground vy becomes min(vy + 0.6, 15); on the ground nothing changes |
| Physics.ApplyFriction | js/physics.js:17-21 | on the ground vx is multiplied by 0.8; off the ground nothing changes |
| Physics.GravityClosedForm | js/physics.js:10-15 | from rest in the air, n gravity steps give vy = min(0.6 n, 15) and change nothing else |
| Physics.CheckPlatformCollision | js/physics.js:24-65 | none without overlap; a collision exactly when the boxes overlap and some side qualifies by its velocity sign; the reported side qualifies, reports that side's overlap, and no side earlier in the order top, bottom, left, right qualifies |
| Physics.ReportedOverlapIsLeast | js/physics.js:38-64 | the reported overlap is the smallest of the four |
| Physics.ResolveCollision | js/physics.js:67-87 | top and bottom move only y and zero vy; left and right move only x and zero vx; the entity ends flush with the named platform edge; only top sets onGround |
| Physics.ResolveSeparates | js/physics.js:67-87 | after resolution the entity no longer overlaps that platform |
| Physics.ResolveMovesByOverlap | js/physics.js:67-87 | resolving a reported collision moves the entity by exactly the reported (positive) overlap, in the direction of the side |
| Physics.Integrate | js/physics.js:89-99 | onGround is cleared first, so friction never changes vx, gravity always applies and the position advances by the new velocity |
| Physics.ResolveAll | js/physics.js:102-107 | resolving against the platforms never changes size or activity |
| Physics.Floor | js/physics.js:110-114 | below the floor at y = 800 the entity is put on it with vy 0 and onGround; otherwise nothing changes |
| Physics.Update | js/physics.js:89-115 | the method's result equals the step function Step |
| Physics.ResolvePlatforms | js/physics.js:102-107 | the loop over the platforms, in list order, equals ResolveAll |
| Physics.StepFacts | js/physics.js:89-115 | after a step y <= 800, vx is kept or zeroed, and an entity pushed below the floor lands with vy 0 on the ground |
| Physics.ResolveAllVx | js/physics.js:102-107 | resolution keeps vx or sets it to 0 |
| Physics.GroundedOnlyByTopOrFloor | js/physics.js:69-73 | an airborne entity ends up on the ground after the platform loop only through a top collision with some platform |
| Physics.RestingOnPlatform | js/physics.js:89-115 | an entity standing still on a platform stays on it, grounded, with vy 0 |
| Physics.PlatformOrderMatters | js/physics.js:102-107 | the same two platforms in opposite orders give different positions |
| Physics.FallDistance | js/physics.js:10-15 | the distance fallen in n steps is never negative |
| Physics.FreeFall | js/physics.js:89-115 | above the floor with no platforms, n steps from rest give vy = min(0.6 n, 15), y grows by the fall distance and x by n times vx |
| Physics.FreeDrop | js/physics.js:89-115 | the vertical part of a free fall |
| Physics.FreeDrift | js/physics.js:89-115 | the horizontal part of a free fall: vx is kept and x grows by n times vx |
| Players.NewPlayerState | js/player.js:4-27 | a new player is a 40 x 50 entity facing right, able to jump, not invincible, with 3 lives and no coins |
| Players.Steer | js/player.js:31-37 | left gives vx = max(vx - 2.5, -8) and faces left; right without left gives min(vx + 2.5, 8) and faces right; neither changes nothing |
| Players.Jump | js/player.js:40-57 | a jump fires only with jump held, on the ground and canJump, and sets vy -13, jumping, not canJump, airborne; releasing jump halves a rising vy once and clears jumping, and always sets canJump |
| Players.HandleInputSpec | js/player.js:29-58 | input changes only the body, facing, jumping and canJump |
| Players.HandleInputKeepsSpeedLimit | js/player.js:32-35 | vx stays within [-8, 8] |
| Players.JumpIsEdgeTriggered | js/player.js:40-57 | holding jump cannot fire a second jump; releasing it first re-arms the jump |
| Players.Animate | js/player.js:67-75 | a moving player (abs(vx) > 0.5) advances the frame mod 4 once the timer reaches 1, a still one shows frame 0; the frame stays in 0..3 |
| Players.TickInvincibility | js/player.js:78-83 | while invincible the timer drops by 1 and invincibility ends when it reaches 0; otherwise nothing changes |
| Players.PlayerUpdate | js/player.js:60-84 | lives and coins are kept, the frame stays in 0..3, invincibility ticks, and the body is the physics step of the steered body |
| Players.InvincibilityCountdown | js/player.js:78-83 | after n frames of an n-or-longer window the timer has dropped by n, and the player is invincible exactly while frames remain |
| Players.AnimationFrameInRange | js/player.js:67-75 | the frame stays in 0..3 over any run of frames |
| Players.TakeDamageSpec | js/player.js:150-163 | an invincible player is unchanged and survives; otherwise lives drop by exactly 1, 120 frames of invincibility start, knockback vy -8 and vx = -facing * 5, no other field changes, and the result says whether lives <= 0 |
| Players.OneLifePerWindow | js/player.js:150-163 | within the invincibility window after a hit, a second hit changes nothing |
| Players.LivesUnchangedByFrames | js/player.js:60-84 | frames never change lives or coins |
| Players.CollectCoinSpec | js/player.js:165-172 | one more coin, and one more life exactly when the new count is a multiple of 100 |
| Players.CoinLives | js/player.js:165-172 | n coins add n to the count and one life per hundred boundary crossed |
| Players.ResetSpec | js/player.js:174-181 | the player is put at (100, 300) with zero velocity and no invincibility; lives, coins and facing are kept |
| Players.Player.constructor | js/player.js:4-27 | the new player's state is NewPlayerState |
| Players.Player.HandleInput | js/player.js:29-58 | the new state is HandleInputSpec of the old one |
| Players.Player.Update | js/player.js:60-84 | the new state is PlayerUpdate of the old one |
| Players.Player.Animation | js/player.js:67-75 | the new state is Animate of the old one |
| Players.Player.Invincibility | js/player.js:78-83 | the new state is TickInvincibility of the old one |
| Players.Player.TakeDamage | js/player.js:150-163 | the new state and the result are TakeDamageSpec of the old state |
| Players.Player.CollectCoin | js/player.js:165-172 | the new state is CollectCoinSpec of the old one |
| Players.Player.Reset | js/player.js:174-181 | the new state is ResetSpec of the old one |
| Enemies.NewEnemyState | js/enemies.js:4-11 | a basic enemy has health 1, speed 2, direction 1, patrol distance 150 and starts its patrol at x |
| Enemies.NewSprite | js/enemies.js:58-68 | a forest sprite is 35 x 35 with speed 1.5 |
| Enemies.NewGolem | js/enemies.js:135-140 | a rock golem is 45 x 50 with health 2, speed 1 and patrol distance 100 |
| Enemies.NewMoth | js/enemies.js:203-210 | a void moth is 40 x 30 with patrol distance 200 and flies at its start height |
| Enemies.PatrolAsWritten | js/enemies.js:14-20 | as written: vx = speed * direction with the direction before the flip; the direction flips exactly when abs(x - startX) > patrolDistance; nothing else changes |
| Enemies.Patrol | js/enemies.js:14-20 | corrected: the direction flips exactly when abs(x - startX) > patrolDistance, then vx = speed * the new direction; the direction stays 1 or -1 and nothing else changes |
| Enemies.MothFly | js/enemies.js:212-229 | a moth moves x by vx without physics; its height is the wave around its flying height |
| Enemies.Walk | js/enemies.js:13-24 | a walking enemy's body is the physics step; a sprite's float offset advances |
| Enemies.Move | js/enemies.js:212-229 | after the patrol step a moth moves by exactly its vx without platforms, and other kinds take the physics step; the kind's variant is kept |
| Enemies.EnemyUpdateAsWritten | js/enemies.js:13-24 | as written: the flip rule, with a moth moving by speed * the old direction and other kinds taking the physics step with that vx |
| Enemies.EnemyUpdate | js/enemies.js:13-24 | the corrected patrol step, then a moth moves by exactly speed * the new direction without platforms and other kinds take the physics step; health and patrol data are kept |
| Enemies.TurnsPastPatrolLimit | js/enemies.js:15-19 | an enemy 151 past its start turns round |
| Enemies.DirectionStaysUnit | js/enemies.js:15-19 | the direction stays 1 or -1 over any number of updates |
| Enemies.PatrolStallsAtLimit | js/enemies.js:13-20 | as written, past the limit the direction flips on two frames running while x comes back to where it was: the pre-flip velocity makes the enemy jitter at the limit |
| Enemies.PatrolLeavesLimit | js/enemies.js:15-19 | with the corrected patrol step an enemy that has just crossed its limit turns, moves back by its speed and is inside the limit after that frame |
| Enemies.EnemyTakeDamage | js/enemies.js:26-34 | health drops by 1; the enemy is defeated and deactivated exactly when health <= 0; otherwise nothing else changes |
| Enemies.GolemTakesTwoHits | js/enemies.js:135-140 | a rock golem survives the first hit and is defeated by the second |
| Enemies.OthersTakeOneHit | js/enemies.js:26-34 | sprites, moths and basic enemies are defeated by one hit |
| Enemies.CheckPlayerCollision | js/enemies.js:36-54 | none when the enemy is inactive, the player invincible or the boxes apart; otherwise stomp exactly when the player is falling with feet above the enemy's top + 10, else hit |
| Enemies.NotFallingMeansHit | js/enemies.js:44-50 | a player who is not falling is never reported as a stomp |
| Enemies.Enemy.constructor | js/enemies.js:4-11 | the new enemy's state is NewEnemyState |
| Enemies.Enemy.ForestSprite | js/enemies.js:58-68 | the new enemy's state is NewSprite |
| Enemies.Enemy.RockGolem | js/enemies.js:135-140 | the new enemy's state is NewGolem |
| Enemies.Enemy.VoidMoth | js/enemies.js:203-210 | the new enemy's state is NewMoth |
| Enemies.Enemy.Update | js/enemies.js:13-24 | the new state is EnemyUpdate of the old one |
| Enemies.Enemy.PatrolStep | js/enemies.js:14-20 | the new state is the corrected Patrol of the old one |
| Enemies.Enemy.FlyStep | js/enemies.js:212-229 | the new state is MothFly of the old one |
| Enemies.Enemy.WalkStep | js/enemies.js:21-23 | the new state is Walk of the old one |
| Enemies.Enemy.TakeDamage | js/enemies.js:26-34 | the new state and the result are EnemyTakeDamage of the old state |
| Levels.OrReal | js/level.js:5-16 | a missing or zero field falls back to its default |
| Levels.OrInt | js/level.js:15-16 | a missing or zero field falls back to its default |
| Levels.OrString | js/level.js:14 | a missing or empty name falls back to the default |
| Levels.MakePlatforms | js/level.js:23-27 | one platform per entry, in order |
| Levels.MakeCoins | js/level.js:30-34 | one coin per entry, in order |
| Levels.MakeCrystals | js/level.js:37-41 | one crystal per entry, in order |
| Levels.SpawnEnemy | js/level.js:46-56 | sprite, golem and moth make the matching enemy; any other type makes none |
| Levels.SpawnAll | js/level.js:44-57 | at most one enemy per entry, each of a known kind |
| Levels.SpawnAllCount | js/level.js:44-57 | the number of enemies is the number of entries of a known type |
| Levels.SpawnAllKnown | js/level.js:44-57 | with only known types there is one enemy per entry, in order |
| Levels.BuildLevel | js/level.js:4-59 | each field takes its value or its default (width 3000, height 600, start (100, 300), goal 2800, time 300, name, world 1); platforms, coins and crystals keep the input's length and order; enemies are at most as many as entries |
| Levels.EmptyDescriptionDefaults | js/level.js:4-19 | an empty description gives all defaults and empty lists |
| Levels.GoalReached | js/level.js:124-126 | the goal is reached exactly when x > goalX - 50 |
| Levels.GoalReachedMonotone | js/level.js:124-126 | moving right never un-reaches the goal |
| Levels.SpinAll | js/level.js:63 | each coin spins |
| Levels.GlowAll | js/level.js:64 | each crystal glows |
| Levels.EnemyTurn | js/level.js:65-69 | an inactive enemy is left unchanged, an active one updated; activity is kept |
| Levels.EnemiesTurn | js/level.js:65-69 | the rule applies to each enemy in order |
| Levels.LevelUpdateShape | js/level.js:61-70 | an update changes only the three lists, keeps their lengths, leaves inactive enemies as they were and moves no coin |
| Levels.LevelUpdateKeepsGlow | js/level.js:61-70 | the crystals' glow invariant survives a level update |
| Levels.NewPlatforms | js/level.js:23-27 | the loop builds exactly MakePlatforms |
| Levels.NewCoins | js/level.js:30-34 | the loop builds distinct new coins whose states are MakeCoins |
| Levels.NewCrystals | js/level.js:37-41 | the loop builds distinct new crystals whose states are MakeCrystals |
| Levels.NewEnemy | js/level.js:46-56 | a new enemy of the named kind, or none for an unknown type |
| Levels.NewEnemies | js/level.js:44-57 | the loop builds distinct new enemies whose states are SpawnAll |
| Levels.BuildContents | js/level.js:21-59 | buildLevel's four lists are MakePlatforms, MakeCoins, MakeCrystals and SpawnAll of the data |
| Levels.SpinCoins | js/level.js:63 | every coin of the list spins once |
| Levels.GlowCrystals | js/level.js:64 | every crystal of the list glows once |
| Levels.TurnEnemies | js/level.js:65-69 | every enemy of the list takes EnemyTurn |
| Levels.FirstLevelContents | js/level.js:130-205 | world 1 level 1 has 15 platforms, 30 coins, 3 crystals, 6 enemies, 300 seconds, the goal at 2800 and height 600 |
| Levels.Level.constructor | js/level.js:4-19 | the new level's state is BuildLevel of the data |
| Levels.Level.Update | js/level.js:61-70 | the new state is LevelUpdate of the old one |
| Levels.Level.UpdateCoins | js/level.js:63 | the coins spin and the other lists keep their states |
| Levels.Level.UpdateCrystals | js/level.js:64 | the crystals glow and the other lists keep their states |
| Levels.Level.UpdateEnemies | js/level.js:65-69 | the enemies take their turn and the other lists keep their states |
| Levels.Level.CheckGoalReached | js/level.js:124-126 | the result is GoalReached for the level's state |
| Levels.LevelManager.constructor | js/level.js:208-211 | no current level and no current key |
| Levels.LevelManager.LoadLevel | js/level.js:213-220 | an unknown key gives null and changes nothing; a known key builds a new level from its data and makes it and the key current |
| Levels.LevelManager.GetNextLevel | js/level.js:222-226 | the result is the current key |
| Cameras.NewCameraState | js/game.js:4-12 | a new camera is at the origin with the default bounds 0..3000 by 0..600 |
| Cameras.CameraStep | js/game.js:18-32 | no target changes nothing; otherwise x and y end within [left, right - width] and [top, bottom - height] when those ranges are not empty |
| Cameras.CameraSmoothing | js/game.js:26 | before clamping the camera covers exactly a tenth of the way to the centred position |
| Cameras.CameraClosesIn | js/game.js:22-31 | with a reachable centred position the distance to it shrinks to at most 0.9 of what it was |
| Cameras.CameraSettles | js/game.js:18-32 | a camera already centred within its bounds stays put |
| Cameras.Camera.constructor | js/game.js:4-12 | the new camera's state is NewCameraState, with no target |
| Cameras.Camera.Follow | js/game.js:14-16 | the target is set and nothing else changes |
| Cameras.Camera.Update | js/game.js:18-32 | the new state is CameraStep of the old one |
| Cameras.Camera.SetBounds | js/game.js:34-36 | only the bounds change |
| Games.Countdown | js/game.js:195-203 | the accumulator grows by the delta; on reaching 1000 the time drops by exactly 1 and the accumulator resets to 0; the game is over exactly when the time then is <= 0 |
| Games.CountdownKeepsAccumulatorBelowTick | js/game.js:195-203 | the accumulator stays in [0, 1000) for non-negative deltas |
| Games.TouchedCoins | js/game.js:208-214 | at most one collection per coin |
| Games.SweepCoins | js/game.js:208-214 | the sweep keeps every coin's place and never moves the player |
| Games.CollectCoinsKeepsBody | js/game.js:211 | collecting coins changes only the player's coins and lives |
| Games.SweepCoinsTotals | js/game.js:208-214 | the player collects one coin per touched active coin and the score grows by 10 for each |
| Games.SweepCoinsAt | js/game.js:208-214 | each coin ends collected exactly when it was active and touched |
| Games.NoCoinTouched | js/game.js:208-214 | nothing touched means nothing collected |
| Games.SweepCollectsEachCoinOnce | js/game.js:208-214 | after a sweep no coin can be collected again by the same player position |
| Games.TouchedCrystals | js/game.js:216-221 | at most one collection per crystal |
| Games.SweepCrystals | js/game.js:216-221 | the sweep keeps every crystal's place |
| Games.SweepCrystalsScore | js/game.js:216-221 | the score grows by 50 per touched active crystal |
| Games.SweepCrystalsAt | js/game.js:216-221 | each crystal ends collected exactly when it was active and touched |
| Games.SweepEnemies | js/game.js:223-233 | the sweep keeps every enemy's place |
| Games.SweepEnemiesAt | js/game.js:223-233 | enemy i ends as Meet makes it from the player, score and phase that the enemies before it left |
| Games.MeetOutcomes | js/game.js:224-232 | no contact changes nothing; a stomp adds 20 points, sets the player's vy to -10 and nothing else of the player, damages the enemy and keeps the phase; a hit leaves enemy and score alone, damages the player as TakeDamageSpec says, and the phase becomes gameover exactly when that damage was fatal (or it already was) |
| Games.SweepEnemiesBounds | js/game.js:223-233 | the score never drops, the phase is kept or becomes gameover, coins are kept, and at most one life is lost (then the player is invincible) |
| Games.StompThenHit | js/game.js:225-230 | after a stomp the player is rising, so a second overlapping enemy in the same sweep hits |
| Games.GoalCheck | js/game.js:235-237 | reaching the goal completes the level and adds 10 points per second remaining; otherwise nothing changes |
| Games.FallCheck | js/game.js:239-246 | falling below the level costs a life; a fatal fall ends the game, any other fall puts the player at (100, 300); an invincible player is only reset |
| Games.GameUpdate | js/game.js:192-250 | nothing changes unless playing; running out of time ends the frame after the countdown |
| Games.PlayFrameScore | js/game.js:205-250 | the score never drops over the rest of a frame |
| Games.ScoreNeverDecreases | js/game.js:192-250 | the score never drops over a frame |
| Games.FatalHitThenGoal | js/game.js:229-237 | after a fatal hit, reaching the goal in the same frame still completes the level with the time bonus |
| Games.CollectedCoinStaysCollected | js/game.js:192-250 | a collected coin stays collected |
| Games.StartedRun | js/game.js:125-142 | a new run has 3 lives, no coins, score 0 and starts at the level's start; its first frame keeps the camera within the level |
| Games.EscapeDown | js/game.js:107-117 | a latched key does nothing; otherwise the latch is set and playing and paused swap |
| Games.HeldEscapeTogglesOnce | js/game.js:107-122 | holding Escape for any number of key events toggles once |
| Games.HeldLatchIgnored | js/game.js:107-117 | while latched, key events change nothing |
| Games.FrameDelta | js/game.js:276-278 | the delta as written is capped at 100 and is the elapsed time below the cap, with no lower bound |
| Games.FirstFrameDeltaIsNegative | js/game.js:273-278 | a gameLoop call without a timestamp right after startGame or resumeGame gives a negative delta that lowers the accumulator |
| Games.ClampedFrameDelta | js/game.js:276-278 | the corrected delta lies in [0, 100] and is the elapsed time when that already does |
| Games.ClampedDeltaKeepsCountdownMonotone | js/game.js:195-203 | with the corrected delta the accumulator never drops except when a second ticks |
| Games.CoinAfter | js/game.js:208-214 | a coin stays in place and ends active exactly when it was active and untouched |
| Games.CrystalAfter | js/game.js:216-221 | a crystal stays in place and ends active exactly when it was active and untouched |
| Games.CoinLoopIsSweep | js/game.js:208-214 | coins updated one by one give the sweep's coin list |
| Games.CrystalLoopIsSweep | js/game.js:216-221 | crystals updated one by one give the sweep's crystal list |
| Games.TouchCoin | js/game.js:209-213 | a touched active coin is collected and the player gets it; otherwise neither changes |
| Games.CollectTouchedCoins | js/game.js:208-214 | the loop collects every touched active coin, gives the player that many coins and adds 10 points each |
| Games.TouchCrystal | js/game.js:217-220 | a touched active crystal is collected |
| Games.CollectTouchedCrystals | js/game.js:216-221 | the loop collects every touched active crystal and adds 50 points each |
| Games.MeetEnemy | js/game.js:224-232 | one enemy's stomp or hit, as Meet states it (see Games.MeetOutcomes) |
| Games.MeetEnemyAt | js/game.js:224-232 | MeetEnemy on one enemy of the level's list; every other enemy is left as it was |
| Games.MeetAllEnemies | js/game.js:223-233 | the loop over the enemies equals SweepEnemies |
| Games.SweepLevelCoins | js/game.js:208-214 | the level's coins become the sweep's and nothing else of the level changes |
| Games.SweepLevelCrystals | js/game.js:216-221 | the level's crystals become the sweep's and nothing else of the level changes |
| Games.SweepLevelEnemies | js/game.js:223-233 | the level's enemies become the sweep's and nothing else of the level changes |
| Games.Game.constructor | js/game.js:40-71 | a new game is in the menu with score 0 and a fresh camera and level manager |
| Games.Game.StartGame | js/game.js:125-142 | playing world 1 level 1 from its start, with score 0, the level's time limit and the camera following the player within the level |
| Games.Game.Begin | js/game.js:126-140 | the shared body of startGame once the level is loaded |
| Games.Game.LoadNextLevel | js/game.js:181-183 | the same as starting the game |
| Games.Game.PauseGame | js/game.js:144-148 | the state becomes paused |
| Games.Game.ResumeGame | js/game.js:150-156 | the state becomes playing and the clock restarts at the current time |
| Games.Game.GameOver | js/game.js:158-164 | the state becomes gameover |
| Games.Game.LevelComplete | js/game.js:166-179 | the state becomes levelcomplete and 10 points per second remaining are added |
| Games.Game.EscapeKeyDown | js/game.js:108-117 | state and latch follow EscapeDown; the clock restarts at `now` exactly when a fresh Escape resumes a paused game and is kept otherwise |
| Games.Game.EscapeKeyUp | js/game.js:118-122 | the latch is released |
| Games.Game.Tick | js/game.js:195-203 | the state becomes Countdown of the old one, and the result says whether time ran out |
| Games.Game.MovePlayerStep | js/game.js:205 | the new state is MovePlayer of the old one |
| Games.Game.MoveLevelStep | js/game.js:206 | the new state is MoveLevel of the old one |
| Games.Game.CoinStep | js/game.js:208-214 | the new state is CoinPass of the old one |
| Games.Game.CrystalStep | js/game.js:216-221 | the new state is CrystalPass of the old one |
| Games.Game.EnemyStep | js/game.js:223-233 | the new state is EnemyPass of the old one |
| Games.Game.GoalStep | js/game.js:235-237 | the new state is GoalCheck of the old one |
| Games.Game.FallStep | js/game.js:239-246 | the new state is FallCheck of the old one |
| Games.Game.CameraStep | js/game.js:248 | the new state is FollowCamera of the old one |
| Games.Game.Update | js/game.js:192-250 | nothing changes in the menu; otherwise the new state is GameUpdate of the old one |
| Games.Game.PlayFrameStep | js/game.js:205-248 | the new state is PlayFrame of the old one |
| Games.Game.MoveSteps | js/game.js:205-206 | the new state is Moves of the old one |
| Games.Game.ContactSteps | js/game.js:208-233 | the new state is Contacts of the old one |
| Games.Game.CheckSteps | js/game.js:235-248 | the new state is Checks of the old one |
| Games.Game.Stamp | js/game.js:277 | only the time of the last frame changes |
| Games.Game.GameLoop | js/game.js:273-284 | nothing changes unless playing; otherwise the game takes GameUpdate with the delta capped at 100 (and, as corrected under Findings, at 0 from below) and remembers the time |
| Storage.DigitRun | js/storage.js:163 | `\d+` takes the longest run of digits |
| Storage.NumberAfterTag | js/storage.js:163 | a match starts with the tag and has at least one digit |
| Storage.DigitRunEnds | js/storage.js:163 | a digit run ends at the first non-digit |
| Storage.NumberAfterTagReads | js/storage.js:163 | a tag followed by a rendered number and a non-digit reads back as that number |
| Storage.FindNumberSkips | js/storage.js:132-133 | the leftmost match is found after positions where the tag does not match |
| Storage.LevelIdRoundTrip | js/storage.js:162-180 | `world<w>_level<l>` parses back as (w, l), and the world and level patterns read w and l |
| Storage.LevelNumberOfLevelId | js/storage.js:133 | the level pattern of a level id reads its level number |
| Storage.NoLevelTagBefore | js/storage.js:133 | no `level<n>` match starts inside the `world<n>_` prefix |
| Storage.Mismatch | js/storage.js:163 | a differing character rules out a match at that position |
| Storage.GetNextLevel | js/storage.js:162-180 | no match gives null; for world w level l the result is `world<w>_level<l+1>` when l < 4, `world<w+1>_level1` when l >= 4 and w < 3, and null exactly otherwise; a result parses back as that later position |
| Storage.CampaignOrder | js/storage.js:162-180 | the twelve campaign levels follow each other in order and the last has no successor |
| Storage.AddOnce | js/storage.js:120-122 | `includes` then `push`: the item is present afterwards, at most one entry is added at the end, and membership is the old plus the item |
| Storage.DistinctOnce | js/storage.js:120-122 | in a list without repetitions an item occurs once or not at all |
| Storage.AddOnceDistinct | js/storage.js:120-122 | a list without repetitions stays so and holds the item exactly once |
| Storage.BestScores | js/storage.js:114-117 | the entry is replaced exactly when it is missing or the new score is strictly greater; no other entry changes |
| Storage.BestScoreNeverDrops | js/storage.js:114-117 | the kept score is at least the new one and at least the old one |
| Storage.ProgressAfter | js/storage.js:119-140 | completed gains the level, unlocked gains the next level, worlds gain world + 1 after a level 4, each at most once, appended; coins grow by exactly the amount |
| Storage.ProgressAfterDistinct | js/storage.js:119-137 | lists without repetitions stay so; the level, the next level and the new world each occur exactly once |
| Storage.StatsAfter | js/storage.js:141-144 | the last play date is now; a first play date is set if missing and kept otherwise; nothing else changes |
| Storage.RecordCompletion | js/storage.js:110-148 | a result exactly when highscores, progress and stats are present and the id names a world and a level; version and settings are kept |
| Storage.CompletionUnlocksNext | js/storage.js:120-140 | after finishing a level it is completed, its successor unlocked and the coins added |
| Storage.LastLevelUnlocksWorldFour | js/storage.js:132-137 | finishing world 3 level 4 unlocks world 4 although no level follows |
| Storage.LoadedOrDefault | js/storage.js:111 | nothing saved gives the default record |
| Storage.ResetRecord | js/storage.js:250-257 | the default record with the old settings |
| Storage.ResetLocksAllButFirst | js/storage.js:250-257 | after a reset only world 1 level 1 and world 1 are unlocked |
| Storage.Filled | js/storage.js:293-306 | every top-level key is present, existing keys are kept, and the version is current |
| Storage.FillKeysFills | js/storage.js:298-303 | filling the keys one by one in the defaults' order and setting the version gives Filled |
| Storage.MigrateIdempotent | js/storage.js:293-306 | a migrated record needs no migration, so migrating twice is migrating once |
| Storage.CurrentVersionNotRepaired | js/storage.js:295 | a record of the current version with a missing key is not repaired |
| Storage.CompletionAsWritten | js/storage.js:110-148 | with nothing saved, the shared defaults object itself becomes the saved record |
| Storage.ResetAsWritten | js/storage.js:250-257 | the reset copies whatever the defaults object holds by then |
| Storage.ResetAfterClearKeepsProgress | js/storage.js:250-257 | finishing a level with nothing saved and then resetting still lists the level as completed |
| Storage.RecordHighscore | js/storage.js:114-117 | the method's result is BestScores |
| Storage.AdvanceProgress | js/storage.js:119-140 | the method's pushes give ProgressAfter |
| Storage.StampDates | js/storage.js:141-144 | the method's result is StatsAfter |
| Storage.GameStorage.constructor | js/storage.js:5-43 | the storage holds the given slot |
| Storage.GameStorage.IsAvailable | js/storage.js:70-79 | whether storage works |
| Storage.GameStorage.Load | js/storage.js:84-92 | the saved record, or null when storage does not work |
| Storage.GameStorage.Save | js/storage.js:97-105 | saves and reports success exactly when storage works |
| Storage.GameStorage.Init | js/storage.js:49-65 | an empty slot gets the defaults, a saved record is migrated |
| Storage.GameStorage.Migrate | js/storage.js:293-306 | an outdated record is saved with every key filled and the current version; a current one is left alone |
| Storage.GameStorage.UpdateProgress | js/storage.js:110-148 | the result is RecordCompletion of the saved record or the defaults, and it is saved |
| Storage.GameStorage.IsLevelUnlocked | js/storage.js:185-188 | whether the level is in the saved unlocked levels |
| Storage.GameStorage.IsWorldUnlocked | js/storage.js:193-196 | whether the world is in the saved unlocked worlds |
| Storage.GameStorage.ResetProgress | js/storage.js:250-257 | the saved record becomes ResetRecord of the old one (or of the defaults) |
| Storage.GameStorage.ClearAll | js/storage.js:262-265 | the slot is emptied |

## Left out

- Rendering: every `draw` method, canvas gradients, the player's flicker, `updateUI`, DOM screens, the parallax background (js/parallax.js) and its update call in `Game.update`.
- Sound (js/sound.js), asset loading (js/assets.js), page set-up (js/main.js) and the commented-out js/game_updated.js: no simulation rules.
- Keyboard and touch plumbing (js/input.js, js/touch.js): input is the `Input(left, right, jump)` triple.
- `requestAnimationFrame` and `performance.now()`: time is a parameter. `Games.Game.GameLoop` does not model the re-scheduling of the next frame.
- `Games.Game.StartGame` and `Games.Game.ResumeGame`: the trailing `gameLoop()` call is not made by the method; `Games.FirstFrameDeltaIsNegative` states what that call computes.
- `Games.Game.GameLoop`: models `lastTime = currentTime` after `update`; `update` never reads `lastTime`, so the order does not matter. It clamps the delta at 0 from below, which the source does not (see Findings).
- Floating point: exact reals stand in for IEEE-754 numbers, so no rounding is modelled.
- `Entities.AdjustedChannels`: parseInt's result is taken exactly; a colour with more than 13 hex digits, whose value JavaScript rounds to a double (or turns into Infinity, which the shifts read as 0), is not modelled.
- `Storage.LevelUnlocked` and `Storage.WorldUnlocked`: with nothing saved the source returns the falsy `null`; the model returns `Some(false)`.
- `Storage.GameStorage.UpdateProgress`: with storage unavailable the source keeps adding to the shared defaults object on every call; the model starts each call from the untouched defaults (the corrected behaviour of the second finding).
- `Math.sin` is a parameter, so the coin's pulse scale and the void moth's height are stated in terms of it and not bounded.
- `Utils.random`, `Utils.randomInt` and `Utils.distance`: random or irrational, and not used by the rules.
- The camera's parallax offset and the sprite's float amplitude only feed drawing.
- Storage exceptions and JSON: `JSON.parse`/`stringify`, a `localStorage` that throws on write, `exportData` and `importData` are not modelled; a saved record is a typed value.
- `Storage.GameStorage.ClearAll`: with storage unavailable the source's `removeItem` would throw; the model leaves the slot alone.
- `updateStats`, `updateSettings` and the getters of js/storage.js:153-157 and 201-245: plain reads and `Object.assign` on the record, outside the progress rules.
- `Storage.RecordCompletion`: JavaScript falsiness beyond a missing key (an empty `highscores` object, a zero or empty field) is not modelled; keys are either present or absent, and keys missing inside `progress` or `stats` are not modelled.
- `Storage.CompletionAsWritten`: does not model the defaults object being partly changed by a call that throws half way.
- Scores, times and coin amounts passed to `updateProgress` are integers.
- `new Date().toISOString()` is the single parameter `now`, so the two calls in `updateProgress` give the same date.
- Freshness of the objects `Level` and `Player` allocate is stated where callers need it (`LoadLevel`, `NewEnemy`), not everywhere.

## Findings

| source | as written | input that shows it | evidently intended | confidence | as-written member | corrected member |
|---|---|---|---|---|---|---|
| js/game.js:141 | `startGame` and `resumeGame` call `gameLoop()` with no argument, so `currentTime` defaults to 0 and the first delta is `0 - performance.now()`, which is negative and is not capped from below | `now = 5000` with the accumulator at 400: the first frame's delta is -5000 and the accumulator becomes -4600, delaying the timer by several seconds | a first delta of 0 (or any delta clamped to [0, 100]) so the accumulator never goes backwards | not executed | Games.FirstFrameDeltaIsNegative | Games.ClampedDeltaKeepsCountdownMonotone |
| js/enemies.js:15-19 | `update` (and the void moth's, js/enemies.js:214-218) sets `velocityX` from the direction before the patrol check flips it, so the turning frame still carries the enemy one step outward, and the next frame, finding it still beyond the limit, turns it outward again | a void moth spawned at 400 (limit 200, speed 2) at x = 601 facing right moves to 603 facing left, then back to 601 facing right, for ever | turn first and take the speed from the new direction, so the enemy heads back to its spawn point | not executed | Enemies.PatrolStallsAtLimit | Enemies.PatrolLeavesLimit |
| js/storage.js:111 | `this.load() \|\| this.defaultData` hands out the defaults object itself when nothing is saved, so `updateProgress` changes the defaults in place and a later `resetProgress` copies the changed defaults | `clearAll()`, then `updateProgress("world1_level1", 100, 60, 5)`, then `resetProgress()`: the level is still listed as completed after the reset | `resetProgress` yields the default progress with the old settings | not executed | Storage.ResetAfterClearKeepsProgress | Storage.ResetRecord |

The rest of the model uses the corrected behaviour: `Games.Game.GameLoop` hands
`update` the clamped delta (`Games.ClampedFrameDelta`); `Enemies.EnemyUpdate`,
and so every enemy of a level and of a game frame, uses the corrected
`Enemies.Patrol` (`Enemies.EnemyUpdateAsWritten` keeps the source's order);
`Storage.GameStorage.ResetProgress` resets to `Storage.ResetRecord`; and
`Storage.GameStorage.UpdateProgress` starts from the untouched defaults when
nothing is saved.
