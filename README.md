# red_rogue core, modelled in Dafny

red_rogue is a Unity roguelike. Each stage is an arena cut into tiles. Enemy
groups are spawned on the floor tiles against a weight budget. They patrol,
pursue and attack the player, and they drop loot when they die. The player
slashes enemies, reflects their projectiles and picks up buffs. A game manager
counts phases and stages.

This project models the game logic that sits under the engine calls. It
covers:

- the recursive "split in half" partition and tile classification of the
  arena and floor generators: the live ones, the test ones and the legacy one;
- the three generations of enemy AI state machines and their shared sight
  test and patrol route;
- both enemy attack components and their cooldown;
- the two enemy spawners' budget loops and patrol-point selection;
- the loot dropper's weighted pick;
- enemy and player health;
- the enemy projectile, the player's slash and melee hit lists, and the buff
  outline;
- the game manager's state machine, phase/stage counter and enemy registry.

Each core C# file is one Dafny module, usually named after it. The
exceptions: `Combat` and `LegacyCombat` model the two `EnemyAttack.cs` files;
`EnemyThreeState` models `NewMonoBehaviourScript.cs`; `ArenaSpawner` models
the arena's `EnemySpawner.cs`; and the `PlayStage`, `CompletedStage` and
`LoadStage` states live inside `GameManager`. A few shared modules
(`Geometry`, `UnityRandom`, `Partition`, `Cooldown`, `PatrolRoute`, `Sight`,
`Sorting`, `SpawnBudget`, `Wrappers`) hold what several files use. Every
component whose fields change is a Dafny class. Engine results enter the model as
parameters: distances, view angles, ray tests, overlap queries, arrival at a
point and key presses. Random draws are parameters too, or oracles indexed by
where they are drawn. The contracts and lemmas state what the C# code does
with them.

## Model

| member | source | states |
|---|---|---|
| UnityRandom.RangeF | Assets/GameModules/map/arena/stages/stage1/s1Gen.cs:419 | `Random.Range(float, float)`: the result lies between the two bounds whichever is larger, and the draw's ends give the bounds exactly |
| UnityRandom.RangeI | Assets/GameModules/enemies/Scripts/EnemyLoot.cs:83 | `Random.Range(int, int)`: the lower bound for an empty range, otherwise an integer in [lo, hi) with the upper bound excluded |
| Geometry.TotalAreaAppend | Assets/GameModules/map/arena/stages/stage1/s1Gen.cs:403-439 | the total area of a list of leaves is additive over concatenation, the step the area-sum proof of the partition uses |
| Partition.ChooseAxis | Assets/GameModules/map/arena/stages/stage1/s1Gen.cs:411-415 | a rectangle more than three times as deep as wide is cut horizontally; failing that one more than three times as wide is cut vertically; otherwise the cut is vertical exactly when the draw is below 0.3 |
| Partition.SplitLine | Assets/GameModules/map/arena/stages/stage1/s1Gen.cs:418-420 | half the side plus a variation within a fifth of it puts the cut line between 30 % and 70 % of the side |
| Partition.CutPartitions | Assets/GameModules/map/arena/stages/stage1/s1Gen.cs:422-435 | a cut in that band gives two halves inside the parent that do not overlap, sum to its area, keep the other side, and are both strictly positive and strictly shorter along the cut side |
| Partition.CutShrinks | Assets/GameModules/map/arena/stages/stage1/s1Gen.cs:403-439 | both halves of a cut of a non-leaf have a smaller termination measure, so the recursion ends |
| Partition.CutAtPartitions | Assets/GameModules/map/arena/stages/stage1/s1Gen.cs:411-435 | the cut `SplitHalf` actually makes for a non-leaf (axis by the draw, line by the variation) partitions the rectangle as above |
| Partition.SplitHalf | Assets/GameModules/map/arena/stages/stage1/s1Gen.cs:403-439 | every call emits at least one leaf |
| Partition.SplitHalfShape | Assets/GameModules/map/arena/stages/stage1/s1Gen.cs:405-409 | a rectangle is emitted unchanged, alone, exactly when it passes the leaf test (perimeter, width or depth below its minimum); otherwise at least two leaves come out |
| Partition.CutLeaves | Assets/GameModules/map/arena/stages/stage1/s1Gen.cs:424-437 | a non-leaf's leaves are its first half's followed by its second half's, at least two |
| Partition.SplitHalfUnfold | Assets/GameModules/map/arena/stages/stage1/s1Gen.cs:424-437 | one recursion step: a non-leaf's leaves are those of its left (upper) half, then those of its right (lower) half |
| Partition.VerticalShrinks | Assets/GameModules/map/arena/stages/stage1/s1Gen.cs:418-425 | both halves of a vertical cut at the drawn line have a smaller measure |
| Partition.HorizontalShrinks | Assets/GameModules/map/arena/stages/stage1/s1Gen.cs:430-437 | both halves of a horizontal cut at the drawn line have a smaller measure |
| Partition.AppendVertical | Assets/GameModules/map/arena/stages/stage1/s1Gen.cs:422-425 | appending the leaves of the left half, then of the right half, appends exactly the leaves of the whole rectangle (the shared output list) |
| Partition.AppendHorizontal | Assets/GameModules/map/arena/stages/stage1/s1Gen.cs:434-437 | appending the leaves of the upper half, then of the lower half, appends exactly the leaves of the whole rectangle |
| Partition.LeavesAreSmall | Assets/GameModules/map/arena/stages/stage1/s1Gen.cs:405-409 | every emitted rectangle passed the leaf test |
| Partition.Tiling | Assets/GameModules/map/arena/stages/stage1/s1Gen.cs:403-439 | the leaves tile the input: each lies inside it, no two overlap, and their areas sum to its area |
| Partition.SeparatedHalves | Assets/GameModules/map/arena/stages/stage1/s1Gen.cs:422-435 | leaves inside two non-overlapping halves do not overlap each other |
| Partition.LeavesArePositive | Assets/GameModules/map/arena/stages/stage1/s1Gen.cs:418-435 | from a rectangle with positive sides, every leaf has positive width and height |
| ArenaHelpers.TileList.constructor | Assets/GameModules/map/arena/arenaHelpers.cs:14 | `new List<GameObject>()`: a new list is empty |
| ArenaHelpers.TileList.Add | Assets/GameModules/map/arena/arenaHelpers.cs:6-10 | `List.Add`: the tile is appended and nothing else changes |
| ArenaHelpers.TileList.Clear | Assets/GameModules/map/arena/arenaHelpers.cs:23-27 | `List.Clear`: the list is emptied in place |
| ArenaHelpers.TileLists.constructor | Assets/GameModules/map/arena/arenaHelpers.cs:12-19 | five new, distinct, empty lists whatever the argument |
| ArenaHelpers.TileLists.ClearTiles | Assets/GameModules/map/arena/arenaHelpers.cs:21-28 | every list is emptied without being replaced, the five stay distinct |
| S1Gen.Classify | Assets/GameModules/map/arena/stages/stage1/s1Gen.cs:84-106 | fixed priority: x == 0 is inner left; else y == 0 inner right; else right edge beyond width − 0.1 outer right; else bottom edge beyond depth − 0.1 outer left; else floor — each as an if-and-only-if |
| S1Gen.SelectMembers | Assets/GameModules/map/arena/stages/stage1/s1Gen.cs:84-106 | a rectangle is in the list of a class exactly when it is a leaf of that class |
| S1Gen.SelectCounts | Assets/GameModules/map/arena/stages/stage1/s1Gen.cs:69 | every leaf lands in exactly one list, so the five list lengths add up to the number of leaves |
| S1Gen.ArenaGenerator.constructor | Assets/GameModules/map/arena/stages/stage1/s1Gen.cs:13-26 | the inspector defaults: a 20 × 20 arena at height 0, leaf thresholds 4 / 1.2 / 0.8 with forcing, descend at most 0.25 |
| S1Gen.ArenaGenerator.FloorTile | Assets/GameModules/map/arena/stages/stage1/s1Gen.cs:147-148 | a floor tile keeps its rectangle and sinks by a draw in [0, maxTileDescend] |
| S1Gen.ArenaGenerator.Place | Assets/GameModules/map/arena/stages/stage1/s1Gen.cs:84-106 | the leaf's tile is appended to the list of its class only, at a level its class allows |
| S1Gen.ArenaGenerator.GenerateArena | Assets/GameModules/map/arena/stages/stage1/s1Gen.cs:62-106 | after clearing and splitting the arena, each list holds exactly the leaves of its class in split order, walls at the arena height and floor tiles at most maxTileDescend below |
| FloorGen.Walls | Assets/GameModules/map/arena/stages/stage1/floorGenerator.cs:80-100 | the leaves that pass (or fail) the wall test, in order: only leaves, each with the right answer to the test, never more than there are leaves |
| FloorGen.WallsSplitLeaves | Assets/GameModules/map/arena/stages/stage1/floorGenerator.cs:80-100 | every leaf goes to exactly one of the two lists: the lengths add up, and a leaf is in the wall list exactly when it touches the near x or y edge or lies within 0.1 of the far width or depth edge |
| FloorGen.FloorGenerator.constructor | Assets/GameModules/map/arena/stages/stage1/floorGenerator.cs:14-23 | the inspector defaults: a 20 × 20 arena, thresholds 4 / 1.2 / 0.8 with forcing, elevation at most 0.25, both lists empty |
| FloorGen.FloorGenerator.CreateTile | Assets/GameModules/map/arena/stages/stage1/floorGenerator.cs:156-164 | a floor tile keeps its rectangle and is raised by a draw in [0, maxElevation] |
| FloorGen.FloorGenerator.Place | Assets/GameModules/map/arena/stages/stage1/floorGenerator.cs:82-99 | one loop turn: the leaf is appended to the wall list if it passes the wall test, otherwise to the floor list, and elevations stay in range |
| FloorGen.FloorGenerator.GenerateFloor | Assets/GameModules/map/arena/stages/stage1/floorGenerator.cs:59-100 | after clearing both lists and splitting, the wall list holds exactly the wall leaves and the floor list the others, in split order, every floor tile raised by at most maxElevation |
| TestFloorGen.KeepAtCorner | Assets/map/test_env/floorGenerator.cs:64-77 | at distance 0 from the far corner a leaf is kept on any positive roll |
| TestFloorGen.KeepAtOrigin | Assets/map/test_env/floorGenerator.cs:64-77 | at one full diagonal from the far corner a leaf is kept only when the roll exceeds 0.8 (80 of 100) |
| TestFloorGen.KeepMonotone | Assets/map/test_env/floorGenerator.cs:64-77 | a roll that keeps a leaf also keeps every leaf nearer the far corner |
| TestFloorGen.CubeMonotone | Assets/map/test_env/floorGenerator.cs:71 | the cube in the keep threshold grows with the distance |
| TestFloorGen.KeptTiles | Assets/map/test_env/floorGenerator.cs:62-78 | at most one tile per leaf, each from a leaf, each raised by a draw in [0, maxElevation] (which leaves are kept: KeptIff) |
| TestFloorGen.KeptIndices | Assets/map/test_env/floorGenerator.cs:62-78 | the kept leaves' indices, in increasing order: index i is listed exactly when the keep test passes for leaf i's roll and distance |
| TestFloorGen.KeptTilesAreKeptLeaves | Assets/map/test_env/floorGenerator.cs:62-78 | tile k is the k-th kept leaf raised by its own elevation draw in [0, maxElevation] |
| TestFloorGen.KeptIff | Assets/map/test_env/floorGenerator.cs:62-78 | for distinct leaves, a leaf becomes a tile exactly when its keep test passes, and no leaf becomes two tiles |
| TestFloorGen.NoneKept | Assets/map/test_env/floorGenerator.cs:62-78 | when no roll passes the keep test the floor has no tiles |
| TestFloorGen.AllKept | Assets/map/test_env/floorGenerator.cs:62-78 | when every roll passes the keep test every leaf becomes a tile, in order |
| TestFloorGen.TestFloorGenerator.constructor | Assets/map/test_env/floorGenerator.cs:11-20 | the inspector defaults: a 10 × 10 arena, thresholds 4 / 1.2 / 0.8 with forcing, elevation at most 0.5 |
| TestFloorGen.TestFloorGenerator.GenerateFloor | Assets/map/test_env/floorGenerator.cs:47-79 | the old children go and exactly the kept leaves of the split become tiles, in order, with their rolls and elevation draws |
| FractFloorSide.SurvivorsAreLeaves | Assets/map/test_env/fract_floor_side.cs:51-58 | every tile made is one of the leaves, at ground level, and there are never more tiles than leaves |
| FractFloorSide.SurvivorsStep | Assets/map/test_env/fract_floor_side.cs:51-58 | one more leaf adds its own tile when its roll is at least 0.1 and nothing otherwise |
| FractFloorSide.NoSkipKeepsAll | Assets/map/test_env/fract_floor_side.cs:51-58 | with no roll below 0.1 every leaf becomes exactly one tile, in order |
| FractFloorSide.AllSkippedKeepsNone | Assets/map/test_env/fract_floor_side.cs:51-58 | with every roll below 0.1 no tile is made |
| FractFloorSide.TopQuad | Assets/map/test_env/fract_floor_side.cs:137-160 | the top face has four corners at tile height, inset by the crack width on every side, so it stays within the footprint when the crack is at most half a side |
| FractFloorSide.FloorGeneratorSide.constructor | Assets/map/test_env/fract_floor_side.cs:11-19 | the inspector defaults: a 10 × 10 grid, crack 0.02, tile height 0.5 |
| FractFloorSide.FloorGeneratorSide.SplitHalf | Assets/map/test_env/fract_floor_side.cs:103-131 | appends to the rectangle list exactly the leaves of the shared partition with thresholds 4 / 1.2 / 0.8 and forcing |
| FractFloorSide.FloorGeneratorSide.SplitVertically | Assets/map/test_env/fract_floor_side.cs:113-121 | the vertical branch appends the left half's leaves, then the right half's, i.e. the whole rectangle's |
| FractFloorSide.FloorGeneratorSide.SplitHorizontally | Assets/map/test_env/fract_floor_side.cs:122-130 | the horizontal branch appends the upper half's leaves, then the lower half's, i.e. the whole rectangle's |
| FractFloorSide.FloorGeneratorSide.CreateTile | Assets/map/test_env/fract_floor_side.cs:62-66 | one tile with the given footprint is added at ground level |
| FractFloorSide.FloorGeneratorSide.GenerateFloor | Assets/map/test_env/fract_floor_side.cs:38-59 | the rectangle list is rebuilt from empty as the partition of the grid, and the children are exactly its leaves not skipped by their rolls |
| FracturedFloor.SurvivorsAreLeaves | Assets/modules/map/test_env/fractured_floor.cs:50-57 | every tile made is one of the leaves, no more tiles than leaves, each raised by a height in [0, heightVar] |
| FracturedFloor.SurvivorsStep | Assets/modules/map/test_env/fractured_floor.cs:50-57 | one more leaf adds its own tile when its roll is at least 0.1 and nothing otherwise |
| FracturedFloor.NoSkipKeepsAll | Assets/modules/map/test_env/fractured_floor.cs:50-57 | with no roll below 0.1 every leaf becomes exactly one tile, in order |
| FracturedFloor.AllSkippedKeepsNone | Assets/modules/map/test_env/fractured_floor.cs:50-57 | with every roll below 0.1 no tile is made |
| FracturedFloor.FloorGenerator.constructor | Assets/modules/map/test_env/fractured_floor.cs:11-18 | the inspector defaults: a 10 × 10 grid, crack 0.02, height variation 0.5 |
| FracturedFloor.FloorGenerator.SplitHalf | Assets/modules/map/test_env/fractured_floor.cs:88-116 | appends to the rectangle list exactly the leaves of the shared partition with thresholds 4 / 1.2 / 0.8 and forcing |
| FracturedFloor.FloorGenerator.SplitVertically | Assets/modules/map/test_env/fractured_floor.cs:98-106 | the vertical branch appends the left half's leaves, then the right half's |
| FracturedFloor.FloorGenerator.SplitHorizontally | Assets/modules/map/test_env/fractured_floor.cs:107-115 | the horizontal branch appends the upper half's leaves, then the lower half's |
| FracturedFloor.FloorGenerator.CreateTile | Assets/modules/map/test_env/fractured_floor.cs:61-67 | one tile with the given footprint is added, raised by `Random.Range(0, heightVar)` |
| FracturedFloor.FloorGenerator.GenerateFloor | Assets/modules/map/test_env/fractured_floor.cs:37-58 | the rectangle list is rebuilt from empty as the partition of the grid, and the children are exactly its leaves not skipped by their rolls, with their height draws |
| FracturedFloorOld.RowTilesSpec | Assets/modules/map/scripts/fractured_floor_old.cs:97-99 | a row's tiles are exactly its cells with a non-negative pattern entry, each built at its cell, in increasing column order |
| FracturedFloorOld.GridTilesSpec | Assets/modules/map/scripts/fractured_floor_old.cs:97-99 | the nested loop visits every cell once: the tiles are exactly the cells with a non-negative entry, in row-major order |
| FracturedFloorOld.RowMajorAppend | Assets/modules/map/scripts/fractured_floor_old.cs:97-99 | a row appended after the rows above it keeps the whole list in row-major order |
| FracturedFloorOld.NoCellTwice | Assets/modules/map/scripts/fractured_floor_old.cs:97-99 | no cell gets two tiles |
| FracturedFloorOld.KeptPatternTooShort | Assets/modules/map/scripts/fractured_floor_old.cs:37-38 | the width-only check keeps a pattern one column short of the grid, which the full check replaces (see Findings) |
| FracturedFloorOld.FirstBadCellFails | Assets/modules/map/scripts/fractured_floor_old.cs:164 | a cell whose entry is not an index into uvRects means the grid cannot be built all through |
| FracturedFloorOld.FirstBadCellUnique | Assets/modules/map/scripts/fractured_floor_old.cs:40-42 | the loop's row-major order has exactly one first bad cell |
| FracturedFloorOld.EmptyAtlasFailsFirstCell | Assets/modules/map/scripts/fractured_floor_old.cs:181-188 | with no uvRects the demo pattern's all-zero entries fail at the first cell |
| FracturedFloorOld.FloorGeneratorOld.constructor | Assets/modules/map/scripts/fractured_floor_old.cs:11-13 | the inspector defaults: a 10 × 10 grid of unit tiles, no pattern, no tiles |
| FracturedFloorOld.FloorGeneratorOld.SplitHalf | Assets/modules/map/scripts/fractured_floor_old.cs:52-76 | appends to `_rect_world` exactly the leaves of the shared partition with thresholds 2 / 0.6 / 0.4 and no forcing |
| FracturedFloorOld.FloorGeneratorOld.SplitVertically | Assets/modules/map/scripts/fractured_floor_old.cs:60-67 | the vertical branch (draw below 0.3) appends the left half's leaves, then the right half's |
| FracturedFloorOld.FloorGeneratorOld.SplitHorizontally | Assets/modules/map/scripts/fractured_floor_old.cs:68-75 | the horizontal branch appends the upper half's leaves, then the lower half's |
| FracturedFloorOld.FloorGeneratorOld.CreateTile | Assets/modules/map/scripts/fractured_floor_old.cs:102-164 | a negative entry makes nothing; otherwise one tile at (x·tileSize, 0, y·tileSize) textured with the entry, after which BuildRectMesh throws exactly when the entry is not an index into uvRects |
| FracturedFloorOld.FloorGeneratorOld.CreateRow | Assets/modules/map/scripts/fractured_floor_old.cs:98-99 | the inner loop appends exactly the row's tiles when every entry can be built, and otherwise throws at the first bad column after that column's tile |
| FracturedFloorOld.FloorGeneratorOld.CreateGrid | Assets/modules/map/scripts/fractured_floor_old.cs:97-99 | when every cell's entry can be built the nested loop appends exactly the grid's tiles in row-major order; otherwise it throws at the first bad cell in that order, with the tiles up to and including that cell's |
| FracturedFloorOld.FloorGeneratorOld.GenerateTiles | Assets/modules/map/scripts/fractured_floor_old.cs:85-100 | `_rect_world` is rebuilt from empty as the partition of the grid; the children are exactly the grid's tiles when every entry can be built, and otherwise the tiles up to the first bad cell, where it throws |
| FracturedFloorOld.FloorGeneratorOld.MakeDemoPattern | Assets/modules/map/scripts/fractured_floor_old.cs:181-188 | a new width × height pattern whose every entry is an index into `uvRects` (0 when there are none) |
| FracturedFloorOld.FloorGeneratorOld.Start | Assets/modules/map/scripts/fractured_floor_old.cs:29-43 | (corrected, see Findings) the pattern is kept exactly when its first dimension equals width and its second is at least height, and otherwise replaced by a fresh width × height demo pattern whose entries index uvRects; the children are the grid's tiles up to the first cell whose entry is not an index into uvRects, where it throws, which a fresh demo pattern with no uvRects does at the first cell of a non-empty grid |
| Sight.CanSeePlayer | Assets/GameModules/enemies/Scripts/EnemyNavMeshAI.cs:283-291 | the player is seen exactly when there is a player within the detection radius, inside half the view angle, with no obstacle on the ray |
| PatrolRoute.NextIndex | Assets/GameModules/enemies/Scripts/EnemyNavMeshAI.cs:188 | one arrival moves the patrol index one step forward, and from the last point back to the first, always inside the route |
| PatrolRoute.AfterArrivals | Assets/GameModules/enemies/Scripts/EnemyNavMeshAI.cs:186-190 | any number of arrivals keeps the patrol index inside the route |
| PatrolRoute.Walk | Assets/GameModules/enemies/Scripts/EnemyNavMeshAI.cs:188 | before the end of the route, k arrivals move the index k places forward |
| PatrolRoute.WrapsToFirst | Assets/GameModules/enemies/Scripts/EnemyNavMeshAI.cs:188 | arriving at the last point sends the enemy back to the first |
| PatrolRoute.Compose | Assets/GameModules/enemies/Scripts/EnemyNavMeshAI.cs:188 | a arrivals followed by b more are a + b arrivals |
| PatrolRoute.FullLap | Assets/GameModules/enemies/Scripts/EnemyNavMeshAI.cs:188 | a full lap of n arrivals returns the enemy to the point it started from |
| PatrolRoute.VisitsEveryPoint | Assets/GameModules/enemies/Scripts/EnemyNavMeshAI.cs:188 | within one lap every patrol point is a destination |
| EnemyNavMesh.Circling | Assets/GameModules/enemies/Scripts/EnemyNavMeshAI.cs:144 | the circling direction is +1 exactly when the draw exceeds one half, and -1 otherwise |
| EnemyNavMesh.Transition | Assets/GameModules/enemies/Scripts/EnemyNavMeshAI.cs:155-181 | the state machine: Idle and Attacking are left alone, losing the player out of range returns to patrol, sight starts pursuit, the engagement distance starts lurking, 1.2 engagement distances resume pursuit, and an attack needs no recent attack, a ready cooldown and range, in both directions |
| EnemyNavMesh.StuckStep | Assets/GameModules/enemies/Scripts/EnemyNavMeshAI.cs:246-253 | the stuck timer grows while stalled and resets otherwise; the direction flips exactly when it passes 0.75 seconds, and the timer then restarts |
| EnemyNavMesh.FreshFlipsNever | Assets/GameModules/enemies/Scripts/EnemyNavMeshAI.cs:246-253 | as written (stuck time a fresh local each frame), a stall of frames each at most 0.75 seconds never flips the direction (see Findings) |
| EnemyNavMesh.StallGoesUnnoticed | Assets/GameModules/enemies/Scripts/EnemyNavMeshAI.cs:246-253 | a one-second stall in two half-second frames: no flip as written, one flip when the stuck time is kept |
| EnemyNavMesh.CarriedFlipsAfterStall | Assets/GameModules/enemies/Scripts/EnemyNavMeshAI.cs:246-253 | with the stuck time kept between frames, any stall longer than 0.75 seconds flips the direction at least once |
| EnemyNavMesh.EnemyNavMeshAI.constructor | Assets/GameModules/enemies/Scripts/EnemyNavMeshAI.cs:13-58 | a new enemy is Idle, without a player, at patrol index 0, with zero clocks (the stuck time included) and circling direction +1 |
| EnemyNavMesh.EnemyNavMeshAI.Start | Assets/GameModules/enemies/Scripts/EnemyNavMeshAI.cs:72-79 | the patrol starts at the first point and nothing else changes |
| EnemyNavMesh.EnemyNavMeshAI.SetState | Assets/GameModules/enemies/Scripts/EnemyNavMeshAI.cs:113-153 | asking for the current state changes nothing; a new state restarts its clock, Patrolling heads for the current point, Lurking draws a direction and restarts the reposition timer |
| EnemyNavMesh.EnemyNavMeshAI.ActivateAI | Assets/GameModules/enemies/Scripts/EnemyNavMeshAI.cs:81-86 | activation puts the enemy in Patrolling, heading for its current point |
| EnemyNavMesh.EnemyNavMeshAI.CheckConditions | Assets/GameModules/enemies/Scripts/EnemyNavMeshAI.cs:155-181 | the new state is the one Transition names for the sight test's answer, and an enemy that keeps its state is left exactly as it was |
| EnemyNavMesh.EnemyNavMeshAI.Patrol | Assets/GameModules/enemies/Scripts/EnemyNavMeshAI.cs:183-191 | with no points nothing happens; on arrival the index becomes NextIndex and the agent heads for that point |
| EnemyNavMesh.EnemyNavMeshAI.ForceMeleeReposition | Assets/GameModules/enemies/Scripts/EnemyNavMeshAI.cs:231-242 | with a player the reposition timer restarts, otherwise nothing changes |
| EnemyNavMesh.EnemyNavMeshAI.LurkMelee | Assets/GameModules/enemies/Scripts/EnemyNavMeshAI.cs:203-216 | right after an attack the enemy repositions and clears the flag, otherwise it repositions when the timer reaches meleeRepositionTime; the timer ends at 0 or below that time |
| EnemyNavMesh.EnemyNavMeshAI.LurkRanged | Assets/GameModules/enemies/Scripts/EnemyNavMeshAI.cs:243-263 | the stuck detector, with its stuck time kept from frame to frame as corrected under Findings, reverses the direction exactly when StuckStep says so; past directionChangeInterval the clock restarts and a fresh direction is drawn; the direction stays a sign |
| EnemyNavMesh.EnemyNavMeshAI.Lurk | Assets/GameModules/enemies/Scripts/EnemyNavMeshAI.cs:196-202 | without a player nothing changes; melee enemies reposition exactly as LurkMelee says, ranged ones circle exactly as LurkRanged says, and each leaves the other's clocks alone |
| EnemyNavMesh.EnemyNavMeshAI.Attack | Assets/GameModules/enemies/Scripts/EnemyNavMeshAI.cs:217-230 | without a player the enemy patrols from a restarted clock; with one, the attack component performs an attack (Combat.Performed) only in the state's first two frames and is untouched otherwise; after attackDuration the enemy lurks again with a fresh circling draw, remembering the attack in melee; before that everything else is kept |
| EnemyNavMesh.EnemyNavMeshAI.Advance | Assets/GameModules/enemies/Scripts/EnemyNavMeshAI.cs:87-101 | a found player is noticed; an Idle enemy stops there; without a player the enemy falls back to patrolling; otherwise the state's clock advances by the frame time |
| EnemyNavMesh.EnemyNavMeshAI.Behave | Assets/GameModules/enemies/Scripts/EnemyNavMeshAI.cs:103-109 | the behaviour of the current state: Patrolling advances along the route on arrival, Pursuing leaves the enemy's own state alone (the agent is steered at the player), Lurking ends as Lurk says and Attacking as Attack says; only Attacking touches the attack component |
| EnemyNavMesh.EnemyNavMeshAI.Update | Assets/GameModules/enemies/Scripts/EnemyNavMeshAI.cs:87-111 | the whole new state for each old state: a found player is kept, an Idle enemy is left as it was, without a player the enemy patrols, and Pursuing, Lurking (melee and ranged) and Attacking each end as their behaviour says |
| EnemyThreeState.Transition | Assets/modules/enemies/Assets/Scripts/NewMonoBehaviourScript.cs:117-143 | without a player nothing changes; unseen beyond the detection radius means patrolling; sight starts pursuit, the engagement distance starts lurking, 1.2 engagement distances resume pursuit; Lurking is only entered with a player |
| EnemyThreeState.LurkTimer | Assets/modules/enemies/Assets/Scripts/NewMonoBehaviourScript.cs:177-180 | the lurk timer runs by the frame time and drops to 0 once it reaches lurkPointChangeTime, so it ends at 0 or below that time |
| EnemyThreeState.LurkTimerStaysBelow | Assets/modules/enemies/Assets/Scripts/NewMonoBehaviourScript.cs:177-180 | over any run of non-negative frames the lurk timer stays in [0, lurkPointChangeTime) |
| EnemyThreeState.EnemyNavMeshAI.constructor | Assets/modules/enemies/Assets/Scripts/NewMonoBehaviourScript.cs:12-63 | a new enemy patrols at index 0 with a zero lurk timer, and has a player exactly when Awake found one |
| EnemyThreeState.EnemyNavMeshAI.SetState | Assets/modules/enemies/Assets/Scripts/NewMonoBehaviourScript.cs:87-115 | asking for the current state changes nothing; entering Patrolling heads for the current point; entering Lurking restarts the lurk timer |
| EnemyThreeState.EnemyNavMeshAI.Start | Assets/modules/enemies/Assets/Scripts/NewMonoBehaviourScript.cs:65-73 | the patrol index returns to 0 and the enemy patrols; an enemy already patrolling gets no new destination |
| EnemyThreeState.EnemyNavMeshAI.CheckConditions | Assets/modules/enemies/Assets/Scripts/NewMonoBehaviourScript.cs:117-143 | the new state is the one Transition names for the sight test's answer, and an enemy that keeps its state is left exactly as it was |
| EnemyThreeState.EnemyNavMeshAI.Patrol | Assets/modules/enemies/Assets/Scripts/NewMonoBehaviourScript.cs:145-154 | with no points nothing happens; on arrival the index becomes NextIndex and the agent heads for that point |
| EnemyThreeState.EnemyNavMeshAI.Lurk | Assets/modules/enemies/Assets/Scripts/NewMonoBehaviourScript.cs:164-192 | a ready attack within range fires the trigger, restarts the attack timer and nothing else; otherwise the lurk timer advances as LurkTimer says |
| EnemyThreeState.EnemyNavMeshAI.Update | Assets/modules/enemies/Assets/Scripts/NewMonoBehaviourScript.cs:75-85 | the state never changes; Patrolling moves the index to NextIndex on arrival and heads there; Pursuing changes nothing; Lurking either attacks (trigger +1, timer 0) or advances the lurk timer; only Lurking touches the attack component |
| EnemyAIOld.Next | Assets/modules/enemies/Assets/Scripts/OLD/EnemyAI.cs:80-94 | without a player nothing changes; with one the enemy pursues exactly when it sees the player |
| EnemyAIOld.EnemyAI.constructor | Assets/modules/enemies/Assets/Scripts/OLD/EnemyAI.cs:12-43 | a new enemy patrols, has a player exactly when Awake found one, and keeps the components' initial enabled flags |
| EnemyAIOld.EnemyAI.SwitchState | Assets/modules/enemies/Assets/Scripts/OLD/EnemyAI.cs:51-69 | switching to the current state changes nothing; otherwise exactly the new state's movement component is enabled |
| EnemyAIOld.EnemyAI.Start | Assets/modules/enemies/Assets/Scripts/OLD/EnemyAI.cs:45-49 | as written: the enemy patrols, and one already patrolling is left exactly as it was (see Findings) |
| EnemyAIOld.EnemyAI.StartCorrected | Assets/modules/enemies/Assets/Scripts/OLD/EnemyAI.cs:45-49 | as intended: the enemy patrols with only the patrol component enabled |
| EnemyAIOld.EnemyAI.CheckForPlayer | Assets/modules/enemies/Assets/Scripts/OLD/EnemyAI.cs:80-119 | the new state is the one Next names for what CanSeePlayer reports, and a consistent enemy stays consistent |
| EnemyAIOld.StartLeavesBothEnabled | Assets/modules/enemies/Assets/Scripts/OLD/EnemyAI.cs:45-53 | a fresh enemy with both components enabled still has both enabled after Start |
| EnemyAIOld.CorrectedStartIsConsistent | Assets/modules/enemies/Assets/Scripts/OLD/EnemyAI.cs:45-69 | after the corrected Start and any check, exactly one movement component is enabled |
| Cooldown.ReadyStays | Assets/GameModules/enemies/Scripts/EnemyAttack.cs:39-45 | once the timer has reached the cooldown, no run of frames changes it |
| Cooldown.ReadyIff | Assets/GameModules/enemies/Scripts/EnemyAttack.cs:26 | after a run of non-negative frames, CanAttack holds exactly when the starting timer plus the frames' total time reaches the cooldown |
| Cooldown.SumNonNegative | Assets/GameModules/enemies/Scripts/EnemyAttack.cs:39-45 | non-negative frames add up to a non-negative time |
| Cooldown.TimerBounded | Assets/GameModules/enemies/Scripts/EnemyAttack.cs:39-45 | with frames of at most maxDt seconds the timer never exceeds the cooldown by more than one frame |
| Combat.EnemyAttack.constructor | Assets/GameModules/enemies/Scripts/EnemyAttack.cs:9-24 | a new component has the inspector settings, a zero timer, no trigger fired and no projectile |
| Combat.EnemyAttack.Start | Assets/GameModules/enemies/Scripts/EnemyAttack.cs:33-37 | the timer starts at the cooldown, so the first attack is allowed at once; every setting, flag and count is kept |
| Combat.EnemyAttack.Update | Assets/GameModules/enemies/Scripts/EnemyAttack.cs:39-45 | one frame advances the timer only while it is below the cooldown |
| Combat.EnemyAttack.PerformAttack | Assets/GameModules/enemies/Scripts/EnemyAttack.cs:47-65 | Performed: nothing while cooling down; otherwise the trigger fires and the cooldown restarts, and a ranged attack spawns a projectile at the target only when prefab and spawn point are both set; the settings never change |
| LegacyCombat.EnemyAttack.constructor | Assets/modules/enemies/Assets/Scripts/EnemyAttack.cs:8-17 | a new component has the inspector settings, a zero timer and no trigger fired |
| LegacyCombat.EnemyAttack.Start | Assets/modules/enemies/Assets/Scripts/EnemyAttack.cs:29-35 | the timer starts at the cooldown, so the first attack is allowed at once |
| LegacyCombat.EnemyAttack.Update | Assets/modules/enemies/Assets/Scripts/EnemyAttack.cs:37-44 | one frame advances the timer only while it is below the cooldown |
| LegacyCombat.EnemyAttack.PerformAttack | Assets/modules/enemies/Assets/Scripts/EnemyAttack.cs:49-56 | nothing while cooling down; otherwise the trigger fires and the cooldown restarts |
| Sorting.Insert | Assets/GameModules/enemies/EnemySpawn/EnemySpawner.cs:112-116 | inserting one element adds exactly that element to the multiset |
| Sorting.InsertAtLeast | Assets/GameModules/enemies/EnemySpawn/EnemySpawner.cs:112-116 | inserting an element no smaller than a bound keeps every key at or above the bound |
| Sorting.SortedAtLeastHead | Assets/GameModules/enemies/EnemySpawn/EnemySpawner.cs:112-116 | every key of a sorted sequence is at least its first key |
| Sorting.SortedTail | Assets/GameModules/enemies/EnemySpawn/EnemySpawner.cs:112-116 | the tail of a sorted sequence is sorted and bounded below by the head |
| Sorting.SortedCons | Assets/GameModules/enemies/EnemySpawn/EnemySpawner.cs:112-116 | a head no greater than every key of a sorted tail gives a sorted sequence |
| Sorting.InsertSorted | Assets/GameModules/enemies/EnemySpawn/EnemySpawner.cs:112-116 | inserting into a sorted sequence keeps it sorted |
| Sorting.SortBy | Assets/GameModules/enemies/EnemySpawn/EnemySpawner.cs:112-116 | OrderBy returns a permutation of its input in ascending key order |
| Sorting.ProjectPermutation | Assets/GameModules/enemies/EnemySpawn/EnemySpawner.cs:102 | mapping two permutations of each other through the same function gives permutations of each other |
| Sorting.SortKeeps | Assets/GameModules/enemies/EnemySpawn/EnemySpawner.cs:112-116 | sorting keeps exactly the elements it was given, and leaves a single element as it is |
| SpawnBudget.Affordable | Assets/GameModules/enemies/EnemySpawn/EnemySpawner.cs:49-51 | the affordable entries are exactly the pool's entries whose weight fits the budget |
| SpawnBudget.TotalWeightAppend | Assets/GameModules/enemies/EnemySpawn/EnemySpawner.cs:83 | spawning one more group adds its weight to the total spent |
| SpawnBudget.CountWithinWeight | Assets/GameModules/enemies/EnemySpawn/StageSpawnConfig.cs:21-22 | with every cost at least 1, there are never more groups than their total cost |
| EnemySpawner.Candidates | Assets/GameModules/enemies/EnemySpawn/EnemySpawner.cs:99-101 | the candidates are exactly the tiles within the search radius and more than 2 units from the spawn point |
| EnemySpawner.ChosenTiles | Assets/GameModules/enemies/EnemySpawn/EnemySpawner.cs:99-107 | Take(count) of the shuffled candidates: only candidate tiles, at most count of them, all candidates when there are fewer; with none, exactly the one random fallback tile |
| EnemySpawner.Shuffle | Assets/GameModules/enemies/EnemySpawn/EnemySpawner.cs:102 | shuffling by random keys is a permutation: the same tiles, each as often as before |
| EnemySpawner.Keyed | Assets/GameModules/enemies/EnemySpawn/EnemySpawner.cs:102 | each tile is paired with its own drawn key, in order |
| EnemySpawner.ShuffleByKeys | Assets/GameModules/enemies/EnemySpawn/EnemySpawner.cs:102 | the shuffle is the tiles of some arrangement of the (tile, key) pairs sorted by key |
| EnemySpawner.Take | Assets/GameModules/enemies/EnemySpawn/EnemySpawner.cs:103 | Take(n) keeps the first n tiles, all of them when there are fewer, and only input tiles |
| EnemySpawner.PatrolTiles | Assets/GameModules/enemies/EnemySpawn/EnemySpawner.cs:91-116 | at least one and at most max(count, 1) tiles, all from the level, sorted by angle; with no candidate or no count the result is exactly the one random fallback tile |
| EnemySpawner.Raised | Assets/GameModules/enemies/EnemySpawn/EnemySpawner.cs:119-128 | each patrol point is its tile raised by one unit, in the same order |
| EnemySpawner.LogicalPatrolPoints | Assets/GameModules/enemies/EnemySpawn/EnemySpawner.cs:89-131 | a group gets between 1 and max(count, 1) patrol points |
| EnemySpawner.GroupFor | Assets/GameModules/enemies/EnemySpawn/EnemySpawner.cs:49-73 | the group one loop turn spawns comes from the pool, fits the budget left, stands on a level tile, and has at least one patrol point |
| EnemySpawner.DrawnAppend | Assets/GameModules/enemies/EnemySpawn/EnemySpawner.cs:55-66 | adding a group drawn from the pool onto a level tile keeps every group so drawn |
| EnemySpawner.SpawnedAfterHolds | Assets/GameModules/enemies/EnemySpawn/EnemySpawner.cs:47-85 | the groups the budget loop spawned, appended after the earlier ones, meet the loop's promise, including which group each turn spawned |
| EnemySpawner.FromPoolWithinWeight | Assets/GameModules/enemies/EnemySpawn/StageSpawnConfig.cs:21-22 | groups drawn from a pool whose costs are at least 1 are no more than their total cost |
| EnemySpawner.SpendBudget | Assets/GameModules/enemies/EnemySpawn/EnemySpawner.cs:44-85 | at most 100 groups, all drawn from the pool onto level tiles, never overspending the budget, never more than the initial budget in number; group k is exactly the group GroupFor draws in turn k with the budget the groups before it left; it stops only when the budget is spent, nothing is affordable or 100 groups exist; it throws exactly when there are no tiles while a group is affordable, and then spawns nothing |
| EnemySpawner.SpawnTurn | Assets/GameModules/enemies/EnemySpawn/EnemySpawner.cs:55-84 | one loop turn spawns the group GroupFor draws with the budget left, which fits that budget, comes from the pool, stands on a level tile and extends the turns taken so far |
| EnemySpawner.TurnsAppend | Assets/GameModules/enemies/EnemySpawn/EnemySpawner.cs:47-85 | the next turn's group, appended, keeps every group equal to the group of its own turn |
| EnemySpawner.TurnKept | Assets/GameModules/enemies/EnemySpawn/EnemySpawner.cs:47-85 | an earlier turn's group and the groups before it are unchanged by one more group |
| EnemySpawner.TurnsGroups | Assets/GameModules/enemies/EnemySpawn/EnemySpawner.cs:55-73 | every group the loop spawned comes from the pool, fits the budget the groups before it left, stands on one of the tiles and has between 1 and maxPatrolPoints patrol points |
| EnemySpawner.EnemySpawner.SpawnEnemies | Assets/GameModules/enemies/EnemySpawn/EnemySpawner.cs:23-86 | without a stage configuration nothing is spawned; it throws exactly when a configuration exists, the level has no tiles and a group is affordable, and then spawns nothing; otherwise the groups SpendBudget spawns from the base budget plus 10 per stage are appended, each the group its turn draws with the configured patrol settings |
| ArenaSpawner.Truncate | Assets/GameModules/map/arena/EnemySpawn/EnemySpawner.cs:50 | the (int) cast truncates toward zero |
| ArenaSpawner.StageBudget | Assets/GameModules/map/arena/EnemySpawn/EnemySpawner.cs:50 | the stage's budget is never negative for a non-negative base and growth, and equals the base budget at growth 1 |
| ArenaSpawner.Offset | Assets/GameModules/map/arena/EnemySpawn/EnemySpawner.cs:67 | a spawn stands at most 2 units off its tile on x and z and 1 unit above it |
| ArenaSpawner.Found | Assets/GameModules/map/arena/EnemySpawn/EnemySpawner.cs:96-108 | there are no more patrol points than samples |
| ArenaSpawner.FoundSound | Assets/GameModules/map/arena/EnemySpawn/EnemySpawner.cs:96-108 | every patrol point is a navigation mesh point some sample found |
| ArenaSpawner.FoundComplete | Assets/GameModules/map/arena/EnemySpawn/EnemySpawner.cs:96-108 | every sample that found a point contributes it |
| ArenaSpawner.PatrolPointsForGroup | Assets/GameModules/map/arena/EnemySpawn/EnemySpawner.cs:88-111 | the loop keeps exactly the points the count samples found, in order |
| ArenaSpawner.SpawnableTiles.constructor | Assets/GameModules/map/arena/EnemySpawn/EnemySpawner.cs:23 | the spawner works on the list of tiles it is handed |
| ArenaSpawner.SpawnableTiles.RemoveAt | Assets/GameModules/map/arena/EnemySpawn/EnemySpawner.cs:65 | removing a tile leaves the other tiles in order and the multiset minus that tile |
| ArenaSpawner.SpawnedOnStep | Assets/GameModules/map/arena/EnemySpawn/EnemySpawner.cs:63-67 | spawning one more group on a tile taken out of the list keeps the account of used and remaining tiles |
| ArenaSpawner.GroupOn | Assets/GameModules/map/arena/EnemySpawn/EnemySpawner.cs:55-73 | the group one loop turn spawns on its tile comes from the pool, fits the budget left, stands near that tile, and has at most maxPatrolPoints points |
| ArenaSpawner.BudgetKeptStep | Assets/GameModules/map/arena/EnemySpawn/EnemySpawner.cs:53-85 | one more affordable group keeps the budget loop's facts |
| ArenaSpawner.SpendTiles | Assets/GameModules/map/arena/EnemySpawn/EnemySpawner.cs:50-85 | the budget is never overspent, each group uses up its own tile, group k is exactly the group GroupOn spawns in turn k on the tile it used with the budget the groups before it left, and the loop stops only when the budget, the tiles or the affordable entries run out or 100 groups exist |
| ArenaSpawner.SpawnTurnOn | Assets/GameModules/map/arena/EnemySpawn/EnemySpawner.cs:55-84 | one loop turn spawns the group GroupOn draws on its tile with the budget left, which keeps the budget facts and extends the turns taken so far |
| ArenaSpawner.TurnsOnAppend | Assets/GameModules/map/arena/EnemySpawn/EnemySpawner.cs:53-85 | the next turn's group on the tile it used, appended, keeps every group equal to the group of its own turn |
| ArenaSpawner.TurnOnKept | Assets/GameModules/map/arena/EnemySpawn/EnemySpawner.cs:53-85 | an earlier turn's group, its tile and the groups before it are unchanged by one more group |
| ArenaSpawner.TurnsOnGroups | Assets/GameModules/map/arena/EnemySpawn/EnemySpawner.cs:55-73 | every group the loop spawned comes from the pool, fits the budget the groups before it left, stands near its own tile and has at most maxPatrolPoints patrol points, each one the navigation mesh found for its turn |
| ArenaSpawner.ArenaEnemySpawner.SpawnEnemies | Assets/GameModules/map/arena/EnemySpawn/EnemySpawner.cs:23-86 | without a configuration or without tiles nothing happens; otherwise the groups SpendTiles spawns from StageBudget are appended, each the group its turn spawns on its tile with the configured patrol settings |
| ArenaSpawner.TilesUsedUp | Assets/GameModules/map/arena/EnemySpawn/EnemySpawner.cs:63-65 | groups plus remaining tiles equal the tiles there were, and every group stands near one of them |
| EnemyLoot.PrefixGrows | Assets/GameModules/enemies/Scripts/EnemyLoot.cs:13 | with weights of at least 1 the running weight sums grow strictly |
| EnemyLoot.Total | Assets/GameModules/enemies/Scripts/EnemyLoot.cs:77-81 | the total weight is at least the number of items |
| EnemyLoot.FirstFrom | Assets/GameModules/enemies/Scripts/EnemyLoot.cs:84-93 | the walk stops at the first item whose running sum passes the drawn value |
| EnemyLoot.SelectedIff | Assets/GameModules/enemies/Scripts/EnemyLoot.cs:84-93 | item i is selected exactly when the drawn value lies in [Prefix(i), Prefix(i+1)) |
| EnemyLoot.FallbackUnreachable | Assets/GameModules/enemies/Scripts/EnemyLoot.cs:95 | every value in [0, total) selects an item, so the fallback to the first item is never reached |
| EnemyLoot.Span | Assets/GameModules/enemies/Scripts/EnemyLoot.cs:83 | the integers in [lo, hi) are hi - lo in number |
| EnemyLoot.PickedByWeight | Assets/GameModules/enemies/Scripts/EnemyLoot.cs:83-93 | item i is picked for exactly weight_i of the total values the draw can take, so picks are proportional to weight |
| EnemyLoot.Pick | Assets/GameModules/enemies/Scripts/EnemyLoot.cs:83-93 | the index the weighted walk selects for a draw in [0, total), always an index of the table |
| EnemyLoot.GetRandomItemFromTable | Assets/GameModules/enemies/Scripts/EnemyLoot.cs:73-96 | no item for an empty table; otherwise the prefab of the item selected by the drawn value, none when that entry's prefab is unassigned |
| EnemyLoot.DropOf | Assets/GameModules/enemies/Scripts/EnemyLoot.cs:67-70 | an entry drops one prefab when its prefab is assigned and nothing otherwise |
| EnemyLoot.Drops | Assets/GameModules/enemies/Scripts/EnemyLoot.cs:60-71 | at most one drop; one exactly when the roll is within the drop chance, the table is not empty and the picked entry's prefab is assigned; whatever drops is some entry's prefab |
| EnemyLoot.EnemyLootDropper.constructor | Assets/GameModules/enemies/Scripts/EnemyLoot.cs:16-30 | a new dropper has the inspector settings, no subscription, no death and no drop |
| EnemyLoot.EnemyLootDropper.Start | Assets/GameModules/enemies/Scripts/EnemyLoot.cs:32-38 | it subscribes to the death event exactly when the enemy has stats |
| EnemyLoot.EnemyLootDropper.OnDeath | Assets/GameModules/enemies/Scripts/EnemyLoot.cs:55-58 | the death is recorded only while subscribed |
| EnemyLoot.EnemyLootDropper.OnApplicationQuit | Assets/GameModules/enemies/Scripts/EnemyLoot.cs:39-42 | quitting is recorded and nothing else changes |
| EnemyLoot.EnemyLootDropper.TryDropLoot | Assets/GameModules/enemies/Scripts/EnemyLoot.cs:60-71 | no drop when the roll exceeds the drop chance or the table is empty; otherwise the picked entry's prefab is dropped, and nothing when that prefab is unassigned; the drop is exactly Drops |
| EnemyLoot.EnemyLootDropper.OnDestroy | Assets/GameModules/enemies/Scripts/EnemyLoot.cs:43-53 | it unsubscribes, drops nothing unless the death was seen and the game is not quitting, and in that case drops exactly what Drops names |
| EnemyStats.Clamp | Assets/GameModules/enemies/Scripts/EnemyStats.cs:49 | Mathf.Clamp keeps a value inside [lo, hi], and leaves one already inside unchanged |
| EnemyStats.EnemyStats.constructor | Assets/GameModules/enemies/Scripts/EnemyStats.cs:30-34 | a new enemy is alive with full health and mana |
| EnemyStats.EnemyStats.Die | Assets/GameModules/enemies/Scripts/EnemyStats.cs:71-119 | death runs once and is final; a second call changes nothing |
| EnemyStats.EnemyStats.Update | Assets/GameModules/enemies/Scripts/EnemyStats.cs:36-42 | a living enemy with health at most 0 dies |
| EnemyStats.EnemyStats.TakeDamage | Assets/GameModules/enemies/Scripts/EnemyStats.cs:44-59 | a dead enemy ignores damage; otherwise health drops by the amount clamped into [0, maxHealth], and the enemy dies exactly when it reaches 0 |
| EnemyStats.EnemyStats.UseMana | Assets/GameModules/enemies/Scripts/EnemyStats.cs:61-69 | mana is spent exactly when there is enough, and then by exactly the cost |
| EnemyStats.DamageLowers | Assets/GameModules/enemies/Scripts/EnemyStats.cs:48-49 | a non-negative hit never raises health, keeps it in bounds, and is fatal exactly when it reaches the remaining health |
| EnemyStats.DamageAdds | Assets/GameModules/enemies/Scripts/EnemyStats.cs:48-49 | two non-fatal hits in a row equal one hit of their sum |
| PlayerStats.ClampInt | Assets/GameModules/player/PlayerStats.cs:24 | Mathf.Clamp on integers keeps a value inside [lo, hi], and leaves one already inside unchanged |
| PlayerStats.RoundToInt | Assets/GameModules/player/PlayerStats.cs:39 | Mathf.RoundToInt gives the nearest integer, the even one at a tie |
| PlayerStats.PlayerStats.constructor | Assets/GameModules/player/PlayerStats.cs:15-18 | a new player is alive with full health |
| PlayerStats.PlayerStats.Die | Assets/GameModules/player/PlayerStats.cs:49-61 | the player becomes dead and the death event is raised once |
| PlayerStats.PlayerStats.TakeDamage | Assets/GameModules/player/PlayerStats.cs:19-34 | a dead player ignores damage; otherwise health drops by the damage clamped into [0, maxHealth], and the player dies exactly at 0 |
| PlayerStats.PlayerStats.Heal | Assets/GameModules/player/PlayerStats.cs:36-47 | a dead player ignores healing; otherwise health rises by the rounded amount clamped into [0, maxHealth], and healing never kills |
| PlayerStats.HealRaises | Assets/GameModules/player/PlayerStats.cs:39-42 | a non-negative heal never lowers health nor passes maxHealth, and enough healing fills it |
| Projectile.HandleHit | Assets/GameModules/enemies/Scripts/Projectile.cs:74-116 | the hit table: a reflected projectile ignores the player and slashes, damages an enemy and explodes, and explodes on anything but a projectile; an unreflected one ignores enemies and projectiles, and explodes on the player, damaging it when it has stats, and on anything untagged |
| Projectile.DamagesOneSide | Assets/GameModules/enemies/Scripts/Projectile.cs:78-115 | a reflected projectile never damages the player and an unreflected one never damages an enemy |
| Projectile.Projectile.constructor | Assets/GameModules/enemies/Scripts/Projectile.cs:5-18 | a new projectile has the inspector settings, is unreflected, not destroyed and has spawned no explosion |
| Projectile.Projectile.Explode | Assets/GameModules/enemies/Scripts/Projectile.cs:118-124 | the projectile is destroyed, with one explosion exactly when the prefab is set |
| Projectile.Projectile.Reflect | Assets/GameModules/enemies/Scripts/Projectile.cs:42-62 | reflection happens once: a reflectable projectile gets 1.5 times the speed and double damage, otherwise a destroyable one explodes and any other is left alone |
| Projectile.Projectile.OnHit | Assets/GameModules/enemies/Scripts/Projectile.cs:64-116 | the outcome is HandleHit's for the projectile's reflection state; an explosion destroys it and a pass-through changes nothing |
| SlashProjectile.BitsMeet | Assets/GameModules/player/SlashProjectile.cs:28 | the bits of two layers overlap exactly when the layers are the same |
| SlashProjectile.AndOverOr | Assets/GameModules/player/SlashProjectile.cs:28 | testing a bit against a union of masks is the union of the tests |
| SlashProjectile.LayerInWith | Assets/GameModules/player/SlashProjectile.cs:28 | adding a layer's bit to the mask selects that layer and leaves every other answer as it was |
| SlashProjectile.LayerInMaskOf | Assets/GameModules/player/SlashProjectile.cs:28 | the layer test passes exactly for the layers the mask was built from |
| SlashProjectile.Record | Assets/GameModules/player/SlashProjectile.cs:25-49 | the enemy's root is recorded exactly when the contact is on the mask, not yet hit, and has EnemyStats |
| SlashProjectile.RecordAllOnce | Assets/GameModules/player/SlashProjectile.cs:30-44 | each enemy is damaged at most once per slash: the hit list has no duplicates, keeps what it had, and gains exactly the roots of damageable contacts |
| SlashProjectile.SlashProjectile.constructor | Assets/GameModules/player/SlashProjectile.cs:9-13 | a new slash has its damage and mask and has hit nobody |
| SlashProjectile.SlashProjectile.OnTriggerEnter | Assets/GameModules/player/SlashProjectile.cs:25-49 | the enemy takes damage exactly when the contact strikes, and the hit list becomes Record's |
| PlayerAttack.AddNewUnion | Assets/GameModules/player/PlayerAttack.cs:44-55 | a hit check keeps the earlier hits, adds no duplicates, and ends with exactly the colliders hit before or found now |
| PlayerAttack.AddNewKnown | Assets/GameModules/player/PlayerAttack.cs:49 | colliders already hit are not added again |
| PlayerAttack.HitCheckIdempotent | Assets/GameModules/player/PlayerAttack.cs:44-55 | repeating the same hit check adds nothing |
| PlayerAttack.PlayerAttack.constructor | Assets/GameModules/player/PlayerAttack.cs:16-25 | a new component is not attacking, has a closed hitbox and no hits |
| PlayerAttack.PlayerAttack.Attack | Assets/GameModules/player/PlayerAttack.cs:35-42 | ignored while attacking; otherwise the attack lock is taken, the hit list cleared and the animation triggered |
| PlayerAttack.PlayerAttack.PerformHitCheck | Assets/GameModules/player/PlayerAttack.cs:44-55 | the hit list becomes AddNew of the old list and the overlap query's colliders |
| PlayerAttack.PlayerAttack.Update | Assets/GameModules/player/PlayerAttack.cs:30-33 | a hit check runs exactly when the hitbox is open |
| PlayerAttack.PlayerAttack.StartAttackHitbox | Assets/GameModules/player/PlayerAttack.cs:57 | the hitbox opens and nothing else changes |
| PlayerAttack.PlayerAttack.FinishAttackHitbox | Assets/GameModules/player/PlayerAttack.cs:58-62 | the hitbox closes and the attack lock is released |
| PlayerBuff.SumOfOneKind | Assets/GameModules/player/PlayerBuff.cs:65-72 | buffs all of one type sum to that many copies of the type's colour |
| PlayerBuff.TargetOfOneKind | Assets/GameModules/player/PlayerBuff.cs:63-75 | with buffs of a single type active, the target colour is exactly that type's colour |
| PlayerBuff.ExpireKeeps | Assets/GameModules/player/PlayerBuff.cs:45-52 | a buff survives a frame exactly when its lowered timer is still positive |
| PlayerBuff.ExpireSplits | Assets/GameModules/player/PlayerBuff.cs:45-52 | expiring keeps the order of the buffs: it acts on each part of the list separately |
| PlayerBuff.ExpireTwice | Assets/GameModules/player/PlayerBuff.cs:45-52 | two frames of d1 and d2 seconds expire the same buffs as one frame of d1 + d2 |
| PlayerBuff.PlayerBuffManager.constructor | Assets/GameModules/player/PlayerBuff.cs:7-29 | the base colour is the outline's colour at start, and there are no buffs |
| PlayerBuff.PlayerBuffManager.AddBuff | Assets/GameModules/player/PlayerBuff.cs:37-41 | the buff is appended, with flashDuration in place of a non-positive duration |
| PlayerBuff.PlayerBuffManager.UpdateBuffTimers | Assets/GameModules/player/PlayerBuff.cs:43-53 | the backwards in-place walk leaves exactly Expire of the old buffs |
| PlayerBuff.PlayerBuffManager.TargetColor | Assets/GameModules/player/PlayerBuff.cs:57-75 | the colour computed is Target: the base colour with no buffs, otherwise the mean of the buffs' colours |
| GameManager.Advance | Assets/GameModules/gameManagers/gameStates/PlayStage.cs:29-33 | clearing a phase moves to the next phase, or after phase 5 to phase 1 of the next stage |
| GameManager.AdvanceIsNextIndex | Assets/GameModules/gameManagers/gameStates/PlayStage.cs:29-33 | from a phase in 1..5, advancing stays in 1..5 and is exactly one step further in the game |
| GameManager.IndexDistinct | Assets/GameModules/gameManagers/gameStates/PlayStage.cs:29-33 | a position in the game names a single (phase, stage) pair |
| GameManager.AdvanceTimesIndex | Assets/GameModules/gameManagers/gameStates/CompletedStage.cs:24-28 | n cleared phases move the counter exactly n steps and keep the phase in 1..5 |
| GameManager.FivePhasesMakeAStage | Assets/GameModules/gameManagers/gameStates/CompletedStage.cs:24-28 | five cleared phases from the start of a stage lead to the start of the next |
| GameManager.RemoveAbsent | Assets/GameModules/gameManagers/gameManager.cs:52-55 | unregistering an enemy that is not registered changes nothing |
| GameManager.RemoveFirstAt | Assets/GameModules/gameManagers/gameManager.cs:54 | List.Remove takes out exactly the first occurrence and keeps the rest in order |
| GameManager.RemoveFirstCount | Assets/GameModules/gameManagers/gameManager.cs:54 | List.Remove takes exactly one copy of the enemy out of the list |
| GameManager.RegisterThenUnregister | Assets/GameModules/gameManagers/gameManager.cs:47-55 | unregistering an enemy just registered restores the list |
| GameManager.Instance.constructor | Assets/GameModules/gameManagers/gameManager.cs:12 | there is no manager instance at first |
| GameManager.GameManager.constructor | Assets/GameModules/gameManagers/gameManager.cs:10-17 | a new manager has no current state and no enemies |
| GameManager.GameManager.Awake | Assets/GameModules/gameManagers/gameManager.cs:20-29 | the first manager becomes the instance and survives scene loads; a later one destroys itself |
| GameManager.GameManager.ChangeState | Assets/GameModules/gameManagers/gameManager.cs:41-45 | the new state becomes current and its StartState runs once; LoadStage loads the current stage's arena |
| GameManager.GameManager.Start | Assets/GameModules/gameManagers/gameManager.cs:31-34 | the game opens on the main menu |
| GameManager.GameManager.Progress | Assets/GameModules/gameManagers/gameStates/PlayStage.cs:29-35 | the counter advances by Advance and the next phase is loaded |
| GameManager.GameManager.PlayStageUpdate | Assets/GameModules/gameManagers/gameStates/PlayStage.cs:24-38 | only with no enemies left does E advance the counter and load the next phase; otherwise nothing changes |
| GameManager.GameManager.CompletedStageUpdate | Assets/GameModules/gameManagers/gameStates/CompletedStage.cs:21-32 | E advances the counter and loads the next phase; otherwise nothing changes |
| GameManager.GameManager.LoadStageUpdate | Assets/GameModules/gameManagers/gameStates/LoadStage.cs:20-26 | T returns to the main menu; otherwise nothing changes |
| GameManager.GameManager.Update | Assets/GameModules/gameManagers/gameManager.cs:36-39 | the current state's update runs: the menu states change nothing; in PlayStage with no enemies left, and in CompletedStage, E advances the counter and loads the next phase, otherwise nothing changes; in LoadStage T returns to the main menu, otherwise nothing changes; so the counter moves by at most one Advance and the stage never goes back |
| GameManager.GameManager.RegistryEnemy | Assets/GameModules/gameManagers/gameManager.cs:47-50 | the enemy is appended to the list |
| GameManager.GameManager.UnregistryEnemy | Assets/GameModules/gameManagers/gameManager.cs:52-55 | the first occurrence of the enemy is removed |

## Left out

- Engine objects are not modelled: game objects, transforms, meshes, materials, colliders, rigidbodies, animators, Gizmos and `Debug.Log`. The model records which tiles, groups, projectiles and drops would be created, and how often an animator trigger fires.
- Randomness is not generated. `Random.value`, `Random.Range`, `insideUnitCircle` and `insideUnitSphere` are draws passed in as parameters or oracles (`UnityRandom`). `Random.Range(lo, hi)` is only called with `lo <= hi`, as every caller in the game does.
- Navigation is not modelled. The mesh, `NavMeshAgent` steering and speeds, `SetDestination` paths, and the lurk and reposition destinations are left out. `NavMesh.SamplePosition` is an oracle that finds a point or not. The last patrol destination handed to the agent is recorded.
- `Physics.Raycast`, `OverlapSphere`, `Vector3.Distance` and `Vector3.Angle` are inputs. `FaceTarget` and the animator speed updates are left out.
- Coroutines and timed visuals are not modelled. `InvokeRepeating` and the coroutine that runs `CheckForPlayer` are replaced by callers that may call the method at any time. `CompleteStageRoutine`, `Destroy(gameObject, delay)` and the projectile and slash lifetimes are left out.
- Scene loading is recorded but not performed: `LoadStage` loads the current stage's arena. `MainMenuState` loading `testScene` on T, `PlayState`, and `PlayStage.StartState` enabling player movement do not change the manager and are left out.
- Floating point is not modelled. `float` is modelled as `real`, so results are exact and IEEE rounding is not modelled. `(int)` casts (`ArenaSpawner.Truncate`), `Mathf.RoundToInt` and `Mathf.Clamp` are written out.
- ArenaSpawner.StageBudget: the growth factor `Mathf.Pow(2, (stage - 1) / 4)` is an input, not computed.
- EnemySpawner.PatrolTiles: the `Mathf.Atan2` angle of a tile around the spawn point is an abstract key. The model proves the tiles sorted by that key, not a geometric circle.
- Projectile.Projectile.Reflect: `damage *= 2` is unbounded; 32-bit overflow of the damage is not modelled. The projectile's direction and velocity are left out.
- PlayerBuff.PlayerBuffManager.TargetColor: the `Color.Lerp` of the outline towards the target is left out, and only the target colour is modelled.
- PlayerStats.PlayerStats.TakeDamage: `int` health is unbounded, so 32-bit overflow of `currentHealth - damage` is not modelled.
- Input is only the keys `GetKeyDown` reports. Player movement, camera, UI, audio, lighting and item pickups are not part of this model: `ItemPickup.ApplyEffect` calls methods that the code does not define.
- Mesh and UV building (`BuildFloorTileMesh`, `BuildOuterWallTileMesh`, `BuildTileMesh`, `BuildRectMesh`) is left out. `FractFloorSide.TopQuad` keeps only the inset bounds of the top face.
- The interface `IGameManInterface` is not modelled. The game states use `gamePhase`, `gameStage`, `getSpawnedEnemies`, `player`, `GetGameInfo` and `GenerateArena` on it, and the interface does not declare them. The model gives the manager those fields. The initial phase and stage are not set anywhere, so they are constructor parameters.
- A null `patrolPoints` array in `EnemyNavMeshAI.Patrol` is modelled as an empty route.
- The `default` arm of `GetColorForType` is unreachable for the three-valued enum and is not modelled.
- The spawners take the spawnable tiles as positions. With an empty list the enemies-module spawner throws when it reads a tile for an affordable group; `EnemySpawner.SpendBudget` reports this as `thrown` and spawns nothing, and what the engine does with the exception is not modelled. Registering spawned enemies with the manager and deactivating them happen on engine objects and are left out.
- FracturedFloorOld.FloorGeneratorOld.CreateTile: the exception `BuildRectMesh` raises at `uvRects[entry]` is modelled as the `thrown` result, which ends the grid loop; the tile's half-built mesh and what the engine does with the exception are not modelled.
- FracturedFloorOld.FloorGeneratorOld.GenerateTiles: requires a pattern that covers the grid. The public C# method throws on a null or too-small pattern, and that exception path is not modelled; `Start`, the corrected caller, ensures a covering pattern first.
- Sorting.SortBy: ties keep their input order by construction, as the stable `OrderBy` does, but no lemma states stability.
- The loot pick's final `return lootTable[0]` is unreachable and is kept only in the proof: see `EnemyLoot.FallbackUnreachable`. Drops are positioned in the world by the engine.

## Findings

| source | as written | input that shows it | evidently intended | confidence | as-written member | corrected member |
|---|---|---|---|---|---|---|
| Assets/modules/map/scripts/fractured_floor_old.cs:37-38 | an inspector pattern is kept when only its first dimension matches `width` | width 4, height 4, pattern 4×3: kept, then `CreateTile(x, 3)` reads column 3, which does not exist | replace any pattern that does not cover the whole grid | not executed | FracturedFloorOld.KeptPatternTooShort | FracturedFloorOld.FloorGeneratorOld.Start |
| Assets/GameModules/enemies/Scripts/EnemyNavMeshAI.cs:246-253 | `timeStuck` is a local reset to 0 on every call, so it never adds up across frames | a stall of one second in two frames of 0.5 s: never flagged as stuck | keep the stuck time across frames so a stall over 0.75 s reverses the circling | not executed | EnemyNavMesh.StallGoesUnnoticed | EnemyNavMesh.CarriedFlipsAfterStall |
| Assets/modules/enemies/Assets/Scripts/OLD/EnemyAI.cs:45-53 | `Start` calls `SwitchState(Patrolling)` on an enemy already Patrolling, which returns at once | a fresh enemy whose PatternMovement and PlayerPursuit are both enabled keeps both enabled | Start enables only the patrol component | not executed | EnemyAIOld.StartLeavesBothEnabled | EnemyAIOld.EnemyAI.StartCorrected |
