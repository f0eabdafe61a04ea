# Sheep, wolf and herder: a model of the simulation core

The playground is a small raylib game. A grid of tiles holds ground, grass and manure.
A flock of sheep grazes on it, a wolf hunts the sheep, and the player steers a herder
with the mouse. This project models the part of the game that reads and writes the
world state, and proves properties of it:

- the tile grid: sizing and centring at start-up, the flat `y * width + x` layout of
  the per-tile arrays, and the queries that check bounds before reading a cell;
- the A* path search over walkable tiles (8 neighbours, unit step cost), its
  per-tile record array and the parent walk that rebuilds the path;
- the lifecycle state machines of grass (Growing, Fertilised, FullyGrown, Wilting,
  with a one-time seed spread), manure (one fertilise pass, then expiry), ground
  fertility, timers, sheep (Hungry, Satiated, Reproducing, Afraid), the wolf (Hungry,
  Satiated, Asleep) and the herder's stun controller;
- the world helpers: the first-match scans for a mate and for prey, eating,
  fertilising, spawning, killing and resetting mates;
- the per-tick update (grass, then every sheep with containment, then manure, then
  the wolf with containment, then the herder) and world initialisation;
- the tile editor: the TAB settings cycle, the hover tile, and the four per-tile
  mutators.

## Layout

| file | module | what it holds |
|---|---|---|
| geometry.dfy | `Geometry` | points, vectors, the 8-neighbour offsets, squared-distance tests, C truncation and division |
| grid.dfy | `TileGrid` | grid size and offset, `y * width + x` indexing, tile/position conversion |
| timer.dfy | `Timers` | the `Timer` record |
| random.dfy | `Random` | the random source, held by the world and advanced by each draw |
| ground.dfy | `GroundLayer` | the ground tile and its bounds-checked queries |
| grass.dfy, grass_update.dfy | `GrassLayer`, `GrassBehaviour` | the grass tile and `Grass::Update` with the seed spread |
| manure.dfy, manure_update.dfy | `ManureLayer`, `ManureBehaviour` | the manure tile and `Manure::update` |
| pathfinding.dfy | `PathFinding` | `AStarPathFinding`, `ExploreNeighbours`, `GetPath` |
| sheep.dfy, sheep_update.dfy | `SheepAgent`, `SheepBehaviour` | the sheep record, its self-only operations, and its Sense/Think/Act cycle in the world |
| wolf.dfy, wolf_update.dfy | `WolfAgent`, `WolfBehaviour` | the same for the wolf |
| herder.dfy, herder_update.dfy | `HerderAgent`, `HerderBehaviour` | the herder, its stun controller and `Herder::Update` |
| world.dfy | `WorldModel` | the `World` class: its layers, agents, queries, mutators and `World::init` |
| world_update.dfy | `WorldUpdate` | `contain_within_bounds` and `World::update` |
| editor.dfy | `TileEditor` | the `editor` helpers and `Editor::update` |

Records that the C++ keeps by value in vectors (ground, grass, manure, sheep, timers)
and the wolf and herder singletons are datatypes. Their self-only setters are
functions that return the updated record. The `World` is a class. Its per-tile layers
are arrays that never change size, and `m_sheep` is a sequence that grows by appending.
Behaviour that reaches through the agents' `world` back-pointer becomes a method that
takes the world as a parameter and names in `modifies` exactly what it may change.
Each such method is proved against a specification on the old state: a function
where the step is one, and a predicate on values where it searches a path (A* is a
relation, SearchResult, not a function). The per-tick updates state every phase
this way: ghost results name the state after sensing and after thinking, or after
each loop turn, and the contract ties each to the previous one. Lemmas about those
functions and predicates state what the game promises.

Float quantities are `real`. A `Vector2Distance(a, b) < r` test is an exact squared
comparison. `GetRandomValue` reads a draw sequence held by the world: `source(next)`
is the next raw draw and each call advances `next`. Vector normalisation and the A*
heuristic are functions given to the world when it is created.

## Model

| member | source | states |
|---|---|---|
| Geometry.Neighbours | playground/src/world.cpp:77-94 | the 8 neighbours come in the fixed order N, NE, E, SE, S, SW, W, NW |
| Geometry.NeighbourIffAdjacent | playground/src/world.cpp:77-94 | a tile is one of another's 8 neighbours exactly when the two differ by at most one in each coordinate and are not equal |
| Geometry.AdjacentSymmetric | playground/src/world.cpp:77-94 | the neighbour relation is symmetric, so a path step can be walked back |
| Geometry.WithinDistanceMonotone | playground/src/world.cpp:250-281 | a point within a smaller radius is also within any larger radius |
| Geometry.TruncToInt | playground/src/Sheep.cpp:385-386 | the C `int(float)` cast truncates toward zero: below the value for positive reals, above it for negative ones |
| Geometry.CDiv | playground/src/editor.cpp:80 | C integer division truncates toward zero, unlike floor division for negative operands |
| Geometry.Vector2Clamp | playground/src/Sheep.cpp:389 | each clamped component lies in its bounds when they are ordered, and a component already inside is unchanged |
| TileGrid.GridForWindow | playground/src/world_init.cpp:12-25 | columns = width / 32 - 3 and rows = height / 32 - 2 with integer division, and each offset is half of the leftover pixels |
| TileGrid.GridIsCentred | playground/src/world_init.cpp:12-25 | for any window of at least 3 x 2 tiles the size is non-negative, with columns exactly when the window is at least 4 tiles wide and rows exactly when it is at least 3 tiles high; the offsets are non-negative and the margins on both sides differ by at most one pixel |
| TileGrid.IndexInRange | playground/src/world.cpp:20-61 | every valid coordinate has an index `y * width + x` inside the layer arrays |
| TileGrid.CoordOfIndex | playground/src/world_init.cpp:28-41 | index i maps to the coordinate (i mod columns, i div columns), which is valid and indexes back to i |
| TileGrid.IndexOfCoord | playground/src/world_init.cpp:28-41 | for a valid coordinate, going to the index and back gives the same coordinate |
| TileGrid.IndexInjective | playground/src/world.cpp:42 | two valid coordinates share an array cell exactly when they are equal |
| TileGrid.TileRoundTrip | playground/src/world.cpp:63-75 | `position_to_tile_coord` undoes `tile_coord_to_position` for every tile, on the grid or off it |
| TileGrid.CDivExact | playground/src/world.cpp:63-69 | truncating division of an exact multiple returns the multiplier, whatever its sign |
| TileGrid.NeighboursOfTilePosition | playground/src/world.cpp:77-94 | the neighbours computed from a tile's corner position are the 8 neighbours of that tile |
| Timers.Update | playground/src/Timer.cpp:6-8 | `Update` adds exactly dt to the elapsed time and keeps the limit |
| Timers.Reset | playground/src/Timer.cpp:10-16 | `Reset` zeroes the elapsed time and keeps the limit; with a positive limit the timer is not done |
| Timers.UpdatesAccumulate | playground/src/Timer.cpp:6-16 | after any sequence of updates the elapsed time grows by their sum and the limit never changes; a reset timer is done exactly when the sum reaches the limit |
| Random.RandomValue | playground/src/world.cpp:288-298 | a draw from `GetRandomValue(min, max)` lies between the two bounds, in whichever order they are given |
| Random.RandomValueCovers | playground/src/world.cpp:288-298 | every value between the bounds is produced by some raw draw |
| Random.SelectsIff | playground/src/Grass.cpp:140-147 | a neighbour is selected exactly when its draw from 0..100 is above 50 |
| Random.Rng.GetRandomValue | playground/src/world.cpp:288-298 | one call consumes exactly one draw and returns that draw reduced into the range, as RandomValue states |
| Random.PickedIff | playground/src/Manure.cpp:89-100 | a tile is picked exactly when its own draw selects it |
| Random.PickedOnlySelected | playground/src/Manure.cpp:89-100 | every picked tile was selected by its own draw |
| Random.SelectedIsPicked | playground/src/Manure.cpp:89-100 | every tile selected by its own draw is picked |
| Random.PickTiles | playground/src/Grass.cpp:140-147 | the loop picks the tiles whose draws select them and consumes one draw per tile |
| GroundLayer.SetWalkable | playground/src/Ground.cpp:6-14 | `set_walkable` sets the flag that `is_walkable` reads and touches nothing else |
| GroundLayer.SetTileCoord | playground/src/Ground.cpp:16-19 | `set_tile_coord` sets the coordinate and touches nothing else |
| GroundLayer.FertiliseGround | playground/src/Ground.cpp:21-24 | fertilises with the fertilised source and keeps walkability and coordinate |
| GroundLayer.UnfertiliseGround | playground/src/Ground.cpp:26-29 | unfertilises with the unfertilised source and keeps walkability and coordinate |
| GroundLayer.WalkabilityReadsLastSet | playground/src/Ground.cpp:6-29 | `is_walkable` returns the last value set whatever fertility changes follow; both fertility operations are idempotent, and each undoes the other on a cell in the opposite state |
| GroundLayer.FertilityKeepsWalkability | playground/src/Ground.cpp:21-29 | any run of fertility changes keeps walkability and coordinate, and the last one decides the flag |
| GrassLayer.Spawn | playground/src/Grass.cpp:36-41 | `SpawnGrass` makes the grass alive at age 0.01, Growing, edible and with seeds, not yet fully grown |
| GrassLayer.Despawn | playground/src/Grass.cpp:43-46 | `DespawnGrass` kills the grass (age 0, not edible) and leaves its state and seeds alone |
| GrassLayer.Advance | playground/src/Grass.cpp:50-185 | one update leaves dead grass alone and otherwise ages live grass by its stage's speed times dt |
| GrassLayer.AdvanceTransitions | playground/src/Grass.cpp:57-184 | the stage transitions: Growing to FullyGrown at 0.67 unless fertilised (then Fertilised); Fertilised back to Growing when no longer fertilised; FullyGrown to Wilting at 0.84; Wilting dies at 1.0 but stays Wilting |
| GrassLayer.AgeNeverDecreases | playground/src/Grass.cpp:63-185 | with dt >= 0 live grass never gets younger, and it dies only in Wilting once age reaches 1.0 |
| GrassLayer.AdvanceKeepsStages | playground/src/Grass.cpp:50-185 | the stage stays consistent with the age thresholds across updates and spawns |
| GrassLayer.AdvanceManyAges | playground/src/Grass.cpp:50-185 | over any run of non-negative steps live grass never gets younger and dead grass never changes |
| GrassLayer.DeadStaysDead | playground/src/Grass.cpp:52-55 | dead grass stays unchanged under any sequence of updates |
| GrassBehaviour.SpreadEffect | playground/src/Grass.cpp:150-162 | the seed spread only spawns on picked in-bounds tiles without live grass; live grass is untouched; walkability is not checked |
| GrassBehaviour.Update | playground/src/Grass.cpp:50-185 | the in-place update of cell i equals the update function, and it consumes 8 draws exactly when the grass spreads seeds |
| GrassBehaviour.TakeUpFertility | playground/src/Grass.cpp:121-137 | a fully grown grass becomes fertilised when any neighbouring ground is fertilised, and no other cell changes |
| GrassBehaviour.SpreadSeeds | playground/src/Grass.cpp:150-162 | the spread loop writes exactly the spread function's result |
| GrassBehaviour.UpdateEffect | playground/src/Grass.cpp:50-185 | dead grass changes nothing; grass without seeds changes only its own cell; spreading clears the seeds; another cell changes only to a new spawn on a selected in-bounds neighbour, and every such neighbour ends up with grass |
| GrassBehaviour.SeedsOnce | playground/src/Grass.cpp:165 | after one spread, the next update of that grass only ages it: seeds spread once per life |
| GrassBehaviour.SeedingIgnoresWalkability | playground/src/Grass.cpp:150-162 | the result does not depend on walkability, so seeds land on unwalkable tiles too |
| ManureLayer.Spawn | playground/src/Manure.cpp:26-30 | `SpawnManure` makes the manure exist, clears `hasFertilised` and zeroes the duration |
| ManureLayer.Despawn | playground/src/Manure.cpp:32-34 | `DespawnManure` only clears `manureExists` |
| ManureLayer.Initiate | playground/src/Manure.cpp:36-46 | a new manure does not exist yet and lies on the given tile |
| ManureLayer.SpawnAfterDespawn | playground/src/Manure.cpp:26-34 | spawning after a despawn is the same as spawning; a despawn after a spawn keeps the tile |
| ManureBehaviour.Update | playground/src/Manure.cpp:49-119 | the in-place update of all three layers equals the update function, with 8 draws used exactly when the fertilise pass runs |
| ManureBehaviour.DefertiliseNeighbours | playground/src/Manure.cpp:65-80 | the expiry loop writes exactly the defertilise-all function's result |
| ManureBehaviour.FertiliseNeighbours | playground/src/Manure.cpp:89-115 | the fertilise loop writes exactly the fertilise-picked function's result |
| ManureBehaviour.DefertiliseAllEffect | playground/src/Manure.cpp:65-80 | every in-bounds listed tile ends up unfertilised in ground and grass, and only listed tiles change |
| ManureBehaviour.FertilisePickedEffect | playground/src/Manure.cpp:89-115 | only picked, in-bounds, not yet fertilised ground changes, and every picked in-bounds tile ends up fertilised |
| ManureBehaviour.UpdateOwnEntry | playground/src/Manure.cpp:52-118 | missing manure changes nothing; existing manure ages by exactly dt, is marked fertilised, and exists after the step exactly when its duration stays below 10; other entries are untouched |
| ManureBehaviour.ExpiryDefertilises | playground/src/Manure.cpp:65-80 | at expiry the manure disappears and every in-bounds neighbour is unfertilised |
| ManureBehaviour.ExpiryStillFertilises | playground/src/Manure.cpp:79-87 | expiry does not return early, so manure that has not fertilised yet still fertilises its selected neighbours in the tick it disappears |
| ManureBehaviour.FertilisesOnce | playground/src/Manure.cpp:83-118 | after the fertilise pass, a later update leaves ground and grass alone until expiry |
| ManureBehaviour.FertilisePassEffect | playground/src/Manure.cpp:89-115 | the pass changes only ground that was unfertilised on a selected in-bounds neighbour, and fertilises every such neighbour |
| PathFinding.PopMin | playground/src/world.cpp:483-486 | the popped entry has the least f value, and it is the first entry with that value |
| PathFinding.ExploreNeighbours | playground/src/world.cpp:364-416 | one neighbour step writes exactly the records and frontier given by the exploration function |
| PathFinding.ExploreStep | playground/src/world.cpp:364-416 | each neighbour step keeps the search invariant, or reaches the target with a parent chain back to the start |
| PathFinding.ExploreHit | playground/src/world.cpp:367-376 | when the neighbour is the target, linking it to the current tile completes a parent chain |
| PathFinding.ExploreRecord | playground/src/world.cpp:386-405 | recording an open walkable neighbour keeps the search invariant |
| PathFinding.ClosedCoord | playground/src/world.cpp:386-405 | every closed or recorded tile is walkable and sits at its own index |
| PathFinding.SkipKeepsInv | playground/src/world.cpp:488-494 | a popped duplicate of an already closed tile is skipped without breaking the invariant |
| PathFinding.CloseKeepsInv | playground/src/world.cpp:495-496 | closing the popped tile keeps the invariant, so each tile is expanded at most once |
| PathFinding.ExpandedKeepsInv | playground/src/world.cpp:498-514 | after all 8 neighbours of a tile the invariant holds for the next pop |
| PathFinding.AddRecordKeepsInv | playground/src/world.cpp:386-405 | a record with the current tile as parent and g one larger keeps the invariant |
| PathFinding.ParentStep | playground/src/world.cpp:426-430 | each parent link leads to an adjacent linked tile of strictly smaller rank, so the walk in `GetPath` terminates |
| PathFinding.RecordCoord | playground/src/world.cpp:418-438 | a linked tile's record holds its own coordinate and a parent adjacent to it |
| PathFinding.ParentEnd | playground/src/world.cpp:426-430 | the only linked tile that is its own parent is the start |
| PathFinding.GetPath | playground/src/world.cpp:418-438 | the rebuilt path starts next to the start tile, moves between neighbours over walkable tiles, and ends at the target |
| PathFinding.NoPathOut | playground/src/world.cpp:480-517 | when the frontier empties without meeting the target, no path from the start to the target exists |
| PathFinding.StepClosed | playground/src/world.cpp:480-517 | with an empty frontier every walkable neighbour of a closed tile is closed and is not the target |
| PathFinding.NoPathToUnwalkable | playground/src/world.cpp:445-449 | no path ends on an unwalkable or off-grid target |
| PathFinding.InitialInv | playground/src/world.cpp:457-476 | the search starts with only the start tile recorded, as its own parent, and nothing closed |
| PathFinding.ExpandTile | playground/src/world.cpp:498-514 | expanding a tile either finds a valid path or keeps the invariant with an empty path |
| PathFinding.AStarPathFinding | playground/src/world.cpp:440-518 | an unwalkable start or target fails with an empty path; start == target succeeds with an empty path; success yields a valid path; failure from a walkable start means no path exists |
| PathFinding.Search | playground/src/world.cpp:457-517 | between a walkable start and a different walkable target, the search reports a valid path when it finds one and fails only when no path exists |
| PathFinding.VisitNext | playground/src/world.cpp:480-516 | one turn of the loop keeps the search invariant, or returns a valid path; without a path either one more tile is searched or the frontier shrinks, so the loop ends |
| PathFinding.SearchResultIsSensed | playground/src/world.cpp:440-518 | any search outcome is a path the agents may hold: empty or a valid path |
| WorldModel.InitialGround | playground/src/world_init.cpp:27-42 | the ground layer has one cell per tile |
| WorldModel.InitialManure | playground/src/world_init.cpp:80-93 | the manure layer has one cell per tile |
| WorldModel.InitialGroundIsWalkable | playground/src/world_init.cpp:28-41 | every initial ground cell is walkable and holds the coordinate of its own index |
| WorldModel.ManureOffByOne | playground/src/world_init.cpp:81-92 | manure entry i gets the coordinate of index i + 1, so the last entry lies just below the grid |
| WorldModel.ClampedTile | playground/src/Sheep.cpp:389 | a clamped flee point maps to a tile at most one step beyond the grid on the far side and no further than the offset on the near side |
| WorldModel.CanSheepMate | playground/src/world.cpp:162-175 | a sheep can mate exactly when its index is valid and it is alive and Reproducing |
| WorldModel.InMatingRange | playground/src/world.cpp:177-185 | two sheep within twice the radius are in mating range, and in range means within that distance plus a small tolerance |
| WorldModel.GrassEatenAt | playground/src/world.cpp:119-122 | eating despawns exactly the grass cell under the position and nothing else |
| WorldModel.ManureDroppedAt | playground/src/world.cpp:334-338 | defecating spawns exactly the manure cell under the position and nothing else |
| WorldModel.IsSheepIndexValid | playground/src/world.cpp:27-34 | with sheep present an index is valid exactly when it is in range; with none, the wrapped `size() - 1` accepts every non-negative index |
| WorldModel.InitGroundLayer | playground/src/world_init.cpp:27-42 | the ground loop fills the array with the initial ground layer |
| WorldModel.InitGrassLayer | playground/src/world_init.cpp:44-66 | the grass loop gives every cell its own coordinate, and any grass alive at start has age in [0.01, 1.0] |
| WorldModel.InitManureLayer | playground/src/world_init.cpp:80-93 | the manure loop fills the array with the initial manure layer, off-by-one coordinates included |
| WorldModel.FertiliseWritesExactly | playground/src/world.cpp:340-354 | `Fertilise` sets exactly the neighbour's ground and grass fertility and makes the own grass inedible; `Defertilise` writes the opposite values to the same fields; no other cell changes |
| WorldModel.DefertiliseUndoesFertilise | playground/src/world.cpp:340-354 | on fresh cells, defertilising undoes fertilising |
| WorldModel.World.Init | playground/src/world_init.cpp:7-99 | the world starts running with a centred grid, the initial layers, exactly 5 new sheep inside the bounds, a freshly spawned wolf and an initialised herder |
| WorldModel.World.CanGrassBeEaten | playground/src/world.cpp:105-117 | grass can be eaten exactly when live grass is on the tile, is edible, and has no manure on it |
| WorldModel.World.TooCloseImpliesNearby | playground/src/world.cpp:250-281 | both herder-proximity tests report true for off-grid tiles, and "too close" implies "nearby" |
| WorldModel.World.ReturnMatingSheep | playground/src/world.cpp:143-160 | returns -1 or the least index other than the caller that is alive, Reproducing and unmated |
| WorldModel.World.ReturnSheepToEat | playground/src/world.cpp:187-207 | returns -1 or the least index that is alive and within hunting distance; clears the hunted flag of every earlier sheep and leaves the later ones alone |
| WorldModel.World.CanSheepBeEaten | playground/src/world.cpp:209-225 | an invalid index is refused with nothing changed; otherwise the sheep is marked hunted, and the answer is whether it touches the wolf |
| WorldModel.World.EatSheep | playground/src/world.cpp:227-231 | the prey takes 10 damage, so its health becomes 0, and it is no longer hunted |
| WorldModel.World.AttackHerder | playground/src/world.cpp:283-286 | only the herder's `isAttacked` flag is set |
| WorldModel.World.GetRandomTile | playground/src/world.cpp:288-298 | the random tile uses exactly two draws around the start |
| WorldModel.World.SpawnSheep | playground/src/world.cpp:300-314 | exactly one new sheep is appended; it is placed at the given position or, when randomised, inside the bounds |
| WorldModel.World.SetSheepAsMate | playground/src/world.cpp:316-322 | only the chosen sheep changes: it is mated and Reproducing |
| WorldModel.World.ResetSheepMate | playground/src/world.cpp:324-332 | only the chosen sheep changes: it is Satiated and can no longer reproduce |
| WorldModel.World.EatGrass | playground/src/world.cpp:119-122 | the grass layer loses exactly the grass under the position, which can then not be eaten |
| WorldModel.World.Defecate | playground/src/world.cpp:334-338 | the manure layer gains exactly the manure under the position, whose grass can then not be eaten |
| WorldModel.World.Fertilise | playground/src/world.cpp:340-346 | the array writes are exactly the fertilise function |
| WorldModel.World.Defertilise | playground/src/world.cpp:348-354 | the array writes are exactly the defertilise function |
| SheepAgent.NewSheep | playground/src/Sheep.cpp:176-204 | a new sheep is alive, Hungry, at full health and age 0, unmated, with the sense and think timers at 0.25 s and 0.5 s |
| SheepAgent.SetTargetPosition | playground/src/Sheep.cpp:41-46 | sets the target and the normalised direction toward it, nothing else |
| SheepAgent.TraverseUsingPath | playground/src/Sheep.cpp:48-67 | an empty path changes nothing; otherwise the sheep aims at the centre of the first tile and drops at most that tile |
| SheepAgent.Wander | playground/src/Sheep.cpp:93-102 | a sheep wanders along its path only when its random target is on the grid |
| SheepAgent.TakeDamage | playground/src/Sheep.cpp:113-119 | health drops by the amount and is clamped at 0 |
| SheepAgent.RegenerateHealth | playground/src/Sheep.cpp:121-128 | health rises by the amount and is clamped at 10 |
| SheepAgent.HealthStaysInRange | playground/src/Sheep.cpp:113-128 | health in [0, 10] stays there under damage and regeneration, and 10 damage empties it |
| SheepAgent.EatGrass | playground/src/Sheep.cpp:69-82 | a meal counts, zeroes the time since eating and regenerates 2 health; the third meal sets `canReproduce`, zeroes `timeSatiated` and enters Satiated |
| SheepAgent.ThirdMealSatiates | playground/src/Sheep.cpp:69-82 | from a fresh Hungry sheep, exactly the third meal makes it Satiated and able to reproduce |
| SheepAgent.Defecate | playground/src/Sheep.cpp:84-91 | defecating zeroes the meal count and both timers and returns to Hungry |
| SheepAgent.DefecateRestartsMealCount | playground/src/Sheep.cpp:69-91 | after defecating, again three meals are needed |
| SheepAgent.Kill | playground/src/Sheep.cpp:165-174 | a killed sheep is dead with age 0 |
| SheepAgent.ResetMate | playground/src/world.cpp:324-332 | a reset mate is Satiated, unmated, walking and cannot reproduce |
| SheepAgent.SetAsMate | playground/src/world.cpp:316-322 | the chosen mate is mated, Reproducing and stays where it is |
| SheepAgent.AfterReproducing | playground/src/Sheep.cpp:137-147 | after reproducing the sheep is Satiated with no mate and cannot reproduce |
| SheepAgent.BecomeAfraid | playground/src/Sheep.cpp:219-224 | a hunted sheep becomes Afraid, drops its random target and its mating flag |
| SheepAgent.GoTowardsMate | playground/src/Sheep.cpp:130-135 | the sheep runs and follows its path |
| SheepAgent.Act | playground/src/Sheep.cpp:515-553 | every state adds dt to age and time since eating and moves along the direction; only Satiated adds dt to `timeSatiated` |
| SheepAgent.ActKeepsState | playground/src/Sheep.cpp:515-553 | Act never changes state, health or path, so Afraid is never left by Act |
| SheepAgent.ThinkHungryEffect | playground/src/Sheep.cpp:407-427 | a Hungry sheep eats exactly when it may eat and the grass is edible; it loses health only when it has not eaten for too long; it ends Hungry or Satiated |
| SheepAgent.ThinkSatiatedTransitions | playground/src/Sheep.cpp:428-451 | Satiated moves to Reproducing exactly when ready (time since eating > 0.3, full health, may reproduce), and defecates back to Hungry exactly otherwise once satiated for 3 s |
| SheepAgent.GiveUpMateEffect | playground/src/Sheep.cpp:452-503 | giving up a mate clears it; without a mate left the sheep returns to Satiated still able to reproduce |
| SheepAgent.Flee | playground/src/Sheep.cpp:149-162 | a fleeing sheep runs, cannot reproduce and is unmated |
| SheepAgent.FleeBox | playground/src/Sheep.cpp:363-383 | the flee box lies on the side away from the wolf along x; along y the upper bound is the wolf's own y when the wolf is below |
| SheepAgent.FleeBoxAwayOnX | playground/src/Sheep.cpp:363-383 | along x the flee box excludes the wolf's side, and along y it ends at the wolf |
| SheepBehaviour.KillEffect | playground/src/Sheep.cpp:165-174 | a killed sheep is dead with age 0, its valid mate is reset to Satiated (the world's mate reset, world.cpp:324-332), and no other sheep changes |
| SheepBehaviour.ThinkReproducingEffect | playground/src/Sheep.cpp:452-503 | mating appends exactly one new sheep at the parent's position (the world's spawn, world.cpp:300-314) and returns both parents to Satiated without a mate |
| SheepBehaviour.ThinkReproducingKeeps | playground/src/Sheep.cpp:452-503 | reproducing thinking changes only the sheep and its mate, and never moves, heals or kills anyone |
| SheepBehaviour.AfraidIsNeverLeft | playground/src/Sheep.cpp:504-511 | an Afraid sheep stays Afraid through its own Think and Act |
| SheepBehaviour.RanAwayEffect | playground/src/Sheep.cpp:149-162 | running away resets the valid mate and changes no one else |
| SheepBehaviour.ThinkOutcomeEffect | playground/src/Sheep.cpp:403-513 | one Think appends at most one new sheep, keeps life and timers, keeps Afraid, keeps health in [0, 10], and leaves every other body alone |
| SheepBehaviour.ThinkHungryKeeps | playground/src/Sheep.cpp:407-427 | Hungry thinking keeps life, age, mate and timers, and health in [0, 10] |
| SheepBehaviour.FeedKeeps | playground/src/Sheep.cpp:407-427 | the meal and the hunger damage keep life, age, mate and timers, and health in [0, 10] |
| SheepBehaviour.ThinkSatiatedKeeps | playground/src/Sheep.cpp:428-451 | Satiated thinking keeps life, age, health, mate and timers |
| SheepBehaviour.FleePointAwayFromWolf | playground/src/Sheep.cpp:363-386 | the flee point's x lies on the side away from the wolf |
| SheepBehaviour.SensedTargetBounds | playground/src/Sheep.cpp:257-401 | a kept target is on the grid (and on live grass when Hungry); a new one is at most one tile beyond the grid |
| SheepBehaviour.KillSheep | playground/src/Sheep.cpp:165-174 | the in-place kill is exactly the kill function |
| SheepBehaviour.EatGrass | playground/src/Sheep.cpp:69-82 | the sheep eats and the grass under it is despawned, nothing else changes |
| SheepBehaviour.Defecate | playground/src/Sheep.cpp:84-91 | the sheep defecates and manure appears under it, nothing else changes |
| SheepBehaviour.Reproduce | playground/src/Sheep.cpp:137-147 | the in-place reproduction is exactly the reproduction function, using no draws |
| SheepBehaviour.RunAway | playground/src/Sheep.cpp:149-162 | the in-place flight is exactly the run-away function |
| SheepBehaviour.ThinkWhenHungry | playground/src/Sheep.cpp:407-427 | Hungry thinking eats the grass under the sheep exactly when it eats, otherwise grass is untouched |
| SheepBehaviour.ThinkWhenSatiated | playground/src/Sheep.cpp:428-451 | Satiated thinking drops manure exactly when the sheep defecates |
| SheepBehaviour.ThinkWhenReproducing | playground/src/Sheep.cpp:452-503 | reproducing thinking is exactly the reproducing function |
| SheepBehaviour.ThinkWhenAfraid | playground/src/Sheep.cpp:504-511 | afraid thinking is exactly the afraid function |
| SheepBehaviour.Think | playground/src/Sheep.cpp:403-513 | Think leaves the sheep as ThinkOutcome says; the grass layer loses the cell under a Hungry sheep that may eat and stands on edible grass, and nothing else; the manure layer gains a pat under a Satiated sheep due to defecate, and nothing else; no draw is used |
| SheepBehaviour.DrawFleeTile | playground/src/Sheep.cpp:385-389 | the flee tile uses exactly two draws and is clamped to the grid |
| SheepBehaviour.RetargetIfNeeded | playground/src/Sheep.cpp:263-276 | a new random target is drawn (two draws) exactly when the current one is off the grid or reached |
| SheepBehaviour.SearchPath | playground/src/Sheep.cpp:278-282 | the path is the search result from the sheep's tile to the target |
| SheepBehaviour.SenseTarget | playground/src/Sheep.cpp:261-307 | Sense keeps everything but target and path; it searches only for an on-grid target |
| SheepBehaviour.SenseMate | playground/src/Sheep.cpp:309-347 | an unmated sheep takes the first eligible mate, never itself, and searches a path to it or else to its random target |
| SheepBehaviour.PickMate | playground/src/Sheep.cpp:331-334 | a sheep without a mate takes the first eligible one, never itself |
| SheepBehaviour.SearchMatePath | playground/src/Sheep.cpp:336-346 | the path goes to a valid mate, or to an on-grid random target when there is no mate, or stays |
| SheepBehaviour.Sense | playground/src/Sheep.cpp:257-401 | Sense is Sensed on the old herd: only this sheep changes, its target is SensedTarget's with two draws exactly when it needs a new one, its path is the search result to the mate or on-grid target (or kept), and a Reproducing sheep without a mate takes the first eligible mate (IsFirstMate), never itself |
| SheepBehaviour.SenseStep | playground/src/Sheep.cpp:226-230 | SenseTicked: the sense timer ticks; when it is done the result is exactly Sensed on the herd holding the reset timer, otherwise the herd is the ticked one and no draw is used |
| SheepBehaviour.ThinkStep | playground/src/Sheep.cpp:232-236 | ThinkTicked: the think timer ticks; when it is done sheep, grass and manure are exactly ThinkOutcome, GrassAfterThink and ManureAfterThink of the sheep with the reset timer and the grass test of its cell, otherwise only the timer changes |
| SheepBehaviour.ThinkTickedEffect | playground/src/Sheep.cpp:232-236 | the think cadence adds at most one lamb at the sheep's position, keeps life, age and sense timer, health in range and Afraid, and never makes the sheep its own mate; with the timer not done only the think timer changes |
| SheepBehaviour.AlarmAndSense | playground/src/Sheep.cpp:219-231 | a hunted sheep that is not Afraid becomes Afraid (Alarmed), then SenseTicked holds from that herd: Sense runs on a done sense timer and nothing but the timer changes otherwise; life, age, health, position and the think timer are kept |
| SheepBehaviour.LiveStep | playground/src/Sheep.cpp:219-240 | LiveStepped: Alarmed, then SenseTicked giving `sensed`, then ThinkTicked on `sensed` giving `thought`, then Act on the sheep; so the sheep ages by dt, keeps health in [0, 10], both timers tick, and at most one lamb is added at the end |
| SheepBehaviour.Update | playground/src/Sheep.cpp:206-241 | Updated: a dead sheep changes nothing; a sheep with no health is exactly Killed (its mate reset); a live one takes the LiveStepped step, Sense and Think each on a done timer and Act every tick |
| WolfAgent.Spawn | playground/src/Wolf.cpp:65-88 | the wolf spawns Hungry at its den with nothing eaten, able to hunt at once, with timers at 0.5 s and 0.25 s |
| WolfAgent.SetTargetPosition | playground/src/Wolf.cpp:37-43 | sets the target, the target flag and the direction, nothing else |
| WolfAgent.TraverseUsingPath | playground/src/Wolf.cpp:45-63 | an empty path changes nothing; otherwise the wolf aims at the first tile's centre and drops at most that tile |
| WolfAgent.Wander | playground/src/Wolf.cpp:136-144 | the wolf wanders along its path only when its random target is on the grid |
| WolfAgent.GoToDen | playground/src/Wolf.cpp:96-100 | going to the den follows the path and keeps state and speed |
| WolfAgent.EatSheep | playground/src/Wolf.cpp:115-128 | a meal counts, zeroes the time since eating, clears the prey and target, and enters Satiated at three |
| WolfAgent.ThirdSheepSatiates | playground/src/Wolf.cpp:115-128 | from a fresh Hungry wolf, exactly the third sheep makes it Satiated |
| WolfAgent.Sleep | playground/src/Wolf.cpp:130-134 | only the state changes, to Asleep |
| WolfAgent.AttackHerder | playground/src/Wolf.cpp:146-155 | attacking enters Satiated whatever the eaten count, and clears prey and target |
| WolfAgent.ThinkAsleep | playground/src/Wolf.cpp:353-364 | the wolf wakes Hungry exactly when it has slept 10 s, with sleep time and eaten count reset |
| WolfAgent.Act | playground/src/Wolf.cpp:370-395 | asleep it only adds to its sleep time; otherwise it moves; only Hungry adds to the time since eating |
| WolfAgent.SleepLasts | playground/src/Wolf.cpp:389-393 | an asleep wolf never moves or wakes through Act, and its sleep time grows by the sum of the steps |
| WolfAgent.HerderFleeBox | playground/src/Wolf.cpp:226-246 | the box is chosen by comparing the wolf's position with the given point |
| WolfAgent.HerderFleeBoxIsUpLeft | playground/src/Wolf.cpp:226-246 | the code compares the wolf with itself, so the flee box is always up and to the left |
| WolfBehaviour.FleePointIsUpLeft | playground/src/Wolf.cpp:226-253 | the flee point is never right of or below the wolf |
| WolfBehaviour.SensedTargetChoice | playground/src/Wolf.cpp:207-260 | too close means heading for the herder; nearby means a tile up-left; otherwise a kept target is on the grid and not reached |
| WolfBehaviour.HuntEffect | playground/src/Wolf.cpp:102-128 | a hunt that touches its prey kills it and counts the meal (the world's hunt and bite, world.cpp:209-231); otherwise no health changes and the prey is marked hunted; other sheep are untouched |
| WolfBehaviour.AttackWhenTooClose | playground/src/Wolf.cpp:314-319 | a Hungry wolf too close to the herder attacks it and hunts no sheep |
| WolfBehaviour.ThinkHungryEffect | playground/src/Wolf.cpp:302-340 | only the hunted sheep can change, it dies exactly when eaten, and the herder changes only when too close |
| WolfBehaviour.StateCycle | playground/src/Wolf.cpp:298-368 | Hungry goes to Hungry or Satiated; Satiated sleeps exactly at the den; Asleep wakes exactly after 10 s |
| WolfBehaviour.NoHuntRightAfterMeal | playground/src/Wolf.cpp:327-331 | no sheep is touched while the time since eating is below 3 |
| WolfBehaviour.RetargetIfNeeded | playground/src/Wolf.cpp:207-219 | a new random target is drawn (two draws) exactly when the current one is off the grid or reached |
| WolfBehaviour.ReactToHerder | playground/src/Wolf.cpp:222-260 | near the herder the prey is dropped and a flee tile drawn; too close overrides it with the herder's tile |
| WolfBehaviour.PickPrey | playground/src/Wolf.cpp:262-266 | without prey and away from the herder the wolf takes the first catchable sheep, clearing earlier hunted flags |
| WolfBehaviour.SearchHuntPath | playground/src/Wolf.cpp:268-278 | the path goes to a valid prey, or to an on-grid random target when there is none, or stays |
| WolfBehaviour.SenseHungry | playground/src/Wolf.cpp:205-281 | Hungry sensing: the target is SensedTarget's; the prey is kept, dropped near the herder, or the first prey (IsFirstPrey) with earlier hunted flags cleared (PreySensed); the path is the search result to the prey or on-grid target, or kept (HuntPathSensed) |
| WolfBehaviour.TargetAndFlee | playground/src/Wolf.cpp:207-260 | target and prey after the herder checks, with the draws they use |
| WolfBehaviour.SenseSatiated | playground/src/Wolf.cpp:283-288 | a Satiated wolf searches a path to its sleeping place |
| WolfBehaviour.Sense | playground/src/Wolf.cpp:201-296 | Sense is Sensed on the old wolf and sheep: asleep nothing changes; Satiated the path is the search result to the sleeping place; Hungry as SenseHungry says, with the draws Draws counts |
| WolfBehaviour.HuntAndEat | playground/src/Wolf.cpp:333-338 | the in-place hunt is exactly the hunt function |
| WolfBehaviour.ThinkWhenHungry | playground/src/Wolf.cpp:302-340 | the in-place Hungry Think is exactly the Hungry Think function |
| WolfBehaviour.Think | playground/src/Wolf.cpp:298-368 | the in-place Think is exactly the Think function |
| WolfBehaviour.Update | playground/src/Wolf.cpp:157-175 | SenseTicked gives `sensed`, ThinkTicked on it gives `thought` and the new sheep and herder, and the wolf is exactly Act of `thought`; so states follow the cycle, sheep change only in hunted flag or by the bite, and the herder is only stunned |
| WolfBehaviour.SenseStep | playground/src/Wolf.cpp:159-164 | SenseTicked: the sense timer ticks; when it is done the result is exactly Sensed on the wolf holding the reset timer, otherwise only the timer changes and no draw is used |
| WolfBehaviour.ThinkStep | playground/src/Wolf.cpp:166-171 | wolf, sheep and herder are exactly ThinkTicked: ThinkOutcome of the wolf with the reset timer when the think timer is done, only the ticked timer otherwise; so states follow the cycle, sheep lose only the bite and the herder is only stunned |
| HerderAgent.Init | playground/src/Herder.cpp:38-48 | the herder starts on tile (21, 21), not stunned, with no target and no path |
| HerderAgent.Stun | playground/src/Herder.cpp:53-62 | time since attack grows only while attacked; at 4 s the stun clears and the timer resets |
| HerderAgent.StunLasts | playground/src/Herder.cpp:53-62 | a stun lasts exactly until the accumulated time reaches 4 s |
| HerderAgent.FreeStaysFree | playground/src/Herder.cpp:53-62 | a herder that is not stunned never becomes stunned by the controller alone |
| HerderAgent.SetTargetPosition | playground/src/Herder.cpp:115-120 | sets the target and direction, nothing else |
| HerderAgent.TraverseUsingPath | playground/src/Herder.cpp:122-140 | an empty path changes nothing; otherwise the herder aims at the first tile's centre and drops at most that tile |
| HerderBehaviour.SteerEffect | playground/src/Herder.cpp:82-90 | the herder moves by velocity times dt exactly when its target is on the grid and not reached |
| HerderBehaviour.NoTargetNoMove | playground/src/Herder.cpp:85-90 | a herder with an off-grid target never moves |
| HerderBehaviour.ArrivedStays | playground/src/Herder.cpp:82-90 | a herder on its target with no path left stays put |
| HerderBehaviour.Update | playground/src/Herder.cpp:50-91 | Updated: a still-stunned herder only counts its stun down; otherwise the click sets the target, the path is the search result for an on-grid target (or kept), and the herder steers along it; nothing else in the world changes |
| WorldUpdate.ContainAxisEffect | playground/src/world_update.cpp:10-19 | when the axis is at least 2r wide the position ends in [lo + r, lo + size - r]; a clamp negates the direction and an inside position is kept |
| WorldUpdate.NarrowAxisBouncesTwice | playground/src/world_update.cpp:10-19 | on an axis narrower than 2r both checks fire and the direction is negated twice |
| WorldUpdate.ContainEffect | playground/src/world_update.cpp:8-30 | after containment the entity lies inside the bounds; each clamp negates exactly its own direction component; an entity inside is unchanged |
| WorldUpdate.ContainIdempotent | playground/src/world_update.cpp:8-30 | containing twice is the same as containing once |
| WorldUpdate.UpdateGrass | playground/src/world_update.cpp:40-43 | the grass loop updates every cell in index order |
| WorldUpdate.UpdateManure | playground/src/world_update.cpp:54-57 | the manure loop updates every cell in index order |
| WorldUpdate.UpdateSheep | playground/src/world_update.cpp:47-51 | SheepLoop: the herd runs from the state after the grass loop through one TurnTaken per starting sheep, in index order, to the final sheep, layers and draws; the sheep updated are contained, dead ones stay dead and lambs are newborns |
| WorldUpdate.SheepTurnAdvances | playground/src/world_update.cpp:47-51 | one sheep's update and containment extend the loop's invariant by one index |
| WorldUpdate.SheepLoopExtends | playground/src/world_update.cpp:47-51 | appending one TurnTaken to a loop trace gives a loop trace one turn longer |
| WorldUpdate.UpdateOneSheep | playground/src/world_update.cpp:48-50 | one loop turn is TurnTaken and extends SheepPassAt to the next index |
| WorldUpdate.UpdateAndContain | playground/src/world_update.cpp:48-50 | TurnTaken: the sheep is Updated, then exactly that sheep is contained; SheepTurn sums up the update |
| WorldUpdate.UpdateSheepAt | playground/src/world_update.cpp:49 | the sheep update is SheepBehaviour.Updated, and it keeps other bodies, ages a live sheep by dt, kills one without health and adds only newborn lambs (SheepTurn) |
| WorldUpdate.UpdatePredatorAndHerder | playground/src/world_update.cpp:60-69 | PredatorAndHerderUpdated: the wolf is Sense/Think/Act ticked and contained, then the herder is Updated on the bitten herder; every sheep keeps its position, size, life, age and mate |
| WorldUpdate.UpdateWolf | playground/src/world_update.cpp:60-63 | the wolf is SenseTicked, ThinkTicked and Act, then contained; sheep keep position, size, life, age and mate; the wolf ends inside the bounds |
| WorldUpdate.Update | playground/src/world_update.cpp:32-73 | escape stops the game; the new state is GrassPass, then SheepLoop from its result, then ManurePass from the herd's layers and draws, then PredatorAndHerderUpdated on the herd; SheepPassAt holds of the result (sheep contained, dead stay dead, lambs newborn) and the wolf is contained |
| WorldUpdate.UpdateGrassAndSheep | playground/src/world_update.cpp:40-51 | the herd before the sheep loop is GrassPass of the old layers, and SheepLoop runs from it to the new sheep, layers and draws |
| WorldUpdate.UpdateManureAndChase | playground/src/world_update.cpp:54-69 | the layers are ManurePass of the old ones, then PredatorAndHerderUpdated runs on the draws it leaves; SheepPassAt is kept |
| TileEditor.SettingToInt | playground/include/editor.hpp:12-21 | every setting casts to an integer in 0..7 |
| TileEditor.SettingCastsRoundTrip | playground/include/editor.hpp:12-21 | the casts between settings and 0..7 are inverse |
| TileEditor.NextSettingAdvances | playground/src/editor.cpp:64-73 | TAB adds one and wraps from 7 to 0 |
| TileEditor.PressCycles | playground/src/editor.cpp:64-73 | k presses add k modulo 8 |
| TileEditor.EightPressesComeBack | playground/src/editor.cpp:64-73 | eight presses return to the same setting |
| TileEditor.HoverValidIffOnGrid | playground/src/editor.cpp:75-89 | the hover tile is valid exactly when the cursor is over the grid, and then its index is in range |
| TileEditor.TruncationNeedsBoundsCheck | playground/src/editor.cpp:78-83 | a cursor one pixel left of the grid truncates to column 0, so the bounds test is what excludes it |
| TileEditor.GroundSetEffect | playground/src/editor.cpp:10-24 | only the addressed ground cell's walkability changes |
| TileEditor.GrassEditsEffect | playground/src/editor.cpp:26-41 | reviving touches only dead grass, giving it an age in [0, 1]; killing zeroes only live grass; state and flags are untouched |
| TileEditor.EditTileEffect | playground/src/editor.cpp:91-102 | left makes the tile walkable, right makes it unwalkable with no grass (right wins), neither changes nothing; other cells are untouched |
| TileEditor.EditHovered | playground/src/editor.cpp:91-102 | the writes on a hovered tile are exactly the edit function: left makes walkable and revives, then right makes unwalkable and kills |
| TileEditor.SetGroundActive | playground/src/editor.cpp:10-16 | the write is exactly the cell `y * w + x` made walkable |
| TileEditor.SetGroundInactive | playground/src/editor.cpp:18-24 | the write is exactly the cell `y * w + x` made unwalkable |
| TileEditor.SetGrassActive | playground/src/editor.cpp:26-33 | the write revives exactly that cell when dead, using one draw |
| TileEditor.SetGrassInactive | playground/src/editor.cpp:35-41 | the write kills exactly that cell when alive |
| TileEditor.Editor.Update | playground/src/editor.cpp:57-105 | TAB cycles the setting; the hover tile is taken only over the grid; edits happen only on a valid tile; the call returns true |

## Left out

- Rendering (`world_render.cpp`, every `render` method), the application shell (`appstate.cpp`), texture loading and the sprite `source` rectangles: they hold no simulation logic. The ground's source is kept as a two-valued tag.
- Input polling: the TAB key, the escape key, the mouse buttons and the mouse position are parameters of the update methods.
- `GetRandomValue` is a foreign call. The model reads a draw sequence and makes no claim about its distribution.
- Floating point: all float quantities are reals, `Vector2Distance` comparisons are exact squared comparisons, and `Vector2Normalize` and the A* heuristic's `sqrt` are functions given to the world. No claim is made about rounding.
- PathFinding.AStarPathFinding: no claim of optimality. The Euclidean heuristic is not admissible with unit step cost, and the search stops when it discovers the target, not when it pops it. Tie order inside the priority queue is modelled as first-least.
- TileGrid.TileRoundTrip: `position_to_tile_coord` and `tile_coord_to_position` live in `common.hpp`, which is not part of this model. They are modelled as truncation toward zero and C division of the offset-relative position, and the cursor given to `Editor::update` is a whole-pixel point.
- WorldUpdate.UpdateSheep: `SpawnSheep` appends to `m_sheep` while the loop iterates it, which may invalidate the iterator. The model loops by index over the sheep present at the start, so lambs are not updated in the tick they are born.
- `IsAnotherSheep` compares addresses; the model compares indices.
- Out-of-range writes and reads that are undefined behaviour in the C++ are guarded in the model: `World::EatGrass` and `World::Defecate` write only an in-range cell, `Fertilise` writes the own cell only when in range, and the prey and mate lookups read `m_sheep` only below its size.
- WorldModel.World.Init: requires a window of at least 3 x 2 tiles so that neither grid dimension is negative. A window under 4 tiles wide or 3 tiles high still gives an empty grid (TileGrid.GridIsCentred), with empty layers; the layer clauses of Init are then vacuous.
- `IsWolfNearby` is never called by the sheep's code and is not modelled.
- `getRandomTile` may return a tile off the grid; the callers check it, and so does the model.
- SheepBehaviour.Update: requires that no sheep is its own mate (`sheepToMate != i`). The game keeps this because the mate scan skips the caller; `WorldUpdate.Update` preserves it.
- SheepAgent.GoTowardsMate: the C++ takes the mate as an argument and ignores it; the model has no such argument.
- The herder is not kept inside the bounds, as in `World::update`.
- The off-by-one manure coordinates, the seed spread onto unwalkable tiles, the Afraid state that the sheep never leaves, the sheep's flee box whose upper y bound is the wolf's own y when the wolf is not above the sheep (playground/src/Sheep.cpp:382, so the box reaches toward the wolf instead of stopping at the sheep), and the wolf's flee box that always points up and to the left are modelled as the code has them, and the members above state each.
