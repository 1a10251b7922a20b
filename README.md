# farm_defense core, modelled in Dafny

farm_defense is a tile-based tower-defence and farming game. This project models its
simulation core:

- **Building manager**: the two-phase placement protocol, with a preview on hover, then a
  commit on a left click guarded by the `placed` latch.
  - `build_mode` covers Archer and Fireball towers, goblins, walls and the Base.
  - `seed_mode` covers the shovel, the hoe, and carrot and tomato seeds.
  - The manager also creates buildings, with at most one Base.
  - It runs the per-tile `update_buildings` and the crop growth step `update_farms`.
  - It runs the health regeneration inside `render_buildings`.
- **Enemy manager**: spawning an enemy and one call of `move_enemies`.
  - An enemy either walks one waypoint, vacating one tile and occupying the next, or picks
    a target.
  - When it picks a target, it nudges it off an occupied tile and runs `astar`.
  - `astar` has its own heuristic and `get_neighbors`.
- **Level manager**:
  - `create_level`;
  - `read_file`, one character per tile;
  - the older `update_farms` on the character-typed `LevelTile`.
- **Event manager**: the key and mouse handlers. T and Y toggle build mode and seed mode
  and never leave both on.

Modules follow the source files:

| Module | Contents |
|---|---|
| `Tiles` | The tile record and grid |
| `Game` | The fields of the game, GUI and tower managers that the core touches |
| `Farms` | The crop growth step |
| `Buildings` | The building manager |
| `Pathfinding` | `astar` |
| `Enemies` | The enemy manager |
| `Levels` | The level manager |
| `Events` | The event manager |

Each class method follows the source statement by statement. It is proved against a reference function, and the lemmas beside that function state the properties:

| Method | Reference function |
|---|---|
| `build_mode` | `Build` |
| `seed_mode` | `Seed` |
| `update_buildings` | `Modes` |
| `update_farms` | `FarmStep` |
| key handlers | `KeyDownFlags` / `KeyUpFlags` |
| old `update_farms` | `OldUpdate` |

`astar` runs on its own frontier sequence and maps. Its loop invariants prove three things:
- it terminates, and each position enters the frontier at most once;
- any path it stores is a start-to-target route of reported neighbours with no repeated position;
- it stores no path only when no such route exists.

Behaviour of the code worth knowing:
- **Empty field without a crop.** Such a field reaching CROP_TIME stays FieldEmpty and only
  gets the default texture. It is a FieldGrowing tile without a crop that reverts to Grass
  (building_manager.rs:492-496, 513-517).
- **Frontier priority.** Every position enters the frontier with priority
  `1 + heuristic`, not with cost so far plus heuristic. The search is therefore greedy
  best-first, and no shortest-path property is claimed.
- **`get_neighbors` on the border.** It reads all eight surrounding tiles before any bound
  test, so it fails on a cell of the grid's border. The model reports that as the `Crashed`
  outcome of `astar`, which happens only when the search reached a position that is not
  `Pathfinding.Interior`.
- **Tower commit.** It does not set `occupied`.
- **Base commit.** It always turns the tile into a Base tile, even when a Base already
  exists. Only the building, the base location and the target entry are refused then.
- **Goblin branch.** It does not test the `placed` latch.
- **Two modes on at once.** When both modes are on, one click can commit a seed tool with no
  preview shown (`Buildings.BothModesCommitWithoutPreview`). Key handling keeps the modes
  exclusive (`Events.KeysKeepModesExclusive`).
- **Old `update_farms`.** An empty field without a crop at CROP_TIME goes to 'H'. This
  disagrees with the new variant (`Levels.VariantsDisagree`).

## Model

| member | source | states |
|---|---|---|
| Farms.FarmStep | src/building_manager.rs:472-520 | The counter rises by one exactly on a planted field tile. A type change resets it. Crop, occupancy and remembered type are untouched. Each CROP_TIME transition has its type and texture. A tile moves at most one stage per step. |
| Farms.UpdateFarms | src/building_manager.rs:472-520 | The three sequential blocks of update_farms produce exactly the reference step FarmStep. |
| Farms.CountsUpBelowCropTime | src/building_manager.rs:474-482 | A planted FieldEmpty or FieldGrowing tile below CROP_TIME keeps its type, and its counter rises by k in k steps. |
| Farms.StageTakesCropTime | src/building_manager.rs:485-519 | A planted stage tile with counter 0 reaches the next stage in exactly CROP_TIME steps, with counter 0 and that stage's texture. |
| Farms.GrowthRoundTrip | src/building_manager.rs:485-519 | A freshly planted empty field is FieldGrowing after CROP_TIME steps and FieldHarvestable, with its crop's texture, after 2·CROP_TIME steps. |
| Farms.HarvestableKeepsCounting | src/building_manager.rs:474-482 | A FieldHarvestable tile never changes type by growth. Its counter rises by n in n steps when planted, and stays still otherwise. |
| Buildings.HasBaseCount | src/building_manager.rs:79 | The `any` Base test holds exactly when the Base count is positive. |
| Buildings.CreateKeepsOneBase | src/building_manager.rs:57-110 | Creating a building keeps at most one Base, and a Base request always leaves one. At most one building is added, and earlier ones are unchanged. A None request does not change the Base count. |
| Buildings.Regen | src/building_manager.rs:169-175 | An undamaged building is unchanged. A damaged one advances last_damaged by one, and gains exactly one health point iff last_damaged was already at least 256. Health never passes the maximum. |
| Buildings.RegenWaits | src/building_manager.rs:169-175 | While last_damaged stays at or below 256, repeated calls only advance the counter. |
| Buildings.RegenHeals | src/building_manager.rs:169-175 | After the wait, each call heals exactly one point, up to the maximum. |
| Buildings.BuildKeepsOneBase | src/building_manager.rs:304-322 | No build_mode outcome creates a second Base. |
| Buildings.SecondBaseRefused | src/building_manager.rs:79-89 | The first Base commit records the base location and appends it to the targets. A second commit anywhere only posts "base already created": the buildings, targets and location are unchanged. |
| Buildings.BuildRules | src/building_manager.rs:216-325 | The tile, latch and request change only on a legal commit. The latch blocks every tool but Goblin. A preview is shown iff the tile condition holds, there is no commit, and the mode and outline are on. preview_mode is switched on only by a preview and off by a failed condition. The counter, occupancy and remembered type are kept. |
| Buildings.SeedRules | src/building_manager.rs:335-470 | The tile changes only on a commit, and the hint is then redrawn at the tile. The shovel restores the remembered type without the latch. The hoe acts only on grass or field tiles, leaves an empty field, and asks for a carrot or tomato iff the tile was ripe with that crop. Seeds act only on an empty field. The warning is posted iff a seed is clicked off an empty field. The latch is set only by a hoe or seed commit. |
| Buildings.ModesRules | src/building_manager.rs:192-200 | With at most one mode on, the tile changes only on a left click with a preview showing. With no mode on, nothing changes. A Base is never doubled. |
| Buildings.BothModesCommitWithoutPreview | src/building_manager.rs:192-200 | With both modes on, a single click on grass with no preview digs the tile and sets the latch. |
| Buildings.GoblinIgnoresLatch | src/building_manager.rs:262-282 | With the latch set, the Goblin tool still spawns an enemy, while Archer and Wall do nothing. |
| Buildings.LatchBlocksSecondCommit | src/building_manager.rs:216-325 | For every latched tool, a commit followed by a second pass with the same click commits nothing more. |
| Buildings.HarvestThenSow | src/building_manager.rs:365-435 | A hoe commit on a ripe field asks for its harvest and leaves FieldEmpty. A carrot commit then plants it without a warning. |
| Buildings.BuildingManager.FindBase | src/building_manager.rs:79 | The scan finds a Base iff the list holds one. |
| Buildings.BuildingManager.CreateBuilding | src/building_manager.rs:48-111 | The building list becomes AfterCreate of the old one. A Base request sets the Base tile, and without an existing Base records the location, appends the target and posts "base created". With a Base it posts "base already created". The list and the targets grow together. |
| Buildings.BuildingManager.RegenBuildings | src/building_manager.rs:118-176 | Every building becomes Regen of itself. The number of Bases is unchanged. |
| Buildings.BuildingManager.BuildMode | src/building_manager.rs:205-325 | The new tile and the whole state across the managers are AfterBuild of the reference outcome Build(current_build, …). At most one Base is kept. |
| Buildings.BuildingManager.TowerBranch | src/building_manager.rs:218-261 | The Archer and Fireball branches produce AfterBuild of Build for that tower. A commit logs a place_tower request. |
| Buildings.BuildingManager.GoblinBranch | src/building_manager.rs:262-282 | The Goblin branch produces AfterBuild of Build(Goblin, …). A commit spawns one enemy. |
| Buildings.BuildingManager.WallBranch | src/building_manager.rs:283-303 | The Wall branch produces AfterBuild of Build(Wall, …). |
| Buildings.BuildingManager.BaseBranch | src/building_manager.rs:304-322 | The Base branch produces AfterBuild of Build(Base, …), delegating the commit to create_building. |
| Buildings.BuildingManager.SeedMode | src/building_manager.rs:327-471 | The new tile and state are AfterSeed of the reference outcome Seed(current_seed, …). |
| Buildings.BuildingManager.ShovelBranch | src/building_manager.rs:336-364 | The Shovel branch produces AfterSeed of Seed(Shovel, …). |
| Buildings.BuildingManager.HoBranch | src/building_manager.rs:365-402 | The Ho branch produces AfterSeed of Seed(Ho, …). |
| Buildings.BuildingManager.HoCommit | src/building_manager.rs:367-386 | The hoe commit leaves an empty field with no data, sets the latch, redraws the hoe hint, and counts exactly one ripe carrot or tomato. |
| Buildings.BuildingManager.CarrotBranch | src/building_manager.rs:403-435 | The Carrot branch produces AfterSeed of the sowing outcome with carrots, including the warning. |
| Buildings.BuildingManager.TomatoBranch | src/building_manager.rs:436-468 | The Tomato branch produces AfterSeed of the sowing outcome with tomatoes, including the warning. |
| Buildings.BuildingManager.RunModes | src/building_manager.rs:193-199 | build_mode then seed_mode produce Modes of the pre-state. At most one Base is kept. |
| Buildings.BuildingManager.UpdateBuildings | src/building_manager.rs:180-203 | Off a button and on the tile, the modes apply (Modes); otherwise nothing is changed. The growth step FarmStep runs in every case. At most one Base is kept. |
| Pathfinding.Heuristic | src/enemy_manager.rs:269-277 | The Manhattan distance is zero iff the two positions coincide. |
| Pathfinding.HeuristicSymmetric | src/enemy_manager.rs:269-277 | The heuristic is symmetric. |
| Pathfinding.AroundAdjacent | src/enemy_manager.rs:283-290 | The eight candidates of get_neighbors are exactly the adjacent positions. |
| Pathfinding.NeighborsExactly | src/enemy_manager.rs:278-329 | get_neighbors reports q iff q is adjacent, in the grid, not a wall, not occupied and passes its bound tests. |
| Pathfinding.NeighborsAreOpen | src/enemy_manager.rs:278-329 | get_neighbors returns at most eight positions, each adjacent, in the grid and open. |
| Pathfinding.Reversed | src/enemy_manager.rs:248 | The reversal has the same length, with elements in the opposite order. |
| Pathfinding.PushedBound | src/enemy_manager.rs:258-265 | Positions pushed without repetition number at most the cells of the grid plus the start. |
| Pathfinding.Reconstruct | src/enemy_manager.rs:242-248 | Following came_from back gives a start-to-current route of reported neighbours, with no repeated position. |
| Pathfinding.PushKeeps | src/enemy_manager.rs:258-265 | Recording a new neighbour keeps the search tree, the push log and the priority bound. |
| Pathfinding.Visit | src/enemy_manager.rs:255-265 | One neighbour visit keeps the loop invariant and leaves that neighbour recorded. |
| Pathfinding.Expand | src/enemy_manager.rs:252-266 | The neighbour loop keeps the invariant and leaves every neighbour of the expanded position recorded. |
| Pathfinding.RoundKeeps | src/enemy_manager.rs:238-266 | After an expansion, frontier and records stay in step, and every expanded position has its neighbours recorded. |
| Pathfinding.Exhausted | src/enemy_manager.rs:238-267 | When the frontier is empty and the target was never expanded, no route from start to target exists. |
| Pathfinding.Arrive | src/enemy_manager.rs:241-250 | At the target, a fresh route is stored. Elsewhere, the stored path is kept. |
| Pathfinding.Pop | src/enemy_manager.rs:238 | A least-priority entry is removed, and the records stay tracked. |
| Pathfinding.Round | src/enemy_manager.rs:238-267 | One loop round crashes or keeps the search invariant and makes progress: a new push, or a smaller frontier. It crashes only when the least-priority entry it pops is not Interior. |
| Pathfinding.AStar | src/enemy_manager.rs:225-267 | The search terminates. A stored path is a distinct start-to-target route. No path means no route exists. Pushed positions are distinct. A crash happens only after the search reached a position that is not Interior. |
| Enemies.Spawned | src/enemy_manager.rs:63-108 | A new enemy is at the index with no path, at full health, and not locked on. It has goblin stats and texture for a Goblin tile, and all stats 1 and the default texture otherwise. |
| Enemies.EnemyManager.PlaceEnemy | src/enemy_manager.rs:63-108 | The enemy list gains exactly Spawned for the tile. |
| Enemies.Vacated | src/enemy_manager.rs:162-165 | The left tile is back to its original type, with no data, and free. |
| Enemies.Entered | src/enemy_manager.rs:168-170 | The entered tile is occupied, of goblin type, and carries a goblin. |
| Enemies.StepGrid | src/enemy_manager.rs:162-170 | After a step: the destination is Entered, the departure is Vacated, and every other tile is unchanged. |
| Enemies.StepKeepsOriginalTypes | src/enemy_manager.rs:162-170 | A step changes no tile's remembered type. |
| Enemies.StepMovesOccupancy | src/enemy_manager.rs:162-170 | After a step, the new tile is occupied, the old one is free unless the enemy stayed, and at most two tiles changed. |
| Enemies.Nudge | src/enemy_manager.rs:183-209 | Only the chosen target moves, by exactly one cell on the axis given by the direction. Even directions increase; odd ones decrease unless already at 0. |
| Enemies.Retarget | src/enemy_manager.rs:180-210 | The chosen target is nudged iff its tile is occupied. |
| Enemies.Walk | src/enemy_manager.rs:158-177 | With a non-empty path, the grid becomes StepGrid, the enemy moves to the first waypoint, keeps the rest and restarts its clock, or an index outside the grid crashes. Otherwise the path is dropped and nothing else changes. |
| Enemies.Seek | src/enemy_manager.rs:178-222 | The targets become Retarget of the old ones. A search is marked as run. A stored path exists only if none ran before and the target is out of range, and it is a distinct route from the enemy to the target. When a search ran and stored no path, no route to the target exists. A target inside the grid crashes only when no search ran before, the target is out of range, and the search reached a position that is not Interior. |
| Enemies.NudgeTarget | src/enemy_manager.rs:179-210 | The targets become Retarget of the old ones with direction frame_time % 4. |
| Enemies.Plan | src/enemy_manager.rs:214-221 | The search is marked as run. A path is stored only when no search ran and the target is out of range, and it is a distinct route. When the search ran and stored no path, no route exists. It crashes only when astar ran, because no search ran before and the target is out of range, and reached a position that is not Interior; `reached` holds the positions that search pushed. |
| Enemies.MoveEnemies | src/enemy_manager.rs:144-223 | The walking branch, the no-movement branch and the targeting branch as above. The targeting branch stores only distinct routes, and a search that stores no path means no route exists. Targeting crashes only on a target outside the grid, or in a search that reached a position that is not Interior. The clock advances. Targets and grid change only in their own branch. |
| Levels.ParseChar | src/level_manager.rs:73-118 | A character yields a tile iff it is '0', '2', '3' or 'F'. That tile has the character as type and previous type, counter 0 and no data. |
| Levels.ParseLineKept | src/level_manager.rs:69-122 | A row has one tile per recognised character of its line, in order. |
| Levels.KeptCount | src/level_manager.rs:72-120 | A row's length is the number of '0', '2', '3' and 'F' characters in its line. |
| Levels.LoadedTiles | src/level_manager.rs:72-120 | Every loaded tile has equal type and previous type, a recognised type, counter 0 and no data. |
| Levels.LevelManager.CreateLevel | src/level_manager.rs:43-60 | height rows of width empty tiles are appended, and earlier rows are kept. |
| Levels.LevelManager.ReadFile | src/level_manager.rs:62-125 | Succeeds iff the file opens and every line reads. On success the level is one parsed row per line; on failure it is unchanged. |
| Levels.OldCount | src/level_manager.rs:164-172 | The counter rises by one exactly on a planted 'F', 'G' or 'H' tile; every other tile stays as it was. |
| Levels.OldHarvest | src/level_manager.rs:179-186 | A hoe click harvests a carrot or tomato iff it applies to a ripe 'H' tile with that crop. |
| Levels.OldClickTile | src/level_manager.rs:174-217 | Without a left click on the tile nothing changes. The hoe leaves an empty 'F' field. A seed on 'F' sets its crop. A changed type is always 'F'. |
| Levels.OldGrow | src/level_manager.rs:220-255 | 'F' at CROP_TIME goes to 'G' with a crop, or to 'H' without one. 'G' at CROP_TIME becomes 'H' with its crop's texture. Everything else is unchanged. |
| Levels.OldOneStage | src/level_manager.rs:162-256 | Without a click, a tile moves at most one stage per call. |
| Levels.VariantsDisagree | src/level_manager.rs:228-232 | On an empty field without a crop at CROP_TIME, the old variant gives 'H' and the new one keeps FieldEmpty. |
| Levels.OldUpdateFarms | src/level_manager.rs:162-256 | The tile becomes OldUpdate of the old one. Each crop counter rises by one exactly when OldHarvest names that crop. |
| Levels.OldClickEdits | src/level_manager.rs:175-216 | The click block gives OldClickTile and counts the harvested crop. |
| Levels.OldGrowth | src/level_manager.rs:220-255 | The two growth blocks give OldGrow. |
| Events.KeyDownToggles | src/event_manager.rs:75-98 | T switches build mode off, or switches it on and seed mode off. Y does the same the other way round. No other key touches the modes. |
| Events.KeyDownExclusive | src/event_manager.rs:75-98 | After T or Y the modes are exclusive, and no key press breaks exclusivity. |
| Events.KeyDownMoves | src/event_manager.rs:69-74 | Escape and Q set quit. W, S, A and D set their own direction. No other key changes these flags. |
| Events.KeyUpRules | src/event_manager.rs:113-119 | A release clears exactly its own direction and leaves the modes and quit alone. |
| Events.PressRelease | src/event_manager.rs:109-120 | Pressing then releasing a direction key leaves that direction off and all else as before. |
| Events.TTwice | src/event_manager.rs:75-86 | Pressing T twice from build mode off leaves both modes off. |
| Events.KeysKeepModesExclusive | src/event_manager.rs:59-120 | Every sequence of presses and releases keeps build and seed mode exclusive. |
| Events.DoKeyDown | src/event_manager.rs:59-107 | The flags become KeyDownFlags of the old ones. P clears the tower list and the targets; other keys keep them. |
| Events.ToggleBuild | src/event_manager.rs:75-86 | The T handler gives KeyDownFlags(·, T). |
| Events.ToggleSeed | src/event_manager.rs:87-98 | The Y handler gives KeyDownFlags(·, Y). |
| Events.DoKeyUp | src/event_manager.rs:109-120 | The flags become KeyUpFlags of the old ones. |
| Events.DoEvent | src/event_manager.rs:30-56 | The loop stops iff the event is a quit or a key event with a keycode. A quit sets quit. Keys act as their handlers. Motion moves the pointer, a press records the button, and a release resets it. Only P clears the lists. |

## Left out

- Rendering: rects, pixel indices, camera offsets, texture loading and drawing, health bars. Texture paths are kept as tags (`Tiles.Texture`).
- The SDL event pump: `Events.DoEvent` is one event of the loop, and the loop itself is not modelled.
- main.rs, the tower, projectile, player, GUI and button managers: these are not part of this model.
  - `place_tower` is recorded as a request log.
  - `create_message` and `create_unique_message` are recorded as a message log.
  - `outline_visible`, `Rect::contains_point` and `hovering_button` are boolean inputs.
  - `is_within_area` is a function parameter.
- Floating-point time: elapsed_time, delta_time and 1/movement_speed are integer ticks. `cost_total` and `direction` are never read by the core and are left out.
- Fixed-width integer overflow (u16 health, u32 counters, usize coordinates) is not modelled. Counters and coordinates are unbounded naturals.
- Constants of the game (CROP_TIME, BUILDING_BASE_HEALTH, the goblin stats, MAX_WIDTH/MAX_HEIGHT) are parameters or constructor arguments.
  - The CURRENT_BUILD_*/CURRENT_SEED_* selections are datatypes.
  - The old update_farms takes its hoe, field and seed selections as parameters.
- `println!` output is omitted. So is the `return` in the T and Y handlers, which only skips a print.
- File access: `read_file` receives the file as its lines, with the current-directory, open and read errors as `None`.
- Panics: an out-of-grid index in `move_enemies` and `get_neighbors` on a border cell are reported as `crashed` / `Crashed`. The state after a panic is unspecified.
- Pathfinding.Pop: which of several least-priority entries the binary heap yields is left open, so its order of ties is not modelled.
