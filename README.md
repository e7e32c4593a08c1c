# FSA terrain streaming and gameplay rules in Dafny

FSA is a side-scrolling car game built on an entity-component engine with a
2D physics library. The player drives a car over endless random hills.
Driving burns fuel, canisters lying on the terrain refill it, and the game is
over when the tank runs dry or the driver's head hits the ground.

This project models the gameplay core of the game:

- **Terrain streaming** (`TerrainModel`, `TerrainComponent.Terrain`):
  - The terrain keeps a window `[leftEdge, rightEdge)` of 80 height samples,
    one every 50 units.
  - New samples are generated from random values and smoothed in place three
    times by a moving average. Each pass reads the committed samples as left
    context and reads values that are already smoothed earlier in the same pass.
  - When the car reaches the right wall, the window moves one 1600-unit block
    to the right. The first block of samples is dropped, and so is every body
    whose left bound is at or left of the new edge. The eviction loop as
    written skips some of those bodies and keeps them (see Findings); the
    model evicts them all. A new block is appended, and its collision bodies
    and maybe one fuel canister are built.
  - A head-smash probe counts the terrain bodies that the driver's head touches.
- **Car** (`CarComponent`): the fuel tank and the rules for wheel speed and
  fuel consumption.
- **Fuel canister** (`FuelCanisterComponent`): a pickup that refuels the car
  at most once, when the car reaches it.
- **Driver** (`DriverComponent`): the head probe trigger and the death latch.
- **Game screen** (`GameScreen`): the score, the camera and the game-over
  trigger.
- **Leaderboard** (`LeaderboardScreen`): the score table, kept sorted by
  value, and its displayed rows.
- **Game manager** (`GameManagerComponent`): the screen life cycle, as
  transitions over the set of attached screens.
- **Numeric configuration** (`Constants`).

Sending an engine message is modelled by returning it in an output list
(`Engine.Msg`). Values that the physics engine, the key input or
`Math.random` supply are parameters:

- each random draw is a value in `[0, 1)`;
- body positions and bounding boxes;
- the rear wheel's angular velocity;
- the pressed keys.

Numbers are mathematical reals and integers. JavaScript double rounding is not
modelled.

## Model

| member | source | states |
|---|---|---|
| Constants.DerivedConstants | src/constants.ts:2-11 | The derived constants hold these values: a block is 1600 wide, which is 32 samples; the window is 4000 wide, which is 80 samples; the maximum terrain height is 540, below the screen height of 600; the reverse speed is half the top speed; a canister holds half a tank. |
| Engine.MinReal | src/components/car.ts:68 | `Math.min`: the result is at most both arguments and equals one of them. |
| Engine.MaxReal | src/components/car.ts:205 | `Math.max`: the result is at least both arguments and equals one of them. |
| TerrainModel.PointCountGrid | src/components/terrain.ts:153 | The sampling loop visits `startX + k*MAP_UNIT` exactly when `k` is below the point count, so it emits nothing when `endX <= startX`. |
| TerrainModel.SpanCounts | src/components/terrain.ts:52 | A block span holds 32 samples and a window span holds 80. |
| TerrainModel.RawHeightWithin | src/components/terrain.ts:154-157 | A raw height `SCREEN_HEIGHT - floor(r*maxY)` lies between `SCREEN_HEIGHT - maxY` and `SCREEN_HEIGHT`. |
| TerrainModel.RawBlock | src/components/terrain.ts:153-158 | The raw block has one sample per random value. |
| TerrainModel.RawBlockSnoc | src/components/terrain.ts:153-158 | One more loop iteration appends exactly the sample at the next grid position. |
| TerrainModel.RawBlockShape | src/components/terrain.ts:153-158 | The raw samples lie on the grid from `startX`, with heights within `[SCREEN_HEIGHT - maxY, SCREEN_HEIGHT]`. |
| TerrainModel.WindowCount | src/components/terrain.ts:191-201 | The number of neighbours is the length of `[lo, hi)` clipped to `[0, total)`. |
| TerrainModel.NeighbourMean | src/components/terrain.ts:188-203 | The mean of the clipped window `[i-2, i+2)`, with committed samples read from `prior` and new ones from the block. Its meaning is stated by `NeighbourMeanIsMean` and `NeighbourMeanWithin`. |
| TerrainModel.NeighbourMeanIsMean | src/components/terrain.ts:188-203 | Helper of `NeighbourMeanWithin`: the divisor is positive, and the mean times the divisor is the window sum. |
| TerrainModel.WindowCountPositive | src/components/terrain.ts:191-203 | The window around a new sample counts between 1 and 4 neighbours, so the division is defined. |
| TerrainModel.PassPrefix | src/components/terrain.ts:185-204 | A smoothing pass changes only `y`: the count and every `x` are kept, and samples not yet reached are untouched. |
| TerrainModel.PassPrefixNext | src/components/terrain.ts:185-204 | Replacing the next sample of a partial pass by its window mean gives the partial pass one sample longer. |
| TerrainModel.PassPrefixInPlace | src/components/terrain.ts:185-204 | After `k` steps of a pass, each of the first `k` samples keeps its `x`. Its height is the mean of its window as it stood when the step reached it: the samples before it already replaced, itself and later ones not yet. |
| TerrainModel.SmoothPass | src/components/terrain.ts:185-204 | A full pass moves no sample: the count and every `x` are kept. |
| TerrainModel.SmoothPassInPlace | src/components/terrain.ts:185-204 | In a full pass, every sample gets the mean of its window, read with the samples before it already replaced and the later ones not yet. |
| TerrainModel.SmoothIter | src/components/terrain.ts:161-163 | Repeated passes keep the count and every `x`. |
| TerrainModel.Smoothed | src/components/terrain.ts:160-163 | The generated block is the raw block after exactly three passes, each reading the previous one's output, and no sample moves. |
| TerrainModel.RepeatIsProduct | src/components/terrain.ts:188-200 | Arithmetic helper of `NeighbourMeanWithin`: adding `c` to itself `n` times gives `n*c`, which turns the linear window bounds of `WindowSumWithin` into products. |
| TerrainModel.WindowSumWithin | src/components/terrain.ts:191-201 | A window whose heights lie in `[lo, hi]` sums to between `n*lo` and `n*hi`, where `n` is the neighbour count. |
| TerrainModel.NeighbourMeanWithin | src/components/terrain.ts:203 | A window mean lies between the least and the greatest height in range. |
| TerrainModel.PassPrefixWithin | src/components/terrain.ts:185-204 | One pass keeps every height within the range of the committed and new heights. |
| TerrainModel.SmoothIterWithin | src/components/terrain.ts:161-163 | Any number of passes keeps every height within the range of the committed and raw heights. |
| TerrainModel.FlatStaysFlat | src/components/terrain.ts:161-204 | Smoothing flat ground changes nothing. |
| TerrainModel.InPlaceReadAfterWrite | src/components/terrain.ts:195-203 | A pass reads values already overwritten in the same pass. With heights 0, 0 and 12 the result is 0, 4 and 16/3, not 0, 4 and 4. |
| TerrainModel.GeneratedBlockShape | src/components/terrain.ts:149-166 | A generated block lies on the grid from `startX`, with every height within `[SCREEN_HEIGHT - maxY, SCREEN_HEIGHT]`. |
| TerrainModel.Survivors | src/components/terrain.ts:106-108 | The filter never grows the list. |
| TerrainModel.SurvivorsAre | src/components/terrain.ts:106-108 | A sample survives exactly when it was in the list and its `x >= edge`. |
| TerrainModel.SurvivorsSuffix | src/components/terrain.ts:106-108 | On a list sorted by `x`, the survivors are the suffix that starts at the first sample at or right of the edge. |
| TerrainModel.SurvivorsOfWindow | src/components/terrain.ts:104-108 | Moving the left edge of a full window by one block keeps exactly its last 48 samples. |
| TerrainModel.StreamStep | src/components/terrain.ts:104-131 | On the samples, one streaming step does the following: the survivors of a full window are its last 48 samples; the block generated at the old right edge has 32 samples and starts there; together they form a full window, one block further right, with every height in range. |
| TerrainModel.StreamStepKeepsWindow | src/components/terrain.ts:127-131 | The kept samples plus a block starting at the old right edge form a full window of 80 samples, on the grid from the new left edge and with heights in range. |
| TerrainModel.KeptBodies | src/components/terrain.ts:111-117 | Eviction never grows the list of bodies. |
| TerrainModel.KeptBodiesAre | src/components/terrain.ts:111-117 | The bodies kept after eviction are exactly those whose left bound is right of the new edge. |
| TerrainModel.SegmentsOf | src/components/terrain.ts:224-241 | One body per sample of the batch. The first body joins the first sample to itself (zero length); every other body joins a sample to its predecessor. |
| TerrainModel.CanisterIndex | src/components/terrain.ts:295 | `floor(r*n)` is a valid index below `n`. |
| TerrainModel.CanisterSpot | src/components/terrain.ts:293-299 | A canister is placed exactly when the second draw is above 0.5, and then at a sample of the batch. |
| TerrainModel.HeadTouches | src/components/terrain.ts:82-83 | The head touches a body exactly when its centre's `x` is within `[min.x, max.x]` and its lower bound reaches the lower of `min.y` and `max.y`: the two disjuncts together compare against that lower value. |
| TerrainModel.HeadTouchesWellFormed | src/components/terrain.ts:82-83 | For a box with `min.y <= max.y`, the touch test is: the head's `x` is within `[min.x, max.x]` and the head's lower bound reaches `min.y`. |
| TerrainModel.SmashCount | src/components/terrain.ts:77-88 | The count is positive exactly when the head touches some body, and never exceeds the number of bodies. |
| TerrainModel.ForEachEvict | src/components/terrain.ts:111-117 | The eviction loop as written never loses a body it should keep, and never grows the list. |
| TerrainModel.ForEachEvictSkipsNeighbour | src/components/terrain.ts:111-117 | Two adjacent bodies are both left of the edge. The loop as written keeps the second one; the intended filter keeps neither. |
| TerrainComponent.Terrain.constructor | src/components/terrain.ts:29-57 | The window is `[0, MAP_SIZE)` and the walls are placed. The points are three smoothed passes of the raw block, against an empty list. There is one body per point and maybe one canister, and the window invariant holds. |
| TerrainComponent.Terrain.OnCarMoved | src/components/terrain.ts:59-68 | A streaming step runs exactly when the car's right side reaches the right wall's left side. It then has every effect `IncreaseTerrain` states: edges and walls one block further, the kept points plus the new block, the kept bodies plus the batch's bodies, and the batch's canister. Otherwise nothing changes. |
| TerrainComponent.Terrain.OnHeadMaySmash | src/components/terrain.ts:71-89 | Given one box per live terrain body, the handler sends one DRIVER_DIED per body the head touches, and at least one exactly when some body is touched. |
| TerrainComponent.Terrain.IncreaseTerrain | src/components/terrain.ts:102-140 | Both edges and both walls move by one block and the window stays 4000 wide. The points are the old points with `x >= leftEdge` (the last 48) followed by a new block. That block starts at the old right edge and is smoothed against the list before eviction. The bodies are the kept ones plus one per point of the batch (the new block with the last kept point in front), and the canisters grow by the batch's draw. The window invariant is kept. |
| TerrainComponent.Terrain.GeneratePoints | src/components/terrain.ts:149-166 | The loop emits the raw block, and three in-place passes over an array give the smoothed block. It has one point per grid position. |
| TerrainComponent.Terrain.Smooth | src/components/terrain.ts:172-207 | The nested in-place loops over the array compute one smoothing pass, and `points` is only read. |
| TerrainComponent.Terrain.SmoothAt | src/components/terrain.ts:186-203 | One step of the pass: only the sample at index `i` changes, and its height becomes the mean of its window, read from the block as it stands. |
| TerrainComponent.Terrain.SumNeighbours | src/components/terrain.ts:188-201 | The inner loop sums and counts exactly the heights of the clipped window `[i-2, i+2)`, reading new samples from the block and committed ones from `points`. |
| TerrainComponent.Terrain.CreateTerrain | src/components/terrain.ts:213-217 | Appends one body per point of the batch and that batch's canister, if any. |
| TerrainComponent.Terrain.CreateTerrainBodies | src/components/terrain.ts:224-241 | The loop with `pointPrev` appends exactly `SegmentsOf(batch)`. |
| TerrainComponent.Terrain.AddFuelCanister | src/components/terrain.ts:293-300 | Adds a canister at `batch[floor(r*n)]` exactly when the coin is above 0.5. |
| CarComponent.NextVelocity | src/components/car.ts:199-207 | With no key the velocity is unchanged. A right press gives `min(CAR_MAX_SPEED, old + acc)`, stated as: at most both, and equal to one of them; it wins over left. A left press alone gives `max(-CAR_MAX_REVERSE_SPEED, old - acc)`, stated the same way. A velocity in range stays in range. |
| CarComponent.RightWins | src/components/car.ts:204-207 | Pressing both keys behaves as pressing right alone. |
| CarComponent.Car.constructor | src/components/car.ts:47 | The tank starts full. |
| CarComponent.Car.OnUpdate | src/components/car.ts:52-64 | The wheels are driven only while the tank is positive; otherwise EMPTY_FUEL_TANK is sent. CAR_MOVED is sent on every update, and fuel never grows. |
| CarComponent.Car.OnMessage | src/components/car.ts:66-69 | REFUEL sets the tank to `min(MAX_FUEL, tank + 50)`; other messages change nothing. The tank stays at most `MAX_FUEL`. |
| CarComponent.Car.WheelMovement | src/components/car.ts:196-216 | Both wheels get the same new velocity. Fuel drops by exactly `FUEL_CONSUMPTION` when the velocity changed and is unchanged otherwise. |
| FuelCanisterComponent.FuelCanister.constructor | src/components/fuel-canister.ts:20-30 | The canister is a 50 by 50 sprite at `(x, y - 75)`. |
| FuelCanisterComponent.FuelCanister.OnMessage | src/components/fuel-canister.ts:32-47 | REFUEL is sent exactly when the canister is still attached and the car's right side reaches its left side. The canister then detaches itself, so it sends REFUEL at most once. |
| FuelCanisterComponent.FuelCanister.OnRemove | src/components/fuel-canister.ts:49-51 | The canister leaves the scene. |
| DriverComponent.Driver.constructor | src/components/driver.ts:124 | The driver starts alive. |
| DriverComponent.Driver.OnMessage | src/components/driver.ts:129-146 | HEAD_MAY_SMASH, carrying the head body, is sent exactly when the head is strictly below the car. The first DRIVER_DIED sets the latch and plays the sound; later ones change nothing. |
| GameScreen.ScoreOf | src/screens/game.ts:99 | The score is the number of whole hundreds in the car's `x`. |
| GameScreen.ScoreMonotonic | src/screens/game.ts:99 | Driving further never lowers the score. |
| GameScreen.Game.constructor | src/screens/game.ts:20-25 | The score and the camera pivot start at 0, which is the score of a car at 0. |
| GameScreen.Game.GetScore | src/screens/game.ts:90-92 | The score is the number of whole hundreds of units the car had driven at its last CAR_MOVED. |
| GameScreen.Game.OnMessage | src/screens/game.ts:94-119 | CAR_MOVED sets the score, then sends SCORE_NOTIFY with it and FUEL_NOTIFY with the tank. The camera moves only when the car is more than half a screen past the left edge, and then stays right of that edge. Every DRIVER_DIED or EMPTY_FUEL_TANK sends GAME_OVER. |
| LeaderboardScreen.RankIsBoundary | src/screens/leaderboard.ts:75 | Every entry before the rank of `v` is at least `v`, and the entry at the rank, if any, is below `v`. |
| LeaderboardScreen.RankOfSmallest | src/screens/leaderboard.ts:75 | A value no higher than every entry ranks after all of them. |
| LeaderboardScreen.RankSplitsSorted | src/screens/leaderboard.ts:75 | In a sorted table the rank splits the entries: those before it are at least `v`, all later ones are below `v`. |
| LeaderboardScreen.Insert | src/screens/leaderboard.ts:74-75 | Inserting an entry adds exactly that entry: the length grows by one and the multiset grows by the entry. |
| LeaderboardScreen.InsertPlacement | src/screens/leaderboard.ts:74-75 | The new entry sits at the rank of its value. The entries before and after it are the table's, in the same order. |
| LeaderboardScreen.SortByValue | src/screens/leaderboard.ts:75 | The sort is a permutation of its input. |
| LeaderboardScreen.InsertSorted | src/screens/leaderboard.ts:75 | Inserting into a table sorted by value keeps it sorted. |
| LeaderboardScreen.InsertSmallest | src/screens/leaderboard.ts:74-75 | An entry no higher than every entry goes last. |
| LeaderboardScreen.SortByValueSorted | src/screens/leaderboard.ts:75 | The sort always produces a table sorted by value, highest first. |
| LeaderboardScreen.SortByValueOfSorted | src/screens/leaderboard.ts:75 | The sort leaves a sorted table unchanged, as a stable sort does. |
| LeaderboardScreen.PushThenSort | src/screens/leaderboard.ts:74-75 | Pushing onto a sorted table and then sorting it is the same as inserting the entry at its rank. |
| LeaderboardScreen.Leaderboard.constructor | src/screens/leaderboard.ts:15 | The table starts empty. |
| LeaderboardScreen.Leaderboard.AddScore | src/screens/leaderboard.ts:73-76 | Push, then sort. The table stays sorted and is the old table with the new entry inserted at its rank. |
| LeaderboardScreen.Leaderboard.DisplayTable | src/screens/leaderboard.ts:83-98 | Shows `min(table.length, numItems)` rows. Row `i` shows rank `i+1` with `table[i]`'s name and score, at height `MARGIN + spacing*(i+1)`. |
| LeaderboardScreen.Leaderboard.OnInit | src/screens/leaderboard.ts:58 | Shows `min(table.length, DISPLAY_MAX)` rows, `DISPLAY_MAX = 10`: a shorter table is shown in full. Each row shows its rank and its entry. |
| GameManagerComponent.SenderOf | src/screens/menu-gui.ts:42-54 | Each subscribed message comes from one screen: START_GAME and SHOW_SCORE from the menu buttons (menu-gui.ts lines 42 and 54), EXIT_GAME and RESTART_GAME from the game GUI (game-gui.ts lines 65, 100 and 111), CLOSE_SCORE from the leaderboard's button (leaderboard.ts line 49). |
| GameManagerComponent.NextScreens | src/game-manager.ts:37-95 | Each screen is attached after a message exactly when the message opens it, or when it was attached and the message does not close it. START_GAME and RESTART_GAME open the game and its GUI, EXIT_GAME and CLOSE_SCORE open the menu, SHOW_SCORE opens the leaderboard. START_GAME and SHOW_SCORE close the menu, EXIT_GAME closes the game and its GUI, CLOSE_SCORE closes the leaderboard. |
| GameManagerComponent.NextScreensKeepsOneScreen | src/game-manager.ts:37-95 | A message from an attached screen keeps exactly one screen group on the stage. START_GAME and RESTART_GAME lead to the game with its GUI, EXIT_GAME and CLOSE_SCORE to the menu, SHOW_SCORE to the leaderboard. |
| GameManagerComponent.NextScreensIgnoresOthers | src/game-manager.ts:28-32 | Messages the manager does not subscribe to leave the stage unchanged. |
| GameManagerComponent.GameManager.constructor | src/game-manager.ts:19-35 | After `onInit` only the menu is attached and the leaderboard is empty. |
| GameManagerComponent.GameManager.OnMessage | src/game-manager.ts:37-69 | The attached screens change by the message's transition. EXIT_GAME and RESTART_GAME insert one ("John Doe", score) entry at its rank. No other message touches the leaderboard. |
| GameManagerComponent.GameManager.RecordScore | src/game-manager.ts:44-45 | The game's current score is inserted into the leaderboard at its rank, under the name "John Doe", and the table stays sorted. |
| GameManagerComponent.GameManager.ShowMenu | src/game-manager.ts:71-73 | The menu is attached. |
| GameManagerComponent.GameManager.CloseMenu | src/game-manager.ts:75-77 | The menu is detached. |
| GameManagerComponent.GameManager.StartGame | src/game-manager.ts:79-82 | The game and its GUI are attached. |
| GameManagerComponent.GameManager.ExitGame | src/game-manager.ts:84-87 | The game and its GUI are detached. |
| GameManagerComponent.GameManager.ShowScore | src/game-manager.ts:89-91 | The leaderboard is attached. |
| GameManagerComponent.GameManager.CloseScore | src/game-manager.ts:93-95 | The leaderboard is detached. |

## Left out

- Rendering is not modelled: the terrain drawing (mask, grass rope, dirt tiling sprite), sprites and textures, and the text layout of leaderboard rows beyond rank, name, score and height.
- The graphics eviction loop in src/components/terrain.ts:120-124 is not modelled. It is rendering only. It also removes children inside a `forEach` over the same children, like the body eviction under Findings.
- Physics is not modelled: body construction, segment length and angle (`sqrt`, `atan2`), rotation, constraints, the driver rag-doll, `World.remove` and `Body.translate`. A terrain body is identified by the two samples it joins. Bounds and positions that the engine reports are inputs: the left bound of each body at eviction, the boxes of the bodies at the head probe, the car's box and position, and the head body.
- The walls are modelled by their centre `x`. The right wall's left side is its centre minus half its thickness of 10.
- Three comparisons in the source use PIXI `getBounds` boxes: the car's box sent with CAR_MOVED (src/components/car.ts:62), compared with the right wall's box (src/components/terrain.ts:65) and with the canister's box (src/components/fuel-canister.ts:37). Both sides of each comparison are read in the same space, and the model compares them as plain coordinates, taking the wall's and the canister's left side from their `x`. The head probe (src/components/terrain.ts:74-83) and body eviction (src/components/terrain.ts:113) read physics-body bounds, which are world coordinates, and the model takes those as inputs.
- `Math.random` is an input: one value in `[0, 1)` per generated sample, and two per canister draw. Audio playback is left out, as are the game loop music and asset loading.
- The entity-component runtime is not modelled. Message delivery is returned output lists. Attaching and detaching components is a set of screens, so attaching an attached screen is a no-op. Subscriptions are the cases each handler reacts to.
- The menu, the game GUI, the buttons and the engine bootstrap are not part of this model. The `loadTable` and `saveTable` stubs of the leaderboard are empty. Its `onRemove` only destroys and recreates its display container, which is rendering, and calls the empty `saveTable`; the table is kept.
- `Array.prototype.sort` is modelled as a stable sort by value, highest first (`LeaderboardScreen.SortByValue`).
- `Car.getFuelTank` and `Terrain.getLeftEdge` are plain field reads. The game screen receives their values as parameters of `GameScreen.Game.OnMessage`.
- GameScreen.Game.constructor: the score starts at 0, while the source leaves it undefined until the first CAR_MOVED and keeps the last game's score when the screen is attached again.
- GameScreen.Game.OnMessage: the game creates a new terrain and car each time it is attached, and its background follows the camera. Both are outside this model.
- TerrainComponent.Terrain.IncreaseTerrain: evicts every body whose left bound is at or left of the new edge (`KeptBodies`), the evidently intended filter. The loop as written (src/components/terrain.ts:111-117) skips the body after each destroyed one and leaves it alive, as `ForEachEvict` shows under Findings. The model does not carry those leftover bodies, so its `bodies` and the boxes the head probe sees are the corrected ones.
- TerrainComponent.Terrain.OnCarMoved: only the terrain's own reaction is modelled. The other CAR_MOVED subscribers are separate components.

## Findings

| source | as written | input that shows it | evidently intended | confidence | as-written member | corrected member |
|---|---|---|---|---|---|---|
| src/components/terrain.ts:111-117 | The loop destroys terrain bodies inside `forEach` over the same children array. Destroying a child detaches it from that array, so the body that moves into the freed slot is never visited. | Two adjacent bodies with left bounds 0 and 10 and a new left edge of 100: the first is destroyed and the second survives. | Destroy every body whose left bound is at or left of the new edge. | not executed | TerrainModel.ForEachEvict | TerrainModel.KeptBodies |
