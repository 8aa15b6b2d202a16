# Tileworld agent brain, in Dafny

This project models the decision core of the agents of a Tileworld
simulation. Agents roam an integer grid. They pick up tiles, carry up to three
of them and drop them into holes. They must reach a fuel station before their
fuel runs out. Discoveries are shared with the other agents through a common
message list.

The repository ships two versions of the agent, and both are modelled:

- **v13** is built from three parts:
  - a working memory of timestamped percepts;
  - a planner with a boustrophedon exploration sweep and a small task machine
    (collect a tile, fill a hole, refuel, explore) that has a timeout;
  - an agent with a mode machine (find fuel, collect, fill, explore). Its
    communication round broadcasts every entity it sees, unless a message
    about that position is already on the bus. It then applies, in bus
    order, each message addressed to it that it has not processed yet, so a
    message is applied at most once per agent.
- **v9** has no mode machine. A fuel emergency comes first. A tile collector
  goes for holes and tiles. Everything else is a serpentine sweep that
  strides seven columns at a time. Only fuel stations are broadcast, and
  every message is re-applied on every round.

Modules:

- `World` (world.dfy): entities, kinds, positions, directions, actions; the path finder and the environment's object grid as function parameters.
- `Serpentine` (serpentine.dfy): the row stride and the direction flip both sweeps share.
- `Memory` (memory.dfy): v13 `MyMemory`, a class over two `array2` grids, with the pure specifications of ingestion, decay, the closest index and the spiral search.
- `Communication` (communication.dfy): v13 `MyCommunication` (a class with a mutable `processedBy` list) and the environment's message list.
- `MessagesV9` (messages9.dfy): the v9 message record and message list.
- `PlannerV13` (planner13.dfy): v13 `MyPlanner`: transition functions over a `PlanState` value, and a `Planner` class proved to follow them.
- `PlannerV9` (planner9.dfy): v9 `MyPlanner`, in the same style.
- `AgentV13` (agent13.dfy): v13 `MyAgent`: mode choice, handlers, actions, communication.
- `AgentV9` (agent9.dfy): v9 `MyAgent`: the emergency and collector branches of think, actions, communication.

Each class is specified with a ghost `Valid()` invariant. A class whose state
is a tuple of fields also has a ghost view of that state (`State()`,
`SweepOf()`). Its methods ensure that the new state is a specification
function of the old one. The properties the program promises are then proved
as lemmas about those functions: bounds, first-hit and nearest-hit
characterisations, idempotence, timeout and fallback behaviour.

Randomness and the clocks are parameters:

- the coin flip of memory decay is `drop: (int, int) -> bool`;
- the schedule step and the wall clock are `Clock(step, millis)`.

The program uses `Math.sqrt` distances only to compare them, so the model
compares squared integer distances instead.

Points where the model follows the code as written:

- The decay pass runs at the end of `updateMemory`, over every occupied cell.
  So a percept written in that same call can be dropped by the random draw.
- The v13 discovery check skips an entity when any message on the bus, of any
  type and whether processed or not, carries an entity at the same (x, y).
- In the spiral search, the stale fallback keeps a running best that starts
  at timestamp 0 and is replaced only by a strictly later one. So an object
  recorded at time 0 is never returned, and among equal timestamps the first
  in spiral order wins.
- A timed-out v13 task is reset to exploration with no target location. It
  is not re-evaluated.

## Model

| member | source | states |
|---|---|---|
| World.SqDist | Tileworld_v13/src/tileworld/agent/MyMemory.java:229-231 | the distance stand-in is a natural number that is zero exactly at the agent's own cell |
| Serpentine.NextRow | Tileworld_v13/src/tileworld/planners/MyPlanner.java:224-234 | the next sweep row is 7 further down, or 0 when that passes the last row; from a non-negative row of a non-empty grid it lands inside the grid |
| Memory.LastHit | Tileworld_v13/src/tileworld/agent/MyMemory.java:124-130 | a cell ends a perception batch holding the last remembered entry at that cell; it holds nothing new exactly when no entry hits it |
| Memory.LastHitAppend | Tileworld_v13/src/tileworld/agent/MyMemory.java:124-130 | ingesting two batches in turn is ingesting their concatenation: the later batch wins where it hits |
| Memory.DecayCell | Tileworld_v13/src/tileworld/agent/MyMemory.java:188-212 | after decay no percept older than MAX_TIME survives; a surviving cell is unchanged; a young cell survives when the random draw spares it |
| Memory.UpdateClosest | Tileworld_v13/src/tileworld/agent/MyMemory.java:214-227 | the index gains the entity's class, other classes are untouched, and the entry is replaced only by a strictly closer entity; on a tie the earlier entry stays |
| Memory.ClosestAfterKeys | Tileworld_v13/src/tileworld/agent/MyMemory.java:116-130 | after a batch the index has an entry for a class exactly when the initial index or some ingested entry of the batch has that class |
| Memory.ClosestAfterNearest | Tileworld_v13/src/tileworld/agent/MyMemory.java:116-130 | each entry of the index is at most as far as every ingested entity of its class and as the entry it started from |
| Memory.ClosestAfterFirst | Tileworld_v13/src/tileworld/agent/MyMemory.java:116-130 | each entry is either the initial one or an ingested entity strictly closer than the initial one and than every earlier entity of its class |
| Memory.ClosestIndexCorrect | Tileworld_v13/src/tileworld/agent/MyMemory.java:116-130 | the index rebuilt from empty holds, per class seen in the batch, the nearest entity of that class, the first one in batch order among equally near ones, and no other class |
| Memory.ClosestAfterStable | Tileworld_v13/src/tileworld/agent/MyMemory.java:214-227 | a batch with nothing closer than the current entries leaves the index as it was |
| Memory.ClosestAfterAppend | Tileworld_v13/src/tileworld/agent/MyMemory.java:124-130 | folding two batches in turn equals folding their concatenation |
| Memory.IngestTwiceIsIngestOnce | Tileworld_v13/src/tileworld/agent/MyMemory.java:164-178 | ingesting the same batch twice leaves every cell and the closest index as one ingestion does |
| Memory.FirstFresh | Tileworld_v13/src/tileworld/agent/MyMemory.java:338-350 | the first spiral cell holding an object of the kind seen within the threshold, or past the end when there is none |
| Memory.Latest | Tileworld_v13/src/tileworld/agent/MyMemory.java:351-363 | the stale fallback is the object of the kind with the largest timestamp, which is positive, and the first in spiral order among equals; none when every match has timestamp 0 or less |
| Memory.NearbyObject | Tileworld_v13/src/tileworld/agent/MyMemory.java:330-364 | the search answers an object of the requested kind; it answers nothing exactly when no match is fresh and no match has a positive timestamp |
| Memory.NearbyObjectChoice | Tileworld_v13/src/tileworld/agent/MyMemory.java:342-350 | the first fresh match in spiral order is the answer |
| Memory.NearbyObjectStale | Tileworld_v13/src/tileworld/agent/MyMemory.java:351-363 | with no fresh match, an answer is a match with the largest positive timestamp, the earliest in spiral order among equals |
| Memory.MyMemory.constructor | Tileworld_v13/src/tileworld/agent/MyMemory.java:78-87 | a fresh memory has empty grids, size 0, an empty index and no fuel station |
| Memory.MyMemory.UpdateEntityInMemory | Tileworld_v13/src/tileworld/agent/MyMemory.java:164-183 | an in-grid entity overwrites its cell in both grids with a percept stamped now; the size grows only if the cell was empty; the index is updated; an out-of-grid entity changes nothing |
| Memory.MyMemory.CleanExpiredMemory | Tileworld_v13/src/tileworld/agent/MyMemory.java:188-212 | every cell becomes its decayed value (expired ones always cleared, young ones as the draw says); a cleared cell is cleared in both grids, and the size drops by one per cleared cell, so its gap to the count of occupied cells is unchanged |
| Memory.MyMemory.DecayColumn | Tileworld_v13/src/tileworld/agent/MyMemory.java:193-211 | one column of the decay pass decays that column and touches nothing else |
| Memory.MyMemory.ClearCell | Tileworld_v13/src/tileworld/agent/MyMemory.java:197-207 | removing a percept clears both grids at the cell and decrements the size |
| Memory.MyMemory.UpdateMemory | Tileworld_v13/src/tileworld/agent/MyMemory.java:109-144 | a missing bag changes nothing; otherwise the index is rebuilt from empty over the batch, and every cell is the decay of its ingested value |
| Memory.MyMemory.IngestEntry | Tileworld_v13/src/tileworld/agent/MyMemory.java:124-130 | one bag entry: a remembered in-grid entity overwrites its cell and updates the index; a null or non-object entry changes nothing |
| Memory.MyMemory.UpdateFromMessage | Tileworld_v13/src/tileworld/agent/MyMemory.java:149-159 | no entity changes nothing; otherwise the entity is ingested, and the fuel-station slot is set exactly when it is a fuel station |
| Memory.MyMemory.RemoveAgentPercept | Tileworld_v13/src/tileworld/agent/MyMemory.java:266-268 | clears the percept grid at the cell only; the size is left alone, so it overcounts by one when the cell was occupied |
| Memory.MyMemory.RemoveObject | Tileworld_v13/src/tileworld/agent/MyMemory.java:271-273 | the same for the object's own cell |
| Memory.MyMemory.GetNearbyObject | Tileworld_v13/src/tileworld/agent/MyMemory.java:330-364 | the spiral loop answers `NearbyObject` over the cells it visits: the first fresh match, else the latest stale one (`NearbyObjectChoice`, `NearbyObjectStale`) |
| Memory.MyMemory.GetNearbyTile | Tileworld_v13/src/tileworld/agent/MyMemory.java:288-290 | the search for tiles; the answer is a tile |
| Memory.MyMemory.GetNearbyHole | Tileworld_v13/src/tileworld/agent/MyMemory.java:297-299 | the search for holes; the answer is a hole |
| Memory.MyMemory.GetClosestObjectInSensorRange | Tileworld_v13/src/tileworld/agent/MyMemory.java:373-375 | answers exactly when the class has an entry, and the answer is of that class |
| Memory.MyMemory.IsCellBlocked | Tileworld_v13/src/tileworld/agent/MyMemory.java:384-394 | an empty cell is free; an occupied one is blocked exactly when it holds an obstacle |
| Communication.BasePriority | Tileworld_v13/src/tileworld/agent/MyCommunication.java:85-101 | fuel station found 5, fuel low 4, request help 3, tile or hole found 2, anything else 1 |
| Communication.EntityBonus | Tileworld_v13/src/tileworld/agent/MyCommunication.java:103-111 | +2 for a fuel station, +1 for a tile, 0 otherwise or with no entity |
| Communication.CalculatePriority | Tileworld_v13/src/tileworld/agent/MyCommunication.java:83-114 | the priority is the base value plus the bonus and lies in 1..7 |
| Communication.TopPriority | Tileworld_v13/src/tileworld/agent/MyCommunication.java:83-114 | priority 7 exactly for a fuel-station announcement carrying a fuel station |
| Communication.PriorityWithoutEntity | Tileworld_v13/src/tileworld/agent/MyCommunication.java:83-114 | without an entity the priority is the base value, at most 5 |
| Communication.CalculateUrgencyLevel | Tileworld_v13/src/tileworld/agent/MyCommunication.java:116-129 | urgency 5 for fuel low or request help, 4 for fuel station found, 3 for tile or hole found, 1 otherwise; always within 1..5 |
| Communication.Content | Tileworld_v13/src/tileworld/agent/MyCommunication.java:58-74 | the text of each of the three known types, and "Unknown message type" exactly for every other type |
| Communication.Addressee | Tileworld_v13/src/tileworld/agent/MyCommunication.java:52 | "ALL" is stored as no recipient; any other recipient is kept |
| Communication.Marked | Tileworld_v13/src/tileworld/agent/MyCommunication.java:190-194 | marking adds the id, keeps the list as a prefix, grows it by at most one, leaves it alone when the id is there, and keeps it duplicate-free |
| Communication.MarkedIdempotent | Tileworld_v13/src/tileworld/agent/MyCommunication.java:190-194 | marking twice is marking once |
| Communication.MarkedKeeps | Tileworld_v13/src/tileworld/agent/MyCommunication.java:183-194 | a mark survives further marks, and the order of two marks does not change the set of ids |
| Communication.ContainsAll | Tileworld_v13/src/tileworld/agent/MyCommunication.java:199-201 | holds exactly when every id of the list is in processedBy |
| Communication.MarkAllCovers | Tileworld_v13/src/tileworld/agent/MyCommunication.java:190-201 | marking every id of a list makes the message processed by all of them, without duplicates or losses |
| Communication.Message.constructor | Tileworld_v13/src/tileworld/agent/MyCommunication.java:50-81 | recipient "ALL" is stored as none and sets the broadcast flag; content, priority and urgency follow the type; the message starts unprocessed with an empty processedBy |
| Communication.Message.IsProcessedBy | Tileworld_v13/src/tileworld/agent/MyCommunication.java:183-185 | holds exactly when the id is in processedBy |
| Communication.Message.MarkProcessedBy | Tileworld_v13/src/tileworld/agent/MyCommunication.java:190-194 | afterwards the id is marked, earlier marks stay, and the list stays duplicate-free |
| Communication.Message.IsProcessedByAll | Tileworld_v13/src/tileworld/agent/MyCommunication.java:199-201 | holds exactly when every given id has processed the message |
| Communication.Message.SetProcessed | Tileworld_v13/src/tileworld/agent/MyCommunication.java:160-166 | isProcessed reads back the value set |
| Communication.MessageBus.Post | Tileworld_v13/src/tileworld/agent/MyAgent.java:322 | posting appends the message at the end of the environment's list |
| MessagesV9.Bus.Post | Tileworld_v9/src/tileworld/agent/MyAgent.java:350 | posting appends; a list whose fuel-station announcements all carry fuel stations keeps that property |
| PlannerV13.Remember | Tileworld_v13/src/tileworld/planners/MyPlanner.java:242-246 | the goal is appended last, and a history within the bound grows by one up to 100 entries |
| PlannerV13.RememberKeepsRecent | Tileworld_v13/src/tileworld/planners/MyPlanner.java:242-246 | the history is the most recent suffix of the old history plus the goal: the oldest entry is the one dropped |
| PlannerV13.NextGoal | Tileworld_v13/src/tileworld/planners/MyPlanner.java:209-252 | the next goal is recorded in the history, the history stays within 100, and an agent inside the grid gets a goal and a row inside the grid |
| PlannerV13.NextGoalCases | Tileworld_v13/src/tileworld/planners/MyPlanner.java:216-237 | first call: the agent's own cell, its row, heading right; at the edge: the row moves down 7 or wraps to 0, the heading flips, the goal is (x, row); otherwise one cell along the heading |
| PlannerV13.ExplorePlan | Tileworld_v13/src/tileworld/planners/MyPlanner.java:190-207 | the route returned leads to the final goal; a goal not yet reached with a route is kept; the sweep invariant is preserved |
| PlannerV13.TaskAction | Tileworld_v13/src/tileworld/planners/MyPlanner.java:115-172 | PICKUP for collecting, PUTDOWN for filling, REFUEL for refuelling, and each only for that task |
| PlannerV13.TimeoutResets | Tileworld_v13/src/tileworld/planners/MyPlanner.java:92-113 | a timed-out task becomes exploration with no target location, and the plan is the exploration plan |
| PlannerV13.AtTargetActs | Tileworld_v13/src/tileworld/planners/MyPlanner.java:115-172 | standing on the task's location sets the task's action and returns no route, changing nothing else |
| PlannerV13.ResearchOrExplore | Tileworld_v13/src/tileworld/planners/MyPlanner.java:115-188 | a missing or invalid location triggers a new search: a hit sets the location, restarts the timer and routes to it; a miss switches to exploration and returns its plan |
| PlannerV13.ExecuteStep | Tileworld_v13/src/tileworld/planners/MyPlanner.java:329-339 | a route with steps loses exactly its first step, which is returned; an exhausted route is regenerated, and Z is returned when the new one has no step |
| PlannerV13.ExecuteKeepsSweepInv | Tileworld_v13/src/tileworld/planners/MyPlanner.java:209-252 | for an agent inside the grid, execute keeps the sweep goal and row inside the grid and the history within 100 |
| PlannerV13.Planner.constructor | Tileworld_v13/src/tileworld/planners/MyPlanner.java:84-89 | the sweep starts at the agent's cell, first call pending, heading right; no route, exploring, no fuel station |
| PlannerV13.Planner.GenerateNextGoal | Tileworld_v13/src/tileworld/planners/MyPlanner.java:209-252 | the sweep fields become `NextGoal` of the old sweep (so the goal stays in the grid and is recorded, per `NextGoal` and `NextGoalCases`); nothing else changes |
| PlannerV13.Planner.GenerateExplorationPlan | Tileworld_v13/src/tileworld/planners/MyPlanner.java:190-207 | the sweep and the current route become the exploration plan's |
| PlannerV13.Planner.FindNearestTile | Tileworld_v13/src/tileworld/planners/MyPlanner.java:259-268 | the tile in sensor range, else the memory search with threshold 100; the answer is a tile |
| PlannerV13.Planner.FindNearestHole | Tileworld_v13/src/tileworld/planners/MyPlanner.java:270-279 | the same for holes |
| PlannerV13.Planner.FindNearestFuelStation | Tileworld_v13/src/tileworld/planners/MyPlanner.java:281-294 | the station in sensor range, else the one set on the planner; none exactly when neither exists |
| PlannerV13.Planner.IsValidLocation | Tileworld_v13/src/tileworld/planners/MyPlanner.java:296-300 | valid exactly when inside the grid and not a remembered obstacle |
| PlannerV13.Planner.SetTask | Tileworld_v13/src/tileworld/planners/MyPlanner.java:302-306 | sets the task, the location and the start time, and nothing else |
| PlannerV13.Planner.SetFuelStation | Tileworld_v13/src/tileworld/planners/MyPlanner.java:353-356 | the station is found and remembered; the plan state is untouched |
| PlannerV13.Planner.FindTarget | Tileworld_v13/src/tileworld/planners/MyPlanner.java:126 | the finder of the current task answers |
| PlannerV13.Planner.Retarget | Tileworld_v13/src/tileworld/planners/MyPlanner.java:125-134 | the new state and route are `RetargetPlan`'s: a hit sets the location and timer and routes there, a miss falls back to exploration (`ResearchOrExplore`) |
| PlannerV13.Planner.GenerateTaskPlan | Tileworld_v13/src/tileworld/planners/MyPlanner.java:115-188 | the new state and route are `TaskPlan`'s: act on the target (`AtTargetActs`), re-search (`ResearchOrExplore`), or route to the kept location |
| PlannerV13.Planner.GeneratePlan | Tileworld_v13/src/tileworld/planners/MyPlanner.java:92-113 | the new state and route are `PlanOf`'s: a timed-out task resets to exploration (`TimeoutResets`), otherwise the task or exploration plan |
| PlannerV13.Planner.Execute | Tileworld_v13/src/tileworld/planners/MyPlanner.java:329-339 | the new state and direction are `ExecuteOf`'s: the first step of the route, replanning when it is exhausted (`ExecuteStep`, `ExecuteKeepsSweepInv`) |
| PlannerV9.Clamp | Tileworld_v9/src/tileworld/planners/MyPlanner.java:257-261 | the clamped value lies in [0, hi] and equals the input when it already does |
| PlannerV9.NextGoal | Tileworld_v9/src/tileworld/planners/MyPlanner.java:205-262 | on a non-empty grid the goal always lies inside it, wherever the agent stands |
| PlannerV9.NextGoalCases | Tileworld_v9/src/tileworld/planners/MyPlanner.java:213-253 | first call: own cell, its row, heading right; at the edge: row down 7 or wrapped to 0, heading flipped, goal (x, row); otherwise x moves 7 along the heading, capped at the border, on the current row |
| PlannerV9.ExplorerPlan | Tileworld_v9/src/tileworld/planners/MyPlanner.java:104-121 | the route leads to the final goal; a goal not yet reached with a route is kept; goals stay in the grid |
| PlannerV9.ColumnScanFirst | Tileworld_v9/src/tileworld/planners/MyPlanner.java:129-159 | the column scan finds the lowest wanted cell of the rows it covers, and none exactly when there is none |
| PlannerV9.SquareScanFirst | Tileworld_v9/src/tileworld/planners/MyPlanner.java:129-159 | the square scan finds the first wanted cell in x-major order, and none exactly when the square holds none |
| PlannerV9.FirstUseful | Tileworld_v9/src/tileworld/planners/MyPlanner.java:185-200 | the first message carrying a wanted entity, or past the end when there is none |
| PlannerV9.CollectorScanDecides | Tileworld_v9/src/tileworld/planners/MyPlanner.java:129-159 | the first wanted cell decides: standing on it gives PUTDOWN on a hole or PICKUP on a tile and no route, else a route to it |
| PlannerV9.CollectorFallsBackToMessages | Tileworld_v9/src/tileworld/planners/MyPlanner.java:185-200 | with nothing wanted in sight or in the index, the first message with a wanted entity gives the route |
| PlannerV9.FuelStationLatches | Tileworld_v9/src/tileworld/planners/MyPlanner.java:83-90 | planning finds the station in sensor range once and keeps the first one found |
| PlannerV9.RoleDispatch | Tileworld_v9/src/tileworld/planners/MyPlanner.java:93-101 | role "TILE_COLLECTOR" gets the collector plan, every other role the explorer plan |
| PlannerV9.ExecuteStep | Tileworld_v9/src/tileworld/planners/MyPlanner.java:284-306 | a route with steps loses exactly its first step; otherwise a new plan is adopted if it has a step, and Z is returned if not |
| PlannerV9.IsValidMove | Tileworld_v9/src/tileworld/planners/MyPlanner.java:342-359 | a move is valid exactly when it stays in the grid, avoids remembered obstacles and leaves the current cell |
| PlannerV9.Planner.constructor | Tileworld_v9/src/tileworld/planners/MyPlanner.java:73-78 | the sweep starts at the agent's cell, first call pending, heading right; no route, no fuel station, empty lists |
| PlannerV9.Planner.GenerateNextGoal | Tileworld_v9/src/tileworld/planners/MyPlanner.java:205-262 | the sweep fields become `NextGoal` of the old sweep, a goal inside the grid (`NextGoal`, `NextGoalCases`) |
| PlannerV9.Planner.GenerateExplorerPlan | Tileworld_v9/src/tileworld/planners/MyPlanner.java:104-121 | the sweep and the current route become the explorer plan's |
| PlannerV9.Planner.ScanSensorSquare | Tileworld_v9/src/tileworld/planners/MyPlanner.java:129-159 | the nested loop answers `SquareScan`: the first wanted cell in x-major order, or none (`SquareScanFirst`) |
| PlannerV9.Planner.ScanColumn | Tileworld_v9/src/tileworld/planners/MyPlanner.java:131-158 | the inner loop answers `ColumnScan`: the lowest wanted cell of the column, or none (`ColumnScanFirst`) |
| PlannerV9.Planner.FindUsefulMessage | Tileworld_v9/src/tileworld/planners/MyPlanner.java:185-200 | the message loop answers the first useful message |
| PlannerV9.Planner.GenerateTileCollectorPlan | Tileworld_v9/src/tileworld/planners/MyPlanner.java:123-203 | the next action and route are `CollectorPlan`'s: the first wanted cell in sight decides (`CollectorScanDecides`), else the index entry, else the messages (`CollectorFallsBackToMessages`) |
| PlannerV9.Planner.PlanFromMemory | Tileworld_v9/src/tileworld/planners/MyPlanner.java:162-202 | the next action and route are `FallbackPlan`'s: the held index entry, then the first useful message (`FirstUseful`) |
| PlannerV9.Planner.GeneratePlan | Tileworld_v9/src/tileworld/planners/MyPlanner.java:81-102 | the new state and route are `PlanOf`'s: the station latches (`FuelStationLatches`), then the role picks the collector or explorer plan (`RoleDispatch`) |
| PlannerV9.Planner.HasPlan | Tileworld_v9/src/tileworld/planners/MyPlanner.java:265-271 | a collector role always has a plan, otherwise only a route with steps; since the role is never changed, exactly a route with steps |
| PlannerV9.Planner.VoidPlan | Tileworld_v9/src/tileworld/planners/MyPlanner.java:274-276 | the route is dropped, so a planner whose role is not the collector's has no plan |
| PlannerV9.Planner.Execute | Tileworld_v9/src/tileworld/planners/MyPlanner.java:284-306 | the new state and direction are `ExecuteOf`'s: the first step of the route, else of a fresh plan, else Z (`ExecuteStep`) |
| PlannerV9.Planner.ProcessMessage | Tileworld_v9/src/tileworld/planners/MyPlanner.java:361-376 | the carried entity is appended to the list of its class, and the other lists are unchanged |
| PlannerV9.Planner.SetFuelStation | Tileworld_v9/src/tileworld/planners/MyPlanner.java:378-382 | the station is found and remembered |
| AgentV13.ModeFor | Tileworld_v13/src/tileworld/agent/MyAgent.java:60-85 | fuel below 100 exactly gives the fuel-station search; with fuel, full load or cargo with a hole in range gives FILL; otherwise a tile in range gives COLLECT; REFUEL and WAIT never arise |
| AgentV13.StepToward | Tileworld_v13/src/tileworld/agent/MyAgent.java:117-121 | a MOVE is answered exactly when the route has a step, and it is the route's first step |
| AgentV13.RespondMode | Tileworld_v13/src/tileworld/agent/MyAgent.java:138-163 | collecting at full load ends in FILL, filling with no tile ends in COLLECT, every other mode is kept; the mutual recursion stops after one switch |
| AgentV13.CollectJustified | Tileworld_v13/src/tileworld/agent/MyAgent.java:138-157 | the collection handler answers PICKUP only below full load standing on the closest tile, PUTDOWN only with cargo on the closest hole |
| AgentV13.FillJustified | Tileworld_v13/src/tileworld/agent/MyAgent.java:159-178 | the same for the filling handler |
| AgentV13.RespondJustified | Tileworld_v13/src/tileworld/agent/MyAgent.java:96-183 | every primitive action a handler answers has direction Z and stands on its target; REFUEL only in the fuel search on the known station |
| AgentV13.LowFuelSearches | Tileworld_v13/src/tileworld/agent/MyAgent.java:60-98 | at an evaluation step, low fuel always leads to the fuel-station search |
| AgentV13.DiscoveryType | Tileworld_v13/src/tileworld/agent/MyAgent.java:310-340 | a fuel station is announced as FUEL_STATION_FOUND, every other entity as TILE_FOUND |
| AgentV13.ReportsAppend | Tileworld_v13/src/tileworld/agent/MyAgent.java:305-353 | two runs of discoveries, each reporting an entity the sensor square shows, together still report only such entities |
| AgentV13.ScanStep | Tileworld_v13/src/tileworld/agent/MyAgent.java:278-357 | one more cell of the scan keeps the scan invariant: the new messages are discoveries of entities shown in the square, about positions no earlier message carried, and every entity seen so far is covered |
| AgentV13.CellAfterAppend | Tileworld_v13/src/tileworld/agent/MyAgent.java:361-382 | receiving two message lists in turn leaves each remembered cell as receiving their concatenation |
| AgentV13.IndexAfterAppend | Tileworld_v13/src/tileworld/agent/MyAgent.java:361-382 | the same for the closest index |
| AgentV13.StationAfterAppend | Tileworld_v13/src/tileworld/agent/MyAgent.java:361-382 | the same for the planner's fuel station |
| AgentV13.GridAfterLastWriter | Tileworld_v13/src/tileworld/agent/MyAgent.java:399-427 | a remembered cell that no received message finds or picks up keeps its entity; otherwise the last such message decides it: its entity when found, nothing when picked up |
| AgentV13.ReceiveTwiceIsOnce | Tileworld_v13/src/tileworld/agent/MyAgent.java:388-430 | receiving the same list twice leaves every cell and the planner's station as receiving it once, so the processedBy guard only saves work |
| AgentV13.CellAgain | Tileworld_v13/src/tileworld/agent/MyAgent.java:399-427 | with a message about the cell in the list the starting value is irrelevant; without one the cell keeps it |
| AgentV13.StationAgain | Tileworld_v13/src/tileworld/agent/MyAgent.java:414-421 | with a fuel-station discovery in the list the starting station is irrelevant; without one it is kept |
| AgentV13.Agent.constructor | Tileworld_v13/src/tileworld/agent/MyAgent.java:46-53 | a fresh agent explores with an empty memory of the grid's size and a fresh planner |
| AgentV13.Agent.EvaluateState | Tileworld_v13/src/tileworld/agent/MyAgent.java:60-85 | the mode becomes the mode choice of the state before the call |
| AgentV13.Agent.Think | Tileworld_v13/src/tileworld/agent/MyAgent.java:88-108 | the mode is re-evaluated only when the step count is a multiple of 10; the count grows by one; the handler of the mode answers, and the planner steps only when the handler falls back to exploring |
| AgentV13.Agent.Dispatch | Tileworld_v13/src/tileworld/agent/MyAgent.java:96-107 | the mode and thought are `Respond`'s for the current mode (`RespondMode`, `RespondJustified`); the planner steps only when the handler has no answer |
| AgentV13.Agent.HandleExploration | Tileworld_v13/src/tileworld/agent/MyAgent.java:180-183 | a MOVE in the direction of the planner's execute step |
| AgentV13.Agent.HandleFuelStationSearch | Tileworld_v13/src/tileworld/agent/MyAgent.java:110-136 | REFUEL on the known station, else a step toward it, else toward a station in range, else exploration |
| AgentV13.Agent.HandleTileCollection | Tileworld_v13/src/tileworld/agent/MyAgent.java:138-157 | the mode and thought are `Collect`'s: PICKUP or PUTDOWN only on the target (`CollectJustified`), a switch to FILL at full load |
| AgentV13.Agent.HandleHoleFilling | Tileworld_v13/src/tileworld/agent/MyAgent.java:159-178 | the mode and thought are `Fill`'s: PUTDOWN or PICKUP only on the target (`FillJustified`), a switch to COLLECT with no tile |
| AgentV13.Agent.AlreadySent | Tileworld_v13/src/tileworld/agent/MyAgent.java:291-303 | true exactly when some message on the bus carries an entity at the same position |
| AgentV13.Agent.Discover | Tileworld_v13/src/tileworld/agent/MyAgent.java:278-358 | only new broadcast discoveries are appended, each of an entity the environment shows in the sensor square; no two new messages, and no new and old message, are about the same position; every entity in the sensor square is covered afterwards; the new messages are not yet processed by the agent; memory and the planner's station end as receiving the new discoveries in order takes them |
| AgentV13.Agent.DiscoverColumn | Tileworld_v13/src/tileworld/agent/MyAgent.java:279-357 | the same for one more column of the square, keeping the scan invariant (`ScanStep`) |
| AgentV13.Agent.DiscoverCell | Tileworld_v13/src/tileworld/agent/MyAgent.java:280-355 | one cell: an entity shown there and not yet covered is posted once as a discovery and received; otherwise bus, memory and planner are unchanged; afterwards the cell's entity is covered, and the messages of the scan are still unprocessed by the agent |
| AgentV13.Agent.Announce | Tileworld_v13/src/tileworld/agent/MyAgent.java:305-353 | a discovery is posted as a broadcast of the right type, with no agent marked as having processed it; the entity's cell holds it in both grids, stamped now, every other cell is unchanged, the closest index is updated for an in-grid entity, and a fuel station becomes the planner's station |
| AgentV13.Agent.AnnounceReflecting | Tileworld_v13/src/tileworld/agent/MyAgent.java:305-353 | announcing keeps memory and the planner's station equal to receiving the earlier messages followed by the new discovery, and the messages of the scan unprocessed by the agent |
| AgentV13.Agent.ReceiveMessage | Tileworld_v13/src/tileworld/agent/MyAgent.java:388-430 | TILE_PICKED_UP clears only the remembered grid cell of its entity; the found types ingest the entity into that cell alone and set the planner's station for a fuel station; a message without an entity, or of any other type, changes nothing; the plan is never touched |
| AgentV13.Agent.ReceiveDiscovery | Tileworld_v13/src/tileworld/agent/MyAgent.java:407-424 | the found case of receiveMessage: the entity's cell is written in both grids, every other cell is unchanged |
| AgentV13.Agent.Consume | Tileworld_v13/src/tileworld/agent/MyAgent.java:361-382 | every message addressed to the agent ends processed by it, others are untouched; the newly applied messages are, in bus order, `Pending` of the bus: the messages addressed to it, not processed before, each at its first occurrence; so none is applied twice and with nothing pending nothing is applied; memory and the planner's station end as receiving exactly that list takes them |
| AgentV13.Agent.ConsumeAt | Tileworld_v13/src/tileworld/agent/MyAgent.java:364-380 | one more iteration of the loop: a message is processed exactly when it was before the loop or is addressed and among the first i + 1; the log since the loop began is `Pending` of those first i + 1 messages |
| AgentV13.PendingMembers | Tileworld_v13/src/tileworld/agent/MyAgent.java:364-380 | a message is pending exactly when it is on the bus, addressed to the agent and not processed by it before the pass |
| AgentV13.PendingStep | Tileworld_v13/src/tileworld/agent/MyAgent.java:364-380 | the loop visits the bus in order: the pending messages of one more message are those before it, then that message if it is addressed, unprocessed and not met earlier |
| AgentV13.Agent.ConsumeOne | Tileworld_v13/src/tileworld/agent/MyAgent.java:364-380 | one message: if addressed and not yet processed it is received (its effect on every cell, the index and the station) and marked; otherwise memory, planner and message are unchanged |
| AgentV13.Agent.Apply | Tileworld_v13/src/tileworld/agent/MyAgent.java:375-378 | receive, then mark: the message's effect on every cell, the index and the station, and it is now processed by the agent and logged once |
| AgentV13.Agent.MarkApplied | Tileworld_v13/src/tileworld/agent/MyAgent.java:378 | the message is marked as processed by the agent, earlier marks stay, and it is logged |
| AgentV13.Agent.ReceiveReflecting | Tileworld_v13/src/tileworld/agent/MyAgent.java:376 | receiving one more message keeps memory and the planner's station equal to receiving the whole list so far |
| AgentV13.Agent.Communicate | Tileworld_v13/src/tileworld/agent/MyAgent.java:273-386 | the discovery guarantees, then every addressed message processed and none applied twice; the applied messages are, in bus order, `Pending` of the whole bus (the new discoveries included) against what was processed before the call, and none of the earlier ones had been processed; memory and the planner's station end as receiving the new discoveries, then the applied messages, takes them |
| AgentV13.Agent.PickUp | Tileworld_v13/src/tileworld/agent/MyAgent.java:187-229 | nothing at full load; a tile in the environment is taken, a TILE_PICKED_UP broadcast posted first, then only unique discoveries of entities in the sensor square after the pickup, covering every one shown there; the applied messages are `Pending` of the bus in order, and memory ends as receiving the round's messages takes the old memory with the agent's cell forgotten; otherwise a remembered tile at the cell is forgotten, and the bus, the applied log and every message's processed list stay as they were |
| AgentV13.Agent.TakeTile | Tileworld_v13/src/tileworld/agent/MyAgent.java:197-221 | the cargo grows by one, the first new message is the TILE_PICKED_UP broadcast of the tile, the rest are unique discoveries of entities in the sensor square after the pickup and cover every one shown there, the applied messages are `Pending` of the bus in order (the broadcast itself included), and memory ends as receiving the round's discoveries and applied messages takes the old memory with the agent's cell forgotten |
| AgentV13.Agent.PostPickup | Tileworld_v13/src/tileworld/agent/MyAgent.java:200-218 | the cargo grows by one, the agent's remembered cell is cleared and no other cell changes, and exactly the TILE_PICKED_UP broadcast is posted, unprocessed, so the set of messages the agent has processed is unchanged |
| AgentV13.Agent.PutDown | Tileworld_v13/src/tileworld/agent/MyAgent.java:231-245 | with cargo on a remembered hole, one tile is used and the cell forgotten; otherwise nothing changes |
| AgentV13.Agent.RefuelAt | Tileworld_v13/src/tileworld/agent/MyAgent.java:247-255 | the tank is filled exactly when a fuel station is remembered at the cell |
| AgentV13.Agent.Act | Tileworld_v13/src/tileworld/agent/MyAgent.java:186-265 | a MOVE not blocked moves one step, posts only unique discoveries of entities in the new sensor square and covers every one shown there, applies `Pending` of the bus in order, and memory ends as receiving the round's messages takes it; PICKUP of a tile posts TILE_PICKED_UP first and then the discoveries after the pickup, with the same guarantees; PUTDOWN, REFUEL, a blocked MOVE and a PICKUP without a tile or at full load post nothing and leave the applied log and every message's processed list alone; PICKUP and PUTDOWN edit only the remembered grid cell as stated by `PickUp` and `PutDown`; REFUEL and a blocked MOVE leave memory alone; the cargo and the fuel change only as PICKUP, PUTDOWN and REFUEL allow; the mode and step count are untouched |
| AgentV13.Agent.ActInPlace | Tileworld_v13/src/tileworld/agent/MyAgent.java:187-255 | the PICKUP, PUTDOWN and REFUEL branches of act, with the same per-action guarantees as `Act` for those actions: the TILE_PICKED_UP broadcast and the discoveries after it for a tile PICKUP; nothing posted, applied or marked for the others |
| AgentV13.Agent.MoveAndCommunicate | Tileworld_v13/src/tileworld/agent/MyAgent.java:257-261 | one step along the direction, then the communication round, with all of `Communicate`'s guarantees at the new position, the applied messages being `Pending` of the bus in order |
| AgentV9.StepToward | Tileworld_v9/src/tileworld/agent/MyAgent.java:76-80 | a MOVE exactly when the route has a step, along its first step |
| AgentV9.Decide | Tileworld_v9/src/tileworld/agent/MyAgent.java:59-171 | low fuel always answers without the planner; a non-collector answers without the planner only on low fuel |
| AgentV9.SeekActs | Tileworld_v9/src/tileworld/agent/MyAgent.java:110-164 | a target branch answers a primitive action only standing on the entity in range |
| AgentV9.DecideJustified | Tileworld_v9/src/tileworld/agent/MyAgent.java:59-171 | REFUEL only on low fuel standing on the known station; PUTDOWN and PICKUP only with fuel, within cargo limits, on the entity in range; all with direction Z |
| AgentV9.FillFirst | Tileworld_v9/src/tileworld/agent/MyAgent.java:108-117 | a collector with fuel and cargo on the hole in range puts down, whatever else it sees |
| AgentV9.StrandedWaits | Tileworld_v9/src/tileworld/agent/MyAgent.java:84-104 | on low fuel with no station known and none in range the answer is MOVE Z, never exploration |
| AgentV9.StationAt | Tileworld_v9/src/tileworld/agent/MyAgent.java:320-330 | a cell yields its entity exactly when it is inside the grid and holds a fuel station |
| AgentV9.ColumnFromExact | Tileworld_v9/src/tileworld/agent/MyAgent.java:317-354 | a column of the scan lists exactly the fuel stations shown in its rows |
| AgentV9.StationsFromExact | Tileworld_v9/src/tileworld/agent/MyAgent.java:316-355 | the remaining columns list exactly the fuel stations shown in them |
| AgentV9.AnnouncesExactlyStations | Tileworld_v9/src/tileworld/agent/MyAgent.java:316-355 | every fuel station in the sensor square is announced, and nothing else is |
| AgentV9.Announcements | Tileworld_v9/src/tileworld/agent/MyAgent.java:338-350 | one FUEL_STATION_FOUND broadcast per station, as many as there are stations |
| AgentV9.AnnouncementsAppend | Tileworld_v9/src/tileworld/agent/MyAgent.java:338-350 | announcing two lists in turn posts the announcements of their concatenation |
| AgentV9.Handed | Tileworld_v9/src/tileworld/agent/MyAgent.java:335 | the planner holds its old station or the last station handed to it |
| AgentV9.HandedAppend | Tileworld_v9/src/tileworld/agent/MyAgent.java:335 | handing two lists in turn is handing their concatenation |
| AgentV9.Receipt | Tileworld_v9/src/tileworld/agent/MyAgent.java:373-398 | a message has an effect exactly when it is addressed to the agent, is the fuel-station text and carries an entity, which is then ingested |
| AgentV9.LastStation | Tileworld_v9/src/tileworld/agent/MyAgent.java:384-395 | after receiving, the planner's station is the old one or the station of some addressed announcement |
| AgentV9.ConsumeTwiceIsOnce | Tileworld_v9/src/tileworld/agent/MyAgent.java:358-370 | receiving the same list twice leaves the index and every remembered cell as once does |
| AgentV9.LastStationTwice | Tileworld_v9/src/tileworld/agent/MyAgent.java:358-370 | receiving the same list twice leaves the planner's station as once does |
| AgentV9.LastStationAppend | Tileworld_v9/src/tileworld/agent/MyAgent.java:358-370 | receiving two lists in turn is receiving their concatenation |
| AgentV9.LastStationAgain | Tileworld_v9/src/tileworld/agent/MyAgent.java:384-395 | receiving a list on top of its own result changes nothing |
| AgentV9.LastStationInit | Tileworld_v9/src/tileworld/agent/MyAgent.java:384-395 | with an announcement in the list the previous station is irrelevant; without one it is the result |
| AgentV9.Agent.constructor | Tileworld_v9/src/tileworld/agent/MyAgent.java:31-39 | a fresh agent with its role, an empty memory of the grid's size and a fresh planner |
| AgentV9.Agent.EmergencyThought | Tileworld_v9/src/tileworld/agent/MyAgent.java:61-104 | the thought is `Emergency`'s: REFUEL on the known station, else a step toward it or toward one in range, else wait (`StrandedWaits`) |
| AgentV9.Agent.SeekTarget | Tileworld_v9/src/tileworld/agent/MyAgent.java:110-164 | one target branch: the entity in range, else the memory search with threshold 100 |
| AgentV9.Agent.CollectorThought | Tileworld_v9/src/tileworld/agent/MyAgent.java:108-166 | holes first while carrying, then tiles below full load |
| AgentV9.Agent.Decision | Tileworld_v9/src/tileworld/agent/MyAgent.java:59-166 | the answer is `Decide`'s for the agent's role (`Decide`, `DecideJustified`, `FillFirst`) |
| AgentV9.Agent.Think | Tileworld_v9/src/tileworld/agent/MyAgent.java:59-171 | the decision's thought, and the planner steps only when there is none |
| AgentV9.Agent.DiscoverCell | Tileworld_v9/src/tileworld/agent/MyAgent.java:318-351 | a fuel station at the cell is handed to the planner and announced; anything else changes nothing |
| AgentV9.Agent.DiscoverColumn | Tileworld_v9/src/tileworld/agent/MyAgent.java:317-354 | a column announces exactly its stations, bottom to top |
| AgentV9.Agent.Discover | Tileworld_v9/src/tileworld/agent/MyAgent.java:316-355 | the bus grows by the announcements of exactly the stations in the sensor square, in scan order; the planner holds the last of them, or its old station when there is none |
| AgentV9.Agent.DiscoverNext | Tileworld_v9/src/tileworld/agent/MyAgent.java:316-355 | one more column of the scan extends the announcements and the handed station |
| AgentV9.Agent.ReceiveMessage | Tileworld_v9/src/tileworld/agent/MyAgent.java:373-398 | a fuel-station announcement with an entity is ingested and sets the planner's station; any other message changes nothing |
| AgentV9.Agent.ReceiveIfAddressed | Tileworld_v9/src/tileworld/agent/MyAgent.java:360-368 | a message is received exactly when addressed to "ALL" or to the agent |
| AgentV9.Agent.Consume | Tileworld_v9/src/tileworld/agent/MyAgent.java:358-370 | memory and the planner's station become the receipts of the whole bus, with no processed tracking |
| AgentV9.Agent.Communicate | Tileworld_v9/src/tileworld/agent/MyAgent.java:311-371 | the station announcements are appended, then the whole bus is received |
| AgentV9.Agent.PickUp | Tileworld_v9/src/tileworld/agent/MyAgent.java:206-248 | nothing at full load; a tile in the environment is taken and announced, and every cell ends as receiving the whole bus takes the old cell, with the agent's cell forgotten first; otherwise a remembered tile at the cell is forgotten |
| AgentV9.Agent.TakeTile | Tileworld_v9/src/tileworld/agent/MyAgent.java:216-240 | the cargo grows by one; the bus gets the TILE_PICKED_UP message and then the round's announcements; every cell ends as receiving the whole bus takes the old cell with the agent's cell forgotten; the planner holds the last announced station |
| AgentV9.Agent.PostPickup | Tileworld_v9/src/tileworld/agent/MyAgent.java:219-237 | the cargo grows by one, only the agent's remembered cell is cleared, and exactly the TILE_PICKED_UP message is posted |
| AgentV9.Agent.PutDown | Tileworld_v9/src/tileworld/agent/MyAgent.java:250-264 | with cargo on a remembered hole, one tile is used and the cell forgotten |
| AgentV9.Agent.RefuelAt | Tileworld_v9/src/tileworld/agent/MyAgent.java:266-274 | the tank is filled exactly on a remembered fuel station |
| AgentV9.Agent.MoveAndCommunicate | Tileworld_v9/src/tileworld/agent/MyAgent.java:277-283 | one step along the direction, then the communication round: the bus grows by the stations in sight and memory and the planner's station end as receiving the whole bus takes them |
| AgentV9.Agent.Act | Tileworld_v9/src/tileworld/agent/MyAgent.java:205-284 | a MOVE not blocked moves one step and memory and station end as receiving the whole bus takes them; PICKUP of a tile does the same on the memory with the agent's cell forgotten; a remembered tile or hole is forgotten by PICKUP or PUTDOWN; REFUEL and a blocked MOVE leave memory alone; cargo and fuel change only as the actions allow; a MOVE not blocked appends exactly the announcements of the stations in the new sensor square, a PICKUP of a tile appends TILE_PICKED_UP and then the announcements of the stations seen after the pickup, and every other action posts nothing |

## Left out

- Console output and `printMemory`: pure logging, with no effect on state.
- The environment is not part of this model:
  - `TWEnvironment`, `TWAgent` and the A* `AstarPathGenerator` are
    parameters. The path finder is a function from start and goal to an
    optional list of directions. The object grid is a function from a cell to
    an optional entity. `move` is a step plus a `blocked` flag that stands for
    `CellBlockedException`.
  - `TWAgent.move` also burns fuel. The model does not track fuel consumption.
  - `NeighbourSpiral` is the `spiral` offset sequence given to the memory.
- `Math.random()` in `cleanExpiredMemory`: the model takes an arbitrary
  per-cell choice `drop`, so every property holds for every outcome of the
  draw. The 0.5 probability is not modelled.
- `Math.sqrt` in `getDistance` is replaced by the squared distance. Only the
  ordering of distances is ever used.
- `System.currentTimeMillis()` and `schedule.getTime()` are the `millis` and
  `step` parameters.
- Fuel and thresholds are `double` in the program. The model uses integers,
  which is exact for the whole-number values the program compares.
- Java `int` overflow of coordinates and counters is not modelled; integers
  are unbounded.
- The v9 `MyMemory` is not part of this model. The v9 agent is modelled over
  the v13 memory class.
- The v9 `MyCommunication` is a getter and setter holder. Only its
  (from, to, text, entity) record is modelled, with the two texts the v9 agent
  sends.
- v13 `setTask` is never called anywhere, so in the program the v13 task
  machine always stays in exploration. The model covers every task anyway.
- v13 `explorationEfficiency` and `updateExplorationEfficiency`: a `double`
  ratio that nothing reads.
- v13 `hasPlan` (always true), `voidPlan` and `getCurrentGoal`, and v9
  `getCurrentGoal`: trivial accessors that the modelled code does not call.
- Dead code:
  - `updateMemory(TWEntity[][], …)` and the empty `decayMemory` in v13
    `MyMemory`;
  - v9 `moveTo`, `getRandomDirection` (planner and agent) and
    `getCarriedTileCount`.
- v9 `MyAgent.isValidMove` (Tileworld_v9/src/tileworld/agent/MyAgent.java:174-191)
  is never called. It performs the same three tests as the planner's
  `isValidMove`, which `PlannerV9.IsValidMove` models.
- Accessors such as `getMemoryGrid`, `getMemorySize`, `getFuelStation` and the
  message getters are plain field reads of the model's state.
- The loop of `updateMemory` over the sensed agents
  (Tileworld_v13/src/tileworld/agent/MyMemory.java:133-141) has an empty
  body, so the sensed agents are not parameters. The three object bags are
  one optional list of `Sensed` entries; a null bag is `None`.
- The v13 `Message` constructor calls `to.equals("ALL")` and throws on a null
  recipient. The model takes a `string` recipient, so a null one cannot be
  expressed.
- Memory.MyMemory.GetFuelStation: a plain read of the fuel-station slot,
  with no contract of its own.
- AgentV13.Agent.CountTile: a plain read of the number of carried tiles,
  with no property of its own.
- AgentV9.Agent.CountTile: likewise.
- AgentV13.Agent.ReceiveMessage: a TILE_PICKED_UP whose entity lies outside
  the grid changes nothing in the model. The program clears the grid cell
  there without a bounds check
  (Tileworld_v13/src/tileworld/agent/MyAgent.java:404) and would throw.
- AgentV13.Agent.Consume: the memory's own fuel-station slot (a position
  that only `getFuelStation` reads) is not stated after a communication
  round. The planner's station, which the agent uses, is.
- AgentV13.Agent.Consume: "nothing pending, nothing changes" is stated as
  values, not as an unchanged heap. With no message left to apply, the log
  of new messages is empty. Memory and the planner's station then equal
  receiving `pre` alone, which is what they were before the call.
