/**
 * The v13 planner (Tileworld_v13 MyPlanner): a boustrophedon exploration
 * sweep, a small task state machine (collect a tile, fill a hole, refuel,
 * explore) with a wall-clock timeout, and the step-by-step consumption of the
 * current route.
 *
 * The transitions are first given as functions over a PlanState value; the
 * Planner class below updates its fields in place and is proved to follow them.
 */
module PlannerV13 {
  import opened World
  import opened Memory
  import opened Serpentine

  /** A task older than this many milliseconds falls back to exploration. */
  const TASK_TIMEOUT: int := 1000
  /** Bound on the visited-goal history. */
  const MAX_VISITED_HISTORY: int := 100
  /** Age threshold of the memory searches for tiles and holes. */
  const MEMORY_THRESHOLD: int := 100

  datatype TaskType = CollectTile | FillHole | RefuelTask | Explore

  /** The exploration sweep: goal, first-call flag, direction, row and goal history. */
  datatype Sweep = Sweep(goal: Pos, initial: bool, heading: Heading, row: int, visited: seq<Pos>)

  /** Everything generatePlan and execute read or write, apart from the memory. */
  datatype PlanState = PlanState(path: Option<Path>, sweep: Sweep, task: TaskType, location: Option<Pos>,
                                 startTime: int, nextAction: Option<Action>)

  /**
   * Append a goal to the history and drop the oldest entry once the history
   * is longer than MAX_VISITED_HISTORY.
   */
  function Remember(visited: seq<Pos>, p: Pos): (r: seq<Pos>)
    ensures |visited| <= MAX_VISITED_HISTORY ==> |r| == Min(|visited| + 1, MAX_VISITED_HISTORY)
    ensures |r| > 0 && r[|r| - 1] == p
  {
    var v := visited + [p];
    if |v| > MAX_VISITED_HISTORY then v[1..] else v
  }

  /** The history keeps the most recent goals, oldest first: a suffix of the old history plus the new goal. */
  lemma RememberKeepsRecent(visited: seq<Pos>, p: Pos)
    ensures var r := Remember(visited, p);
      |r| <= |visited| + 1 && r == (visited + [p])[|visited| + 1 - |r|..]
  {
  }

  /**
   * generateNextGoal for an agent at (ax, ay): on the first call the agent's
   * own cell on a rightward sweep of row ay; at the edge it is heading for, a
   * turn onto the next row down (column kept, direction flipped); otherwise
   * one cell further along, on the agent's own row.
   */
  function NextGoal(s: Sweep, ax: int, ay: int, width: int, height: int): (r: Sweep)
    ensures !r.initial
    ensures |r.visited| > 0 && r.visited[|r.visited| - 1] == r.goal
    ensures |s.visited| <= MAX_VISITED_HISTORY ==> |r.visited| <= MAX_VISITED_HISTORY
    ensures InGrid(width, height, ax, ay) && 0 <= s.row < height ==>
      InGrid(width, height, r.goal.x, r.goal.y) && 0 <= r.row < height
  {
    if s.initial then
      Sweep(Pos(ax, ay), false, Right, ay, Remember(s.visited, Pos(ax, ay)))
    else if AtEdge(s.heading, ax, width) then
      var row := NextRow(s.row, height);
      Sweep(Pos(ax, row), false, Flip(s.heading), row, Remember(s.visited, Pos(ax, row)))
    else
      var nx := if s.heading == Right then ax + 1 else ax - 1;
      Sweep(Pos(nx, ay), false, s.heading, s.row, Remember(s.visited, Pos(nx, ay)))
  }

  /** The three cases of the sweep, one by one. */
  lemma NextGoalCases(s: Sweep, ax: int, ay: int, width: int, height: int)
    ensures var r := NextGoal(s, ax, ay, width, height);
      s.initial ==> r.goal == Pos(ax, ay) && r.row == ay && r.heading == Right
    ensures var r := NextGoal(s, ax, ay, width, height);
      !s.initial && AtEdge(s.heading, ax, width) ==>
        r.row == (if s.row + ROW_STRIDE > height - 1 then 0 else s.row + ROW_STRIDE) &&
        r.heading != s.heading && r.goal == Pos(ax, r.row)
    ensures var r := NextGoal(s, ax, ay, width, height);
      !s.initial && !AtEdge(s.heading, ax, width) ==>
        r.heading == s.heading && r.row == s.row &&
        r.goal == Pos(if s.heading == Right then ax + 1 else ax - 1, ay)
  {
  }

  /** What every sweep state reachable by an agent inside the grid satisfies. */
  predicate SweepInv(s: Sweep, width: int, height: int)
  {
    InGrid(width, height, s.goal.x, s.goal.y) && 0 <= s.row < height && |s.visited| <= MAX_VISITED_HISTORY
  }

  /**
   * generateExplorationPlan: advance the goal if the agent has reached it;
   * keep the route to the goal if it has steps, otherwise advance the goal
   * once more and take whatever route the path finder gives.
   */
  function ExplorePlan(s: Sweep, ax: int, ay: int, width: int, height: int, findPath: PathFinder): (r: (Sweep, Option<Path>))
    ensures r.1 == findPath(ax, ay, r.0.goal.x, r.0.goal.y)
    ensures s.goal != Pos(ax, ay) && HasSteps(findPath(ax, ay, s.goal.x, s.goal.y)) ==> r.0 == s
    ensures SweepInv(s, width, height) && InGrid(width, height, ax, ay) ==> SweepInv(r.0, width, height)
  {
    var s1 := if s.goal == Pos(ax, ay) then NextGoal(s, ax, ay, width, height) else s;
    var p := findPath(ax, ay, s1.goal.x, s1.goal.y);
    if HasSteps(p) then (s1, p)
    else
      var s2 := NextGoal(s1, ax, ay, width, height);
      (s2, findPath(ax, ay, s2.goal.x, s2.goal.y))
  }

  /** The primitive action a task ends with once the agent stands on its target. */
  function TaskAction(t: TaskType): (a: Action)
    requires t != Explore
    ensures a == Pickup <==> t == CollectTile
    ensures a == Putdown <==> t == FillHole
    ensures a == Refuel <==> t == RefuelTask
  {
    match t
    case CollectTile => Pickup
    case FillHole => Putdown
    case RefuelTask => Refuel
  }

  /**
   * The collect, fill and refuel handlers. `found` is what the task's finder
   * answers, `locValid` whether the current target location is valid.
   */
  function TaskPlan(st: PlanState, found: Option<Entity>, locValid: bool, ax: int, ay: int, millis: int,
                    width: int, height: int, findPath: PathFinder): (PlanState, Option<Path>)
    requires st.task != Explore
  {
    if st.location == Some(Pos(ax, ay)) then
      (st.(nextAction := Some(TaskAction(st.task))), None)
    else if st.location.None? || !locValid then
      RetargetPlan(st, found, ax, ay, millis, width, height, findPath)
    else
      (st, findPath(ax, ay, st.location.value.x, st.location.value.y))
  }

  /** A task without a valid location: head for the target found, or go back to exploring when there is none. */
  function RetargetPlan(st: PlanState, found: Option<Entity>, ax: int, ay: int, millis: int,
                        width: int, height: int, findPath: PathFinder): (PlanState, Option<Path>)
  {
    match found
    case Some(e) =>
      (st.(location := Some(Pos(e.x, e.y)), startTime := millis), findPath(ax, ay, e.x, e.y))
    case None =>
      var (sw, p) := ExplorePlan(st.sweep, ax, ay, width, height, findPath);
      (st.(task := Explore, sweep := sw, path := p), p)
  }

  /** A task that is not exploring and is older than TASK_TIMEOUT. */
  predicate TimedOut(st: PlanState, millis: int)
  {
    st.task != Explore && millis - st.startTime > TASK_TIMEOUT
  }

  /** generatePlan: the timeout reset, then dispatch on the task. */
  function PlanOf(st: PlanState, found: Option<Entity>, locValid: bool, ax: int, ay: int, millis: int,
                        width: int, height: int, findPath: PathFinder): (PlanState, Option<Path>)
  {
    var st1 := if TimedOut(st, millis) then st.(task := Explore, location := None) else st;
    if st1.task == Explore then
      var (sw, p) := ExplorePlan(st1.sweep, ax, ay, width, height, findPath);
      (st1.(sweep := sw, path := p), p)
    else
      TaskPlan(st1, found, locValid, ax, ay, millis, width, height, findPath)
  }

  /** execute: take the next step of the current route, regenerating it when it is used up. */
  function ExecuteOf(st: PlanState, found: Option<Entity>, locValid: bool, ax: int, ay: int, millis: int,
                   width: int, height: int, findPath: PathFinder): (PlanState, Direction)
  {
    if HasSteps(st.path) then
      (st.(path := Some(st.path.value[1..])), st.path.value[0])
    else
      var (st1, p) := PlanOf(st, found, locValid, ax, ay, millis, width, height, findPath);
      if HasSteps(p) then (st1.(path := Some(p.value[1..])), p.value[0])
      else (st1.(path := p), Z)
  }

  /** A timed-out task is dropped: exploration with no target location. */
  lemma TimeoutResets(st: PlanState, found: Option<Entity>, locValid: bool, ax: int, ay: int, millis: int,
                      width: int, height: int, findPath: PathFinder)
    requires TimedOut(st, millis)
    ensures var (st', p) := PlanOf(st, found, locValid, ax, ay, millis, width, height, findPath);
      st'.task == Explore && st'.location.None? && st'.nextAction == st.nextAction &&
      (st'.sweep, p) == ExplorePlan(st.sweep, ax, ay, width, height, findPath)
  {
  }

  /** Standing on the target of a live task: no route, and the task's action is requested. */
  lemma AtTargetActs(st: PlanState, found: Option<Entity>, locValid: bool, ax: int, ay: int, millis: int,
                     width: int, height: int, findPath: PathFinder)
    requires st.task != Explore && !TimedOut(st, millis) && st.location == Some(Pos(ax, ay))
    ensures var (st', p) := PlanOf(st, found, locValid, ax, ay, millis, width, height, findPath);
      p.None? && st'.nextAction == Some(TaskAction(st.task)) &&
      st'.task == st.task && st'.location == st.location && st'.sweep == st.sweep
  {
  }

  /**
   * A live task without a valid target re-searches: a found target becomes
   * the location with a fresh start time and the route leads to it; nothing
   * found switches to exploration.
   */
  lemma ResearchOrExplore(st: PlanState, found: Option<Entity>, locValid: bool, ax: int, ay: int, millis: int,
                          width: int, height: int, findPath: PathFinder)
    requires st.task != Explore && !TimedOut(st, millis) && st.location != Some(Pos(ax, ay))
    requires st.location.None? || !locValid
    ensures var (st', p) := PlanOf(st, found, locValid, ax, ay, millis, width, height, findPath);
      found.Some? ==> st'.task == st.task && st'.location == Some(Pos(found.value.x, found.value.y)) &&
                      st'.startTime == millis && p == findPath(ax, ay, found.value.x, found.value.y)
    ensures var (st', p) := PlanOf(st, found, locValid, ax, ay, millis, width, height, findPath);
      found.None? ==> st'.task == Explore && (st'.sweep, p) == ExplorePlan(st.sweep, ax, ay, width, height, findPath)
  {
  }

  /**
   * execute pops exactly one step from a route that has one; otherwise it
   * regenerates and answers Z when even the new route has no step.
   */
  lemma ExecuteStep(st: PlanState, found: Option<Entity>, locValid: bool, ax: int, ay: int, millis: int,
                    width: int, height: int, findPath: PathFinder)
    ensures var (st', d) := ExecuteOf(st, found, locValid, ax, ay, millis, width, height, findPath);
      HasSteps(st.path) ==> [d] + st'.path.value == st.path.value && st' == st.(path := st'.path)
    ensures var (st', d) := ExecuteOf(st, found, locValid, ax, ay, millis, width, height, findPath);
      var (st1, p) := PlanOf(st, found, locValid, ax, ay, millis, width, height, findPath);
      !HasSteps(st.path) ==>
        (HasSteps(p) ==> [d] + st'.path.value == p.value) && (!HasSteps(p) ==> d == Z && st'.path == p)
  {
    var (st', d) := ExecuteOf(st, found, locValid, ax, ay, millis, width, height, findPath);
    if HasSteps(st.path) {
      assert [d] + st'.path.value == st.path.value;
    } else {
      var (st1, p) := PlanOf(st, found, locValid, ax, ay, millis, width, height, findPath);
      if HasSteps(p) {
        assert [d] + st'.path.value == p.value;
      }
    }
  }

  /**
   * For an agent inside the grid, execute keeps the exploration goal inside
   * the grid, the sweep row inside the grid and the history within its bound.
   */
  lemma ExecuteKeepsSweepInv(st: PlanState, found: Option<Entity>, locValid: bool, ax: int, ay: int, millis: int,
                             width: int, height: int, findPath: PathFinder)
    requires SweepInv(st.sweep, width, height) && InGrid(width, height, ax, ay)
    ensures SweepInv(ExecuteOf(st, found, locValid, ax, ay, millis, width, height, findPath).0.sweep, width, height)
  {
  }

  /** The planner object. `nextAction` stands for the agent field that setNextAction writes. */
  class Planner {
    const memory: MyMemory
    const width: int
    const height: int
    /** The A* path generator. */
    const findPath: PathFinder
    var currentPath: Option<Path>
    var currentGoal: Pos
    var isInitialMove: bool
    var currentDirection: Heading
    var currentRow: int
    var foundFuelStation: bool
    var fuelStation: Option<Entity>
    var currentTask: TaskType
    var taskLocation: Option<Pos>
    var taskStartTime: int
    var visitedLocations: seq<Pos>
    var nextAction: Option<Action>

    ghost predicate Valid()
      reads this, memory
    {
      memory.Valid() && memory.width == width && memory.height == height &&
      (foundFuelStation <==> fuelStation.Some?) &&
      (fuelStation.Some? ==> fuelStation.value.kind == FuelStation)
    }

    ghost function SweepOf(): Sweep
      reads this
    {
      Sweep(currentGoal, isInitialMove, currentDirection, currentRow, visitedLocations)
    }

    ghost function State(): PlanState
      reads this
    {
      PlanState(currentPath, SweepOf(), currentTask, taskLocation, taskStartTime, nextAction)
    }

    /** The planner of an agent standing at (ax, ay). */
    constructor (memory: MyMemory, width: int, height: int, findPath: PathFinder, ax: int, ay: int)
      requires memory.Valid() && memory.width == width && memory.height == height
      ensures Valid()
      ensures this.memory == memory && this.width == width && this.height == height && this.findPath == findPath
      ensures SweepOf() == Sweep(Pos(ax, ay), true, Right, 0, [])
      ensures currentPath.None? && currentTask == Explore && taskLocation.None? && taskStartTime == 0
      ensures !foundFuelStation && nextAction.None?
    {
      this.memory := memory;
      this.width := width;
      this.height := height;
      this.findPath := findPath;
      currentPath := None;
      currentGoal := Pos(ax, ay);
      isInitialMove := true;
      currentDirection := Right;
      currentRow := 0;
      foundFuelStation := false;
      fuelStation := None;
      currentTask := Explore;
      taskLocation := None;
      taskStartTime := 0;
      visitedLocations := [];
      nextAction := None;
    }

    /** generateNextGoal. */
    method GenerateNextGoal(ax: int, ay: int)
      modifies this
      ensures SweepOf() == NextGoal(old(SweepOf()), ax, ay, width, height)
      ensures State() == old(State()).(sweep := SweepOf())
      ensures foundFuelStation == old(foundFuelStation) && fuelStation == old(fuelStation)
    {
      var maxX := width - 1;
      var maxY := height - 1;
      var nextX, nextY;
      if isInitialMove {
        nextX, nextY := ax, ay;
        isInitialMove := false;
        currentDirection := Right;
        currentRow := nextY;
      } else {
        if (currentDirection == Right && ax >= maxX) || (currentDirection == Left && ax <= 0) {
          currentRow := currentRow + ROW_STRIDE;
          if currentRow > maxY {
            currentRow := 0;
          } else {
            currentRow := Min(currentRow, maxY);
          }
          currentDirection := Flip(currentDirection);
          nextX, nextY := ax, currentRow;
        } else {
          nextX := ax + (if currentDirection == Right then 1 else -1);
          nextY := ay;
        }
      }
      visitedLocations := visitedLocations + [Pos(nextX, nextY)];
      if |visitedLocations| > MAX_VISITED_HISTORY {
        visitedLocations := visitedLocations[1..];
      }
      currentGoal := Pos(nextX, nextY);
    }

    /** generateExplorationPlan. */
    method GenerateExplorationPlan(ax: int, ay: int) returns (p: Option<Path>)
      modifies this
      ensures var res := ExplorePlan(old(SweepOf()), ax, ay, width, height, findPath);
        SweepOf() == res.0 && p == res.1
      ensures currentPath == p
      ensures State() == old(State()).(sweep := SweepOf(), path := p)
      ensures foundFuelStation == old(foundFuelStation) && fuelStation == old(fuelStation)
    {
      if ax == currentGoal.x && ay == currentGoal.y {
        GenerateNextGoal(ax, ay);
      }
      var newPath := findPath(ax, ay, currentGoal.x, currentGoal.y);
      if newPath.Some? && |newPath.value| > 0 {
        currentPath := newPath;
        return currentPath;
      }
      GenerateNextGoal(ax, ay);
      currentPath := findPath(ax, ay, currentGoal.x, currentGoal.y);
      return currentPath;
    }

    /** The finder's answer for class k: the closest one in sensor range, else the memory search. */
    ghost function NearestOf(k: Kind, ax: int, ay: int, now: int): Option<Entity>
      requires Valid()
      reads this, memory, memory.objects
    {
      if k in memory.closest then Some(memory.closest[k])
      else NearbyObject(memory.Candidates(ax, ay), k, now, MEMORY_THRESHOLD)
    }

    /** findNearestFuelStation's answer: in sensor range, else the station set on the planner. */
    ghost function NearestStation(): Option<Entity>
      requires Valid()
      reads this, memory
    {
      if FuelStation in memory.closest then Some(memory.closest[FuelStation])
      else if foundFuelStation then fuelStation
      else None
    }

    /** What the finder of task t answers. */
    ghost function Found(t: TaskType, ax: int, ay: int, now: int): Option<Entity>
      requires Valid()
      reads this, memory, memory.objects
    {
      match t
      case CollectTile => NearestOf(Tile, ax, ay, now)
      case FillHole => NearestOf(Hole, ax, ay, now)
      case RefuelTask => NearestStation()
      case Explore => None
    }

    /** findNearestTile: a tile in sensor range first, then one seen within MEMORY_THRESHOLD steps. */
    method FindNearestTile(ax: int, ay: int, now: int) returns (r: Option<Entity>)
      requires Valid()
      ensures r == NearestOf(Tile, ax, ay, now)
      ensures r.Some? ==> r.value.kind == Tile
    {
      r := memory.GetClosestObjectInSensorRange(Tile);
      if r.None? {
        r := memory.GetNearbyTile(ax, ay, MEMORY_THRESHOLD, now);
      }
    }

    /** findNearestHole: a hole in sensor range first, then one seen within MEMORY_THRESHOLD steps. */
    method FindNearestHole(ax: int, ay: int, now: int) returns (r: Option<Entity>)
      requires Valid()
      ensures r == NearestOf(Hole, ax, ay, now)
      ensures r.Some? ==> r.value.kind == Hole
    {
      r := memory.GetClosestObjectInSensorRange(Hole);
      if r.None? {
        r := memory.GetNearbyHole(ax, ay, MEMORY_THRESHOLD, now);
      }
    }

    /** findNearestFuelStation: in sensor range first, then the station set on the planner, else none. */
    method FindNearestFuelStation() returns (r: Option<Entity>)
      requires Valid()
      ensures r == NearestStation()
      ensures r.Some? ==> r.value.kind == FuelStation
      ensures r.None? <==> FuelStation !in memory.closest && !foundFuelStation
    {
      r := memory.GetClosestObjectInSensorRange(FuelStation);
      if r.Some? {
        return r;
      }
      if foundFuelStation && fuelStation.Some? {
        return fuelStation;
      }
      return None;
    }

    /** isValidLocation: inside the grid and not remembered as an obstacle. */
    function IsValidLocation(x: int, y: int): (r: bool)
      requires Valid()
      reads this, memory, memory.objects
      ensures r ==> InGrid(width, height, x, y)
      ensures r <==> (InGrid(width, height, x, y) &&
        (memory.objects[x, y].None? || memory.objects[x, y].value.e.kind != Obstacle))
    {
      0 <= x < width && 0 <= y < height && !memory.IsCellBlocked(x, y)
    }

    ghost function LocValid(loc: Option<Pos>): bool
      requires Valid()
      reads this, memory, memory.objects
    {
      loc.Some? && IsValidLocation(loc.value.x, loc.value.y)
    }

    /** setTask. */
    method SetTask(task: TaskType, location: Option<Pos>, millis: int)
      modifies this
      ensures State() == old(State()).(task := task, location := location, startTime := millis)
      ensures foundFuelStation == old(foundFuelStation) && fuelStation == old(fuelStation)
    {
      currentTask := task;
      taskLocation := location;
      taskStartTime := millis;
    }

    /** setFuelStation: remember the station and latch foundFuelStation. */
    method SetFuelStation(station: Entity)
      requires Valid() && station.kind == FuelStation
      modifies this
      ensures Valid()
      ensures foundFuelStation && fuelStation == Some(station)
      ensures State() == old(State())
    {
      fuelStation := Some(station);
      foundFuelStation := true;
    }

    /** The target finder of the current task. */
    method FindTarget(ax: int, ay: int, now: int) returns (r: Option<Entity>)
      requires Valid()
      ensures r == Found(currentTask, ax, ay, now)
    {
      match currentTask
      case CollectTile => r := FindNearestTile(ax, ay, now);
      case FillHole => r := FindNearestHole(ax, ay, now);
      case RefuelTask => r := FindNearestFuelStation();
      case Explore => r := None;
    }

    /** The part of the task plans that looks for a new target when the task has no valid location. */
    method Retarget(ax: int, ay: int, clock: Clock) returns (p: Option<Path>)
      requires Valid() && currentTask != Explore
      modifies this
      ensures Valid()
      ensures var res := RetargetPlan(old(State()), old(Found(currentTask, ax, ay, clock.step)), ax, ay, clock.millis,
          width, height, findPath);
        State() == res.0 && p == res.1
      ensures foundFuelStation == old(foundFuelStation) && fuelStation == old(fuelStation)
    {
      var target := FindTarget(ax, ay, clock.step);
      if target.Some? {
        taskLocation := Some(Pos(target.value.x, target.value.y));
        taskStartTime := clock.millis;
        p := findPath(ax, ay, taskLocation.value.x, taskLocation.value.y);
      } else {
        currentTask := Explore;
        p := GenerateExplorationPlan(ax, ay);
      }
    }

    /** generateTileCollectionPlan, generateHoleFillingPlan and generateRefuelPlan. */
    method GenerateTaskPlan(ax: int, ay: int, clock: Clock) returns (p: Option<Path>)
      requires Valid() && currentTask != Explore
      modifies this
      ensures Valid()
      ensures var res := TaskPlan(old(State()), old(Found(currentTask, ax, ay, clock.step)),
          old(LocValid(taskLocation)), ax, ay, clock.millis, width, height, findPath);
        State() == res.0 && p == res.1
      ensures foundFuelStation == old(foundFuelStation) && fuelStation == old(fuelStation)
    {
      if taskLocation.Some? && ax == taskLocation.value.x && ay == taskLocation.value.y {
        nextAction := Some(TaskAction(currentTask));
        return None;
      }
      if taskLocation.None? || !IsValidLocation(taskLocation.value.x, taskLocation.value.y) {
        p := Retarget(ax, ay, clock);
        return;
      }
      p := findPath(ax, ay, taskLocation.value.x, taskLocation.value.y);
    }

    /** generatePlan. */
    method GeneratePlan(ax: int, ay: int, clock: Clock) returns (p: Option<Path>)
      requires Valid()
      modifies this
      ensures Valid()
      ensures var res := PlanOf(old(State()), old(Found(currentTask, ax, ay, clock.step)),
          old(LocValid(taskLocation)), ax, ay, clock.millis, width, height, findPath);
        State() == res.0 && p == res.1
      ensures foundFuelStation == old(foundFuelStation) && fuelStation == old(fuelStation)
    {
      if currentTask != Explore && clock.millis - taskStartTime > TASK_TIMEOUT {
        currentTask := Explore;
        taskLocation := None;
      }
      if currentTask == Explore {
        p := GenerateExplorationPlan(ax, ay);
      } else {
        p := GenerateTaskPlan(ax, ay, clock);
      }
    }

    /** execute. */
    method Execute(ax: int, ay: int, clock: Clock) returns (d: Direction)
      requires Valid()
      modifies this
      ensures Valid()
      ensures var res := ExecuteOf(old(State()), old(Found(currentTask, ax, ay, clock.step)),
          old(LocValid(taskLocation)), ax, ay, clock.millis, width, height, findPath);
        State() == res.0 && d == res.1
      ensures foundFuelStation == old(foundFuelStation) && fuelStation == old(fuelStation)
    {
      if currentPath.None? || |currentPath.value| == 0 {
        currentPath := GeneratePlan(ax, ay, clock);
        if currentPath.None? || |currentPath.value| == 0 {
          return Z;
        }
      }
      d := currentPath.value[0];
      currentPath := Some(currentPath.value[1..]);
    }
  }
}
