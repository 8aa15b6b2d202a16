/**
 * The v9 planner (Tileworld_v9 MyPlanner): a serpentine sweep that strides
 * COLUMN_STRIDE cells along a row and clamps its goal into the grid, role
 * dispatch between exploring and collecting, and the collector's target
 * choice: the sensor square first, then the closest-in-sensor-range index,
 * then the entities carried by the messages on the bus.
 *
 * As for the v13 planner, the transitions are functions over a PlanState
 * value, and the Planner class is proved to follow them.
 */
module PlannerV9 {
  import opened World
  import opened Memory
  import opened Serpentine
  import opened MessagesV9

  /** Columns the sweep advances along a row. */
  const COLUMN_STRIDE: int := 7
  /** A collector carrying this many tiles no longer goes for tiles. */
  const MAX_CARRIED: int := 3
  const EXPLORER_ROLE: string := "EXPLORER"
  const COLLECTOR_ROLE: string := "TILE_COLLECTOR"

  /** AgentRole. */
  datatype Role = Explorer | TileCollector

  /** The sweep: goal, first-call flag, direction and row. */
  datatype Sweep = Sweep(goal: Pos, initial: bool, heading: Heading, row: int)

  /** Math.max(0, Math.min(v, hi)). */
  function Clamp(v: int, hi: int): (r: int)
    ensures hi >= 0 ==> 0 <= r <= hi
    ensures 0 <= v <= hi ==> r == v
  {
    Max(0, Min(v, hi))
  }

  /**
   * generateNextGoal: the agent's own cell on the first call; at the edge it
   * is heading for, a turn onto the next row (column kept, direction
   * flipped); otherwise COLUMN_STRIDE cells further along the sweep row,
   * stopping at the border. Whatever the case, the goal is clamped into the
   * grid.
   */
  function NextGoal(s: Sweep, ax: int, ay: int, width: int, height: int): (r: Sweep)
    ensures !r.initial
    ensures width > 0 && height > 0 ==> InGrid(width, height, r.goal.x, r.goal.y)
  {
    var maxX := width - 1;
    var maxY := height - 1;
    if s.initial then
      Sweep(Pos(Clamp(ax, maxX), Clamp(ay, maxY)), false, Right, ay)
    else if AtEdge(s.heading, ax, width) then
      var row := NextRow(s.row, height);
      Sweep(Pos(Clamp(ax, maxX), Clamp(row, maxY)), false, Flip(s.heading), row)
    else
      var nx := if s.heading == Right then Min(ax + COLUMN_STRIDE, maxX) else Max(ax - COLUMN_STRIDE, 0);
      Sweep(Pos(Clamp(nx, maxX), Clamp(s.row, maxY)), false, s.heading, s.row)
  }

  /** The three cases of the sweep, for an agent inside the grid. */
  lemma NextGoalCases(s: Sweep, ax: int, ay: int, width: int, height: int)
    requires InGrid(width, height, ax, ay)
    ensures var r := NextGoal(s, ax, ay, width, height);
      s.initial ==> r.goal == Pos(ax, ay) && r.row == ay && r.heading == Right
    ensures var r := NextGoal(s, ax, ay, width, height);
      !s.initial && AtEdge(s.heading, ax, width) ==>
        r.row == (if s.row + ROW_STRIDE > height - 1 then 0 else s.row + ROW_STRIDE) &&
        r.heading != s.heading && (0 <= s.row ==> r.goal == Pos(ax, r.row))
    ensures var r := NextGoal(s, ax, ay, width, height);
      !s.initial && !AtEdge(s.heading, ax, width) ==>
        r.heading == s.heading && r.row == s.row &&
        r.goal.x == (if s.heading == Right then Min(ax + COLUMN_STRIDE, width - 1) else Max(ax - COLUMN_STRIDE, 0)) &&
        (0 <= s.row < height ==> r.goal.y == s.row)
  {
  }

  /**
   * generateExplorerPlan: advance the goal if the agent has reached it; keep
   * the route to the goal if it has steps, otherwise advance once more and
   * take whatever route the path finder gives.
   */
  function ExplorerPlan(s: Sweep, ax: int, ay: int, width: int, height: int, findPath: PathFinder): (r: (Sweep, Option<Path>))
    ensures r.1 == findPath(ax, ay, r.0.goal.x, r.0.goal.y)
    ensures s.goal != Pos(ax, ay) && HasSteps(findPath(ax, ay, s.goal.x, s.goal.y)) ==> r.0 == s
    ensures width > 0 && height > 0 && InGrid(width, height, s.goal.x, s.goal.y) ==>
      InGrid(width, height, r.0.goal.x, r.0.goal.y)
  {
    var s1 := if s.goal == Pos(ax, ay) then NextGoal(s, ax, ay, width, height) else s;
    var p := findPath(ax, ay, s1.goal.x, s1.goal.y);
    if HasSteps(p) then (s1, p)
    else
      var s2 := NextGoal(s1, ax, ay, width, height);
      (s2, findPath(ax, ay, s2.goal.x, s2.goal.y))
  }

  /** What a collector carrying `carried` tiles goes for: a hole while carrying, a tile below capacity. */
  predicate Wanted(e: Entity, carried: int)
  {
    (carried > 0 && e.kind == Hole) || (carried < MAX_CARRIED && e.kind == Tile)
  }

  /** The sensor square around the agent at (ax, ay), as the collector scan sees it. */
  datatype ScanView = ScanView(grid: ObjectGrid, width: int, height: int, carried: int, ax: int, ay: int, range: nat)
  {
    /** The smallest offset of the square. */
    function Lo(): int { -(range as int) }
  }

  predicate InSquare(v: ScanView, a: int, b: int)
  {
    v.Lo() <= a <= v.range && v.Lo() <= b <= v.range
  }

  /** The cell at offset (a, b) is inside the grid and holds a wanted entity. */
  predicate Hit(v: ScanView, a: int, b: int)
  {
    InGrid(v.width, v.height, v.ax + a, v.ay + b) && v.grid(v.ax + a, v.ay + b).Some? &&
    Wanted(v.grid(v.ax + a, v.ay + b).value, v.carried)
  }

  /** Offset (a, b) comes strictly before (c, d) in x-major order. */
  predicate Before(a: int, b: int, c: int, d: int)
  {
    a < c || (a == c && b < d)
  }

  /** The first row offset from k - range on in column offset i that is a hit, scanning upwards; None if there is none. */
  function ColumnScan(v: ScanView, i: int, k: int): Option<int>
    requires 0 <= k <= 2 * v.range + 1
    decreases 2 * v.range + 1 - k
  {
    if k > 2 * v.range then None
    else if Hit(v, i, k - v.range) then Some(k - v.range)
    else ColumnScan(v, i, k + 1)
  }

  /**
   * The scan of the sensor square from column offset k - range on, in
   * x-major order: the first offset that is a hit, or None if there is none.
   * SquareScan(v, 0) is the whole square.
   */
  function SquareScan(v: ScanView, k: int): Option<(int, int)>
    requires 0 <= k <= 2 * v.range + 1
    decreases 2 * v.range + 1 - k
  {
    if k > 2 * v.range then None
    else match ColumnScan(v, k - v.range, 0)
      case Some(b) => Some((k - v.range, b))
      case None => SquareScan(v, k + 1)
  }

  /** A column scan finds the lowest hit of the rows it covers, and None exactly when there is none. */
  lemma {:induction false} ColumnScanFirst(v: ScanView, i: int, k: int)
    requires 0 <= k <= 2 * v.range + 1
    ensures var r := ColumnScan(v, i, k);
      (r.Some? ==> k - v.range <= r.value <= v.range && Hit(v, i, r.value) &&
                   forall c :: k - v.range <= c < r.value ==> !Hit(v, i, c)) &&
      (r.None? <==> forall c :: k - v.range <= c <= v.range ==> !Hit(v, i, c))
    decreases 2 * v.range + 1 - k
  {
    if k <= 2 * v.range && !Hit(v, i, k - v.range) {
      ColumnScanFirst(v, i, k + 1);
    }
  }

  /**
   * The square scan finds the first hit in x-major order of the columns it
   * covers, and None exactly when there is none.
   */
  lemma {:induction false} SquareScanFirst(v: ScanView, k: int)
    requires 0 <= k <= 2 * v.range + 1
    ensures var r := SquareScan(v, k);
      (r.Some? ==> InSquare(v, r.value.0, r.value.1) && k - v.range <= r.value.0 && Hit(v, r.value.0, r.value.1) &&
                   forall c, d :: InSquare(v, c, d) && k - v.range <= c && Before(c, d, r.value.0, r.value.1) ==> !Hit(v, c, d)) &&
      (r.None? <==> forall c, d :: InSquare(v, c, d) && k - v.range <= c ==> !Hit(v, c, d))
    decreases 2 * v.range + 1 - k
  {
    if k <= 2 * v.range {
      var i := k - v.range;
      ColumnScanFirst(v, i, 0);
      SquareScanFirst(v, k + 1);
    }
  }

  /** One cell of a column scan: a hit ends it, anything else passes to the next row. */
  lemma ScanCell(v: ScanView, i: int, j: int)
    requires v.Lo() <= i <= v.range && v.Lo() <= j <= v.range
    ensures ColumnScan(v, i, j + v.range) == if Hit(v, i, j) then Some(j) else ColumnScan(v, i, j + 1 + v.range)
  {
    assert (j + v.range) - v.range == j;
  }

  /** One column of the square scan: a hit in column i ends it, otherwise it passes to the next column. */
  lemma ScanNextColumn(v: ScanView, i: int)
    requires v.Lo() <= i <= v.range
    ensures ColumnScan(v, i, 0).Some? ==> SquareScan(v, i + v.range) == Some((i, ColumnScan(v, i, 0).value))
    ensures ColumnScan(v, i, 0).None? ==> SquareScan(v, i + v.range) == SquareScan(v, i + 1 + v.range)
  {
    assert (i + v.range) - v.range == i;
  }

  /** The message carries an entity the collector wants. */
  predicate Useful(m: Message, carried: int)
  {
    m.entity.Some? && Wanted(m.entity.value, carried)
  }

  /** Index of the first useful message at or after k, or |ms| if there is none. */
  function FirstUseful(ms: seq<Message>, carried: int, k: nat): (i: nat)
    requires k <= |ms|
    decreases |ms| - k
    ensures k <= i <= |ms|
    ensures i < |ms| ==> Useful(ms[i], carried)
    ensures forall j :: k <= j < i ==> !Useful(ms[j], carried)
  {
    if k == |ms| then k
    else if Useful(ms[k], carried) then k
    else FirstUseful(ms, carried, k + 1)
  }

  /** The action standing on a wanted entity calls for. */
  function ActionOn(k: Kind): Action
  {
    if k == Hole then Putdown else Pickup
  }

  /**
   * generateTileCollectorPlan, as the pair (next action, route). `held` is
   * the closest-in-sensor-range entry the memory step consults: the hole while
   * carrying, the tile otherwise.
   */
  function CollectorPlan(v: ScanView, held: Option<Entity>, ms: seq<Message>, findPath: PathFinder,
                         next: Option<Action>): (Option<Action>, Option<Path>)
  {
    SquareScanFirst(v, 0);
    match SquareScan(v, 0)
    case Some((a, b)) =>
      if a == 0 && b == 0 then (Some(ActionOn(v.grid(v.ax, v.ay).value.kind)), None)
      else (next, findPath(v.ax, v.ay, v.ax + a, v.ay + b))
    case None => FallbackPlan(v, held, ms, findPath, next)
  }

  /** The collector with nothing wanted in sight: the remembered entry `held` decides, then the first useful message. */
  function FallbackPlan(v: ScanView, held: Option<Entity>, ms: seq<Message>, findPath: PathFinder,
                        next: Option<Action>): (Option<Action>, Option<Path>)
  {
    if held.Some? then
      if held.value.x == v.ax && held.value.y == v.ay then
        (Some(if v.carried > 0 then Putdown else Pickup), None)
      else (next, findPath(v.ax, v.ay, held.value.x, held.value.y))
    else
      var k := FirstUseful(ms, v.carried, 0);
      if k < |ms| then (next, findPath(v.ax, v.ay, ms[k].entity.value.x, ms[k].entity.value.y))
      else (next, None)
  }

  /**
   * The collector's first choice: the first wanted entity in x-major order of
   * the sensor square decides; standing on it asks for PUTDOWN on a hole and
   * PICKUP on a tile, otherwise the route leads to its cell.
   */
  lemma CollectorScanDecides(v: ScanView, held: Option<Entity>, ms: seq<Message>, findPath: PathFinder,
                             next: Option<Action>, a: int, b: int)
    requires InSquare(v, a, b) && Hit(v, a, b)
    requires forall c, d :: InSquare(v, c, d) && Before(c, d, a, b) ==> !Hit(v, c, d)
    ensures var e := v.grid(v.ax + a, v.ay + b).value;
      CollectorPlan(v, held, ms, findPath, next) ==
        if a == 0 && b == 0 then (Some(if e.kind == Hole then Putdown else Pickup), None)
        else (next, findPath(v.ax, v.ay, v.ax + a, v.ay + b))
  {
    SquareScanFirst(v, 0);
    var r := SquareScan(v, 0);
    assert r.Some?;
    var (c, d) := r.value;
    assert !Before(c, d, a, b) && !Before(a, b, c, d);
  }

  /** With nothing wanted in sight and nothing held in the index, the first useful message decides the route. */
  lemma CollectorFallsBackToMessages(v: ScanView, ms: seq<Message>, findPath: PathFinder, next: Option<Action>, k: nat)
    requires forall a, b :: InSquare(v, a, b) ==> !Hit(v, a, b)
    requires k < |ms| && Useful(ms[k], v.carried) && forall j :: 0 <= j < k ==> !Useful(ms[j], v.carried)
    ensures CollectorPlan(v, None, ms, findPath, next) ==
      (next, findPath(v.ax, v.ay, ms[k].entity.value.x, ms[k].entity.value.y))
  {
    assert FirstUseful(ms, v.carried, 0) == k;
    SquareScanFirst(v, 0);
  }

  /** Everything generatePlan and execute read or write, apart from the memory. */
  datatype PlanState = PlanState(path: Option<Path>, sweep: Sweep, foundFuelStation: bool,
                                 fuelStation: Option<Entity>, nextAction: Option<Action>)

  /**
   * generatePlan: latch the fuel station in sensor range if none is known yet,
   * then the collector plan for role "TILE_COLLECTOR" and the explorer plan
   * for any other role.
   */
  function PlanOf(st: PlanState, inRange: Option<Entity>, role: string, v: ScanView, held: Option<Entity>,
                  ms: seq<Message>, findPath: PathFinder): (PlanState, Option<Path>)
  {
    var st1 := if !st.foundFuelStation && inRange.Some? then st.(foundFuelStation := true, fuelStation := inRange)
               else st;
    if role == COLLECTOR_ROLE then
      var (next, p) := CollectorPlan(v, held, ms, findPath, st1.nextAction);
      (st1.(nextAction := next), p)
    else
      var (sw, p) := ExplorerPlan(st1.sweep, v.ax, v.ay, v.width, v.height, findPath);
      (st1.(sweep := sw, path := p), p)
  }

  /**
   * execute: the next step of the current route; when it is used up, a new
   * plan, adopted only if it has a step, and Z otherwise.
   */
  function ExecuteOf(st: PlanState, inRange: Option<Entity>, role: string, v: ScanView, held: Option<Entity>,
                     ms: seq<Message>, findPath: PathFinder): (PlanState, Direction)
  {
    if HasSteps(st.path) then
      (st.(path := Some(st.path.value[1..])), st.path.value[0])
    else
      var (st1, p) := PlanOf(st, inRange, role, v, held, ms, findPath);
      if HasSteps(p) then (st1.(path := Some(p.value[1..])), p.value[0])
      else (st1, Z)
  }

  /** Once found, the fuel station stays found; a station in sensor range is found by planning. */
  lemma FuelStationLatches(st: PlanState, inRange: Option<Entity>, role: string, v: ScanView, held: Option<Entity>,
                           ms: seq<Message>, findPath: PathFinder)
    ensures var st' := PlanOf(st, inRange, role, v, held, ms, findPath).0;
      st'.foundFuelStation == (st.foundFuelStation || inRange.Some?) &&
      (st.foundFuelStation ==> st'.fuelStation == st.fuelStation) &&
      (!st.foundFuelStation && inRange.Some? ==> st'.fuelStation == inRange)
  {
  }

  /** Only the role "TILE_COLLECTOR" plans as a collector; every other role explores. */
  lemma RoleDispatch(st: PlanState, inRange: Option<Entity>, role: string, v: ScanView, held: Option<Entity>,
                     ms: seq<Message>, findPath: PathFinder)
    ensures var (st', p) := PlanOf(st, inRange, role, v, held, ms, findPath);
      role != COLLECTOR_ROLE ==>
        (st'.sweep, p) == ExplorerPlan(st.sweep, v.ax, v.ay, v.width, v.height, findPath) &&
        st'.path == p && st'.nextAction == st.nextAction
    ensures var (st', p) := PlanOf(st, inRange, role, v, held, ms, findPath);
      role == COLLECTOR_ROLE ==>
        (st'.nextAction, p) == CollectorPlan(v, held, ms, findPath, st.nextAction) &&
        st'.sweep == st.sweep && st'.path == st.path
  {
  }

  /** execute pops exactly one step when the route has one, and answers Z when no plan has a step. */
  lemma ExecuteStep(st: PlanState, inRange: Option<Entity>, role: string, v: ScanView, held: Option<Entity>,
                    ms: seq<Message>, findPath: PathFinder)
    ensures var (st', d) := ExecuteOf(st, inRange, role, v, held, ms, findPath);
      HasSteps(st.path) ==> [d] + st'.path.value == st.path.value && st' == st.(path := st'.path)
    ensures var (st', d) := ExecuteOf(st, inRange, role, v, held, ms, findPath);
      var (st1, p) := PlanOf(st, inRange, role, v, held, ms, findPath);
      !HasSteps(st.path) ==>
        (HasSteps(p) ==> [d] + st'.path.value == p.value) && (!HasSteps(p) ==> d == Z && st' == st1)
  {
    var (st', d) := ExecuteOf(st, inRange, role, v, held, ms, findPath);
    if HasSteps(st.path) {
      assert [d] + st'.path.value == st.path.value;
    } else {
      var (st1, p) := PlanOf(st, inRange, role, v, held, ms, findPath);
      if HasSteps(p) {
        assert [d] + st'.path.value == p.value;
      }
    }
  }

  /**
   * isValidMove, shared by the planner and the agent: inside the grid, not a
   * remembered obstacle, and not the agent's own cell.
   */
  function IsValidMove(memory: MyMemory, newX: int, newY: int, ax: int, ay: int): (r: bool)
    requires memory.Valid()
    reads memory, memory.objects
    ensures r <==> (InGrid(memory.width, memory.height, newX, newY) &&
                    !(memory.objects[newX, newY].Some? && memory.objects[newX, newY].value.e.kind == Obstacle) &&
                    (newX, newY) != (ax, ay))
  {
    if !(0 <= newX < memory.width && 0 <= newY < memory.height) then false
    else if memory.IsCellBlocked(newX, newY) then false
    else if newX == ax && newY == ay then false
    else true
  }

  class Planner {
    const memory: MyMemory
    const width: int
    const height: int
    /** The agent's sensor range, the half-width of the collector's scan square. */
    const sensorRange: nat
    /** The A* path generator. */
    const findPath: PathFinder
    var currentPath: Option<Path>
    var currentGoal: Pos
    var isInitialMove: bool
    var currentDirection: Heading
    var currentRow: int
    var foundFuelStation: bool
    var fuelStation: Option<Entity>
    var currentRole: Role
    var tiles: seq<Entity>
    var holes: seq<Entity>
    var fuelStations: seq<Entity>
    /** Stands for the agent field that setNextAction writes. */
    var nextAction: Option<Action>

    /**
     * The role is never reassigned from Explorer, the fuel-station flag and
     * slot are set together, and each list holds entities of its own class.
     */
    ghost predicate Valid()
      reads this, memory
    {
      memory.Valid() && memory.width == width && memory.height == height &&
      currentRole == Explorer &&
      (foundFuelStation <==> fuelStation.Some?) &&
      (fuelStation.Some? ==> fuelStation.value.kind == FuelStation) &&
      (forall i :: 0 <= i < |tiles| ==> tiles[i].kind == Tile) &&
      (forall i :: 0 <= i < |holes| ==> holes[i].kind == Hole) &&
      (forall i :: 0 <= i < |fuelStations| ==> fuelStations[i].kind == FuelStation)
    }

    ghost function SweepOf(): Sweep
      reads this
    {
      Sweep(currentGoal, isInitialMove, currentDirection, currentRow)
    }

    ghost function State(): PlanState
      reads this
    {
      PlanState(currentPath, SweepOf(), foundFuelStation, fuelStation, nextAction)
    }

    /** The closest-in-sensor-range entry the collector's memory step consults. */
    ghost function Held(carried: int): Option<Entity>
      requires Valid()
      reads this, memory
    {
      memory.GetClosestObjectInSensorRange(if carried > 0 then Hole else Tile)
    }

    ghost function View(ax: int, ay: int, carried: int, grid: ObjectGrid): ScanView
      reads this
    {
      ScanView(grid, width, height, carried, ax, ay, sensorRange)
    }

    /** The planner of an agent standing at (ax, ay). */
    constructor (memory: MyMemory, width: int, height: int, sensorRange: nat, findPath: PathFinder, ax: int, ay: int)
      requires memory.Valid() && memory.width == width && memory.height == height
      ensures Valid()
      ensures this.memory == memory && this.width == width && this.height == height
      ensures this.sensorRange == sensorRange && this.findPath == findPath
      ensures SweepOf() == Sweep(Pos(ax, ay), true, Right, 0)
      ensures currentPath.None? && !foundFuelStation && nextAction.None?
      ensures tiles == [] && holes == [] && fuelStations == []
    {
      this.memory := memory;
      this.width := width;
      this.height := height;
      this.sensorRange := sensorRange;
      this.findPath := findPath;
      currentPath := None;
      currentGoal := Pos(ax, ay);
      isInitialMove := true;
      currentDirection := Right;
      currentRow := 0;
      foundFuelStation := false;
      fuelStation := None;
      currentRole := Explorer;
      tiles := [];
      holes := [];
      fuelStations := [];
      nextAction := None;
    }

    /** generateNextGoal. */
    method GenerateNextGoal(ax: int, ay: int)
      modifies this`currentGoal, this`isInitialMove, this`currentDirection, this`currentRow
      ensures SweepOf() == NextGoal(old(SweepOf()), ax, ay, width, height)
    {
      var maxX := width - 1;
      var maxY := height - 1;
      var nextX, nextY;
      if isInitialMove {
        nextX, nextY := ax, ay;
        isInitialMove := false;
        currentDirection := Right;
        currentRow := nextY;
      } else if (currentDirection == Right && ax >= maxX) || (currentDirection == Left && ax <= 0) {
        currentRow := currentRow + ROW_STRIDE;
        if currentRow > maxY {
          currentRow := 0;
        } else {
          currentRow := Min(currentRow, maxY);
        }
        currentDirection := Flip(currentDirection);
        nextX, nextY := ax, currentRow;
      } else {
        if currentDirection == Right {
          nextX := Min(ax + COLUMN_STRIDE, maxX);
        } else {
          nextX := Max(ax - COLUMN_STRIDE, 0);
        }
        nextY := currentRow;
      }
      nextX := Max(0, Min(nextX, maxX));
      nextY := Max(0, Min(nextY, maxY));
      currentGoal := Pos(nextX, nextY);
    }

    /** generateExplorerPlan. */
    method GenerateExplorerPlan(ax: int, ay: int) returns (p: Option<Path>)
      modifies this`currentGoal, this`isInitialMove, this`currentDirection, this`currentRow, this`currentPath
      ensures var res := ExplorerPlan(old(SweepOf()), ax, ay, width, height, findPath);
        SweepOf() == res.0 && p == res.1
      ensures currentPath == p
    {
      if ax == currentGoal.x && ay == currentGoal.y {
        GenerateNextGoal(ax, ay);
      }
      var newPath := findPath(ax, ay, currentGoal.x, currentGoal.y);
      if newPath.Some? && |newPath.value| > 0 {
        currentPath := newPath;
        return currentPath;
      }
      GenerateNextGoal(ax, ay);
      currentPath := findPath(ax, ay, currentGoal.x, currentGoal.y);
      return currentPath;
    }

    /** The collector's scan of the sensor square, x-major, stopping at the first wanted entity. */
    method ScanSensorSquare(v: ScanView) returns (r: Option<(int, int)>)
      ensures r == SquareScan(v, 0)
    {
      var i := v.Lo();
      while i <= v.range
        invariant v.Lo() <= i <= v.range + 1
        invariant SquareScan(v, 0) == SquareScan(v, i + v.range)
      {
        var b := ScanColumn(v, i);
        ScanNextColumn(v, i);
        if b.Some? {
          return Some((i, b.value));
        }
        i := i + 1;
      }
      return None;
    }

    /** One column (offset i) of the collector's scan: the row offset of its first wanted entity, if any. */
    method ScanColumn(v: ScanView, i: int) returns (r: Option<int>)
      requires v.Lo() <= i <= v.range
      ensures r == ColumnScan(v, i, 0)
    {
      var j := v.Lo();
      while j <= v.range
        invariant v.Lo() <= j <= v.range + 1
        invariant ColumnScan(v, i, 0) == ColumnScan(v, i, j + v.range)
      {
        ScanCell(v, i, j);
        var checkX := v.ax + i;
        var checkY := v.ay + j;
        if 0 <= checkX < v.width && 0 <= checkY < v.height {
          var entity := v.grid(checkX, checkY);
          if entity.Some? {
            if (v.carried > 0 && entity.value.kind == Hole) || (v.carried < MAX_CARRIED && entity.value.kind == Tile) {
              return Some(j);
            }
          }
        }
        j := j + 1;
      }
      return None;
    }

    /** The message loop of the collector plan: the first message carrying a wanted entity. */
    method FindUsefulMessage(ms: seq<Message>, carried: int) returns (k: nat)
      ensures k == FirstUseful(ms, carried, 0)
    {
      k := 0;
      while k < |ms|
        invariant k <= |ms|
        invariant FirstUseful(ms, carried, 0) == FirstUseful(ms, carried, k)
      {
        var entity := ms[k].entity;
        if entity.Some? {
          if (carried > 0 && entity.value.kind == Hole) || (carried < MAX_CARRIED && entity.value.kind == Tile) {
            return;
          }
        }
        k := k + 1;
      }
    }

    /** generateTileCollectorPlan for an agent at (ax, ay) carrying `carried` tiles. */
    method GenerateTileCollectorPlan(ax: int, ay: int, carried: int, grid: ObjectGrid, ms: seq<Message>)
      returns (p: Option<Path>)
      requires Valid()
      modifies this`nextAction
      ensures var plan := CollectorPlan(View(ax, ay, carried, grid), Held(carried), ms, findPath, old(nextAction));
        nextAction == plan.0 && p == plan.1
    {
      var v := ScanView(grid, width, height, carried, ax, ay, sensorRange);
      var hit := ScanSensorSquare(v);
      SquareScanFirst(v, 0);
      if hit.Some? {
        var (i, j) := hit.value;
        if i == 0 && j == 0 {
          nextAction := Some(ActionOn(grid(ax, ay).value.kind));
          return None;
        }
        return findPath(ax, ay, ax + i, ay + j);
      }
      p := PlanFromMemory(ax, ay, carried, grid, ms);
    }

    /** The part of generateTileCollectorPlan after an empty scan: the memory's closest entry, then the messages. */
    method PlanFromMemory(ax: int, ay: int, carried: int, grid: ObjectGrid, ms: seq<Message>) returns (p: Option<Path>)
      requires Valid()
      modifies this`nextAction
      ensures var plan := FallbackPlan(View(ax, ay, carried, grid), Held(carried), ms, findPath, old(nextAction));
        nextAction == plan.0 && p == plan.1
    {
      if carried > 0 {
        var hole := memory.GetClosestObjectInSensorRange(Hole);
        if hole.Some? {
          if ax == hole.value.x && ay == hole.value.y {
            nextAction := Some(Putdown);
            return None;
          }
          return findPath(ax, ay, hole.value.x, hole.value.y);
        }
      } else {
        var tile := memory.GetClosestObjectInSensorRange(Tile);
        if tile.Some? {
          if ax == tile.value.x && ay == tile.value.y {
            nextAction := Some(Pickup);
            return None;
          }
          return findPath(ax, ay, tile.value.x, tile.value.y);
        }
      }
      var k := FindUsefulMessage(ms, carried);
      if k < |ms| {
        var entity := ms[k].entity.value;
        return findPath(ax, ay, entity.x, entity.y);
      }
      return None;
    }

    /** generatePlan for an agent with the given role. */
    method GeneratePlan(ax: int, ay: int, role: string, carried: int, grid: ObjectGrid, ms: seq<Message>)
      returns (p: Option<Path>)
      requires Valid()
      modifies this`currentGoal, this`isInitialMove, this`currentDirection, this`currentRow, this`currentPath
      modifies this`foundFuelStation, this`fuelStation, this`nextAction
      ensures Valid()
      ensures var res := PlanOf(old(State()), old(memory.GetClosestObjectInSensorRange(FuelStation)), role,
          View(ax, ay, carried, grid), old(Held(carried)), ms, findPath);
        State() == res.0 && p == res.1
    {
      if !foundFuelStation {
        var entity := memory.GetClosestObjectInSensorRange(FuelStation);
        if entity.Some? {
          foundFuelStation := true;
          fuelStation := entity;
        }
      }
      if role == EXPLORER_ROLE {
        p := GenerateExplorerPlan(ax, ay);
      } else if role == COLLECTOR_ROLE {
        p := GenerateTileCollectorPlan(ax, ay, carried, grid, ms);
      } else {
        p := GenerateExplorerPlan(ax, ay);
      }
    }

    /** hasPlan: always for a collector, which is never the case, so exactly when the route has a step. */
    function HasPlan(): (r: bool)
      reads this
      ensures r <==> currentRole == TileCollector || HasSteps(currentPath)
      ensures Valid() ==> (r <==> HasSteps(currentPath))
    {
      if currentRole == TileCollector then true
      else currentPath.Some? && |currentPath.value| > 0
    }

    /** voidPlan. */
    method VoidPlan()
      modifies this`currentPath
      ensures currentPath.None? && !HasPlan() == (currentRole != TileCollector)
    {
      currentPath := None;
    }

    /** execute. */
    method Execute(ax: int, ay: int, role: string, carried: int, grid: ObjectGrid, ms: seq<Message>)
      returns (d: Direction)
      requires Valid()
      modifies this`currentGoal, this`isInitialMove, this`currentDirection, this`currentRow, this`currentPath
      modifies this`foundFuelStation, this`fuelStation, this`nextAction
      ensures Valid()
      ensures var res := ExecuteOf(old(State()), old(memory.GetClosestObjectInSensorRange(FuelStation)), role,
          View(ax, ay, carried, grid), old(Held(carried)), ms, findPath);
        State() == res.0 && d == res.1
    {
      if currentPath.None? || |currentPath.value| == 0 {
        var newPath := GeneratePlan(ax, ay, role, carried, grid, ms);
        if newPath.Some? && |newPath.value| > 0 {
          currentPath := newPath;
        } else {
          return Z;
        }
      }
      d := currentPath.value[0];
      currentPath := Some(currentPath.value[1..]);
    }

    /** processMessage: file the carried entity under its class; obstacles are dropped. */
    method ProcessMessage(m: Message)
      requires Valid()
      modifies this`tiles, this`holes, this`fuelStations
      ensures Valid()
      ensures m.entity.Some? && m.entity.value.kind == Tile ==> tiles == old(tiles) + [m.entity.value]
      ensures !(m.entity.Some? && m.entity.value.kind == Tile) ==> tiles == old(tiles)
      ensures m.entity.Some? && m.entity.value.kind == Hole ==> holes == old(holes) + [m.entity.value]
      ensures !(m.entity.Some? && m.entity.value.kind == Hole) ==> holes == old(holes)
      ensures m.entity.Some? && m.entity.value.kind == FuelStation ==> fuelStations == old(fuelStations) + [m.entity.value]
      ensures !(m.entity.Some? && m.entity.value.kind == FuelStation) ==> fuelStations == old(fuelStations)
    {
      if m.entity.Some? {
        var entity := m.entity.value;
        if entity.kind == Tile {
          tiles := tiles + [entity];
        } else if entity.kind == Hole {
          holes := holes + [entity];
        } else if entity.kind == FuelStation {
          fuelStations := fuelStations + [entity];
        }
      }
    }

    /** setFuelStation: remember the station and latch foundFuelStation. */
    method SetFuelStation(station: Entity)
      requires Valid() && station.kind == FuelStation
      modifies this`fuelStation, this`foundFuelStation
      ensures Valid()
      ensures foundFuelStation && fuelStation == Some(station)
    {
      fuelStation := Some(station);
      foundFuelStation := true;
    }
  }
}
