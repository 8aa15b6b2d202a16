/**
 * The v9 agent (Tileworld_v9 MyAgent): no mode machine; think answers an
 * emergency refuel below FUEL_THRESHOLD, otherwise a tile collector heads for
 * holes while it carries tiles and for tiles below full load, and everything
 * else is the planner's serpentine step. communicate announces every fuel
 * station in the sensor square and then applies every message addressed to
 * the agent; only fuel-station announcements have an effect.
 */
module AgentV9 {
  import opened World
  import opened Memory
  import opened MessagesV9
  import P = PlannerV9

  const SENSOR_RANGE: int := 5
  /** Below this fuel level think interrupts everything to refuel. */
  const FUEL_THRESHOLD: int := 100
  const MAX_CARRIED_TILES: int := 3
  /** The age threshold of the remembered-tile and remembered-hole lookups. */
  const MEMORY_THRESHOLD: int := 100

  /**
   * What think reads: position, cargo, fuel, the planner's station, the
   * closest-in-sensor-range index and the spiral lookups of memory.
   */
  datatype Senses = Senses(x: int, y: int, carried: nat, fuel: int, station: Option<Entity>,
                           stationInRange: Option<Entity>, holeInRange: Option<Entity>, tileInRange: Option<Entity>,
                           holeInMemory: Option<Entity>, tileInMemory: Option<Entity>)

  /** The agent stands on e. */
  predicate On(s: Senses, e: Entity)
  {
    s.x == e.x && s.y == e.y
  }

  /** A MOVE along the first step of the route to e, if the route has a step. */
  function StepToward(s: Senses, e: Entity, findPath: PathFinder): (t: Option<Thought>)
    ensures t.Some? <==> HasSteps(findPath(s.x, s.y, e.x, e.y))
    ensures t.Some? ==> t.value == Thought(Move, findPath(s.x, s.y, e.x, e.y).value[0])
  {
    var p := findPath(s.x, s.y, e.x, e.y);
    if p.Some? && |p.value| > 0 then Some(Thought(Move, p.value[0])) else None
  }

  /**
   * The emergency branch: REFUEL on the known station, else a step toward it;
   * with no known station, a step toward one in sensor range; failing all
   * that, stay put (MOVE Z) and wait for an announcement.
   */
  function Emergency(s: Senses, findPath: PathFinder): Thought
  {
    var step :=
      if s.station.Some? then
        if On(s, s.station.value) then Some(Thought(Refuel, Z)) else StepToward(s, s.station.value, findPath)
      else if s.stationInRange.Some? then StepToward(s, s.stationInRange.value, findPath)
      else None;
    if step.Some? then step.value else Thought(Move, Z)
  }

  /**
   * One target class of the collector: on the entity in sensor range do
   * `act`, else step toward it; with none in range, step toward the
   * remembered one.
   */
  function Seek(s: Senses, inRange: Option<Entity>, inMemory: Option<Entity>, act: Action, findPath: PathFinder): Option<Thought>
  {
    if inRange.Some? then
      if On(s, inRange.value) then Some(Thought(act, Z)) else StepToward(s, inRange.value, findPath)
    else if inMemory.Some? then StepToward(s, inMemory.value, findPath)
    else None
  }

  /** The tile-collector branch: holes first while carrying, then tiles below full load. */
  function Collector(s: Senses, findPath: PathFinder): Option<Thought>
  {
    var fill := if s.carried > 0 then Seek(s, s.holeInRange, s.holeInMemory, Putdown, findPath) else None;
    if fill.Some? then fill
    else if s.carried < MAX_CARRIED_TILES then Seek(s, s.tileInRange, s.tileInMemory, Pickup, findPath)
    else None
  }

  /** think; None means the planner's execute. */
  function Decide(s: Senses, collector: bool, findPath: PathFinder): (t: Option<Thought>)
    ensures s.fuel < FUEL_THRESHOLD ==> t.Some?
    ensures t.Some? && !collector ==> s.fuel < FUEL_THRESHOLD
  {
    if s.fuel < FUEL_THRESHOLD then Some(Emergency(s, findPath))
    else if collector then Collector(s, findPath)
    else None
  }

  /**
   * What think may answer: REFUEL only below the threshold standing on the
   * known station, PUTDOWN only carrying a tile on the hole in sensor range,
   * PICKUP only below full load on the tile in sensor range, all with
   * direction Z; below the threshold no PICKUP or PUTDOWN at all.
   */
  predicate Justified(s: Senses, t: Option<Thought>)
  {
    t.Some? ==> match t.value.action
      case Refuel => t.value.dir == Z && s.fuel < FUEL_THRESHOLD && s.station.Some? && On(s, s.station.value)
      case Putdown => t.value.dir == Z && s.fuel >= FUEL_THRESHOLD && s.carried > 0 &&
                      s.holeInRange.Some? && On(s, s.holeInRange.value)
      case Pickup => t.value.dir == Z && s.fuel >= FUEL_THRESHOLD && s.carried < MAX_CARRIED_TILES &&
                     s.tileInRange.Some? && On(s, s.tileInRange.value)
      case Move => true
  }

  lemma SeekActs(s: Senses, inRange: Option<Entity>, inMemory: Option<Entity>, act: Action, findPath: PathFinder)
    ensures var t := Seek(s, inRange, inMemory, act, findPath);
      t.Some? && t.value.action != Move ==> t.value == Thought(act, Z) && inRange.Some? && On(s, inRange.value)
  {
  }

  /** Every answer of think is justified. */
  lemma DecideJustified(s: Senses, collector: bool, findPath: PathFinder)
    ensures Justified(s, Decide(s, collector, findPath))
  {
    if s.fuel >= FUEL_THRESHOLD && collector {
      SeekActs(s, s.holeInRange, s.holeInMemory, Putdown, findPath);
      SeekActs(s, s.tileInRange, s.tileInMemory, Pickup, findPath);
    }
  }

  /** Carrying a tile on the hole in sensor range, a collector with fuel fills it whatever else it sees. */
  lemma FillFirst(s: Senses, findPath: PathFinder)
    requires s.fuel >= FUEL_THRESHOLD && s.carried > 0 && s.holeInRange.Some? && On(s, s.holeInRange.value)
    ensures Decide(s, true, findPath) == Some(Thought(Putdown, Z))
  {
  }

  /** Below the threshold with no station known, none in range, the agent waits in place. */
  lemma StrandedWaits(s: Senses, collector: bool, findPath: PathFinder)
    requires s.fuel < FUEL_THRESHOLD && s.station.None? && s.stationInRange.None?
    ensures Decide(s, collector, findPath) == Some(Thought(Move, Z))
  {
  }

  /** Offsets of the sensor square of half-width r. */
  predicate InSquare(r: int, a: int, b: int)
  {
    -r <= a <= r && -r <= b <= r
  }

  /** The fuel station the environment shows at (cx, cy), as a sequence of at most one. */
  function StationAt(grid: ObjectGrid, width: int, height: int, cx: int, cy: int): (r: seq<Entity>)
    ensures |r| <= 1
    ensures |r| == 1 <==> InGrid(width, height, cx, cy) && grid(cx, cy).Some? && grid(cx, cy).value.kind == FuelStation
    ensures |r| == 1 ==> r[0] == grid(cx, cy).value
  {
    if InGrid(width, height, cx, cy) && grid(cx, cy).Some? && grid(cx, cy).value.kind == FuelStation
    then [grid(cx, cy).value] else []
  }

  /** The fuel stations of column cx, rows y - r + k .. y + r, in the order the scan visits them. */
  function ColumnFrom(grid: ObjectGrid, width: int, height: int, cx: int, y: int, r: int, k: int): seq<Entity>
    requires 0 <= k <= 2 * r + 1
    decreases 2 * r + 1 - k
  {
    if k > 2 * r then [] else StationAt(grid, width, height, cx, y - r + k) + ColumnFrom(grid, width, height, cx, y, r, k + 1)
  }

  /**
   * The fuel stations of columns x - r + k .. x + r of the sensor square of
   * half-width r around (x, y), column by column; StationsFrom(.., 0) is the
   * whole square in x-major order.
   */
  function StationsFrom(grid: ObjectGrid, width: int, height: int, x: int, y: int, r: int, k: int): seq<Entity>
    requires 0 <= k <= 2 * r + 1
    decreases 2 * r + 1 - k
  {
    if k > 2 * r then [] else ColumnFrom(grid, width, height, x - r + k, y, r, 0) + StationsFrom(grid, width, height, x, y, r, k + 1)
  }

  /** The environment shows fuel station e at the in-grid cell (cx, cy). */
  predicate Shows(grid: ObjectGrid, width: int, height: int, cx: int, cy: int, e: Entity)
  {
    InGrid(width, height, cx, cy) && grid(cx, cy) == Some(e) && e.kind == FuelStation
  }

  /** A column scan lists exactly the fuel stations shown in the rows it covers. */
  lemma {:induction false} ColumnFromExact(grid: ObjectGrid, width: int, height: int, cx: int, y: int, r: int,
                                           k: int, e: Entity)
    requires 0 <= k <= 2 * r + 1
    ensures e in ColumnFrom(grid, width, height, cx, y, r, k) <==>
      exists cy :: Shows(grid, width, height, cx, cy, e) && y - r + k <= cy <= y + r
    decreases 2 * r + 1 - k
  {
    if k <= 2 * r {
      var here, rest := StationAt(grid, width, height, cx, y - r + k), ColumnFrom(grid, width, height, cx, y, r, k + 1);
      assert ColumnFrom(grid, width, height, cx, y, r, k) == here + rest;
      ColumnFromExact(grid, width, height, cx, y, r, k + 1, e);
      if e in here {
        assert Shows(grid, width, height, cx, y - r + k, e);
      } else if e in rest {
        var cy :| Shows(grid, width, height, cx, cy, e) && y - r + k + 1 <= cy <= y + r;
        assert Shows(grid, width, height, cx, cy, e) && y - r + k <= cy;
      }
      forall cy | Shows(grid, width, height, cx, cy, e) && y - r + k <= cy <= y + r
        ensures e in here + rest
      {
        if cy == y - r + k {
          assert e in here;
        }
      }
    }
  }

  /** A scan of the columns from k on lists exactly the fuel stations shown in those columns of the square. */
  lemma {:induction false} StationsFromExact(grid: ObjectGrid, width: int, height: int, x: int, y: int, r: int,
                                             k: int, e: Entity)
    requires 0 <= k <= 2 * r + 1
    ensures e in StationsFrom(grid, width, height, x, y, r, k) <==>
      exists cx, cy :: Shows(grid, width, height, cx, cy, e) && x - r + k <= cx <= x + r && y - r <= cy <= y + r
    decreases 2 * r + 1 - k
  {
    if k <= 2 * r {
      var column, rest := ColumnFrom(grid, width, height, x - r + k, y, r, 0), StationsFrom(grid, width, height, x, y, r, k + 1);
      assert StationsFrom(grid, width, height, x, y, r, k) == column + rest;
      StationsFromExact(grid, width, height, x, y, r, k + 1, e);
      ColumnFromExact(grid, width, height, x - r + k, y, r, 0, e);
      if e in column {
        var cy :| Shows(grid, width, height, x - r + k, cy, e) && y - r <= cy <= y + r;
        assert Shows(grid, width, height, x - r + k, cy, e) && x - r + k <= x - r + k <= x + r;
      } else if e in rest {
        var cx, cy :| Shows(grid, width, height, cx, cy, e) && x - r + k + 1 <= cx <= x + r && y - r <= cy <= y + r;
        assert Shows(grid, width, height, cx, cy, e) && x - r + k <= cx;
      }
      forall cx, cy | Shows(grid, width, height, cx, cy, e) && x - r + k <= cx <= x + r && y - r <= cy <= y + r
        ensures e in column + rest
      {
        if cx == x - r + k {
          assert Shows(grid, width, height, x - r + k, cy, e);
        }
      }
    }
  }

  /** Every fuel station in the sensor square is announced, and nothing else is. */
  lemma AnnouncesExactlyStations(grid: ObjectGrid, width: int, height: int, x: int, y: int, r: int, e: Entity)
    requires r >= 0
    ensures e in StationsFrom(grid, width, height, x, y, r, 0) <==>
      exists cx, cy :: Shows(grid, width, height, cx, cy, e) && InSquare(r, cx - x, cy - y)
  {
    StationsFromExact(grid, width, height, x, y, r, 0, e);
    if e in StationsFrom(grid, width, height, x, y, r, 0) {
      var cx, cy :| Shows(grid, width, height, cx, cy, e) && x - r <= cx <= x + r && y - r <= cy <= y + r;
      assert InSquare(r, cx - x, cy - y);
    }
    forall cx, cy | Shows(grid, width, height, cx, cy, e) && InSquare(r, cx - x, cy - y)
      ensures e in StationsFrom(grid, width, height, x, y, r, 0)
    {
      assert x - r <= cx <= x + r && y - r <= cy <= y + r;
    }
  }

  /** The announcement of a fuel station e by the agent `name`. */
  function Announcement(name: string, e: Entity): Message
  {
    Message(name, ALL, FuelStationFound, Some(e))
  }

  /** The announcements of the stations es, in order. */
  function Announcements(name: string, es: seq<Entity>): (r: seq<Message>)
    ensures |r| == |es|
  {
    if es == [] then [] else Announcements(name, es[..|es| - 1]) + [Announcement(name, es[|es| - 1])]
  }

  lemma {:induction false} AnnouncementsAppend(name: string, a: seq<Entity>, b: seq<Entity>)
    ensures Announcements(name, a + b) == Announcements(name, a) + Announcements(name, b)
    decreases |b|
  {
    if b == [] {
      assert a + b == a;
    } else {
      var b' := b[..|b| - 1];
      assert (a + b)[..|a + b| - 1] == a + b';
      AnnouncementsAppend(name, a, b');
    }
  }

  /** The station the planner holds after being handed es in order, starting from init. */
  function Handed(es: seq<Entity>, init: Option<Entity>): (r: Option<Entity>)
    ensures r == init || (es != [] && r == Some(es[|es| - 1]))
  {
    if es == [] then init else Some(es[|es| - 1])
  }

  lemma HandedAppend(a: seq<Entity>, b: seq<Entity>, init: Option<Entity>)
    ensures Handed(a + b, init) == Handed(b, Handed(a, init))
  {
    if b != [] {
      assert (a + b)[|a + b| - 1] == b[|b| - 1];
    } else {
      assert a + b == a;
    }
  }

  /** One cell further down a column of the scan: the stations, announcements and handed station grow by the cell's. */
  lemma ColumnStep(grid: ObjectGrid, width: int, height: int, cx: int, y: int, r: int, j: int, cy: int, name: string,
                   posted: seq<Entity>, cell: seq<Entity>, column: seq<Entity>, init: Option<Entity>, sent: seq<Message>)
    requires -r <= j <= r && cy == y + j
    requires posted + ColumnFrom(grid, width, height, cx, y, r, j + r) == column
    requires cell == StationAt(grid, width, height, cx, cy)
    ensures (posted + cell) + ColumnFrom(grid, width, height, cx, y, r, j + 1 + r) == column
    ensures (sent + Announcements(name, posted)) + Announcements(name, cell) == sent + Announcements(name, posted + cell)
    ensures Handed(posted + cell, init) == Handed(cell, Handed(posted, init))
  {
    assert y - r + (j + r) == cy;
    Regroup(posted, cell, ColumnFrom(grid, width, height, cx, y, r, j + 1 + r), column);
    AnnouncementsAppend(name, posted, cell);
    assert (sent + Announcements(name, posted)) + Announcements(name, cell) ==
      sent + (Announcements(name, posted) + Announcements(name, cell));
    HandedAppend(posted, cell, init);
  }

  /** One column further across the square: the stations, announcements and handed station grow by the column's. */
  lemma SquareStep(grid: ObjectGrid, width: int, height: int, x: int, y: int, r: int, i: int, cx: int, name: string,
                   found: seq<Entity>, posted: seq<Entity>, all: seq<Entity>, init: Option<Entity>, sent: seq<Message>)
    requires -r <= i <= r && cx == x + i
    requires found + StationsFrom(grid, width, height, x, y, r, i + r) == all
    requires posted == ColumnFrom(grid, width, height, cx, y, r, 0)
    ensures (found + posted) + StationsFrom(grid, width, height, x, y, r, i + 1 + r) == all
    ensures (sent + Announcements(name, found)) + Announcements(name, posted) == sent + Announcements(name, found + posted)
    ensures Handed(found + posted, init) == Handed(posted, Handed(found, init))
  {
    assert x - r + (i + r) == cx;
    Regroup(found, posted, StationsFrom(grid, width, height, x, y, r, i + 1 + r), all);
    AnnouncementsAppend(name, found, posted);
    assert (sent + Announcements(name, found)) + Announcements(name, posted) ==
      sent + (Announcements(name, found) + Announcements(name, posted));
    HandedAppend(found, posted, init);
  }

  lemma Regroup(found: seq<Entity>, here: seq<Entity>, rest: seq<Entity>, all: seq<Entity>)
    requires found + (here + rest) == all
    ensures (found + here) + rest == all
  {
    assert found + (here + rest) == (found + here) + rest;
  }

  /** What receiveMessage takes from m: the station of an announcement addressed to `name`, or nothing. */
  function Receipt(m: Message, name: string): (r: Sensed)
    ensures r.Sighting? <==> AddressedTo(m, name) && m.text == FuelStationFound && m.entity.Some?
    ensures r.Sighting? ==> r.isObject && r.e == m.entity.value
  {
    if AddressedTo(m, name) && m.text == FuelStationFound && m.entity.Some? then Sighting(m.entity.value, true)
    else Null
  }

  /** The receipts of a message list, in order. */
  function Received(ms: seq<Message>, name: string): seq<Sensed>
  {
    seq(|ms|, k requires 0 <= k < |ms| => Receipt(ms[k], name))
  }

  /** The planner's station after the announcements of ms addressed to `name` have been applied to init. */
  function LastStation(ms: seq<Message>, name: string, init: Option<Entity>): (r: Option<Entity>)
    ensures r != init ==> exists k :: 0 <= k < |ms| && Receipt(ms[k], name).Sighting? && r == Some(ms[k].entity.value)
  {
    if ms == [] then init
    else if Receipt(ms[|ms| - 1], name).Sighting? then Some(ms[|ms| - 1].entity.value)
    else LastStation(ms[..|ms| - 1], name, init)
  }

  /**
   * Consuming the same message list a second time changes nothing: the
   * index, every remembered cell and the planner's station are where one
   * pass left them.
   */
  lemma ConsumeTwiceIsOnce(ms: seq<Message>, name: string, c: map<Kind, Entity>, cx: int, cy: int,
                           prev: Option<Percept>, now: int, ax: int, ay: int, width: int, height: int)
    ensures Received(ms + ms, name) == Received(ms, name) + Received(ms, name)
    ensures ClosestAfter(c, Received(ms + ms, name), ax, ay, width, height) == ClosestAfter(c, Received(ms, name), ax, ay, width, height)
    ensures IngestCell(Received(ms + ms, name), cx, cy, prev, now) == IngestCell(Received(ms, name), cx, cy, prev, now)
  {
    assert Received(ms + ms, name) == Received(ms, name) + Received(ms, name);
    IngestTwiceIsIngestOnce(c, Received(ms, name), cx, cy, prev, now, ax, ay, width, height);
  }

  lemma {:induction false} LastStationTwice(ms: seq<Message>, name: string, init: Option<Entity>)
    ensures LastStation(ms + ms, name, init) == LastStation(ms, name, init)
  {
    LastStationAppend(ms, ms, name, init);
    LastStationAgain(ms, name, init);
  }

  lemma {:induction false} LastStationAppend(a: seq<Message>, b: seq<Message>, name: string, init: Option<Entity>)
    ensures LastStation(a + b, name, init) == LastStation(b, name, LastStation(a, name, init))
    decreases |b|
  {
    if b == [] {
      assert a + b == a;
    } else {
      assert (a + b)[..|a + b| - 1] == a + b[..|b| - 1];
      LastStationAppend(a, b[..|b| - 1], name, init);
    }
  }

  /** Applying a list on top of its own result changes nothing. */
  lemma LastStationAgain(ms: seq<Message>, name: string, init: Option<Entity>)
    ensures LastStation(ms, name, LastStation(ms, name, init)) == LastStation(ms, name, init)
  {
    LastStationInit(ms, name, LastStation(ms, name, init), init);
  }

  /**
   * With an announcement in ms the initial station is irrelevant; without
   * one it is the result.
   */
  lemma {:induction false} LastStationInit(ms: seq<Message>, name: string, i1: Option<Entity>, i2: Option<Entity>)
    ensures (exists k :: 0 <= k < |ms| && Receipt(ms[k], name).Sighting?) ==>
      LastStation(ms, name, i1) == LastStation(ms, name, i2)
    ensures (forall k :: 0 <= k < |ms| ==> !Receipt(ms[k], name).Sighting?) ==> LastStation(ms, name, i1) == i1
    decreases |ms|
  {
    if ms != [] {
      var front := ms[..|ms| - 1];
      LastStationInit(front, name, i1, i2);
      if !Receipt(ms[|ms| - 1], name).Sighting? {
        if exists k :: 0 <= k < |ms| && Receipt(ms[k], name).Sighting? {
          var k :| 0 <= k < |ms| && Receipt(ms[k], name).Sighting?;
          assert front[k] == ms[k];
        }
      }
    }
  }

  /** A list that was extended twice still starts with the original. */
  lemma PostedAfter(a: seq<Message>, m: Message, more: seq<Message>)
    ensures |a + [m] + more| > |a| && (a + [m] + more)[..|a|] == a && (a + [m] + more)[|a|] == m
  {
    assert (a + [m] + more)[..|a|] == a;
  }

  /** One more receipt: the receipts, the index and the planner's station move on by it. */
  lemma ReceiveStep(ms: seq<Message>, i: int, name: string, c: map<Kind, Entity>, ax: int, ay: int, width: int, height: int,
                    init: Option<Entity>)
    requires 0 <= i < |ms|
    ensures var b := Received(ms[..i], name);
      var r := Receipt(ms[i], name);
      Received(ms[..i + 1], name) == b + [r] &&
      ClosestAfter(c, b + [r], ax, ay, width, height) ==
        (if Ingested(r, width, height) then UpdateClosest(ClosestAfter(c, b, ax, ay, width, height), r.e, ax, ay)
         else ClosestAfter(c, b, ax, ay, width, height)) &&
      LastStation(ms[..i + 1], name, init) == (if r.Sighting? then Some(r.e) else LastStation(ms[..i], name, init))
  {
    var b := Received(ms[..i], name);
    var r := Receipt(ms[i], name);
    assert ms[..i + 1][..i] == ms[..i];
    assert (b + [r])[..|b|] == b;
  }

  class Agent {
    const name: string
    /** The role string; "TILE_COLLECTOR" makes a collector. */
    const role: string
    const memory: MyMemory
    const planner: P.Planner
    /** The environment's message list, shared by all agents. */
    const bus: Bus
    /** The fuel level TWAgent.refuel restores. */
    const fuelCapacity: int
    /** The half-width of the sensor square, SENSOR_RANGE. */
    const sensorRange: int
    var x: int
    var y: int
    var fuelLevel: int
    /** carriedTiles.size(). */
    var carried: nat

    ghost predicate Valid()
      reads this, memory, planner
    {
      planner.memory == memory && planner.Valid() && sensorRange == SENSOR_RANGE && planner.sensorRange == sensorRange &&
      planner.width == memory.width && planner.height == memory.height &&
      InGrid(memory.width, memory.height, x, y)
    }

    /** Every fuel-station announcement on the bus carries a fuel station. */
    ghost predicate BusOk()
      reads bus
    {
      WellTagged(bus.messages)
    }

    /** An agent at (x, y) with a fresh memory of the width × height grid and a fresh planner. */
    constructor (name: string, role: string, x: int, y: int, bus: Bus, fuelLevel: int, fuelCapacity: int,
                 width: nat, height: nat, spiral: seq<Pos>, findPath: PathFinder)
      requires InGrid(width, height, x, y)
      ensures Valid()
      ensures this.name == name && this.role == role && this.x == x && this.y == y && this.bus == bus
      ensures this.fuelLevel == fuelLevel && this.fuelCapacity == fuelCapacity && carried == 0
      ensures fresh(memory) && fresh(memory.objects) && fresh(memory.memoryGrid) && fresh(planner)
      ensures memory.width == width && memory.height == height && memory.memorySize == 0
      ensures planner.findPath == findPath && !planner.foundFuelStation
    {
      this.name := name;
      this.role := role;
      this.x := x;
      this.y := y;
      this.bus := bus;
      this.fuelLevel := fuelLevel;
      this.fuelCapacity := fuelCapacity;
      this.sensorRange := SENSOR_RANGE;
      var m := new MyMemory(width, height, spiral);
      this.memory := m;
      this.planner := new P.Planner(m, width, height, SENSOR_RANGE, findPath, x, y);
      carried := 0;
    }

    ghost function Snapshot(now: int): Senses
      requires Valid()
      reads this, memory, memory.objects, planner
    {
      Senses(x, y, carried, fuelLevel, planner.fuelStation,
             memory.GetClosestObjectInSensorRange(FuelStation),
             memory.GetClosestObjectInSensorRange(Hole),
             memory.GetClosestObjectInSensorRange(Tile),
             NearbyObject(memory.Candidates(x, y), Hole, now, MEMORY_THRESHOLD),
             NearbyObject(memory.Candidates(x, y), Tile, now, MEMORY_THRESHOLD))
    }

    /** The planner's execute from the current state, as its specification gives it. */
    ghost function PlannerStep(grid: ObjectGrid): (P.PlanState, Direction)
      requires Valid()
      reads this, memory, planner, bus
    {
      P.ExecuteOf(planner.State(), memory.GetClosestObjectInSensorRange(FuelStation), role,
                  planner.View(x, y, carried, grid), planner.Held(carried), bus.messages, planner.findPath)
    }

    /** CountTile. */
    function CountTile(): (n: int)
      reads this
      ensures n == carried
    {
      carried
    }

    /** The emergency branch of think. */
    method EmergencyThought(now: int) returns (t: Thought)
      requires Valid()
      ensures t == Emergency(Snapshot(now), planner.findPath)
    {
      if planner.foundFuelStation {
        var station := planner.fuelStation.value;
        if x == station.x && y == station.y {
          return Thought(Refuel, Z);
        }
        var path := planner.findPath(x, y, station.x, station.y);
        if path.Some? && |path.value| > 0 {
          return Thought(Move, path.value[0]);
        }
      } else {
        var entity := memory.GetClosestObjectInSensorRange(FuelStation);
        if entity.Some? {
          var path := planner.findPath(x, y, entity.value.x, entity.value.y);
          if path.Some? && |path.value| > 0 {
            return Thought(Move, path.value[0]);
          }
        }
      }
      return Thought(Move, Z);
    }

    /** One target class of the collector branch: kind Hole with PUTDOWN, or Tile with PICKUP. */
    method SeekTarget(kind: Kind, act: Action, now: int) returns (o: Option<Thought>)
      requires Valid() && (kind == Hole || kind == Tile)
      ensures o == Seek(Snapshot(now), memory.GetClosestObjectInSensorRange(kind),
                        NearbyObject(memory.Candidates(x, y), kind, now, MEMORY_THRESHOLD), act, planner.findPath)
    {
      var entity := memory.GetClosestObjectInSensorRange(kind);
      if entity.Some? {
        if x == entity.value.x && y == entity.value.y {
          return Some(Thought(act, Z));
        }
        var path := planner.findPath(x, y, entity.value.x, entity.value.y);
        if path.Some? && |path.value| > 0 {
          return Some(Thought(Move, path.value[0]));
        }
        return None;
      }
      var remembered := memory.GetNearbyObject(x, y, MEMORY_THRESHOLD, kind, now);
      if remembered.Some? {
        var path := planner.findPath(x, y, remembered.value.x, remembered.value.y);
        if path.Some? && |path.value| > 0 {
          return Some(Thought(Move, path.value[0]));
        }
      }
      return None;
    }

    /** The tile-collector branch of think. */
    method CollectorThought(now: int) returns (o: Option<Thought>)
      requires Valid()
      ensures o == Collector(Snapshot(now), planner.findPath)
    {
      if CountTile() > 0 {
        o := SeekTarget(Hole, Putdown, now);
        if o.Some? {
          return;
        }
      }
      if CountTile() < MAX_CARRIED_TILES {
        o := SeekTarget(Tile, Pickup, now);
        return;
      }
      return None;
    }

    /** think: emergency refuel, then the collector branch, then the planner's serpentine step. */
    method Think(grid: ObjectGrid, clock: Clock) returns (t: Thought)
      requires Valid()
      modifies planner
      ensures Valid()
      ensures var o := Decide(old(Snapshot(clock.step)), role == P.COLLECTOR_ROLE, planner.findPath);
        (o.Some? ==> t == o.value && planner.State() == old(planner.State())) &&
        (o.None? ==> t == Thought(Move, old(PlannerStep(grid)).1) && planner.State() == old(PlannerStep(grid)).0)
    {
      var o := Decision(clock.step);
      if o.Some? {
        return o.value;
      }
      var direction := planner.Execute(x, y, role, carried, grid, bus.messages);
      t := Thought(Move, direction);
    }

    /** The part of think before the planner: the emergency branch, then the collector branch for a collector. */
    method Decision(now: int) returns (o: Option<Thought>)
      requires Valid()
      ensures o == Decide(Snapshot(now), role == P.COLLECTOR_ROLE, planner.findPath)
    {
      if fuelLevel < FUEL_THRESHOLD {
        var t := EmergencyThought(now);
        return Some(t);
      }
      if role == P.COLLECTOR_ROLE {
        o := CollectorThought(now);
        return;
      }
      return None;
    }

    /** One cell (checkX, checkY) of the discovery scan: a fuel station there is handed to the planner and announced. */
    method DiscoverCell(grid: ObjectGrid, checkX: int, checkY: int) returns (posted: seq<Entity>)
      requires Valid() && BusOk()
      modifies bus, planner`fuelStation, planner`foundFuelStation
      ensures Valid() && BusOk()
      ensures posted == StationAt(grid, memory.width, memory.height, checkX, checkY)
      ensures bus.messages == old(bus.messages) + Announcements(name, posted)
      ensures planner.fuelStation == Handed(posted, old(planner.fuelStation))
    {
      posted := [];
      if 0 <= checkX < memory.width && 0 <= checkY < memory.height {
        var obj := grid(checkX, checkY);
        if obj.Some? && obj.value.kind == FuelStation {
          planner.SetFuelStation(obj.value);
          bus.Post(Message(name, ALL, FuelStationFound, obj));
          posted := [obj.value];
        }
      }
    }

    /** Column checkX of the discovery scan; `posted` are the stations it announced, bottom to top. */
    method DiscoverColumn(grid: ObjectGrid, checkX: int) returns (ghost posted: seq<Entity>)
      requires Valid() && BusOk()
      modifies bus, planner`fuelStation, planner`foundFuelStation
      ensures Valid() && BusOk()
      ensures posted == ColumnFrom(grid, memory.width, memory.height, checkX, y, sensorRange, 0)
      ensures bus.messages == old(bus.messages) + Announcements(name, posted)
      ensures planner.fuelStation == Handed(posted, old(planner.fuelStation))
    {
      var r, w, h, cx, ay := sensorRange, memory.width, memory.height, checkX, y;
      ghost var column := ColumnFrom(grid, w, h, cx, ay, r, 0);
      ghost var before := bus.messages;
      ghost var station := planner.fuelStation;
      posted := [];
      var j := -r;
      assert j + r == 0 && posted + column == column;
      while j <= r
        invariant -r <= j <= r + 1
        invariant Valid() && BusOk() && ay == y
        invariant posted + ColumnFrom(grid, w, h, cx, ay, r, j + r) == column
        invariant bus.messages == before + Announcements(name, posted)
        invariant planner.fuelStation == Handed(posted, station)
      {
        var cy := ay + j;
        var cell := DiscoverCell(grid, cx, cy);
        ColumnStep(grid, w, h, cx, ay, r, j, cy, name, posted, cell, column, station, before);
        posted := posted + cell;
        j := j + 1;
      }
      assert ColumnFrom(grid, w, h, cx, ay, r, j + r) == [];
      assert posted + [] == posted;
    }

    /**
     * The announcing half of communicate: every fuel station of the sensor
     * square, in x-major order, is handed to the planner and announced to
     * everybody; there is no check for earlier announcements.
     */
    method Discover(grid: ObjectGrid)
      requires Valid() && BusOk()
      modifies bus, planner`fuelStation, planner`foundFuelStation
      ensures Valid() && BusOk()
      ensures var st := StationsFrom(grid, memory.width, memory.height, x, y, sensorRange, 0);
        bus.messages == old(bus.messages) + Announcements(name, st) &&
        planner.fuelStation == Handed(st, old(planner.fuelStation))
    {
      var r, w, h, ax, ay := sensorRange, memory.width, memory.height, x, y;
      ghost var all := StationsFrom(grid, w, h, ax, ay, r, 0);
      ghost var before := bus.messages;
      ghost var station := planner.fuelStation;
      ghost var found: seq<Entity> := [];
      var i := -r;
      assert i + r == 0 && found + all == all;
      while i <= r
        invariant -r <= i <= r + 1
        invariant Valid() && BusOk() && ax == x && ay == y
        invariant found + StationsFrom(grid, w, h, ax, ay, r, i + r) == all
        invariant bus.messages == before + Announcements(name, found)
        invariant planner.fuelStation == Handed(found, station)
      {
        found := DiscoverNext(grid, r, w, h, ax, ay, i, found, all, before, station);
        i := i + 1;
      }
      assert StationsFrom(grid, w, h, ax, ay, r, i + r) == [];
      assert found + [] == found;
    }

    /** Column ax + i of the discovery scan, carrying what the columns before it announced. */
    method DiscoverNext(grid: ObjectGrid, r: int, w: int, h: int, ax: int, ay: int, i: int,
                        ghost found: seq<Entity>, ghost all: seq<Entity>,
                        ghost before: seq<Message>, ghost station: Option<Entity>) returns (ghost found': seq<Entity>)
      requires Valid() && BusOk() && -r <= i <= r
      requires r == sensorRange && w == memory.width && h == memory.height && ax == x && ay == y
      requires found + StationsFrom(grid, w, h, ax, ay, r, i + r) == all
      requires bus.messages == before + Announcements(name, found)
      requires planner.fuelStation == Handed(found, station)
      modifies bus, planner`fuelStation, planner`foundFuelStation
      ensures Valid() && BusOk()
      ensures found' + StationsFrom(grid, w, h, ax, ay, r, i + 1 + r) == all
      ensures bus.messages == before + Announcements(name, found')
      ensures planner.fuelStation == Handed(found', station)
    {
      var cx := ax + i;
      ghost var posted := DiscoverColumn(grid, cx);
      SquareStep(grid, w, h, ax, ay, r, i, cx, name, found, posted, all, station, before);
      found' := found + posted;
    }

    /**
     * receiveMessage: an announcement of a fuel station with an entity is
     * ingested into memory and the station handed to the planner; every
     * other message changes nothing.
     */
    method ReceiveMessage(m: Message, clock: Clock)
      requires Valid()
      requires m.text == FuelStationFound && m.entity.Some? ==> m.entity.value.kind == FuelStation
      modifies memory, memory.objects, memory.memoryGrid, planner`fuelStation, planner`foundFuelStation
      ensures Valid()
      ensures !(m.text == FuelStationFound && m.entity.Some?) ==>
        unchanged(memory, memory.objects, memory.memoryGrid) && unchanged(planner)
      ensures m.text == FuelStationFound && m.entity.Some? ==>
        var e := m.entity.value;
        (InGrid(memory.width, memory.height, e.x, e.y) ==>
          memory.closest == UpdateClosest(old(memory.closest), e, x, y)) &&
        (!InGrid(memory.width, memory.height, e.x, e.y) ==> memory.closest == old(memory.closest)) &&
        (forall i, j :: InGrid(memory.width, memory.height, i, j) ==>
          memory.objects[i, j] == (if i == e.x && j == e.y then Some(Percept(e, clock.step)) else old(memory.objects[i, j])) &&
          memory.memoryGrid[i, j] == (if i == e.x && j == e.y then Some(e) else old(memory.memoryGrid[i, j]))) &&
        planner.fuelStation == Some(e)
    {
      if m.entity.Some? && m.text == FuelStationFound {
        memory.UpdateFromMessage(m.entity, clock.step, x, y);
        planner.SetFuelStation(m.entity.value);
      }
    }

    /** The loop body of the receiving half: receive m if it is addressed to the agent. */
    method ReceiveIfAddressed(m: Message, clock: Clock)
      requires Valid()
      requires m.text == FuelStationFound && m.entity.Some? ==> m.entity.value.kind == FuelStation
      modifies memory, memory.objects, memory.memoryGrid, planner`fuelStation, planner`foundFuelStation
      ensures Valid()
      ensures var r := Receipt(m, name);
        memory.closest == (if Ingested(r, memory.width, memory.height) then UpdateClosest(old(memory.closest), r.e, x, y)
                           else old(memory.closest)) &&
        (forall i, j :: InGrid(memory.width, memory.height, i, j) ==>
          memory.objects[i, j] == (if Hits(r, i, j) then Some(Percept(r.e, clock.step)) else old(memory.objects[i, j])) &&
          memory.memoryGrid[i, j] == (if Hits(r, i, j) then Some(r.e) else old(memory.memoryGrid[i, j]))) &&
        planner.fuelStation == (if r.Sighting? then Some(r.e) else old(planner.fuelStation))
    {
      if AddressedTo(m, name) {
        ReceiveMessage(m, clock);
      }
    }

    /**
     * The receiving half of communicate: every message on the bus addressed
     * to the agent ("ALL" or its name) is received, whether or not it was
     * received in an earlier round.
     */
    method Consume(clock: Clock)
      requires Valid() && BusOk()
      modifies memory, memory.objects, memory.memoryGrid, planner`fuelStation, planner`foundFuelStation
      ensures Valid()
      ensures var r := Received(bus.messages, name);
        memory.closest == ClosestAfter(old(memory.closest), r, x, y, memory.width, memory.height) &&
        (forall i, j :: InGrid(memory.width, memory.height, i, j) ==>
          memory.objects[i, j] == IngestCell(r, i, j, old(memory.objects[i, j]), clock.step) &&
          memory.memoryGrid[i, j] == IngestGridCell(r, i, j, old(memory.memoryGrid[i, j]))) &&
        planner.fuelStation == LastStation(bus.messages, name, old(planner.fuelStation))
    {
      var ms := bus.messages;
      ghost var seen: seq<Sensed> := [];
      var k := 0;
      while k < |ms|
        invariant 0 <= k <= |ms|
        invariant Valid()
        invariant seen == Received(ms[..k], name)
        invariant memory.closest == ClosestAfter(old(memory.closest), seen, x, y, memory.width, memory.height)
        invariant forall i, j :: InGrid(memory.width, memory.height, i, j) ==>
          memory.objects[i, j] == IngestCell(seen, i, j, old(memory.objects[i, j]), clock.step) &&
          memory.memoryGrid[i, j] == IngestGridCell(seen, i, j, old(memory.memoryGrid[i, j]))
        invariant planner.fuelStation == LastStation(ms[..k], name, old(planner.fuelStation))
      {
        ReceiveStep(ms, k, name, old(memory.closest), x, y, memory.width, memory.height, old(planner.fuelStation));
        ghost var r := Receipt(ms[k], name);
        ReceiveIfAddressed(ms[k], clock);
        forall i, j | InGrid(memory.width, memory.height, i, j)
          ensures memory.objects[i, j] == IngestCell(seen + [r], i, j, old(memory.objects[i, j]), clock.step)
          ensures memory.memoryGrid[i, j] == IngestGridCell(seen + [r], i, j, old(memory.memoryGrid[i, j]))
        {
          IngestStep(seen, r, i, j, old(memory.objects[i, j]), old(memory.memoryGrid[i, j]), clock.step);
        }
        seen := seen + [r];
        k := k + 1;
      }
      assert ms[..|ms|] == ms;
    }

    /** communicate: announce the fuel stations in sight, then receive everything addressed to the agent. */
    method Communicate(grid: ObjectGrid, clock: Clock)
      requires Valid() && BusOk()
      modifies bus, memory, memory.objects, memory.memoryGrid, planner`fuelStation, planner`foundFuelStation
      ensures Valid() && BusOk()
      ensures bus.messages ==
        old(bus.messages) + Announcements(name, StationsFrom(grid, memory.width, memory.height, x, y, sensorRange, 0))
      ensures var r := Received(bus.messages, name);
        memory.closest == ClosestAfter(old(memory.closest), r, x, y, memory.width, memory.height) &&
        (forall i, j :: InGrid(memory.width, memory.height, i, j) ==>
          memory.objects[i, j] == IngestCell(r, i, j, old(memory.objects[i, j]), clock.step) &&
          memory.memoryGrid[i, j] == IngestGridCell(r, i, j, old(memory.memoryGrid[i, j])))
      ensures planner.fuelStation == LastStation(bus.messages, name, Handed(
        StationsFrom(grid, memory.width, memory.height, x, y, sensorRange, 0), old(planner.fuelStation)))
    {
      Discover(grid);
      Consume(clock);
    }

    /**
     * The PICKUP branch of act: below full load, a tile in the environment
     * at the agent's cell is picked up, forgotten, announced to everybody as
     * TILE_PICKED_UP, and communicate runs on the environment as it is after
     * the pickup; a tile only remembered there is forgotten.
     */
    method PickUp(grid: ObjectGrid, after: ObjectGrid, clock: Clock)
      requires Valid() && BusOk()
      modifies this`carried, bus, memory, memory.objects, memory.memoryGrid, planner`fuelStation, planner`foundFuelStation
      ensures Valid() && BusOk()
      ensures old(carried) >= MAX_CARRIED_TILES ==>
        carried == old(carried) && bus.messages == old(bus.messages) &&
        unchanged(memory, memory.objects, memory.memoryGrid) && unchanged(planner)
      ensures old(carried) < MAX_CARRIED_TILES && IsKind(grid(x, y), Tile) ==>
        carried == old(carried) + 1 &&
        bus.messages == old(bus.messages) + [Message(name, ALL, TilePickedUp, grid(x, y))] +
          Announcements(name, StationsFrom(after, memory.width, memory.height, x, y, sensorRange, 0)) &&
        (var r := Received(bus.messages, name);
         memory.closest == ClosestAfter(old(memory.closest), r, x, y, memory.width, memory.height) &&
         forall i, j :: InGrid(memory.width, memory.height, i, j) ==>
           memory.objects[i, j] == IngestCell(r, i, j, old(memory.objects[i, j]), clock.step) &&
           memory.memoryGrid[i, j] ==
             IngestGridCell(r, i, j, if i == x && j == y then None else old(memory.memoryGrid[i, j]))) &&
        planner.fuelStation == LastStation(bus.messages, name, Handed(
          StationsFrom(after, memory.width, memory.height, x, y, sensorRange, 0), old(planner.fuelStation)))
      ensures old(carried) < MAX_CARRIED_TILES && !IsKind(grid(x, y), Tile) ==>
        carried == old(carried) && bus.messages == old(bus.messages) && unchanged(memory, memory.objects) &&
        unchanged(planner) &&
        forall i, j :: InGrid(memory.width, memory.height, i, j) ==>
          memory.memoryGrid[i, j] ==
            if i == x && j == y && IsKind(old(memory.memoryGrid[x, y]), Tile) then None else old(memory.memoryGrid[i, j])
      ensures |bus.messages| >= old(|bus.messages|) && bus.messages[..old(|bus.messages|)] == old(bus.messages)
    {
      if CountTile() >= MAX_CARRIED_TILES {
        return;
      }
      var memoryObj := memory.memoryGrid[x, y];
      var envObj := grid(x, y);
      if envObj.Some? && envObj.value.kind == Tile {
        TakeTile(envObj.value, after, clock);
      } else if memoryObj.Some? && memoryObj.value.kind == Tile {
        memory.memoryGrid[x, y] := None;
      }
    }

    /**
     * Picking up `tile` in the PICKUP branch of act: the tile is carried, its
     * cell forgotten, its pickup announced, and communicate runs after it.
     */
    method TakeTile(tile: Entity, after: ObjectGrid, clock: Clock)
      requires Valid() && BusOk()
      modifies this`carried, bus, memory, memory.objects, memory.memoryGrid, planner`fuelStation, planner`foundFuelStation
      ensures Valid() && BusOk()
      ensures carried == old(carried) + 1
      ensures bus.messages == old(bus.messages) + [Message(name, ALL, TilePickedUp, Some(tile))] +
        Announcements(name, StationsFrom(after, memory.width, memory.height, x, y, sensorRange, 0))
      ensures var r := Received(bus.messages, name);
        memory.closest == ClosestAfter(old(memory.closest), r, x, y, memory.width, memory.height) &&
        forall i, j :: InGrid(memory.width, memory.height, i, j) ==>
          memory.objects[i, j] == IngestCell(r, i, j, old(memory.objects[i, j]), clock.step) &&
          memory.memoryGrid[i, j] ==
            IngestGridCell(r, i, j, if i == x && j == y then None else old(memory.memoryGrid[i, j]))
      ensures planner.fuelStation == LastStation(bus.messages, name, Handed(
          StationsFrom(after, memory.width, memory.height, x, y, sensorRange, 0), old(planner.fuelStation)))
      ensures |bus.messages| >= old(|bus.messages|) && bus.messages[..old(|bus.messages|)] == old(bus.messages)
    {
      PostPickup(tile);
      label posted:
      Communicate(after, clock);
      PostedAfter(old(bus.messages), Message(name, ALL, TilePickedUp, Some(tile)),
                  Announcements(name, StationsFrom(after, memory.width, memory.height, x, y, sensorRange, 0)));
      ghost var r := Received(bus.messages, name);
      forall i, j | InGrid(memory.width, memory.height, i, j)
        ensures memory.objects[i, j] == IngestCell(r, i, j, old(memory.objects[i, j]), clock.step)
        ensures memory.memoryGrid[i, j] ==
          IngestGridCell(r, i, j, if i == x && j == y then None else old(memory.memoryGrid[i, j]))
      {
        assert old@posted(memory.objects[i, j]) == old(memory.objects[i, j]);
        assert old@posted(memory.memoryGrid[i, j]) == if i == x && j == y then None else old(memory.memoryGrid[i, j]);
      }
    }

    /** The bookkeeping of a pickup before communicate: count the tile, forget the agent's cell, post TILE_PICKED_UP. */
    method PostPickup(tile: Entity)
      requires Valid() && BusOk()
      modifies this`carried, bus, memory.memoryGrid
      ensures Valid() && BusOk()
      ensures carried == old(carried) + 1
      ensures bus.messages == old(bus.messages) + [Message(name, ALL, TilePickedUp, Some(tile))]
      ensures unchanged(memory, memory.objects, planner)
      ensures forall i, j :: InGrid(memory.width, memory.height, i, j) ==>
        memory.memoryGrid[i, j] == if i == x && j == y then None else old(memory.memoryGrid[i, j])
    {
      carried := carried + 1;
      memory.memoryGrid[x, y] := None;
      bus.Post(Message(name, ALL, TilePickedUp, Some(tile)));
    }

    /** The PUTDOWN branch of act: with a tile, a remembered hole at the agent's cell is filled and forgotten. */
    method PutDown()
      requires Valid()
      modifies this`carried, memory.memoryGrid
      ensures Valid()
      ensures var filled := old(carried) > 0 && IsKind(old(memory.memoryGrid[x, y]), Hole);
        carried == old(carried) - (if filled then 1 else 0) &&
        forall i, j :: InGrid(memory.width, memory.height, i, j) ==>
          memory.memoryGrid[i, j] == if filled && i == x && j == y then None else old(memory.memoryGrid[i, j])
    {
      var obj := memory.memoryGrid[x, y];
      if obj.Some? && obj.value.kind == Hole {
        if CountTile() > 0 {
          carried := carried - 1;
          memory.memoryGrid[x, y] := None;
        }
      }
    }

    /** The REFUEL branch of act: on a remembered fuel station the tank is filled. */
    method RefuelAt()
      requires Valid()
      modifies this`fuelLevel
      ensures fuelLevel == if IsKind(memory.memoryGrid[x, y], FuelStation) then fuelCapacity else old(fuelLevel)
    {
      var obj := memory.memoryGrid[x, y];
      if obj.Some? && obj.value.kind == FuelStation {
        fuelLevel := fuelCapacity;
      }
    }

    /** The MOVE branch of act when the environment lets the agent through: one step, then communicate. */
    method MoveAndCommunicate(dir: Direction, grid: ObjectGrid, clock: Clock)
      requires Valid() && BusOk()
      requires InGrid(memory.width, memory.height, x + DX(dir), y + DY(dir))
      modifies this`x, this`y, bus, memory, memory.objects, memory.memoryGrid, planner`fuelStation, planner`foundFuelStation
      ensures Valid() && BusOk()
      ensures x == old(x) + DX(dir) && y == old(y) + DY(dir)
      ensures bus.messages ==
        old(bus.messages) + Announcements(name, StationsFrom(grid, memory.width, memory.height, x, y, sensorRange, 0))
      ensures |bus.messages| >= old(|bus.messages|) && bus.messages[..old(|bus.messages|)] == old(bus.messages)
      ensures var r := Received(bus.messages, name);
        memory.closest == ClosestAfter(old(memory.closest), r, x, y, memory.width, memory.height) &&
        (forall i, j :: InGrid(memory.width, memory.height, i, j) ==>
          memory.objects[i, j] == IngestCell(r, i, j, old(memory.objects[i, j]), clock.step) &&
          memory.memoryGrid[i, j] == IngestGridCell(r, i, j, old(memory.memoryGrid[i, j])))
      ensures planner.fuelStation == LastStation(bus.messages, name, Handed(
        StationsFrom(grid, memory.width, memory.height, x, y, sensorRange, 0), old(planner.fuelStation)))
    {
      x := x + DX(dir);
      y := y + DY(dir);
      Communicate(grid, clock);
    }

    /**
     * act: the primitive action of the thought. A MOVE the environment does
     * not block (`blocked` is its CellBlockedException) is followed by
     * communicate.
     */
    method Act(thought: Thought, grid: ObjectGrid, after: ObjectGrid, blocked: bool, clock: Clock)
      requires Valid() && BusOk()
      requires thought.action == Move && !blocked ==>
        InGrid(memory.width, memory.height, x + DX(thought.dir), y + DY(thought.dir))
      modifies this`x, this`y, this`carried, this`fuelLevel, bus, memory, memory.objects, memory.memoryGrid,
        planner`fuelStation, planner`foundFuelStation
      ensures Valid() && BusOk()
      ensures |bus.messages| >= old(|bus.messages|) && bus.messages[..old(|bus.messages|)] == old(bus.messages)
      ensures thought.action == Move && !blocked ==> x == old(x) + DX(thought.dir) && y == old(y) + DY(thought.dir)
      ensures !(thought.action == Move && !blocked) ==> x == old(x) && y == old(y)
      ensures fuelLevel == if thought.action == Refuel && IsKind(old(memory.memoryGrid[x, y]), FuelStation)
                           then fuelCapacity else old(fuelLevel)
      ensures carried == old(carried)
        + (if thought.action == Pickup && old(carried) < MAX_CARRIED_TILES && IsKind(grid(old(x), old(y)), Tile) then 1 else 0)
        - (if thought.action == Putdown && old(carried) > 0 && IsKind(old(memory.memoryGrid[x, y]), Hole) then 1 else 0)
      ensures thought.action == Pickup && old(carried) < MAX_CARRIED_TILES && IsKind(grid(x, y), Tile) ==>
        bus.messages == old(bus.messages) + [Message(name, ALL, TilePickedUp, grid(x, y))] +
          Announcements(name, StationsFrom(after, memory.width, memory.height, x, y, sensorRange, 0))
      ensures thought.action == Pickup && old(carried) < MAX_CARRIED_TILES && IsKind(grid(x, y), Tile) ==>
        var r := Received(bus.messages, name);
        memory.closest == ClosestAfter(old(memory.closest), r, x, y, memory.width, memory.height) &&
        forall i, j :: InGrid(memory.width, memory.height, i, j) ==>
          memory.objects[i, j] == IngestCell(r, i, j, old(memory.objects[i, j]), clock.step) &&
          memory.memoryGrid[i, j] ==
            IngestGridCell(r, i, j, if i == x && j == y then None else old(memory.memoryGrid[i, j]))
      ensures thought.action == Pickup && old(carried) < MAX_CARRIED_TILES && IsKind(grid(x, y), Tile) ==>
        planner.fuelStation == LastStation(bus.messages, name, Handed(
          StationsFrom(after, memory.width, memory.height, x, y, sensorRange, 0), old(planner.fuelStation)))
      ensures thought.action == Pickup && old(carried) < MAX_CARRIED_TILES && !IsKind(grid(x, y), Tile) ==>
        unchanged(memory, memory.objects) && unchanged(planner) &&
        forall i, j :: InGrid(memory.width, memory.height, i, j) ==>
          memory.memoryGrid[i, j] ==
            if i == x && j == y && IsKind(old(memory.memoryGrid[x, y]), Tile) then None else old(memory.memoryGrid[i, j])
      ensures thought.action == Putdown ==>
        unchanged(memory, memory.objects) && unchanged(planner) &&
        var filled := old(carried) > 0 && IsKind(old(memory.memoryGrid[x, y]), Hole);
        forall i, j :: InGrid(memory.width, memory.height, i, j) ==>
          memory.memoryGrid[i, j] == if filled && i == x && j == y then None else old(memory.memoryGrid[i, j])
      ensures thought.action == Refuel || (thought.action == Pickup && old(carried) >= MAX_CARRIED_TILES) ||
              (thought.action == Move && blocked) ==>
        unchanged(memory, memory.objects, memory.memoryGrid) && unchanged(planner)
      ensures thought.action == Putdown || thought.action == Refuel || (thought.action == Move && blocked) ||
              (thought.action == Pickup && (old(carried) >= MAX_CARRIED_TILES || !IsKind(grid(x, y), Tile))) ==>
        bus.messages == old(bus.messages)
      ensures thought.action == Move && !blocked ==>
        bus.messages ==
          old(bus.messages) + Announcements(name, StationsFrom(grid, memory.width, memory.height, x, y, sensorRange, 0))
      ensures thought.action == Move && !blocked ==>
        var r := Received(bus.messages, name);
        memory.closest == ClosestAfter(old(memory.closest), r, x, y, memory.width, memory.height) &&
        forall i, j :: InGrid(memory.width, memory.height, i, j) ==>
          memory.objects[i, j] == IngestCell(r, i, j, old(memory.objects[i, j]), clock.step) &&
          memory.memoryGrid[i, j] == IngestGridCell(r, i, j, old(memory.memoryGrid[i, j]))
      ensures thought.action == Move && !blocked ==>
        planner.fuelStation == LastStation(bus.messages, name, Handed(
          StationsFrom(grid, memory.width, memory.height, x, y, sensorRange, 0), old(planner.fuelStation)))
    {
      match thought.action
      case Pickup => PickUp(grid, after, clock);
      case Putdown => PutDown();
      case Refuel => RefuelAt();
      case Move =>
        if !blocked {
          MoveAndCommunicate(thought.dir, grid, clock);
        }
    }
  }
}
