/**
 * The v13 agent (Tileworld_v13 MyAgent): a mode machine (find fuel, collect,
 * fill, explore) re-evaluated every EVALUATION_PERIOD steps, the mode
 * handlers that turn the closest-in-sensor-range index into a thought, the
 * primitive actions and their edits of the memory grid, and the
 * communication round: discovery broadcasts deduplicated by position, then
 * consumption of the bus with each message applied at most once per agent.
 */
module AgentV13 {
  import opened World
  import opened Memory
  import opened Communication
  import P = PlannerV13

  const SENSOR_RANGE: int := 3
  /** Below this fuel level the agent looks for a fuel station. */
  const FUEL_THRESHOLD: int := 100
  const MAX_CARRIED_TILES: int := 3
  /** The mode is re-evaluated on every tenth call of think. */
  const EVALUATION_PERIOD: int := 10

  /** Mode: EXPLORE, COLLECT, FILL, REFUEL, WAIT, FIND_FUEL_STATION. */
  datatype Mode = Exploring | Collecting | Filling | Refuelling | Waiting | FindingFuelStation

  /** What think reads: position, cargo, fuel, the planner's station and the closest index. */
  datatype Senses = Senses(x: int, y: int, carried: nat, fuel: int, station: Option<Entity>,
                           tile: Option<Entity>, hole: Option<Entity>, stationInRange: Option<Entity>)

  /** evaluateState: fuel first, then a full load, then a hole to fill, then a tile to take. */
  function ModeFor(s: Senses): (m: Mode)
    ensures m == FindingFuelStation <==> s.fuel < FUEL_THRESHOLD
    ensures m == Filling <==>
      (s.fuel >= FUEL_THRESHOLD && (s.carried >= MAX_CARRIED_TILES || (s.carried > 0 && s.hole.Some?)))
    ensures m == Collecting <==>
      (s.fuel >= FUEL_THRESHOLD && s.carried < MAX_CARRIED_TILES && !(s.carried > 0 && s.hole.Some?) && s.tile.Some?)
    ensures m != Refuelling && m != Waiting
  {
    if s.fuel < FUEL_THRESHOLD then FindingFuelStation
    else if s.carried >= MAX_CARRIED_TILES then Filling
    else if s.carried > 0 && s.hole.Some? then Filling
    else if s.carried < MAX_CARRIED_TILES && s.tile.Some? then Collecting
    else Exploring
  }

  /** The agent stands on e. */
  predicate On(s: Senses, e: Entity)
  {
    s.x == e.x && s.y == e.y
  }

  /** A MOVE along the first step of the route to (tx, ty), if the route has a step. */
  function StepToward(s: Senses, tx: int, ty: int, findPath: PathFinder): (t: Option<Thought>)
    ensures t.Some? <==> HasSteps(findPath(s.x, s.y, tx, ty))
    ensures t.Some? ==> t.value == Thought(Move, findPath(s.x, s.y, tx, ty).value[0])
  {
    var p := findPath(s.x, s.y, tx, ty);
    if p.Some? && |p.value| > 0 then Some(Thought(Move, p.value[0])) else None
  }

  /**
   * handleFuelStationSearch: REFUEL on the known station, else a step toward
   * it, else a step toward a station in sensor range; None means explore.
   */
  function FuelSearch(s: Senses, findPath: PathFinder): Option<Thought>
  {
    var known :=
      if s.station.Some? then
        if On(s, s.station.value) then Some(Thought(Refuel, Z))
        else StepToward(s, s.station.value.x, s.station.value.y, findPath)
      else None;
    if known.Some? then known
    else if s.stationInRange.Some? then StepToward(s, s.stationInRange.value.x, s.stationInRange.value.y, findPath)
    else None
  }

  /**
   * handleTileCollection in mode `mode`: at full load it switches to filling;
   * otherwise PICKUP on the closest tile, or a step toward it. The result is
   * the mode afterwards and the thought, None meaning explore.
   */
  function Collect(mode: Mode, s: Senses, findPath: PathFinder): (Mode, Option<Thought>)
    decreases if s.carried >= MAX_CARRIED_TILES then 1 else 0
  {
    if s.carried >= MAX_CARRIED_TILES then Fill(Filling, s, findPath)
    else if s.tile.Some? then
      if On(s, s.tile.value) then (mode, Some(Thought(Pickup, Z)))
      else (mode, StepToward(s, s.tile.value.x, s.tile.value.y, findPath))
    else (mode, None)
  }

  /**
   * handleHoleFilling in mode `mode`: with no tile it switches to collecting;
   * otherwise PUTDOWN on the closest hole, or a step toward it.
   */
  function Fill(mode: Mode, s: Senses, findPath: PathFinder): (Mode, Option<Thought>)
    decreases if s.carried == 0 then 1 else 0
  {
    if s.carried == 0 then Collect(Collecting, s, findPath)
    else if s.hole.Some? then
      if On(s, s.hole.value) then (mode, Some(Thought(Putdown, Z)))
      else (mode, StepToward(s, s.hole.value.x, s.hole.value.y, findPath))
    else (mode, None)
  }

  /** The switch of think: the handler of the mode; None means the planner's exploration step. */
  function Respond(mode: Mode, s: Senses, findPath: PathFinder): (Mode, Option<Thought>)
  {
    match mode
    case FindingFuelStation => (mode, FuelSearch(s, findPath))
    case Collecting => Collect(mode, s, findPath)
    case Filling => Fill(mode, s, findPath)
    case _ => (mode, None)
  }

  /**
   * The handlers settle after at most one switch: collecting at full load
   * ends in filling, filling with no tile ends in collecting, every other
   * mode is kept.
   */
  lemma RespondMode(mode: Mode, s: Senses, findPath: PathFinder)
    ensures var m := Respond(mode, s, findPath).0;
      m == (if mode == Collecting && s.carried >= MAX_CARRIED_TILES then Filling
            else if mode == Filling && s.carried == 0 then Collecting
            else mode)
  {
    if mode == Collecting && s.carried >= MAX_CARRIED_TILES {
      assert Respond(mode, s, findPath) == Fill(Filling, s, findPath);
    } else if mode == Filling && s.carried == 0 {
      assert Respond(mode, s, findPath) == Collect(Collecting, s, findPath);
    }
  }

  /**
   * What a handler may answer: a primitive action only standing on its
   * target (PICKUP below full load on the closest tile, PUTDOWN with cargo on
   * the closest hole, REFUEL on the known station while searching for fuel,
   * all with direction Z); anything else is a MOVE.
   */
  predicate Justified(mode: Mode, s: Senses, t: Option<Thought>)
  {
    t.Some? ==> match t.value.action
      case Pickup => t.value.dir == Z && s.carried < MAX_CARRIED_TILES && s.tile.Some? && On(s, s.tile.value)
      case Putdown => t.value.dir == Z && s.carried > 0 && s.hole.Some? && On(s, s.hole.value)
      case Refuel => t.value.dir == Z && mode == FindingFuelStation && s.station.Some? && On(s, s.station.value)
      case Move => true
  }

  lemma {:induction false} CollectJustified(mode: Mode, s: Senses, findPath: PathFinder)
    ensures Justified(mode, s, Collect(mode, s, findPath).1)
    decreases if s.carried >= MAX_CARRIED_TILES then 1 else 0
  {
    if s.carried >= MAX_CARRIED_TILES {
      assert Collect(mode, s, findPath) == Fill(Filling, s, findPath);
      FillJustified(Filling, s, findPath);
    }
  }

  lemma {:induction false} FillJustified(mode: Mode, s: Senses, findPath: PathFinder)
    ensures Justified(mode, s, Fill(mode, s, findPath).1)
    decreases if s.carried == 0 then 1 else 0
  {
    if s.carried == 0 {
      assert Fill(mode, s, findPath) == Collect(Collecting, s, findPath);
      CollectJustified(Collecting, s, findPath);
    }
  }

  /** Every answer of think's switch is justified. */
  lemma RespondJustified(mode: Mode, s: Senses, findPath: PathFinder)
    ensures Justified(mode, s, Respond(mode, s, findPath).1)
  {
    match mode
    case Collecting => CollectJustified(mode, s, findPath);
    case Filling => FillJustified(mode, s, findPath);
    case _ =>
  }

  /** Low fuel, at an evaluation step, always leads to the fuel-station search. */
  lemma LowFuelSearches(s: Senses, findPath: PathFinder)
    requires s.fuel < FUEL_THRESHOLD
    ensures Respond(ModeFor(s), s, findPath) == (FindingFuelStation, FuelSearch(s, findPath))
  {
  }

  /** The entity carried by m stands at p. */
  predicate CarriesAt(m: Message, p: Pos)
  {
    m.entity.Some? && m.entity.value.x == p.x && m.entity.value.y == p.y
  }

  /** Some message of ms carries an entity at p. */
  predicate Covered(ms: seq<Message>, p: Pos)
  {
    exists k :: 0 <= k < |ms| && CarriesAt(ms[k], p)
  }

  lemma CoveredGrows(ms: seq<Message>, m: Message, p: Pos)
    requires Covered(ms, p)
    ensures Covered(ms + [m], p)
  {
    var k :| 0 <= k < |ms| && CarriesAt(ms[k], p);
    assert (ms + [m])[k] == ms[k];
  }

  /** The message type a discovery of an entity of kind k is posted with. */
  function DiscoveryType(k: Kind): (t: MessageType)
    ensures t == FuelStationFound <==> k == FuelStation
    ensures t == TileFound <==> k != FuelStation
  {
    if k == FuelStation then FuelStationFound else TileFound
  }

  /** Offsets of the sensor square. */
  predicate InSquare(a: int, b: int)
  {
    -SENSOR_RANGE <= a <= SENSOR_RANGE && -SENSOR_RANGE <= b <= SENSOR_RANGE
  }

  /** Offset (a, b) comes strictly before (c, d) in x-major order. */
  predicate Before(a: int, b: int, c: int, d: int)
  {
    a < c || (a == c && b < d)
  }

  /** The position of the entity the environment shows at offset (a, b) from (x, y), if any. */
  function Sighted(grid: ObjectGrid, width: int, height: int, x: int, y: int, a: int, b: int): Option<Pos>
  {
    if InGrid(width, height, x + a, y + b) && grid(x + a, y + b).Some? then
      Some(Pos(grid(x + a, y + b).value.x, grid(x + a, y + b).value.y))
    else None
  }

  /** A discovery posted by the agent named `name` at `millis`. */
  predicate Discovery(m: Message, name: string)
  {
    m.senderId == name && m.to.None? && m.isBroadcast && m.entity.Some? &&
    m.messageType == DiscoveryType(m.entity.value.kind)
  }

  /** Where the entity a message carries stands. */
  function Place(e: Entity): Pos
  {
    Pos(e.x, e.y)
  }

  /**
   * Every message of ms from index n on carries an entity, at a position no
   * earlier message of ms is about.
   */
  predicate PostedApart(n: nat, ms: seq<Message>)
  {
    forall k :: n <= k < |ms| ==> ms[k].entity.Some? && !Covered(ms[..k], Place(ms[k].entity.value))
  }

  lemma PostedApartGrows(n: nat, ms: seq<Message>, m: Message)
    requires n <= |ms| && PostedApart(n, ms)
    requires m.entity.Some? && !Covered(ms, Place(m.entity.value))
    ensures PostedApart(n, ms + [m])
  {
    forall k | n <= k < |ms + [m]|
      ensures (ms + [m])[k].entity.Some? && !Covered((ms + [m])[..k], Place((ms + [m])[k].entity.value))
    {
      if k < |ms| {
        assert (ms + [m])[..k] == ms[..k];
      } else {
        assert (ms + [m])[..k] == ms;
      }
    }
  }

  /**
   * The state of communicate's scan of the sensor square around (x, y) just
   * before offset (i, j): the messages of ms from index n on are discoveries
   * by `name` of entities the square shows, each about a position no earlier
   * message is about, and every entity the square shows before (i, j), in
   * x-major order, has a message on ms.
   */
  ghost predicate Scanned(ms: seq<Message>, n: nat, name: string, grid: ObjectGrid, width: int, height: int,
                          x: int, y: int, i: int, j: int)
  {
    n <= |ms| && Reports(ms[n..], name, grid, width, height, x, y) && PostedApart(n, ms) &&
    forall a, b :: InSquare(a, b) && Before(a, b, i, j) && Sighted(grid, width, height, x, y, a, b).Some? ==>
      Covered(ms, Sighted(grid, width, height, x, y, a, b).value)
  }

  /** Nothing is scanned before the first offset of the square. */
  lemma ScanStarts(ms: seq<Message>, name: string, grid: ObjectGrid, width: int, height: int, x: int, y: int)
    ensures Scanned(ms, |ms|, name, grid, width, height, x, y, -SENSOR_RANGE, -SENSOR_RANGE)
  {
    assert ms[|ms|..] == [];
  }

  /**
   * One cell of the scan: the cell at (i, j) posted nothing, or posted a
   * discovery of what it shows at a position nothing on ms is about yet; either
   * way what it shows is covered afterwards.
   */
  lemma ScanStep(ms: seq<Message>, ms2: seq<Message>, posted: Option<Message>, n: nat, name: string,
                 grid: ObjectGrid, width: int, height: int, x: int, y: int, i: int, j: int)
    requires Scanned(ms, n, name, grid, width, height, x, y, i, j) && InSquare(i, j)
    requires posted.None? ==> ms2 == ms
    requires posted.Some? ==>
      ms2 == ms + [posted.value] && Discovery(posted.value, name) &&
      !Covered(ms, Place(posted.value.entity.value)) && Shows(grid, width, height, x, y, i, j, posted.value.entity.value)
    requires Sighted(grid, width, height, x, y, i, j).Some? ==> Covered(ms2, Sighted(grid, width, height, x, y, i, j).value)
    ensures Scanned(ms2, n, name, grid, width, height, x, y, i, j + 1)
  {
    if posted.Some? {
      PostedApartGrows(n, ms, posted.value);
      Extends(ms2, ms, n);
      ReportsOne(posted.value, name, grid, width, height, x, y, i, j);
      ReportsAppend(ms[n..], [posted.value], name, grid, width, height, x, y);
      forall a, b | InSquare(a, b) && Before(a, b, i, j) && Sighted(grid, width, height, x, y, a, b).Some?
        ensures Covered(ms2, Sighted(grid, width, height, x, y, a, b).value)
      {
        CoveredGrows(ms, posted.value, Sighted(grid, width, height, x, y, a, b).value);
      }
    }
  }

  /** A column scanned to its end is the scan before the next column. */
  lemma ScanNextColumn(ms: seq<Message>, n: nat, name: string, grid: ObjectGrid, width: int, height: int,
                       x: int, y: int, i: int)
    requires Scanned(ms, n, name, grid, width, height, x, y, i, SENSOR_RANGE + 1)
    ensures Scanned(ms, n, name, grid, width, height, x, y, i + 1, -SENSOR_RANGE)
  {
  }

  /** The recipient test of communicate: no recipient, "ALL", or the agent's name. */
  predicate AddressedTo(m: Message, name: string)
  {
    m.to.None? || m.to == Some(ALL) || m.to == Some(name)
  }

  /**
   * The messages of ms that a consumption pass by `name` receives, in bus
   * order: those addressed to it and not in `done`, the ones it had
   * processed before the pass; a message met again was processed the
   * first time.
   */
  ghost function Pending(ms: seq<Message>, name: string, done: set<Message>): seq<Message>
  {
    if ms == [] then []
    else
      var front, last := ms[..|ms| - 1], ms[|ms| - 1];
      Pending(front, name, done) + (if AddressedTo(last, name) && last !in done && last !in front then [last] else [])
  }

  /** The pending messages are exactly the messages of ms addressed to `name` and not in `done`. */
  lemma {:induction false} PendingMembers(ms: seq<Message>, name: string, done: set<Message>)
    ensures forall m :: m in Pending(ms, name, done) ==> m in ms && AddressedTo(m, name) && m !in done
    ensures forall m :: m in ms && AddressedTo(m, name) && m !in done ==> m in Pending(ms, name, done)
  {
    if ms != [] {
      var front, last := ms[..|ms| - 1], ms[|ms| - 1];
      assert ms == front + [last];
      PendingMembers(front, name, done);
    }
  }

  /** The pending messages of the first i + 1 of ms: those of the first i, then possibly ms[i]. */
  lemma PendingStep(ms: seq<Message>, i: nat, name: string, done: set<Message>)
    requires i < |ms|
    ensures Pending(ms[..i + 1], name, done) ==
      Pending(ms[..i], name, done) + (if AddressedTo(ms[i], name) && ms[i] !in done && ms[i] !in ms[..i] then [ms[i]] else [])
  {
    assert ms[..i + 1][..i] == ms[..i];
  }

  /**
   * One more message of a consumption pass over ms: when it is logged
   * exactly if it is pending, the log since start stays the pending
   * messages of a prefix of ms, one longer.
   */
  lemma LogPending(log: seq<Message>, start: nat, ms: seq<Message>, i: nat, name: string, done: set<Message>,
                   logged: bool)
    requires start <= |log| && i < |ms| && log[start..] == Pending(ms[..i], name, done)
    requires logged <==> AddressedTo(ms[i], name) && ms[i] !in done && ms[i] !in ms[..i]
    ensures var next := log + (if logged then [ms[i]] else []);
      next[..start] == log[..start] && next[start..] == Pending(ms[..i + 1], name, done)
  {
    PendingStep(ms, i, name, done);
    assert (log + [ms[i]])[start..] == log[start..] + [ms[i]];
  }

  /**
   * Posting a message `name` has not processed keeps every message since
   * n unprocessed by it.
   */
  lemma UnprocessedPosted(ms: seq<Message>, n: nat, m: Message, name: string)
    requires n <= |ms| && (forall c :: c in ms[n..] ==> !c.IsProcessedBy(name)) && !m.IsProcessedBy(name)
    ensures forall c :: c in (ms + [m])[n..] ==> !c.IsProcessedBy(name)
  {
    assert (ms + [m])[n..] == ms[n..] + [m];
  }

  /** The messages of ms that `name` has processed. */
  ghost function ProcessedAmong(ms: seq<Message>, name: string): set<Message>
    reads ms
  {
    set m | m in ms && m.IsProcessedBy(name)
  }

  /** The environment shows e at offset (a, b) from (x, y), inside the grid. */
  predicate Shows(grid: ObjectGrid, width: int, height: int, x: int, y: int, a: int, b: int, e: Entity)
  {
    InGrid(width, height, x + a, y + b) && grid(x + a, y + b) == Some(e)
  }

  /** The environment shows e somewhere in the sensor square around (x, y). */
  ghost predicate ShownInSquare(grid: ObjectGrid, width: int, height: int, x: int, y: int, e: Entity)
  {
    exists a, b :: InSquare(a, b) && Shows(grid, width, height, x, y, a, b, e)
  }

  /**
   * Every message of ms is a discovery by `name` of an entity the
   * environment shows in the sensor square around (x, y).
   */
  ghost predicate Reports(ms: seq<Message>, name: string, grid: ObjectGrid, width: int, height: int, x: int, y: int)
  {
    forall k :: 0 <= k < |ms| ==> Discovery(ms[k], name) && ShownInSquare(grid, width, height, x, y, ms[k].entity.value)
  }

  lemma ReportsOne(m: Message, name: string, grid: ObjectGrid, width: int, height: int, x: int, y: int, a: int, b: int)
    requires Discovery(m, name) && InSquare(a, b) && Shows(grid, width, height, x, y, a, b, m.entity.value)
    ensures Reports([m], name, grid, width, height, x, y)
  {
    assert [m][0] == m;
  }

  lemma ReportsAppend(ms: seq<Message>, more: seq<Message>, name: string, grid: ObjectGrid, width: int, height: int,
                      x: int, y: int)
    requires Reports(ms, name, grid, width, height, x, y) && Reports(more, name, grid, width, height, x, y)
    ensures Reports(ms + more, name, grid, width, height, x, y)
  {
    forall k | 0 <= k < |ms + more|
      ensures Discovery((ms + more)[k], name)
      ensures ShownInSquare(grid, width, height, x, y, (ms + more)[k].entity.value)
    {
      if k < |ms| {
        assert (ms + more)[k] == ms[k];
      } else {
        assert (ms + more)[k] == more[k - |ms|];
      }
    }
  }

  /** A TILE_FOUND or FUEL_STATION_FOUND with an entity: receiving it ingests the entity. */
  predicate Ingests(m: Message)
  {
    m.entity.Some? && (m.messageType == TileFound || m.messageType == FuelStationFound)
  }

  /** A TILE_PICKED_UP with an entity: receiving it forgets the entity's cell. */
  predicate Forgets(m: Message)
  {
    m.entity.Some? && m.messageType == TilePickedUp
  }

  /** The percept of cell (i, j) once m is received at step `now`, prev before. */
  function PerceptOf(m: Message, i: int, j: int, prev: Option<Percept>, now: int): Option<Percept>
  {
    if Ingests(m) && CarriesAt(m, Pos(i, j)) then Some(Percept(m.entity.value, now)) else prev
  }

  /** The remembered entity of cell (i, j) once m is received, prev before. */
  function GridOf(m: Message, i: int, j: int, prev: Option<Entity>): Option<Entity>
  {
    if Ingests(m) && CarriesAt(m, Pos(i, j)) then m.entity
    else if Forgets(m) && CarriesAt(m, Pos(i, j)) then None
    else prev
  }

  /** The closest index once m is received by an agent at (ax, ay); entities outside the grid are not indexed. */
  function IndexOf(m: Message, c: map<Kind, Entity>, ax: int, ay: int, width: int, height: int): map<Kind, Entity>
  {
    if Ingests(m) && InGrid(width, height, m.entity.value.x, m.entity.value.y) then UpdateClosest(c, m.entity.value, ax, ay)
    else c
  }

  /** The planner's fuel station once m is received: an ingested fuel station replaces prev. */
  function StationOf(m: Message, prev: Option<Entity>): Option<Entity>
  {
    if Ingests(m) && m.entity.value.kind == FuelStation then m.entity else prev
  }

  /** PerceptOf over ms, first message first. */
  function PerceptAfter(ms: seq<Message>, i: int, j: int, prev: Option<Percept>, now: int): Option<Percept>
    decreases |ms|
  {
    if ms == [] then prev else PerceptOf(ms[|ms| - 1], i, j, PerceptAfter(ms[..|ms| - 1], i, j, prev, now), now)
  }

  /** GridOf over ms, first message first. */
  function GridAfter(ms: seq<Message>, i: int, j: int, prev: Option<Entity>): Option<Entity>
    decreases |ms|
  {
    if ms == [] then prev else GridOf(ms[|ms| - 1], i, j, GridAfter(ms[..|ms| - 1], i, j, prev))
  }

  /** IndexOf over ms, first message first. */
  function IndexAfter(ms: seq<Message>, c: map<Kind, Entity>, ax: int, ay: int, width: int, height: int): map<Kind, Entity>
    decreases |ms|
  {
    if ms == [] then c
    else IndexOf(ms[|ms| - 1], IndexAfter(ms[..|ms| - 1], c, ax, ay, width, height), ax, ay, width, height)
  }

  /** StationOf over ms, first message first. */
  function StationAfter(ms: seq<Message>, prev: Option<Entity>): Option<Entity>
    decreases |ms|
  {
    if ms == [] then prev else StationOf(ms[|ms| - 1], StationAfter(ms[..|ms| - 1], prev))
  }

  /** The agent's remembered cells, closest index and planner station, as values. */
  datatype MemView = MemView(objects: seq<seq<Option<Percept>>>, grid: seq<seq<Option<Entity>>>,
                             closest: map<Kind, Entity>, station: Option<Entity>)

  /** v holds width × height cells. */
  predicate Fits(v: MemView, width: int, height: int)
  {
    |v.objects| == width && |v.grid| == width &&
    forall p :: 0 <= p < width ==> |v.objects[p]| == height && |v.grid[p]| == height
  }

  /** v with the remembered entity of cell (x, y) forgotten. */
  function Forget(v: MemView, x: int, y: int): (r: MemView)
    requires 0 <= x < |v.grid| && 0 <= y < |v.grid[x]|
    ensures forall w, h :: Fits(v, w, h) ==> Fits(r, w, h)
    ensures r.objects == v.objects && r.closest == v.closest && r.station == v.station
    ensures |r.grid| == |v.grid| && forall i :: 0 <= i < |v.grid| ==> |r.grid[i]| == |v.grid[i]|
    ensures forall i, j :: 0 <= i < |v.grid| && 0 <= j < |v.grid[i]| ==>
      r.grid[i][j] == if i == x && j == y then None else v.grid[i][j]
  {
    v.(grid := v.grid[x := v.grid[x][y := None]])
  }

  /** Logging one more message extends the suffix logged since start by it. */
  lemma LogGrows(pre: seq<Message>, log: seq<Message>, start: nat, m: Message)
    requires start <= |log|
    ensures pre + (log + [m])[start..] == pre + log[start..] + [m]
  {
    assert (log + [m])[start..] == log[start..] + [m];
  }

  /** The first i + 1 elements of ms are its first i, then ms[i]. */
  lemma TakeOneMore(ms: seq<Message>, i: nat)
    requires i < |ms|
    ensures forall c :: c in ms[..i + 1] <==> c in ms[..i] || c == ms[i]
  {
    assert ms[..i + 1] == ms[..i] + [ms[i]];
  }

  /** A list that starts with a followed by m still starts with a, and m comes next. */
  lemma PostedFirst(s: seq<Message>, a: seq<Message>, m: Message)
    requires |s| > |a| && s[..|a| + 1] == a + [m]
    ensures s[..|a|] == a && s[|a|] == m
  {
    assert s[..|a|] == s[..|a| + 1][..|a|];
  }

  /** A sequence that extends p keeps p's prefixes, and its suffixes extend p's. */
  lemma Extends(s: seq<Message>, p: seq<Message>, n: nat)
    requires n <= |p| <= |s| && s[..|p|] == p
    ensures s[..n] == p[..n] && s[n..] == p[n..] + s[|p|..]
  {
    assert s == p + s[|p|..];
  }

  /** Receiving ms + [m] is receiving ms, then m: the cell of (i, j). */
  lemma CellAfterLast(ms: seq<Message>, m: Message, i: int, j: int, po: Option<Percept>, pg: Option<Entity>, now: int)
    ensures PerceptAfter(ms + [m], i, j, po, now) == PerceptOf(m, i, j, PerceptAfter(ms, i, j, po, now), now)
    ensures GridAfter(ms + [m], i, j, pg) == GridOf(m, i, j, GridAfter(ms, i, j, pg))
  {
    assert (ms + [m])[..|ms|] == ms;
  }

  /** Receiving ms + [m] is receiving ms, then m: the closest index and the planner's station. */
  lemma IndexAfterLast(ms: seq<Message>, m: Message, c: map<Kind, Entity>, ax: int, ay: int, width: int, height: int,
                       st: Option<Entity>)
    ensures IndexAfter(ms + [m], c, ax, ay, width, height) == IndexOf(m, IndexAfter(ms, c, ax, ay, width, height), ax, ay, width, height)
    ensures StationAfter(ms + [m], st) == StationOf(m, StationAfter(ms, st))
  {
    assert (ms + [m])[..|ms|] == ms;
  }

  /** Receiving a + b is receiving a, then b: the cell of (i, j). */
  lemma {:induction false} CellAfterAppend(a: seq<Message>, b: seq<Message>, i: int, j: int,
                                           po: Option<Percept>, pg: Option<Entity>, now: int)
    ensures PerceptAfter(a + b, i, j, po, now) == PerceptAfter(b, i, j, PerceptAfter(a, i, j, po, now), now)
    ensures GridAfter(a + b, i, j, pg) == GridAfter(b, i, j, GridAfter(a, i, j, pg))
    decreases |b|
  {
    if b == [] {
      assert a + b == a;
    } else {
      assert (a + b)[..|a + b| - 1] == a + b[..|b| - 1];
      CellAfterAppend(a, b[..|b| - 1], i, j, po, pg, now);
    }
  }

  /** Receiving a + b is receiving a, then b: the closest index. */
  lemma {:induction false} IndexAfterAppend(a: seq<Message>, b: seq<Message>, c: map<Kind, Entity>,
                                            ax: int, ay: int, width: int, height: int)
    ensures IndexAfter(a + b, c, ax, ay, width, height) ==
      IndexAfter(b, IndexAfter(a, c, ax, ay, width, height), ax, ay, width, height)
    decreases |b|
  {
    if b == [] {
      assert a + b == a;
    } else {
      assert (a + b)[..|a + b| - 1] == a + b[..|b| - 1];
      IndexAfterAppend(a, b[..|b| - 1], c, ax, ay, width, height);
    }
  }

  /** Receiving a + b is receiving a, then b: the planner's station. */
  lemma {:induction false} StationAfterAppend(a: seq<Message>, b: seq<Message>, st: Option<Entity>)
    ensures StationAfter(a + b, st) == StationAfter(b, StationAfter(a, st))
    decreases |b|
  {
    if b == [] {
      assert a + b == a;
    } else {
      assert (a + b)[..|a + b| - 1] == a + b[..|b| - 1];
      StationAfterAppend(a, b[..|b| - 1], st);
    }
  }

  /** Receiving m writes the remembered entity of cell (i, j): it finds or picks up something there. */
  predicate Writes(m: Message, i: int, j: int)
  {
    CarriesAt(m, Pos(i, j)) && (Ingests(m) || Forgets(m))
  }

  /** ms[k] is the last message of ms that writes cell (i, j). */
  predicate LastWriter(ms: seq<Message>, i: int, j: int, k: int)
  {
    0 <= k < |ms| && Writes(ms[k], i, j) && forall l :: k < l < |ms| ==> !Writes(ms[l], i, j)
  }

  /**
   * A cell no message of ms ingests or forgets keeps what it had; otherwise
   * the last such message decides it.
   */
  lemma {:induction false} GridAfterLastWriter(ms: seq<Message>, i: int, j: int, prev: Option<Entity>)
    ensures (forall k :: 0 <= k < |ms| ==> !Writes(ms[k], i, j)) ==> GridAfter(ms, i, j, prev) == prev
    ensures forall k :: LastWriter(ms, i, j, k) ==>
      GridAfter(ms, i, j, prev) == (if Ingests(ms[k]) then ms[k].entity else None)
    decreases |ms|
  {
    if ms != [] {
      var front := ms[..|ms| - 1];
      var last := ms[|ms| - 1];
      GridAfterLastWriter(front, i, j, prev);
      assert GridAfter(ms, i, j, prev) == GridOf(last, i, j, GridAfter(front, i, j, prev));
      if (forall k :: 0 <= k < |ms| ==> !Writes(ms[k], i, j)) {
        assert !Writes(last, i, j);
        assert forall k :: 0 <= k < |front| ==> front[k] == ms[k];
      }
      forall k | LastWriter(ms, i, j, k)
        ensures GridAfter(ms, i, j, prev) == (if Ingests(ms[k]) then ms[k].entity else None)
      {
        if k < |ms| - 1 {
          assert !Writes(last, i, j);
          assert LastWriter(front, i, j, k) by {
            forall l | k < l < |front| ensures !Writes(front[l], i, j) {
              assert front[l] == ms[l];
            }
          }
        }
      }
    }
  }

  /** Receiving the same messages twice leaves every cell and the planner's station as receiving them once. */
  lemma ReceiveTwiceIsOnce(ms: seq<Message>, i: int, j: int, po: Option<Percept>, pg: Option<Entity>, now: int,
                           st: Option<Entity>)
    ensures PerceptAfter(ms + ms, i, j, po, now) == PerceptAfter(ms, i, j, po, now)
    ensures GridAfter(ms + ms, i, j, pg) == GridAfter(ms, i, j, pg)
    ensures StationAfter(ms + ms, st) == StationAfter(ms, st)
  {
    CellAfterAppend(ms, ms, i, j, po, pg, now);
    StationAfterAppend(ms, ms, st);
    CellAgain(ms, i, j, PerceptAfter(ms, i, j, po, now), po, GridAfter(ms, i, j, pg), pg, now);
    StationAgain(ms, StationAfter(ms, st), st);
  }

  /** With a writer of (i, j) in ms the starting value is irrelevant; without one it is the result. */
  lemma {:induction false} CellAgain(ms: seq<Message>, i: int, j: int, po1: Option<Percept>, po2: Option<Percept>,
                                     pg1: Option<Entity>, pg2: Option<Entity>, now: int)
    ensures (exists k :: 0 <= k < |ms| && Ingests(ms[k]) && CarriesAt(ms[k], Pos(i, j))) ==>
      PerceptAfter(ms, i, j, po1, now) == PerceptAfter(ms, i, j, po2, now)
    ensures (forall k :: 0 <= k < |ms| ==> !(Ingests(ms[k]) && CarriesAt(ms[k], Pos(i, j)))) ==>
      PerceptAfter(ms, i, j, po1, now) == po1
    ensures (exists k :: 0 <= k < |ms| && (Ingests(ms[k]) || Forgets(ms[k])) && CarriesAt(ms[k], Pos(i, j))) ==>
      GridAfter(ms, i, j, pg1) == GridAfter(ms, i, j, pg2)
    ensures (forall k :: 0 <= k < |ms| ==> !((Ingests(ms[k]) || Forgets(ms[k])) && CarriesAt(ms[k], Pos(i, j)))) ==>
      GridAfter(ms, i, j, pg1) == pg1
    decreases |ms|
  {
    if ms != [] {
      var front := ms[..|ms| - 1];
      CellAgain(front, i, j, po1, po2, pg1, pg2, now);
      forall k | 0 <= k < |front| ensures front[k] == ms[k] { }
    }
  }

  /** With a fuel-station announcement in ms the starting station is irrelevant; without one it is the result. */
  lemma {:induction false} StationAgain(ms: seq<Message>, s1: Option<Entity>, s2: Option<Entity>)
    ensures (exists k :: 0 <= k < |ms| && Ingests(ms[k]) && ms[k].entity.value.kind == FuelStation) ==>
      StationAfter(ms, s1) == StationAfter(ms, s2)
    ensures (forall k :: 0 <= k < |ms| ==> !(Ingests(ms[k]) && ms[k].entity.value.kind == FuelStation)) ==>
      StationAfter(ms, s1) == s1
    decreases |ms|
  {
    if ms != [] {
      var front := ms[..|ms| - 1];
      StationAgain(front, s1, s2);
      forall k | 0 <= k < |front| ensures front[k] == ms[k] { }
    }
  }

  class Agent {
    const name: string
    const memory: MyMemory
    const planner: P.Planner
    /** The environment's message list, shared by all agents. */
    const bus: MessageBus
    /** The fuel level TWAgent.refuel restores. */
    const fuelCapacity: int
    var x: int
    var y: int
    var fuelLevel: int
    /** carriedTiles.size(). */
    var carried: nat
    var currentMode: Mode
    var explorationStep: int
    /** The messages this agent has applied, in order. */
    ghost var applied: seq<Message>

    ghost predicate Valid()
      reads this, memory, planner
    {
      planner.memory == memory && planner.Valid() &&
      planner.width == memory.width && planner.height == memory.height &&
      InGrid(memory.width, memory.height, x, y)
    }

    /** Every message on the bus keeps a duplicate-free processedBy list. */
    ghost predicate BusValid()
      reads bus, bus.messages
    {
      forall m :: m in bus.messages ==> m.Valid()
    }

    /** No message was applied twice, and every applied message is marked as processed by this agent. */
    ghost predicate AppliedOnce()
      reads this, applied
    {
      (forall i, j :: 0 <= i < j < |applied| ==> applied[i] != applied[j]) &&
      (forall m :: m in applied ==> m.IsProcessedBy(name))
    }

    ghost function Snapshot(): Senses
      reads this, memory, planner
    {
      Senses(x, y, carried, fuelLevel, if planner.foundFuelStation then planner.fuelStation else None,
             if Tile in memory.closest then Some(memory.closest[Tile]) else None,
             if Hole in memory.closest then Some(memory.closest[Hole]) else None,
             if FuelStation in memory.closest then Some(memory.closest[FuelStation]) else None)
    }

    /** The planner's execute from the current state, as its specification gives it. */
    ghost function PlannerStep(clock: Clock): (P.PlanState, Direction)
      requires Valid()
      reads this, memory, memory.objects, planner
    {
      P.ExecuteOf(planner.State(), planner.Found(planner.currentTask, x, y, clock.step),
                  planner.LocValid(planner.taskLocation), x, y, clock.millis, planner.width, planner.height,
                  planner.findPath)
    }

    /** The remembered cells, the closest index and the planner's station, as values. */
    ghost function View(): (v: MemView)
      requires memory.Valid()
      reads memory, memory.objects, memory.memoryGrid, planner
      ensures Fits(v, memory.width, memory.height)
      ensures forall i, j :: 0 <= i < memory.width && 0 <= j < memory.height ==>
        v.objects[i][j] == memory.objects[i, j] && v.grid[i][j] == memory.memoryGrid[i, j]
      ensures v.closest == memory.closest && v.station == planner.fuelStation
    {
      MemView(seq(memory.width, i requires 0 <= i < memory.objects.Length0 reads memory.objects =>
                seq(memory.height, j requires 0 <= j < memory.objects.Length1 reads memory.objects => memory.objects[i, j])),
              seq(memory.width, i requires 0 <= i < memory.memoryGrid.Length0 reads memory.memoryGrid =>
                seq(memory.height, j requires 0 <= j < memory.memoryGrid.Length1 reads memory.memoryGrid =>
                  memory.memoryGrid[i, j])),
              memory.closest, planner.fuelStation)
    }

    /**
     * The remembered cells, the closest index and the planner's station are
     * where receiving ms, in order, at step `now` by the agent where it
     * stands, takes them from v.
     */
    ghost predicate Reflects(ms: seq<Message>, v: MemView, now: int)
      reads this`x, this`y, memory, memory.objects, memory.memoryGrid, planner
    {
      memory.Valid() && Fits(v, memory.width, memory.height) &&
      (forall i, j :: 0 <= i < memory.width && 0 <= j < memory.height ==>
        memory.objects[i, j] == PerceptAfter(ms, i, j, v.objects[i][j], now) &&
        memory.memoryGrid[i, j] == GridAfter(ms, i, j, v.grid[i][j])) &&
      memory.closest == IndexAfter(ms, v.closest, x, y, memory.width, memory.height) &&
      planner.fuelStation == StationAfter(ms, v.station)
    }

    /** Before anything is received the memory reflects itself. */
    lemma ReflectsItself(now: int)
      requires Valid()
      ensures Reflects([], View(), now)
    {
    }

    /**
     * An agent at (x, y) with a fresh memory of the width × height grid and a
     * fresh planner, in mode EXPLORE; the bus is the environment's.
     */
    constructor (name: string, x: int, y: int, bus: MessageBus, fuelLevel: int, fuelCapacity: int,
                 width: nat, height: nat, spiral: seq<Pos>, findPath: PathFinder)
      requires InGrid(width, height, x, y)
      ensures Valid() && AppliedOnce()
      ensures this.name == name && this.x == x && this.y == y && this.bus == bus
      ensures this.fuelLevel == fuelLevel && this.fuelCapacity == fuelCapacity
      ensures carried == 0 && currentMode == Exploring && explorationStep == 0 && applied == []
      ensures fresh(memory) && fresh(memory.objects) && fresh(memory.memoryGrid) && fresh(planner)
      ensures memory.width == width && memory.height == height && memory.memorySize == 0
      ensures planner.findPath == findPath && !planner.foundFuelStation
    {
      this.name := name;
      this.x := x;
      this.y := y;
      this.bus := bus;
      this.fuelLevel := fuelLevel;
      this.fuelCapacity := fuelCapacity;
      var m := new MyMemory(width, height, spiral);
      this.memory := m;
      this.planner := new P.Planner(m, width, height, findPath, x, y);
      carried := 0;
      currentMode := Exploring;
      explorationStep := 0;
      applied := [];
    }

    /** CountTile. */
    function CountTile(): (n: int)
      reads this
      ensures n == carried
    {
      carried
    }

    /** evaluateState. */
    method EvaluateState()
      requires Valid()
      modifies this`currentMode
      ensures currentMode == ModeFor(old(Snapshot()))
    {
      if fuelLevel < FUEL_THRESHOLD {
        currentMode := FindingFuelStation;
        return;
      }
      var carriedTiles := CountTile();
      if carriedTiles >= MAX_CARRIED_TILES {
        currentMode := Filling;
        return;
      }
      var nearestTile := memory.GetClosestObjectInSensorRange(Tile);
      var nearestHole := memory.GetClosestObjectInSensorRange(Hole);
      if carriedTiles > 0 && nearestHole.Some? {
        currentMode := Filling;
      } else if carriedTiles < MAX_CARRIED_TILES && nearestTile.Some? {
        currentMode := Collecting;
      } else {
        currentMode := Exploring;
      }
    }

    /** handleExploration: a MOVE along the planner's next step. */
    method HandleExploration(clock: Clock) returns (t: Thought)
      requires Valid()
      modifies planner
      ensures Valid()
      ensures t == Thought(Move, old(PlannerStep(clock)).1) && planner.State() == old(PlannerStep(clock)).0
    {
      var direction := planner.Execute(x, y, clock);
      t := Thought(Move, direction);
    }

    /** handleFuelStationSearch. */
    method HandleFuelStationSearch(clock: Clock) returns (t: Thought)
      requires Valid()
      modifies planner
      ensures Valid()
      ensures var o := FuelSearch(old(Snapshot()), planner.findPath);
        (o.Some? ==> t == o.value && planner.State() == old(planner.State())) &&
        (o.None? ==> t == Thought(Move, old(PlannerStep(clock)).1) && planner.State() == old(PlannerStep(clock)).0)
    {
      if planner.foundFuelStation {
        var station := planner.fuelStation.value;
        if x == station.x && y == station.y {
          return Thought(Refuel, Z);
        }
        var path := planner.findPath(x, y, station.x, station.y);
        if path.Some? && |path.value| > 0 {
          return Thought(Move, path.value[0]);
        }
      }
      var entity := memory.GetClosestObjectInSensorRange(FuelStation);
      if entity.Some? {
        var path := planner.findPath(x, y, entity.value.x, entity.value.y);
        if path.Some? && |path.value| > 0 {
          return Thought(Move, path.value[0]);
        }
      }
      t := HandleExploration(clock);
    }

    /** handleTileCollection. */
    method HandleTileCollection(clock: Clock) returns (t: Thought)
      requires Valid()
      modifies this`currentMode, planner
      decreases if carried >= MAX_CARRIED_TILES then 1 else 0
      ensures Valid()
      ensures var (m, o) := Collect(old(currentMode), old(Snapshot()), planner.findPath);
        currentMode == m &&
        (o.Some? ==> t == o.value && planner.State() == old(planner.State())) &&
        (o.None? ==> t == Thought(Move, old(PlannerStep(clock)).1) && planner.State() == old(PlannerStep(clock)).0)
    {
      if CountTile() >= MAX_CARRIED_TILES {
        currentMode := Filling;
        t := HandleHoleFilling(clock);
        return;
      }
      var tile := memory.GetClosestObjectInSensorRange(Tile);
      if tile.Some? {
        if x == tile.value.x && y == tile.value.y {
          return Thought(Pickup, Z);
        }
        var path := planner.findPath(x, y, tile.value.x, tile.value.y);
        if path.Some? && |path.value| > 0 {
          return Thought(Move, path.value[0]);
        }
      }
      t := HandleExploration(clock);
    }

    /** handleHoleFilling. */
    method HandleHoleFilling(clock: Clock) returns (t: Thought)
      requires Valid()
      modifies this`currentMode, planner
      decreases if carried == 0 then 1 else 0
      ensures Valid()
      ensures var (m, o) := Fill(old(currentMode), old(Snapshot()), planner.findPath);
        currentMode == m &&
        (o.Some? ==> t == o.value && planner.State() == old(planner.State())) &&
        (o.None? ==> t == Thought(Move, old(PlannerStep(clock)).1) && planner.State() == old(PlannerStep(clock)).0)
    {
      if CountTile() == 0 {
        currentMode := Collecting;
        t := HandleTileCollection(clock);
        return;
      }
      var hole := memory.GetClosestObjectInSensorRange(Hole);
      if hole.Some? {
        if x == hole.value.x && y == hole.value.y {
          return Thought(Putdown, Z);
        }
        var path := planner.findPath(x, y, hole.value.x, hole.value.y);
        if path.Some? && |path.value| > 0 {
          return Thought(Move, path.value[0]);
        }
      }
      t := HandleExploration(clock);
    }

    /**
     * think: re-evaluate the mode on every EVALUATION_PERIOD-th call, count
     * the call, and answer with the handler of the mode.
     */
    method Think(clock: Clock) returns (t: Thought)
      requires Valid()
      modifies this`currentMode, this`explorationStep, planner
      ensures Valid()
      ensures explorationStep == old(explorationStep) + 1
      ensures var mode := if old(explorationStep) % EVALUATION_PERIOD == 0 then ModeFor(old(Snapshot()))
                          else old(currentMode);
        var (m, o) := Respond(mode, old(Snapshot()), planner.findPath);
        currentMode == m &&
        (o.Some? ==> t == o.value && planner.State() == old(planner.State())) &&
        (o.None? ==> t == Thought(Move, old(PlannerStep(clock)).1) && planner.State() == old(PlannerStep(clock)).0)
    {
      ghost var snapshot := Snapshot();
      ghost var step := PlannerStep(clock);
      if explorationStep % EVALUATION_PERIOD == 0 {
        EvaluateState();
      }
      explorationStep := explorationStep + 1;
      assert Snapshot() == snapshot && PlannerStep(clock) == step;
      t := Dispatch(clock);
    }

    /** The handler switch of think: the handler of the current mode answers. */
    method Dispatch(clock: Clock) returns (t: Thought)
      requires Valid()
      modifies this`currentMode, planner
      ensures Valid()
      ensures var (m, o) := Respond(old(currentMode), old(Snapshot()), planner.findPath);
        currentMode == m &&
        (o.Some? ==> t == o.value && planner.State() == old(planner.State())) &&
        (o.None? ==> t == Thought(Move, old(PlannerStep(clock)).1) && planner.State() == old(PlannerStep(clock)).0)
    {
      match currentMode
      case FindingFuelStation => t := HandleFuelStationSearch(clock);
      case Collecting => t := HandleTileCollection(clock);
      case Filling => t := HandleHoleFilling(clock);
      case _ => t := HandleExploration(clock);
    }

    /** The dedup loop of communicate: some message on the bus carries an entity at e's position. */
    method AlreadySent(e: Entity) returns (r: bool)
      ensures r <==> Covered(bus.messages, Pos(e.x, e.y))
    {
      var ms := bus.messages;
      var i := 0;
      while i < |ms|
        invariant 0 <= i <= |ms|
        invariant forall k :: 0 <= k < i ==> !CarriesAt(ms[k], Pos(e.x, e.y))
      {
        var entity := ms[i].entity;
        if entity.Some? && entity.value.x == e.x && entity.value.y == e.y {
          return true;
        }
        i := i + 1;
      }
      return false;
    }

    /**
     * The discovery half of communicate: for each in-grid cell of the sensor
     * square, in x-major order, an entity no message on the bus is about yet
     * (by position, whatever its type) is posted as a broadcast, ingested into
     * memory, and, if it is a fuel station, handed to the planner. If the
     * memory reflected `pre` over `view` before, it reflects pre followed by
     * the posted messages afterwards.
     */
    method Discover(grid: ObjectGrid, clock: Clock, ghost pre: seq<Message>, ghost view: MemView)
      requires Valid() && BusValid() && Reflects(pre, view, clock.step)
      modifies memory, memory.objects, memory.memoryGrid, planner, bus
      ensures Valid() && BusValid()
      ensures |bus.messages| >= old(|bus.messages|) && bus.messages[..old(|bus.messages|)] == old(bus.messages)
      ensures forall m :: m in bus.messages ==> m in old(bus.messages) || fresh(m)
      ensures forall m :: m in bus.messages[old(|bus.messages|)..] ==> !m.IsProcessedBy(name)
      ensures Reports(bus.messages[old(|bus.messages|)..], name, grid, memory.width, memory.height, x, y)
      ensures PostedApart(old(|bus.messages|), bus.messages)
      ensures forall a, b :: InSquare(a, b) && Sighted(grid, memory.width, memory.height, x, y, a, b).Some? ==>
        Covered(bus.messages, Sighted(grid, memory.width, memory.height, x, y, a, b).value)
      ensures memory.Drift() == old(memory.Drift())
      ensures planner.State() == old(planner.State())
      ensures Reflects(pre + bus.messages[old(|bus.messages|)..], view, clock.step)
    {
      ghost var n := |bus.messages|;
      assert pre + bus.messages[n..] == pre;
      ScanStarts(bus.messages, name, grid, memory.width, memory.height, x, y);
      var i := -SENSOR_RANGE;
      while i <= SENSOR_RANGE
        invariant -SENSOR_RANGE <= i <= SENSOR_RANGE + 1
        invariant Valid() && BusValid()
        invariant |bus.messages| >= n && bus.messages[..n] == old(bus.messages)
        invariant forall m :: m in bus.messages ==> m in old(bus.messages) || fresh(m)
        invariant forall m :: m in bus.messages[n..] ==> !m.IsProcessedBy(name)
        invariant Scanned(bus.messages, n, name, grid, memory.width, memory.height, x, y, i, -SENSOR_RANGE)
        invariant memory.Drift() == old(memory.Drift())
        invariant planner.State() == old(planner.State())
        invariant Reflects(pre + bus.messages[n..], view, clock.step)
      {
        ghost var before := bus.messages;
        DiscoverColumn(grid, clock, i, n, pre, view);
        Extends(bus.messages, before, n);
        i := i + 1;
      }
    }

    /**
     * One column (offset i) of the scan of communicate; n is where the
     * messages of the whole scan begin.
     */
    method DiscoverColumn(grid: ObjectGrid, clock: Clock, i: int, ghost n: nat, ghost pre: seq<Message>,
                          ghost view: MemView)
      requires Valid() && BusValid() && -SENSOR_RANGE <= i <= SENSOR_RANGE
      requires Scanned(bus.messages, n, name, grid, memory.width, memory.height, x, y, i, -SENSOR_RANGE)
      requires Reflects(pre + bus.messages[n..], view, clock.step)
      requires forall m :: m in bus.messages[n..] ==> !m.IsProcessedBy(name)
      modifies memory, memory.objects, memory.memoryGrid, planner, bus
      ensures Valid() && BusValid()
      ensures |bus.messages| >= old(|bus.messages|) && bus.messages[..old(|bus.messages|)] == old(bus.messages)
      ensures forall m :: m in bus.messages ==> m in old(bus.messages) || fresh(m)
      ensures forall m :: m in bus.messages[n..] ==> !m.IsProcessedBy(name)
      ensures Scanned(bus.messages, n, name, grid, memory.width, memory.height, x, y, i + 1, -SENSOR_RANGE)
      ensures memory.Drift() == old(memory.Drift())
      ensures planner.State() == old(planner.State())
      ensures Reflects(pre + bus.messages[n..], view, clock.step)
    {
      ghost var m := |bus.messages|;
      var j := -SENSOR_RANGE;
      while j <= SENSOR_RANGE
        invariant -SENSOR_RANGE <= j <= SENSOR_RANGE + 1
        invariant Valid() && BusValid()
        invariant |bus.messages| >= m && bus.messages[..m] == old(bus.messages)
        invariant forall msg :: msg in bus.messages ==> msg in old(bus.messages) || fresh(msg)
        invariant forall msg :: msg in bus.messages[n..] ==> !msg.IsProcessedBy(name)
        invariant Scanned(bus.messages, n, name, grid, memory.width, memory.height, x, y, i, j)
        invariant memory.Drift() == old(memory.Drift())
        invariant planner.State() == old(planner.State())
        invariant Reflects(pre + bus.messages[n..], view, clock.step)
      {
        ghost var before := bus.messages;
        var posted := DiscoverCell(grid, clock, i, j, n, pre, view);
        ScanStep(before, bus.messages, posted, n, name, grid, memory.width, memory.height, x, y, i, j);
        if posted.Some? {
          Extends(bus.messages, before, m);
        }
        j := j + 1;
      }
      ScanNextColumn(bus.messages, n, name, grid, memory.width, memory.height, x, y, i);
    }

    /**
     * Broadcast a discovery of e: post it, then receive it as a TILE_FOUND or
     * FUEL_STATION_FOUND: e is ingested into memory and, for a fuel station,
     * handed to the planner.
     */
    method Announce(e: Entity, clock: Clock) returns (message: Message)
      requires Valid() && BusValid()
      modifies memory, memory.objects, memory.memoryGrid, planner, bus
      ensures Valid() && BusValid()
      ensures fresh(message) && bus.messages == old(bus.messages) + [message] && message.processedBy == []
      ensures Discovery(message, name) && message.entity == Some(e) && Ingests(message)
      ensures memory.Drift() == old(memory.Drift())
      ensures planner.State() == old(planner.State())
      ensures forall i, j :: 0 <= i < memory.width && 0 <= j < memory.height ==>
        memory.objects[i, j] == (if i == e.x && j == e.y then Some(Percept(e, clock.step)) else old(memory.objects[i, j])) &&
        memory.memoryGrid[i, j] == (if i == e.x && j == e.y then Some(e) else old(memory.memoryGrid[i, j]))
      ensures memory.closest ==
        if InGrid(memory.width, memory.height, e.x, e.y) then UpdateClosest(old(memory.closest), e, x, y) else old(memory.closest)
      ensures planner.fuelStation == if e.kind == FuelStation then Some(e) else old(planner.fuelStation)
    {
      message := new Message(name, ALL, DiscoveryType(e.kind), Some(e), clock.millis);
      bus.Post(message);
      assert BusValid();
      ReceiveDiscovery(message, clock);
    }

    /**
     * announce, keeping the memory a reflection of `pre` followed by the
     * messages posted since the bus held n of them.
     */
    method AnnounceReflecting(e: Entity, clock: Clock, ghost n: nat, ghost pre: seq<Message>, ghost view: MemView)
      returns (message: Message)
      requires Valid() && BusValid()
      requires n <= |bus.messages| && Reflects(pre + bus.messages[n..], view, clock.step)
      requires forall m :: m in bus.messages[n..] ==> !m.IsProcessedBy(name)
      modifies memory, memory.objects, memory.memoryGrid, planner, bus
      ensures Valid() && BusValid()
      ensures fresh(message) && bus.messages == old(bus.messages) + [message]
      ensures forall m :: m in bus.messages[n..] ==> !m.IsProcessedBy(name)
      ensures Discovery(message, name) && message.entity == Some(e)
      ensures memory.Drift() == old(memory.Drift())
      ensures planner.State() == old(planner.State())
      ensures Reflects(pre + bus.messages[n..], view, clock.step)
    {
      ghost var done := pre + bus.messages[n..];
      message := Announce(e, clock);
      UnprocessedPosted(old(bus.messages), n, message, name);
      LogGrows(pre, old(bus.messages), n, message);
      forall p, q | InGrid(memory.width, memory.height, p, q)
        ensures memory.objects[p, q] == PerceptAfter(done + [message], p, q, view.objects[p][q], clock.step)
        ensures memory.memoryGrid[p, q] == GridAfter(done + [message], p, q, view.grid[p][q])
      {
        assert old(memory.objects[p, q]) == PerceptAfter(done, p, q, view.objects[p][q], clock.step);
        assert old(memory.memoryGrid[p, q]) == GridAfter(done, p, q, view.grid[p][q]);
        CellAfterLast(done, message, p, q, view.objects[p][q], view.grid[p][q], clock.step);
      }
      IndexAfterLast(done, message, view.closest, x, y, memory.width, memory.height, view.station);
    }

    /**
     * One cell of the discovery scan; `posted` is the message it broadcast,
     * if any, about the entity the environment shows at offset (i, j).
     */
    method DiscoverCell(grid: ObjectGrid, clock: Clock, i: int, j: int, ghost n: nat, ghost pre: seq<Message>,
                        ghost view: MemView) returns (posted: Option<Message>)
      requires Valid() && BusValid()
      requires n <= |bus.messages| && Reflects(pre + bus.messages[n..], view, clock.step)
      requires forall m :: m in bus.messages[n..] ==> !m.IsProcessedBy(name)
      modifies memory, memory.objects, memory.memoryGrid, planner, bus
      ensures Valid() && BusValid()
      ensures n <= |bus.messages| && forall m :: m in bus.messages[n..] ==> !m.IsProcessedBy(name)
      ensures posted.None? ==>
        bus.messages == old(bus.messages) && unchanged(memory, memory.objects, memory.memoryGrid) && unchanged(planner)
      ensures posted.Some? ==>
        fresh(posted.value) && bus.messages == old(bus.messages) + [posted.value] &&
        Discovery(posted.value, name) && !Covered(old(bus.messages), Place(posted.value.entity.value)) &&
        Shows(grid, memory.width, memory.height, x, y, i, j, posted.value.entity.value)
      ensures Sighted(grid, memory.width, memory.height, x, y, i, j).Some? ==>
        Covered(bus.messages, Sighted(grid, memory.width, memory.height, x, y, i, j).value)
      ensures forall m :: m in bus.messages ==> m in old(bus.messages) || fresh(m)
      ensures memory.Drift() == old(memory.Drift())
      ensures planner.State() == old(planner.State())
      ensures Reflects(pre + bus.messages[n..], view, clock.step)
    {
      posted := None;
      var checkX := x + i;
      var checkY := y + j;
      if 0 <= checkX < memory.width && 0 <= checkY < memory.height {
        var obj := grid(checkX, checkY);
        if obj.Some? {
          var discovered := obj.value;
          var alreadySent := AlreadySent(discovered);
          if !alreadySent {
            ghost var before := bus.messages;
            var message := AnnounceReflecting(discovered, clock, n, pre, view);
            forall p | Covered(before, p) ensures Covered(bus.messages, p) {
              CoveredGrows(before, message, p);
            }
            assert CarriesAt(bus.messages[|before|], Place(discovered));
            posted := Some(message);
          }
        }
      }
    }

    /**
     * receiveMessage: a TILE_PICKED_UP clears the remembered cell of its
     * entity; a TILE_FOUND or FUEL_STATION_FOUND is ingested into memory, and
     * a fuel station is handed to the planner; anything else, or a message
     * without an entity, changes nothing.
     */
    method ReceiveMessage(m: Message, clock: Clock)
      requires Valid()
      modifies memory, memory.objects, memory.memoryGrid, planner
      ensures Valid()
      ensures memory.Drift() == old(memory.Drift())
      ensures planner.State() == old(planner.State())
      ensures !Ingests(m) && !Forgets(m) ==> unchanged(memory, memory.objects, memory.memoryGrid) && unchanged(planner)
      ensures Forgets(m) ==> unchanged(memory, memory.objects) && unchanged(planner)
      ensures forall i, j :: 0 <= i < memory.width && 0 <= j < memory.height ==>
        memory.objects[i, j] == PerceptOf(m, i, j, old(memory.objects[i, j]), clock.step) &&
        memory.memoryGrid[i, j] == GridOf(m, i, j, old(memory.memoryGrid[i, j]))
      ensures memory.closest == IndexOf(m, old(memory.closest), x, y, memory.width, memory.height)
      ensures planner.fuelStation == StationOf(m, old(planner.fuelStation))
    {
      if m.entity.None? {
        return;
      }
      var entity := m.entity.value;
      match m.messageType
      case TilePickedUp =>
        if 0 <= entity.x < memory.width && 0 <= entity.y < memory.height {
          memory.memoryGrid[entity.x, entity.y] := None;
        }
      case TileFound =>
        ReceiveDiscovery(m, clock);
      case FuelStationFound =>
        ReceiveDiscovery(m, clock);
      case _ =>
    }

    /** The TILE_FOUND / FUEL_STATION_FOUND case of receiveMessage. */
    method ReceiveDiscovery(m: Message, clock: Clock)
      requires Valid() && Ingests(m)
      modifies memory, memory.objects, memory.memoryGrid, planner
      ensures Valid()
      ensures memory.Drift() == old(memory.Drift())
      ensures planner.State() == old(planner.State())
      ensures m.entity.value.kind != FuelStation ==> unchanged(planner)
      ensures forall i, j :: 0 <= i < memory.width && 0 <= j < memory.height ==>
        memory.objects[i, j] == PerceptOf(m, i, j, old(memory.objects[i, j]), clock.step) &&
        memory.memoryGrid[i, j] == GridOf(m, i, j, old(memory.memoryGrid[i, j]))
      ensures memory.closest == IndexOf(m, old(memory.closest), x, y, memory.width, memory.height)
      ensures planner.fuelStation == StationOf(m, old(planner.fuelStation))
    {
      var entity := m.entity.value;
      memory.UpdateFromMessage(m.entity, clock.step, x, y);
      if entity.kind == FuelStation {
        planner.SetFuelStation(entity);
      }
    }

    /**
     * The consumption half of communicate: every message on the bus that this
     * agent has not processed yet and that is addressed to it (no recipient,
     * "ALL", or its name) is received and marked as processed by it. If the
     * memory reflected `pre` over `view` before, it reflects pre followed by
     * the newly logged messages afterwards; with nothing new to receive,
     * nothing changes.
     */
    method Consume(clock: Clock, ghost pre: seq<Message>, ghost view: MemView)
      requires Valid() && BusValid() && AppliedOnce()
      requires Reflects(pre, view, clock.step)
      modifies this`applied, memory, memory.objects, memory.memoryGrid, planner, set m | m in bus.messages
      ensures Valid() && BusValid() && AppliedOnce()
      ensures bus.messages == old(bus.messages)
      ensures memory.Drift() == old(memory.Drift())
      ensures planner.State() == old(planner.State())
      ensures forall m :: m in bus.messages && AddressedTo(m, name) ==> m.IsProcessedBy(name)
      ensures forall m :: m in bus.messages && !AddressedTo(m, name) ==> m.processedBy == old(m.processedBy)
      ensures |applied| >= |old(applied)| && applied[..|old(applied)|] == old(applied)
      ensures forall m :: m in applied[|old(applied)|..] ==>
        m in bus.messages && AddressedTo(m, name) && !old(m.IsProcessedBy(name))
      ensures forall m :: m in bus.messages && AddressedTo(m, name) && !old(m.IsProcessedBy(name)) ==>
        m in applied[|old(applied)|..]
      ensures applied[|old(applied)|..] == Pending(bus.messages, name, old(ProcessedAmong(bus.messages, name)))
      ensures Reflects(pre + applied[|old(applied)|..], view, clock.step)
    {
      var ms := bus.messages;
      ghost var start := |applied|;
      ghost var done := ProcessedAmong(ms, name);
      assert pre + applied[start..] == pre;
      var i := 0;
      while i < |ms|
        invariant 0 <= i <= |ms|
        invariant Valid() && BusValid() && AppliedOnce()
        invariant bus.messages == ms
        invariant memory.Drift() == old(memory.Drift())
        invariant planner.State() == old(planner.State())
        invariant forall m :: m in ms ==> (m.IsProcessedBy(name) <==> m in done || (m in ms[..i] && AddressedTo(m, name)))
        invariant forall m :: m in ms && !AddressedTo(m, name) ==> m.processedBy == old(m.processedBy)
        invariant |applied| >= start && applied[..start] == old(applied)
        invariant applied[start..] == Pending(ms[..i], name, done)
        invariant Reflects(pre + applied[start..], view, clock.step)
      {
        ConsumeAt(ms, i, clock, pre, start, done, view);
        i := i + 1;
      }
      assert ms[..i] == ms;
      PendingMembers(ms, name, done);
    }

    /**
     * Message i of the consumption loop over ms, which started with the
     * messages `done` already processed and the log at length start: the
     * messages logged since then are still the pending ones of a prefix
     * of ms, now one longer.
     */
    method ConsumeAt(ms: seq<Message>, i: nat, clock: Clock, ghost pre: seq<Message>, ghost start: nat,
                     ghost done: set<Message>, ghost view: MemView)
      requires Valid() && BusValid() && AppliedOnce() && bus.messages == ms && i < |ms|
      requires forall m :: m in ms ==> (m.IsProcessedBy(name) <==> m in done || (m in ms[..i] && AddressedTo(m, name)))
      requires start <= |applied| && applied[start..] == Pending(ms[..i], name, done)
      requires Reflects(pre + applied[start..], view, clock.step)
      modifies this`applied, memory, memory.objects, memory.memoryGrid, planner, ms[i]
      ensures Valid() && BusValid() && AppliedOnce()
      ensures memory.Drift() == old(memory.Drift())
      ensures planner.State() == old(planner.State())
      ensures forall m :: m in ms ==> (m.IsProcessedBy(name) <==> m in done || (m in ms[..i + 1] && AddressedTo(m, name)))
      ensures !AddressedTo(ms[i], name) ==> ms[i].processedBy == old(ms[i].processedBy)
      ensures |applied| >= start && applied[..start] == old(applied[..start])
      ensures applied[start..] == Pending(ms[..i + 1], name, done)
      ensures Reflects(pre + applied[start..], view, clock.step)
    {
      ghost var before := applied;
      ghost var logged := AddressedTo(ms[i], name) && !ms[i].IsProcessedBy(name);
      ConsumeOne(ms[i], clock, pre, start, view);
      LogPending(before, start, ms, i, name, done, logged);
      TakeOneMore(ms, i);
    }

    /**
     * One message of the consumption loop: a message addressed to the agent
     * and not yet processed by it is received and logged; any other message
     * leaves memory, the planner and the message as they were. The memory
     * keeps reflecting `pre` followed by the messages logged since `start`.
     */
    method ConsumeOne(comm: Message, clock: Clock, ghost pre: seq<Message>, ghost start: nat, ghost view: MemView)
      requires Valid() && AppliedOnce() && comm.Valid()
      requires start <= |applied| && Reflects(pre + applied[start..], view, clock.step)
      modifies this`applied, memory, memory.objects, memory.memoryGrid, planner, comm`processedBy
      ensures Valid() && AppliedOnce() && comm.Valid()
      ensures memory.Drift() == old(memory.Drift())
      ensures planner.State() == old(planner.State())
      ensures AddressedTo(comm, name) ==> comm.IsProcessedBy(name)
      ensures old(comm.IsProcessedBy(name)) ==> comm.IsProcessedBy(name)
      ensures !AddressedTo(comm, name) ==> comm.processedBy == old(comm.processedBy)
      ensures applied == old(applied) + (if AddressedTo(comm, name) && !old(comm.IsProcessedBy(name)) then [comm] else [])
      ensures applied == old(applied) ==>
        unchanged(memory, memory.objects, memory.memoryGrid) && unchanged(planner) && unchanged(comm)
      ensures applied != old(applied) ==>
        (forall i, j :: 0 <= i < memory.width && 0 <= j < memory.height ==>
          memory.objects[i, j] == PerceptOf(comm, i, j, old(memory.objects[i, j]), clock.step) &&
          memory.memoryGrid[i, j] == GridOf(comm, i, j, old(memory.memoryGrid[i, j]))) &&
        memory.closest == IndexOf(comm, old(memory.closest), x, y, memory.width, memory.height) &&
        planner.fuelStation == StationOf(comm, old(planner.fuelStation))
      ensures Reflects(pre + applied[start..], view, clock.step)
    {
      if !comm.IsProcessedBy(name) {
        var to := comm.to;
        if to.None? || to.value == ALL || to.value == name {
          Apply(comm, clock, pre, start, view);
        }
      }
    }

    /**
     * The received branch of the consumption loop: receiveMessage, then
     * markProcessedBy, then the entry in the log of applied messages.
     */
    method Apply(comm: Message, clock: Clock, ghost pre: seq<Message>, ghost start: nat, ghost view: MemView)
      requires Valid() && AppliedOnce() && comm.Valid() && !comm.IsProcessedBy(name)
      requires start <= |applied| && Reflects(pre + applied[start..], view, clock.step)
      modifies this`applied, memory, memory.objects, memory.memoryGrid, planner, comm`processedBy
      ensures Valid() && AppliedOnce() && comm.Valid() && comm.IsProcessedBy(name)
      ensures forall b :: old(comm.IsProcessedBy(b)) ==> comm.IsProcessedBy(b)
      ensures memory.Drift() == old(memory.Drift())
      ensures planner.State() == old(planner.State())
      ensures applied == old(applied) + [comm]
      ensures forall i, j :: 0 <= i < memory.width && 0 <= j < memory.height ==>
        memory.objects[i, j] == PerceptOf(comm, i, j, old(memory.objects[i, j]), clock.step) &&
        memory.memoryGrid[i, j] == GridOf(comm, i, j, old(memory.memoryGrid[i, j]))
      ensures memory.closest == IndexOf(comm, old(memory.closest), x, y, memory.width, memory.height)
      ensures planner.fuelStation == StationOf(comm, old(planner.fuelStation))
      ensures Reflects(pre + applied[start..], view, clock.step)
    {
      ReceiveReflecting(comm, clock, pre + applied[start..], view);
      MarkApplied(comm);
      LogGrows(pre, old(applied), start, comm);
    }

    /** markProcessedBy for a received message, and its entry in the log of applied messages. */
    method MarkApplied(comm: Message)
      requires AppliedOnce() && comm.Valid() && !comm.IsProcessedBy(name)
      modifies this`applied, comm`processedBy
      ensures AppliedOnce() && comm.Valid() && comm.IsProcessedBy(name)
      ensures forall b :: old(comm.IsProcessedBy(b)) ==> comm.IsProcessedBy(b)
      ensures applied == old(applied) + [comm]
    {
      comm.MarkProcessedBy(name);
      applied := applied + [comm];
    }

    /** receiveMessage, keeping the memory a reflection of done followed by m. */
    method ReceiveReflecting(m: Message, clock: Clock, ghost done: seq<Message>, ghost view: MemView)
      requires Valid() && Reflects(done, view, clock.step)
      modifies memory, memory.objects, memory.memoryGrid, planner
      ensures Valid()
      ensures memory.Drift() == old(memory.Drift())
      ensures planner.State() == old(planner.State())
      ensures (forall i, j :: 0 <= i < memory.width && 0 <= j < memory.height ==>
          memory.objects[i, j] == PerceptOf(m, i, j, old(memory.objects[i, j]), clock.step) &&
          memory.memoryGrid[i, j] == GridOf(m, i, j, old(memory.memoryGrid[i, j])))
      ensures memory.closest == IndexOf(m, old(memory.closest), x, y, memory.width, memory.height)
      ensures planner.fuelStation == StationOf(m, old(planner.fuelStation))
      ensures Reflects(done + [m], view, clock.step)
    {
      ReceiveMessage(m, clock);
      forall p, q | InGrid(memory.width, memory.height, p, q)
        ensures memory.objects[p, q] == PerceptAfter(done + [m], p, q, view.objects[p][q], clock.step)
        ensures memory.memoryGrid[p, q] == GridAfter(done + [m], p, q, view.grid[p][q])
      {
        assert old(memory.objects[p, q]) == PerceptAfter(done, p, q, view.objects[p][q], clock.step);
        assert old(memory.memoryGrid[p, q]) == GridAfter(done, p, q, view.grid[p][q]);
        CellAfterLast(done, m, p, q, view.objects[p][q], view.grid[p][q], clock.step);
      }
      IndexAfterLast(done, m, view.closest, x, y, memory.width, memory.height, view.station);
    }

    /**
     * communicate: broadcast what the sensor square shows, then consume the
     * bus. If the memory reflected `pre` over `view` before, it reflects pre,
     * then the posted discoveries, then the newly logged messages afterwards.
     */
    method Communicate(grid: ObjectGrid, clock: Clock, ghost pre: seq<Message>, ghost view: MemView)
      requires Valid() && BusValid() && AppliedOnce() && Reflects(pre, view, clock.step)
      modifies this`applied, memory, memory.objects, memory.memoryGrid, planner, bus, set m | m in bus.messages
      ensures Valid() && BusValid() && AppliedOnce()
      ensures |bus.messages| >= old(|bus.messages|) && bus.messages[..old(|bus.messages|)] == old(bus.messages)
      ensures Reports(bus.messages[old(|bus.messages|)..], name, grid, memory.width, memory.height, x, y)
      ensures PostedApart(old(|bus.messages|), bus.messages)
      ensures forall a, b :: InSquare(a, b) && Sighted(grid, memory.width, memory.height, x, y, a, b).Some? ==>
        Covered(bus.messages, Sighted(grid, memory.width, memory.height, x, y, a, b).value)
      ensures forall m :: m in bus.messages && AddressedTo(m, name) ==> m.IsProcessedBy(name)
      ensures |applied| >= |old(applied)| && applied[..|old(applied)|] == old(applied)
      ensures forall m :: m in applied[|old(applied)|..] ==>
        m in bus.messages && AddressedTo(m, name) && (m in old(bus.messages) ==> !old(m.IsProcessedBy(name)))
      ensures applied[|old(applied)|..] == Pending(bus.messages, name, old(ProcessedAmong(bus.messages, name)))
      ensures memory.Drift() == old(memory.Drift())
      ensures planner.State() == old(planner.State())
      ensures Reflects(pre + bus.messages[old(|bus.messages|)..] + applied[|old(applied)|..], view, clock.step)
    {
      ghost var n := |bus.messages|;
      Discover(grid, clock, pre, view);
      forall m | m in bus.messages
        ensures m in ProcessedAmong(bus.messages, name) <==> m in old(ProcessedAmong(bus.messages, name))
      {
        if m !in old(bus.messages) {
          assert m in bus.messages[n..];
        }
      }
      assert ProcessedAmong(bus.messages, name) == old(ProcessedAmong(bus.messages, name));
      Consume(clock, pre + bus.messages[n..], view);
      PendingMembers(bus.messages, name, old(ProcessedAmong(bus.messages, name)));
    }

    /**
     * The PICKUP branch of act: below full load, a tile in the environment
     * at the agent's cell is picked up, forgotten, announced to everybody as
     * TILE_PICKED_UP, and communicate runs on the environment as it is after
     * the pickup; a tile only remembered there is forgotten.
     */
    method PickUp(grid: ObjectGrid, after: ObjectGrid, clock: Clock)
      requires Valid() && BusValid() && AppliedOnce()
      modifies this`carried, this`applied, memory, memory.objects, memory.memoryGrid, planner, bus,
        set m | m in bus.messages
      ensures Valid() && BusValid() && AppliedOnce()
      ensures |bus.messages| >= old(|bus.messages|) && bus.messages[..old(|bus.messages|)] == old(bus.messages)
      ensures |applied| >= |old(applied)| && applied[..|old(applied)|] == old(applied)
      ensures old(carried) >= MAX_CARRIED_TILES ==>
        carried == old(carried) && bus.messages == old(bus.messages) && applied == old(applied) &&
        unchanged(memory, memory.objects, memory.memoryGrid) && unchanged(planner) &&
        forall m :: m in old(bus.messages) ==> m.processedBy == old(m.processedBy)
      ensures old(carried) < MAX_CARRIED_TILES && IsKind(grid(x, y), Tile) ==>
        carried == old(carried) + 1 && |bus.messages| > old(|bus.messages|) &&
        (var m := bus.messages[old(|bus.messages|)];
         fresh(m) && m.senderId == name && m.to.None? && m.messageType == TilePickedUp && m.entity == grid(x, y)) &&
        Reports(bus.messages[old(|bus.messages|) + 1..], name, after, memory.width, memory.height, x, y) &&
        PostedApart(old(|bus.messages|) + 1, bus.messages) &&
        (forall a, b :: InSquare(a, b) && Sighted(after, memory.width, memory.height, x, y, a, b).Some? ==>
          Covered(bus.messages, Sighted(after, memory.width, memory.height, x, y, a, b).value)) &&
        (forall m :: m in bus.messages && AddressedTo(m, name) ==> m.IsProcessedBy(name)) &&
        applied[|old(applied)|..] == Pending(bus.messages, name, old(ProcessedAmong(bus.messages, name))) &&
        Reflects(bus.messages[old(|bus.messages|) + 1..] + applied[|old(applied)|..], Forget(old(View()), x, y), clock.step)
      ensures old(carried) < MAX_CARRIED_TILES && !IsKind(grid(x, y), Tile) ==>
        carried == old(carried) && bus.messages == old(bus.messages) && applied == old(applied) &&
        unchanged(memory, memory.objects) && unchanged(planner) &&
        (forall m :: m in old(bus.messages) ==> m.processedBy == old(m.processedBy)) &&
        forall i, j :: 0 <= i < memory.width && 0 <= j < memory.height ==>
          memory.memoryGrid[i, j] ==
            if i == x && j == y && IsKind(old(memory.memoryGrid[x, y]), Tile) then None else old(memory.memoryGrid[i, j])
    {
      if CountTile() >= MAX_CARRIED_TILES {
        return;
      }
      var memoryObj := memory.memoryGrid[x, y];
      var envObj := grid(x, y);
      if envObj.Some? && envObj.value.kind == Tile {
        TakeTile(envObj.value, after, clock);
      } else if memoryObj.Some? && memoryObj.value.kind == Tile {
        memory.memoryGrid[x, y] := None;
      }
    }

    /**
     * Picking up `tile` in the PICKUP branch of act: the memory ends where
     * receiving the discoveries communicate posts, then the messages it
     * consumes, takes it from the old memory with the agent's cell forgotten.
     */
    method TakeTile(tile: Entity, after: ObjectGrid, clock: Clock)
      requires Valid() && BusValid() && AppliedOnce()
      modifies this`carried, this`applied, memory, memory.objects, memory.memoryGrid, planner, bus,
        set m | m in bus.messages
      ensures Valid() && BusValid() && AppliedOnce()
      ensures carried == old(carried) + 1
      ensures |bus.messages| > old(|bus.messages|) && bus.messages[..old(|bus.messages|)] == old(bus.messages)
      ensures var m := bus.messages[old(|bus.messages|)];
        fresh(m) && m.senderId == name && m.to.None? && m.messageType == TilePickedUp && m.entity == Some(tile)
      ensures Reports(bus.messages[old(|bus.messages|) + 1..], name, after, memory.width, memory.height, x, y)
      ensures PostedApart(old(|bus.messages|) + 1, bus.messages)
      ensures forall a, b :: InSquare(a, b) && Sighted(after, memory.width, memory.height, x, y, a, b).Some? ==>
        Covered(bus.messages, Sighted(after, memory.width, memory.height, x, y, a, b).value)
      ensures forall m :: m in bus.messages && AddressedTo(m, name) ==> m.IsProcessedBy(name)
      ensures |applied| >= |old(applied)| && applied[..|old(applied)|] == old(applied)
      ensures applied[|old(applied)|..] == Pending(bus.messages, name, old(ProcessedAmong(bus.messages, name)))
      ensures Reflects(bus.messages[old(|bus.messages|) + 1..] + applied[|old(applied)|..], Forget(old(View()), x, y),
                       clock.step)
    {
      var message := PostPickup(tile, clock);
      ghost var n := |bus.messages|;
      ghost var done := ProcessedAmong(bus.messages, name);
      ghost var log := applied;
      Communicate(after, clock, [], Forget(old(View()), x, y));
      PostedFirst(bus.messages, old(bus.messages), message);
      assert [] + bus.messages[n..] == bus.messages[n..];
      assert log == old(applied) && done == old(ProcessedAmong(bus.messages, name));
    }

    /**
     * The bookkeeping of a pickup before communicate: count the tile, forget
     * the agent's cell, post TILE_PICKED_UP.
     */
    method PostPickup(tile: Entity, clock: Clock) returns (message: Message)
      requires Valid() && BusValid() && AppliedOnce()
      modifies this`carried, memory.memoryGrid, bus
      ensures Valid() && BusValid() && AppliedOnce()
      ensures carried == old(carried) + 1
      ensures bus.messages == old(bus.messages) + [message]
      ensures fresh(message) && message.senderId == name && message.to.None? && message.messageType == TilePickedUp &&
        message.entity == Some(tile) && message.processedBy == []
      ensures ProcessedAmong(bus.messages, name) == old(ProcessedAmong(bus.messages, name))
      ensures unchanged(memory, memory.objects, planner)
      ensures forall i, j :: 0 <= i < memory.width && 0 <= j < memory.height ==>
        memory.memoryGrid[i, j] == if i == x && j == y then None else old(memory.memoryGrid[i, j])
      ensures Reflects([], Forget(old(View()), x, y), clock.step)
    {
      carried := carried + 1;
      memory.memoryGrid[x, y] := None;
      message := new Message(name, ALL, TilePickedUp, Some(tile), clock.millis);
      bus.Post(message);
    }

    /** The PUTDOWN branch of act: with a tile, a remembered hole at the agent's cell is filled and forgotten. */
    method PutDown()
      requires Valid()
      modifies this`carried, memory.memoryGrid
      ensures Valid()
      ensures var filled := old(carried) > 0 && IsKind(old(memory.memoryGrid[x, y]), Hole);
        carried == old(carried) - (if filled then 1 else 0) &&
        forall i, j :: 0 <= i < memory.width && 0 <= j < memory.height ==>
          memory.memoryGrid[i, j] == if filled && i == x && j == y then None else old(memory.memoryGrid[i, j])
    {
      var obj := memory.memoryGrid[x, y];
      if obj.Some? && obj.value.kind == Hole {
        if CountTile() > 0 {
          carried := carried - 1;
          memory.memoryGrid[x, y] := None;
        }
      }
    }

    /** The REFUEL branch of act: on a remembered fuel station the tank is filled. */
    method RefuelAt()
      requires Valid()
      modifies this`fuelLevel
      ensures fuelLevel == if IsKind(memory.memoryGrid[x, y], FuelStation) then fuelCapacity else old(fuelLevel)
    {
      var obj := memory.memoryGrid[x, y];
      if obj.Some? && obj.value.kind == FuelStation {
        fuelLevel := fuelCapacity;
      }
    }

    /**
     * act: the primitive action of the thought. A MOVE the environment does
     * not block (`blocked` is its CellBlockedException) is followed by
     * communicate.
     */
    method Act(thought: Thought, grid: ObjectGrid, after: ObjectGrid, blocked: bool, clock: Clock)
      requires Valid() && BusValid() && AppliedOnce()
      requires thought.action == Move && !blocked ==>
        InGrid(memory.width, memory.height, x + DX(thought.dir), y + DY(thought.dir))
      modifies this, memory, memory.objects, memory.memoryGrid, planner, bus, set m | m in bus.messages
      ensures Valid() && BusValid() && AppliedOnce()
      ensures currentMode == old(currentMode) && explorationStep == old(explorationStep)
      ensures |bus.messages| >= old(|bus.messages|) && bus.messages[..old(|bus.messages|)] == old(bus.messages)
      ensures |applied| >= |old(applied)| && applied[..|old(applied)|] == old(applied)
      ensures thought.action == Move && !blocked ==> x == old(x) + DX(thought.dir) && y == old(y) + DY(thought.dir)
      ensures !(thought.action == Move && !blocked) ==> x == old(x) && y == old(y)
      ensures fuelLevel == if thought.action == Refuel && IsKind(old(memory.memoryGrid[x, y]), FuelStation)
                           then fuelCapacity else old(fuelLevel)
      ensures carried == old(carried)
        + (if thought.action == Pickup && old(carried) < MAX_CARRIED_TILES && IsKind(grid(old(x), old(y)), Tile) then 1 else 0)
        - (if thought.action == Putdown && old(carried) > 0 && IsKind(old(memory.memoryGrid[x, y]), Hole) then 1 else 0)
      ensures thought.action == Pickup && old(carried) < MAX_CARRIED_TILES && IsKind(grid(x, y), Tile) ==>
        |bus.messages| > old(|bus.messages|) &&
        (var m := bus.messages[old(|bus.messages|)];
         fresh(m) && m.senderId == name && m.to.None? && m.messageType == TilePickedUp && m.entity == grid(x, y)) &&
        Reports(bus.messages[old(|bus.messages|) + 1..], name, after, memory.width, memory.height, x, y) &&
        PostedApart(old(|bus.messages|) + 1, bus.messages) &&
        (forall a, b :: InSquare(a, b) && Sighted(after, memory.width, memory.height, x, y, a, b).Some? ==>
          Covered(bus.messages, Sighted(after, memory.width, memory.height, x, y, a, b).value)) &&
        (forall m :: m in bus.messages && AddressedTo(m, name) ==> m.IsProcessedBy(name)) &&
        applied[|old(applied)|..] == Pending(bus.messages, name, old(ProcessedAmong(bus.messages, name))) &&
        Reflects(bus.messages[old(|bus.messages|) + 1..] + applied[|old(applied)|..], Forget(old(View()), x, y), clock.step)
      ensures thought.action == Pickup && old(carried) < MAX_CARRIED_TILES && !IsKind(grid(x, y), Tile) ==>
        unchanged(memory, memory.objects) && unchanged(planner) &&
        forall i, j :: 0 <= i < memory.width && 0 <= j < memory.height ==>
          memory.memoryGrid[i, j] ==
            if i == x && j == y && IsKind(old(memory.memoryGrid[x, y]), Tile) then None else old(memory.memoryGrid[i, j])
      ensures thought.action == Putdown ==>
        unchanged(memory, memory.objects) && unchanged(planner) &&
        var filled := old(carried) > 0 && IsKind(old(memory.memoryGrid[x, y]), Hole);
        forall i, j :: 0 <= i < memory.width && 0 <= j < memory.height ==>
          memory.memoryGrid[i, j] == if filled && i == x && j == y then None else old(memory.memoryGrid[i, j])
      ensures thought.action == Refuel || (thought.action == Pickup && old(carried) >= MAX_CARRIED_TILES) ||
              (thought.action == Move && blocked) ==>
        unchanged(memory, memory.objects, memory.memoryGrid) && unchanged(planner)
      ensures thought.action == Putdown || thought.action == Refuel || (thought.action == Move && blocked) ||
              (thought.action == Pickup && (old(carried) >= MAX_CARRIED_TILES || !IsKind(grid(x, y), Tile))) ==>
        bus.messages == old(bus.messages) && applied == old(applied) &&
        forall m :: m in old(bus.messages) ==> m.processedBy == old(m.processedBy)
      ensures thought.action == Move && !blocked ==>
        Reports(bus.messages[old(|bus.messages|)..], name, grid, memory.width, memory.height, x, y) &&
        PostedApart(old(|bus.messages|), bus.messages) &&
        (forall a, b :: InSquare(a, b) && Sighted(grid, memory.width, memory.height, x, y, a, b).Some? ==>
          Covered(bus.messages, Sighted(grid, memory.width, memory.height, x, y, a, b).value)) &&
        (forall m :: m in bus.messages && AddressedTo(m, name) ==> m.IsProcessedBy(name)) &&
        applied[|old(applied)|..] == Pending(bus.messages, name, old(ProcessedAmong(bus.messages, name))) &&
        Reflects(bus.messages[old(|bus.messages|)..] + applied[|old(applied)|..], old(View()), clock.step)
    {
      if thought.action == Move {
        if !blocked {
          MoveAndCommunicate(thought.dir, grid, clock);
        }
      } else {
        ActInPlace(thought, grid, after, clock);
      }
    }

    /** The PICKUP, PUTDOWN and REFUEL branches of act: the agent stays where it is. */
    method ActInPlace(thought: Thought, grid: ObjectGrid, after: ObjectGrid, clock: Clock)
      requires Valid() && BusValid() && AppliedOnce() && thought.action != Move
      modifies this`carried, this`fuelLevel, this`applied, memory, memory.objects, memory.memoryGrid, planner, bus,
        set m | m in bus.messages
      ensures Valid() && BusValid() && AppliedOnce()
      ensures |bus.messages| >= old(|bus.messages|) && bus.messages[..old(|bus.messages|)] == old(bus.messages)
      ensures |applied| >= |old(applied)| && applied[..|old(applied)|] == old(applied)
      ensures fuelLevel == if thought.action == Refuel && IsKind(old(memory.memoryGrid[x, y]), FuelStation)
                           then fuelCapacity else old(fuelLevel)
      ensures carried == old(carried)
        + (if thought.action == Pickup && old(carried) < MAX_CARRIED_TILES && IsKind(grid(x, y), Tile) then 1 else 0)
        - (if thought.action == Putdown && old(carried) > 0 && IsKind(old(memory.memoryGrid[x, y]), Hole) then 1 else 0)
      ensures thought.action == Pickup && old(carried) < MAX_CARRIED_TILES && IsKind(grid(x, y), Tile) ==>
        |bus.messages| > old(|bus.messages|) &&
        (var m := bus.messages[old(|bus.messages|)];
         fresh(m) && m.senderId == name && m.to.None? && m.messageType == TilePickedUp && m.entity == grid(x, y)) &&
        Reports(bus.messages[old(|bus.messages|) + 1..], name, after, memory.width, memory.height, x, y) &&
        PostedApart(old(|bus.messages|) + 1, bus.messages) &&
        (forall a, b :: InSquare(a, b) && Sighted(after, memory.width, memory.height, x, y, a, b).Some? ==>
          Covered(bus.messages, Sighted(after, memory.width, memory.height, x, y, a, b).value)) &&
        (forall m :: m in bus.messages && AddressedTo(m, name) ==> m.IsProcessedBy(name)) &&
        applied[|old(applied)|..] == Pending(bus.messages, name, old(ProcessedAmong(bus.messages, name))) &&
        Reflects(bus.messages[old(|bus.messages|) + 1..] + applied[|old(applied)|..], Forget(old(View()), x, y), clock.step)
      ensures thought.action == Pickup && old(carried) < MAX_CARRIED_TILES && !IsKind(grid(x, y), Tile) ==>
        unchanged(memory, memory.objects) && unchanged(planner) &&
        forall i, j :: 0 <= i < memory.width && 0 <= j < memory.height ==>
          memory.memoryGrid[i, j] ==
            if i == x && j == y && IsKind(old(memory.memoryGrid[x, y]), Tile) then None else old(memory.memoryGrid[i, j])
      ensures thought.action == Putdown ==>
        unchanged(memory, memory.objects) && unchanged(planner) &&
        var filled := old(carried) > 0 && IsKind(old(memory.memoryGrid[x, y]), Hole);
        forall i, j :: 0 <= i < memory.width && 0 <= j < memory.height ==>
          memory.memoryGrid[i, j] == if filled && i == x && j == y then None else old(memory.memoryGrid[i, j])
      ensures thought.action == Refuel || (thought.action == Pickup && old(carried) >= MAX_CARRIED_TILES) ==>
        unchanged(memory, memory.objects, memory.memoryGrid) && unchanged(planner)
      ensures thought.action == Putdown || thought.action == Refuel ||
              (thought.action == Pickup && (old(carried) >= MAX_CARRIED_TILES || !IsKind(grid(x, y), Tile))) ==>
        bus.messages == old(bus.messages) && applied == old(applied) &&
        forall m :: m in old(bus.messages) ==> m.processedBy == old(m.processedBy)
    {
      match thought.action
      case Pickup => PickUp(grid, after, clock);
      case Putdown => PutDown();
      case Refuel => RefuelAt();
    }

    /**
     * The MOVE branch of act when the environment lets the agent through:
     * one step in direction d, then communicate; the memory ends where
     * receiving the posted discoveries, then the consumed messages, takes it.
     */
    method MoveAndCommunicate(d: Direction, grid: ObjectGrid, clock: Clock)
      requires Valid() && BusValid() && AppliedOnce()
      requires InGrid(memory.width, memory.height, x + DX(d), y + DY(d))
      modifies this`x, this`y, this`applied, memory, memory.objects, memory.memoryGrid, planner, bus,
        set m | m in bus.messages
      ensures Valid() && BusValid() && AppliedOnce()
      ensures x == old(x) + DX(d) && y == old(y) + DY(d)
      ensures |bus.messages| >= old(|bus.messages|) && bus.messages[..old(|bus.messages|)] == old(bus.messages)
      ensures Reports(bus.messages[old(|bus.messages|)..], name, grid, memory.width, memory.height, x, y)
      ensures PostedApart(old(|bus.messages|), bus.messages)
      ensures forall a, b :: InSquare(a, b) && Sighted(grid, memory.width, memory.height, x, y, a, b).Some? ==>
        Covered(bus.messages, Sighted(grid, memory.width, memory.height, x, y, a, b).value)
      ensures forall m :: m in bus.messages && AddressedTo(m, name) ==> m.IsProcessedBy(name)
      ensures |applied| >= |old(applied)| && applied[..|old(applied)|] == old(applied)
      ensures forall m :: m in applied[|old(applied)|..] ==>
        m in bus.messages && AddressedTo(m, name) && (m in old(bus.messages) ==> !old(m.IsProcessedBy(name)))
      ensures applied[|old(applied)|..] == Pending(bus.messages, name, old(ProcessedAmong(bus.messages, name)))
      ensures memory.Drift() == old(memory.Drift())
      ensures planner.State() == old(planner.State())
      ensures Reflects(bus.messages[old(|bus.messages|)..] + applied[|old(applied)|..], old(View()), clock.step)
    {
      x := x + DX(d);
      y := y + DY(d);
      ReflectsItself(clock.step);
      Communicate(grid, clock, [], View());
      assert [] + bus.messages[old(|bus.messages|)..] == bus.messages[old(|bus.messages|)..];
    }
  }
}
