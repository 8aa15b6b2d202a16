/**
 * Shared vocabulary of the Tileworld agent brain: grid positions, the kinds of
 * entity an agent can perceive, movement directions, actions and "thoughts"
 * (an action plus a direction), and the two collaborators the brain only
 * queries: the environment's object grid and the A* path generator.
 */
module World {

  datatype Option<T> = None | Some(value: T)

  /** A grid cell (the source's Int2D). */
  datatype Pos = Pos(x: int, y: int)

  /** The entity classes the brain distinguishes with `instanceof`. */
  datatype Kind = Tile | Hole | Obstacle | FuelStation

  /** A perceived entity: its class and the cell it stands on. */
  datatype Entity = Entity(kind: Kind, x: int, y: int)

  /** o holds an entity of kind k (Java's instanceof on a grid cell). */
  predicate IsKind(o: Option<Entity>, k: Kind)
  {
    o.Some? && o.value.kind == k
  }

  /** TWDirection: the four moves and Z, "stay where you are". */
  datatype Direction = E | N | W | S | Z

  /** TWAction. */
  datatype Action = Move | Pickup | Putdown | Refuel

  /** TWThought: what the agent decided to do this step. */
  datatype Thought = Thought(action: Action, dir: Direction)

  /** The steps of a TWPath, first step first. */
  type Path = seq<Direction>

  /**
   * AstarPathGenerator.findPath(sx, sy, gx, gy): a route, or None for the
   * null path returned when there is no route.
   */
  type PathFinder = (int, int, int, int) -> Option<Path>

  /** TWEnvironment.getObjectGrid().get(x, y) for the current step. */
  type ObjectGrid = (int, int) -> Option<Entity>

  /**
   * The two clocks the source reads: the simulation schedule's step counter
   * (memory timestamps) and the wall clock in milliseconds (task timeouts,
   * message timestamps).
   */
  datatype Clock = Clock(step: int, millis: int)

  predicate InGrid(width: int, height: int, x: int, y: int)
  {
    0 <= x < width && 0 <= y < height
  }

  /** A path that has at least one step to take. */
  predicate HasSteps(p: Option<Path>)
  {
    p.Some? && |p.value| > 0
  }

  /**
   * Squared Euclidean distance. The source compares Math.sqrt of this value;
   * the square root is monotone, so comparing the squares gives the same order.
   */
  function SqDist(ax: int, ay: int, px: int, py: int): (d: nat)
    ensures d == 0 <==> ax == px && ay == py
  {
    var dx := px - ax;
    var dy := py - ay;
    SquareIsZero(dx);
    SquareIsZero(dy);
    dx * dx + dy * dy
  }

  lemma SquareIsZero(d: int)
    ensures d * d >= 0
    ensures d * d == 0 <==> d == 0
  {
    if d < 0 {
      assert d * d == (-d) * (-d);
    }
  }

  function Min(a: int, b: int): int { if a <= b then a else b }
  function Max(a: int, b: int): int { if a >= b then a else b }

  /** Horizontal offset of one step in direction d (E is +x). */
  function DX(d: Direction): int
  {
    match d
    case E => 1
    case W => -1
    case _ => 0
  }

  /** Vertical offset of one step in direction d (S is +y). */
  function DY(d: Direction): int
  {
    match d
    case S => 1
    case N => -1
    case _ => 0
  }
}
