/**
 * The boustrophedon ("serpentine") sweep shared by both planners: the agent
 * runs along a row, and at the edge it is heading for it turns ROW_STRIDE rows
 * further down and heads back the other way.
 */
module Serpentine {
  import opened World

  /** Rows skipped by the sweep at each turn. */
  const ROW_STRIDE: int := 7

  /** currentDirection: 0 is right, 1 is left. */
  datatype Heading = Right | Left

  /** currentDirection = 1 - currentDirection. */
  function Flip(h: Heading): (r: Heading)
    ensures r != h
  {
    if h == Right then Left else Right
  }

  /** The agent at column ax stands at (or past) the edge it is heading for. */
  predicate AtEdge(h: Heading, ax: int, width: int)
  {
    (h == Right && ax >= width - 1) || (h == Left && ax <= 0)
  }

  /**
   * The row after a turn: ROW_STRIDE further down, back to row 0 once that
   * passes the last row.
   */
  function NextRow(row: int, height: int): (r: int)
    ensures row + ROW_STRIDE > height - 1 ==> r == 0
    ensures row + ROW_STRIDE <= height - 1 ==> r == row + ROW_STRIDE
    ensures 0 <= row && height > 0 ==> 0 <= r < height
  {
    if row + ROW_STRIDE > height - 1 then 0 else Min(row + ROW_STRIDE, height - 1)
  }
}
