/** Grid cells and the six axis directions (Forge's ForgeDirection), with the
    one-step neighbour computation of CartTools' getXOnSide/getYOnSide/getZOnSide. */
module Geometry {

  /** A block position: an integer grid cell. */
  datatype Pos = Pos(x: int, y: int, z: int)

  /** ForgeDirection, constructors in ordinal order: the six valid directions
      0..5 and the placeholder UNKNOWN (ordinal 6). */
  datatype Direction = Down | Up | North | South | West | East | Unknown

  function Ordinal(d: Direction): nat
  {
    match d
    case Down => 0
    case Up => 1
    case North => 2
    case South => 3
    case West => 4
    case East => 5
    case Unknown => 6
  }

  /** ForgeDirection.getOrientation: the direction with ordinal `i` for `i` in 0..5,
      UNKNOWN for every other integer. */
  function GetOrientation(i: int): (d: Direction)
    ensures 0 <= i < 6 ==> d != Unknown && Ordinal(d) == i
    ensures !(0 <= i < 6) ==> d == Unknown
  {
    if i == 0 then Down
    else if i == 1 then Up
    else if i == 2 then North
    else if i == 3 then South
    else if i == 4 then West
    else if i == 5 then East
    else Unknown
  }

  /** ForgeDirection.getOpposite. */
  function Opposite(d: Direction): Direction
  {
    match d
    case Down => Up
    case Up => Down
    case North => South
    case South => North
    case West => East
    case East => West
    case Unknown => Unknown
  }

  /** The unit vector ForgeDirection attaches to each direction (offsetX, offsetY, offsetZ):
      north is -z, south +z, west -x, east +x. */
  function UnitX(d: Direction): int
  {
    match d
    case West => -1
    case East => 1
    case _ => 0
  }

  function UnitY(d: Direction): int
  {
    match d
    case Down => -1
    case Up => 1
    case _ => 0
  }

  function UnitZ(d: Direction): int
  {
    match d
    case North => -1
    case South => 1
    case _ => 0
  }

  /** getXOnSide: the x coordinate one step towards `side`. */
  function XOnSide(x: int, side: Direction): (r: int)
    ensures r == x + UnitX(side)
  {
    match side
    case East => x + 1
    case West => x - 1
    case _ => x
  }

  /** getYOnSide: the y coordinate one step towards `side`. */
  function YOnSide(y: int, side: Direction): (r: int)
    ensures r == y + UnitY(side)
  {
    match side
    case Up => y + 1
    case Down => y - 1
    case _ => y
  }

  /** getZOnSide: the z coordinate one step towards `side`. */
  function ZOnSide(z: int, side: Direction): (r: int)
    ensures r == z + UnitZ(side)
  {
    match side
    case North => z - 1
    case South => z + 1
    case _ => z
  }

  function Abs(n: int): nat
  {
    if n < 0 then -n else n
  }

  /** The cell adjacent to `p` on `side`, as getMinecartsOnSide computes it. A valid
      direction moves exactly one coordinate by exactly one; UNKNOWN stays put. */
  function Offset(p: Pos, side: Direction): (q: Pos)
    ensures side != Unknown ==> Abs(q.x - p.x) + Abs(q.y - p.y) + Abs(q.z - p.z) == 1
    ensures side == Unknown ==> q == p
    ensures side == Up ==> q.y == p.y + 1
    ensures side == Down ==> q.y == p.y - 1
    ensures side == East ==> q.x == p.x + 1
    ensures side == West ==> q.x == p.x - 1
    ensures side == South ==> q.z == p.z + 1
    ensures side == North ==> q.z == p.z - 1
  {
    Pos(XOnSide(p.x, side), YOnSide(p.y, side), ZOnSide(p.z, side))
  }

  /** Stepping to a side and then to the opposite side returns to the start. */
  lemma OffsetRoundTrip(p: Pos, side: Direction)
    ensures Offset(Offset(p, side), Opposite(side)) == p
    ensures Opposite(Opposite(side)) == side
  {
  }

  /** The six probed neighbours of a cell are six different cells, none of them the cell itself. */
  lemma SideCellsDistinct(p: Pos, d1: Direction, d2: Direction)
    requires d1 != Unknown && d2 != Unknown
    ensures Offset(p, d1) != p
    ensures d1 != d2 ==> Offset(p, d1) != Offset(p, d2)
  {
  }

  /** Iterating side = 0..5 visits every valid direction exactly once. */
  lemma OrientationsEnumerate(d: Direction)
    requires d != Unknown
    ensures 0 <= Ordinal(d) < 6 && GetOrientation(Ordinal(d)) == d
  {
  }
}
