// What the terrain layers (island, beach, grass) have in common: a grid of
// optional tiles addressed row first, the eight edge roles and four corner roles
// each layer fills with its own tiles, the world-space bounds of a grid, and the
// tile holding a world coordinate.
module Terrain {
  import opened Wrappers
  import opened Tileset

  /** Rows of cells; a cell is None where the layer has no sprite. */
  type Grid = seq<seq<Option<TileIndex>>>

  /** World units per tile side. */
  const TileSize: real := 16.0

  datatype WorldPoint = WorldPoint(x: real, y: real)

  /** The tile coordinate of a world coordinate, floor(p / 16): the tile whose
      span of world units holds p. */
  function TileCoord(p: real): (c: int)
    ensures c as real * TileSize <= p < (c + 1) as real * TileSize
  {
    (p / TileSize).Floor
  }

  /** The two corners returned by get_bounds: (min, max). */
  datatype Bounds = Bounds(min: WorldPoint, max: WorldPoint)

  datatype EdgeRole = Top | TopRight | Right | BottomRight | Bottom | BottomLeft | Left | TopLeft

  datatype CornerRole = TopRightCorner | TopLeftCorner | BottomRightCorner | BottomLeftCorner

  /** A step on the screen grid: rows grow downwards, columns to the right. */
  datatype Step = Step(rows: int, columns: int)

  /** The direction an edge role faces. */
  function EdgeDirection(role: EdgeRole): Step
  {
    match role
    case Top => Step(-1, 0)
    case TopRight => Step(-1, 1)
    case Right => Step(0, 1)
    case BottomRight => Step(1, 1)
    case Bottom => Step(1, 0)
    case BottomLeft => Step(1, -1)
    case Left => Step(0, -1)
    case TopLeft => Step(-1, -1)
  }

  /** The direction a corner role faces. */
  function CornerDirection(role: CornerRole): Step
  {
    match role
    case TopRightCorner => Step(-1, 1)
    case TopLeftCorner => Step(-1, -1)
    case BottomRightCorner => Step(1, 1)
    case BottomLeftCorner => Step(1, -1)
  }

  /** Distinct roles face distinct directions. */
  lemma DirectionsDistinct(a: EdgeRole, b: EdgeRole, c: CornerRole, d: CornerRole)
    ensures EdgeDirection(a) == EdgeDirection(b) ==> a == b
    ensures CornerDirection(c) == CornerDirection(d) ==> c == d
  {
  }

  function Sign(n: int): int
  {
    if n < 0 then -1 else if n > 0 then 1 else 0
  }

  /** The sand sprites are drawn around one atlas cell, row 30 column 7: each edge
      and corner sprite lies on the side of that cell its role faces. */
  const SandRingRow: int := 30
  const SandRingColumn: int := 7

  predicate FacesFromSandRing(t: TileIndex, s: Step)
  {
    Sign(AtlasRow(t) - SandRingRow) == s.rows && Sign(AtlasColumn(t) - SandRingColumn) == s.columns
  }

  /** A grid whose every row is as wide as its first, so that the first row's
      length is the width the layers' bounds checks use. */
  predicate Rectangular(tiles: Grid)
  {
    |tiles| > 0 && forall y :: 0 <= y < |tiles| ==> |tiles[y]| == |tiles[0]|
  }

  /** The world-space square of cell (x, y) lies inside b. */
  predicate CellInside(x: int, y: int, b: Bounds)
  {
    b.min.x <= x as real * TileSize && (x + 1) as real * TileSize <= b.max.x
    && b.min.y <= y as real * TileSize && (y + 1) as real * TileSize <= b.max.y
  }

  /** get_bounds of a terrain layer: from the origin to the far corner of the grid,
      the column count read from the first row. The bounds hold exactly the cells
      of the first row's width and the grid's height. */
  function GridBounds(tiles: Grid): (b: Bounds)
    requires |tiles| > 0
    ensures b.min == WorldPoint(0.0, 0.0)
    ensures forall x: int, y: int {:trigger CellInside(x, y, b)} ::
              CellInside(x, y, b) <==> 0 <= x < |tiles[0]| && 0 <= y < |tiles|
  {
    Bounds(WorldPoint(0.0, 0.0), WorldPoint(|tiles[0]| as real * TileSize, |tiles| as real * TileSize))
  }

  /** get_tile of a terrain layer: the row index comes first. */
  function CellAt(tiles: Grid, x: nat, y: nat): (cell: Option<TileIndex>)
    requires y < |tiles| && x < |tiles[y]|
    ensures cell == tiles[y][x]
  {
    tiles[y][x]
  }
}
