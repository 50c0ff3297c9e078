// The beach layer: a generated grid over the same sand catalogue as the island.
module Beach {
  import opened Wrappers
  import opened Tileset
  import opened Terrain
  import Island

  /** The beach's tiles and the world-space centre of its land mass. */
  datatype BeachLayer = BeachLayer(tiles: Grid, center: WorldPoint)

  /** new: the tiles and centre are whatever the terrain generator returns for the
      requested size; that generator is not part of this model. */
  function New(generated: (WorldPoint, Grid)): (layer: BeachLayer)
    ensures layer.center == generated.0 && layer.tiles == generated.1
  {
    BeachLayer(generated.1, generated.0)
  }

  function GetTile(layer: BeachLayer, x: nat, y: nat): (cell: Option<TileIndex>)
    requires y < |layer.tiles| && x < |layer.tiles[y]|
    ensures cell == layer.tiles[y][x]
  {
    CellAt(layer.tiles, x, y)
  }

  /** From the origin to (columns * 16, rows * 16), columns counted in row 0:
      exactly the cells of that width and the grid's height lie inside. */
  function GetBounds(layer: BeachLayer): (b: Bounds)
    requires |layer.tiles| > 0
    ensures b.min == WorldPoint(0.0, 0.0)
    ensures forall x: int, y: int {:trigger CellInside(x, y, b)} ::
              CellInside(x, y, b) <==> 0 <= x < |layer.tiles[0]| && 0 <= y < |layer.tiles|
  {
    GridBounds(layer.tiles)
  }

  /** Every cell get_tile accepts in a rectangular beach lies inside get_bounds. */
  lemma TilesWithinBounds(layer: BeachLayer, x: nat, y: nat)
    requires Rectangular(layer.tiles)
    requires y < |layer.tiles| && x < |layer.tiles[y]|
    ensures CellInside(x, y, GetBounds(layer))
  {
  }

  function EdgeTile(role: EdgeRole): (t: TileIndex)
    ensures IsSandEdge(t)
    ensures FacesFromSandRing(t, EdgeDirection(role))
    ensures IsTopEdge(t) <==> role == Top
    ensures IsBottomEdge(t) <==> role == Bottom
    ensures IsLeftEdge(t) <==> role == Left
    ensures IsRightEdge(t) <==> role == Right
  {
    match role
    case Top => SandEdgeTop
    case TopRight => SandEdgeTopRight
    case Right => SandEdgeRight
    case BottomRight => SandEdgeBottomRight
    case Bottom => SandEdgeBottom
    case BottomLeft => SandEdgeBottomLeft
    case Left => SandEdgeLeft
    case TopLeft => SandEdgeTopLeft
  }

  function CornerTile(role: CornerRole): (t: TileIndex)
    ensures IsSandCorner(t)
    ensures FacesFromSandRing(t, CornerDirection(role))
  {
    match role
    case TopRightCorner => SandCornerTopRight
    case TopLeftCorner => SandCornerTopLeft
    case BottomRightCorner => SandCornerBottomRight
    case BottomLeftCorner => SandCornerBottomLeft
  }

  function CenterTiles(): (s: seq<TileIndex>)
    ensures |s| == 4
    ensures forall i, j :: 0 <= i < j < |s| ==> s[i] != s[j]
    ensures forall i :: 0 <= i < |s| ==> !IsSandEdge(s[i]) && !IsSandCorner(s[i])
  {
    [Sand, SandSpotted1, SandSpotted2, SandSpotted3]
  }

  /** The beach catalogue is the island's, role for role. */
  lemma SameCatalogAsIsland(e: EdgeRole, c: CornerRole)
    ensures EdgeTile(e) == Island.EdgeTile(e)
    ensures CornerTile(c) == Island.CornerTile(c)
    ensures CenterTiles() == Island.CenterTiles()
  {
  }
}
