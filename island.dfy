// The island layer: a generated grid of sand tiles with the sand catalogue,
// and its single-cell collision test.
module Island {
  import opened Wrappers
  import opened Tileset
  import opened Terrain

  /** The island's tiles and the world-space centre of its land mass. */
  datatype Island = Island(tiles: Grid, center: WorldPoint)

  /** is_collision looks at the one cell holding `position` (the size argument is
      ignored). Outside the grid to the right or below it collides; inside, it
      collides exactly where get_tile has no sprite. A negative coordinate passes
      the range test and then wraps to a huge index and panics, so only inputs that
      reach the index need the coordinates to be non-negative. */
  function IsCollision(island: Island, px: real, py: real): (hit: bool)
    requires Rectangular(island.tiles)
    requires TileCoord(px) < |island.tiles[0]| && TileCoord(py) < |island.tiles| ==>
               TileCoord(px) >= 0 && TileCoord(py) >= 0
    ensures TileCoord(px) >= |island.tiles[0]| || TileCoord(py) >= |island.tiles| ==> hit
    ensures TileCoord(px) < |island.tiles[0]| && TileCoord(py) < |island.tiles| ==>
              (hit <==> GetTile(island, TileCoord(px), TileCoord(py)).None?)
  {
    var x := TileCoord(px);
    var y := TileCoord(py);
    if x >= |island.tiles[0]| || y >= |island.tiles| then true
    else island.tiles[y][x].None?
  }

  function GetTile(island: Island, x: nat, y: nat): (cell: Option<TileIndex>)
    requires y < |island.tiles| && x < |island.tiles[y]|
    ensures cell == island.tiles[y][x]
  {
    CellAt(island.tiles, x, y)
  }

  /** The sand edge sprite for each edge role: every one is a sand edge lying on
      the side of the sand ring its role faces, and the four straight roles are
      exactly the ones the matching is_*_edge classifier accepts. */
  function EdgeTile(role: EdgeRole): (t: TileIndex)
    ensures IsSandEdge(t)
    ensures FacesFromSandRing(t, EdgeDirection(role))
    ensures IsTopEdge(t) <==> role == Top
    ensures IsBottomEdge(t) <==> role == Bottom
    ensures IsLeftEdge(t) <==> role == Left
    ensures IsRightEdge(t) <==> role == Right
  {
    match role
    case Top => SandEdgeTop
    case TopRight => SandEdgeTopRight
    case Right => SandEdgeRight
    case BottomRight => SandEdgeBottomRight
    case Bottom => SandEdgeBottom
    case BottomLeft => SandEdgeBottomLeft
    case Left => SandEdgeLeft
    case TopLeft => SandEdgeTopLeft
  }

  /** The sand corner sprite for each corner role, on the side it faces. */
  function CornerTile(role: CornerRole): (t: TileIndex)
    ensures IsSandCorner(t)
    ensures FacesFromSandRing(t, CornerDirection(role))
  {
    match role
    case TopRightCorner => SandCornerTopRight
    case TopLeftCorner => SandCornerTopLeft
    case BottomRightCorner => SandCornerBottomRight
    case BottomLeftCorner => SandCornerBottomLeft
  }

  /** The interchangeable filler sprites for the inside of the island. */
  function CenterTiles(): (s: seq<TileIndex>)
    ensures |s| == 4
    ensures forall i, j :: 0 <= i < j < |s| ==> s[i] != s[j]
    ensures forall i :: 0 <= i < |s| ==> !IsSandEdge(s[i]) && !IsSandCorner(s[i])
  {
    [Sand, SandSpotted1, SandSpotted2, SandSpotted3]
  }

  /** The catalogue is unambiguous: the eight edge roles get eight distinct tiles,
      the four corner roles four distinct tiles, and no tile serves two of the
      edge, corner and centre roles. */
  lemma CatalogDistinct(a: EdgeRole, b: EdgeRole, c: CornerRole, d: CornerRole, i: nat)
    requires i < |CenterTiles()|
    ensures EdgeTile(a) == EdgeTile(b) ==> a == b
    ensures CornerTile(c) == CornerTile(d) ==> c == d
    ensures EdgeTile(a) != CornerTile(c)
    ensures CenterTiles()[i] != EdgeTile(a) && CenterTiles()[i] != CornerTile(c)
  {
    DirectionsDistinct(a, b, c, d);
  }
}
