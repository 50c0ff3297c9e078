// The ocean layer: the bottom layer of the world, every cell filled from a
// fixed 4 x 4 block of water sprites repeated over the grid.
module Ocean {
  import opened Wrappers
  import opened Tileset
  import opened Terrain

  datatype OceanLayer = OceanLayer(tiles: Grid)

  /** The 4 x 4 water block, row by row. */
  const TilesMap: seq<seq<TileIndex>> := [
    [Ocean1, Ocean2, Ocean3, Ocean4],
    [Ocean5, Ocean6, Ocean7, Ocean8],
    [Ocean9, Ocean10, Ocean11, Ocean12],
    [Ocean13, Ocean14, Ocean15, Ocean16]
  ]

  /** The sprite new places at cell (x, y). */
  function Pattern(x: nat, y: nat): TileIndex
  {
    TilesMap[y % 4][x % 4]
  }

  /** The grid new builds: height rows of width cells, cell (x, y) holding the
      block's sprite at row y mod 4, column x mod 4. */
  ghost predicate IsOceanFill(tiles: Grid, width: nat, height: nat)
  {
    |tiles| == height
    && (forall y :: 0 <= y < height ==> |tiles[y]| == width)
    && forall y, x :: 0 <= y < height && 0 <= x < width ==> tiles[y][x] == Some(Pattern(x, y))
  }

  /** new: allocates a grid of empty cells and overwrites it cell by cell. The seed
      is neither read nor changed, so the layer depends on the size alone. */
  method New(seed: nat, width: nat, height: nat) returns (layer: OceanLayer)
    ensures IsOceanFill(layer.tiles, width, height)
  {
    var tiles: Grid := seq(height, _ => seq(width, _ => None));
    var y := 0;
    while y < height
      invariant 0 <= y <= height
      invariant |tiles| == height
      invariant forall r :: 0 <= r < height ==> |tiles[r]| == width
      invariant forall r, c :: 0 <= r < y && 0 <= c < width ==> tiles[r][c] == Some(Pattern(c, r))
    {
      var x := 0;
      while x < width
        invariant 0 <= x <= width
        invariant |tiles| == height
        invariant forall r :: 0 <= r < height ==> |tiles[r]| == width
        invariant forall r, c :: 0 <= r < y && 0 <= c < width ==> tiles[r][c] == Some(Pattern(c, r))
        invariant forall c :: 0 <= c < x ==> tiles[y][c] == Some(Pattern(c, y))
      {
        tiles := tiles[y := tiles[y][x := Some(TilesMap[y % 4][x % 4])]];
        x := x + 1;
      }
      y := y + 1;
    }
    layer := OceanLayer(tiles);
  }

  function GetTile(layer: OceanLayer, x: nat, y: nat): (cell: Option<TileIndex>)
    requires y < |layer.tiles| && x < |layer.tiles[y]|
    ensures cell == layer.tiles[y][x]
  {
    CellAt(layer.tiles, x, y)
  }

  /** get_tile on a layer new built: every in-range cell holds the block's sprite
      for its position, the same sprite as the matching cell of the first block. */
  lemma GetTileOfFill(layer: OceanLayer, width: nat, height: nat, x: nat, y: nat)
    requires IsOceanFill(layer.tiles, width, height)
    requires x < width && y < height
    ensures GetTile(layer, x, y) == Some(TilesMap[y % 4][x % 4])
    ensures GetTile(layer, x, y) == GetTile(layer, x % 4, y % 4)
  {
    assert (x % 4) % 4 == x % 4 && (y % 4) % 4 == y % 4;
    assert x % 4 <= x && y % 4 <= y;
  }

  /** The block is the 4 x 4 square of the atlas whose top-left sprite is Ocean1
      (row 18, column 12): Pattern(x, y) sits y mod 4 rows below and x mod 4
      columns right of it. */
  lemma PatternInAtlas(x: nat, y: nat)
    ensures Value(Pattern(x, y)) == Value(Ocean1) + (y % 4) * AtlasColumns + x % 4
    ensures AtlasRow(Ocean1) == 18 && AtlasColumn(Ocean1) == 12
  {
    var r, c := y % 4, x % 4;
    assert Pattern(x, y) == TilesMap[r][c];
    assert r == 0 || r == 1 || r == 2 || r == 3;
    assert c == 0 || c == 1 || c == 2 || c == 3;
  }

  /** The ocean layer is fully occupied by water sprites, starts with Ocean1 at the
      origin, and repeats every four cells across and down. */
  lemma OceanFillProperties(tiles: Grid, width: nat, height: nat, x: nat, y: nat)
    requires IsOceanFill(tiles, width, height)
    requires x < width && y < height
    ensures tiles[y][x].Some? && IsOcean(tiles[y][x].value)
    ensures x == 0 && y == 0 ==> tiles[y][x] == Some(Ocean1)
    ensures x + 4 < width ==> tiles[y][x + 4] == tiles[y][x]
    ensures y + 4 < height ==> tiles[y + 4][x] == tiles[y][x]
  {
    var r, c := y % 4, x % 4;
    assert r == 0 || r == 1 || r == 2 || r == 3;
    assert c == 0 || c == 1 || c == 2 || c == 3;
    assert (x + 4) % 4 == c && (y + 4) % 4 == r;
  }

  /** Two layers built for the same size are equal, whatever seeds they were given. */
  lemma FillIsUnique(a: Grid, b: Grid, width: nat, height: nat)
    requires IsOceanFill(a, width, height) && IsOceanFill(b, width, height)
    ensures a == b
  {
    forall y | 0 <= y < height ensures a[y] == b[y] {
    }
  }
}
