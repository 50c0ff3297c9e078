// The first world map: a 32 x 18 vector of random ids 1..=5, stored row-major and
// drawn as atlas ids 130..134.
module PrototypeMap {
  import opened Atlas

  const MapWidth: int := 32
  const MapHeight: int := 18
  const TileCount: int := MapWidth * MapHeight

  /** The offset draw adds to a stored id to reach the atlas id. */
  const TileIdOffset: u16 := 129

  /** A tile vector new can build. */
  predicate ValidTiles(tiles: seq<u16>)
  {
    |tiles| == TileCount && forall i :: 0 <= i < |tiles| ==> 1 <= tiles[i] <= 5
  }

  /** new: one draw of gen_range(1..=5) per cell. The random source is a parameter:
      `draw(i)` is the raw value behind cell i, folded into 1..=5. */
  function NewTiles(draw: nat -> nat): (tiles: seq<u16>)
    ensures ValidTiles(tiles)
  {
    seq(TileCount, i requires 0 <= i < TileCount => (1 + draw(i) % 5) as u16)
  }

  /** The row-major index draw reads for cell (x, y); the index gives the cell back,
      so every cell reads its own tile and stays inside the vector. */
  function CellIndex(x: int, y: int): (idx: nat)
    requires 0 <= x < MapWidth && 0 <= y < MapHeight
    ensures idx < TileCount
    ensures idx % MapWidth == x && idx / MapWidth == y
  {
    y * MapWidth + x
  }

  /** Every index of the vector is read by exactly one cell of the draw loop. */
  lemma EveryIndexDrawn(idx: nat)
    requires idx < TileCount
    ensures 0 <= idx % MapWidth < MapWidth && 0 <= idx / MapWidth < MapHeight
    ensures CellIndex(idx % MapWidth, idx / MapWidth) == idx
  {
  }

  /** The atlas id draw uses for cell (x, y): the stored id plus 129. */
  function DrawnTileId(tiles: seq<u16>, x: int, y: int): (id: u16)
    requires ValidTiles(tiles)
    requires 0 <= x < MapWidth && 0 <= y < MapHeight
    ensures 130 <= id <= 134
    ensures id - TileIdOffset == tiles[CellIndex(x, y)]
  {
    tiles[CellIndex(x, y)] + TileIdOffset
  }

  /** All drawn sprites come from the third atlas row (y = 32), columns 1 to 5. */
  lemma DrawnSpritesInOneRow(tiles: seq<u16>, x: int, y: int)
    requires ValidTiles(tiles)
    requires 0 <= x < MapWidth && 0 <= y < MapHeight
    ensures TileUv(DrawnTileId(tiles, x, y)).y == 32
    ensures 16 <= TileUv(DrawnTileId(tiles, x, y)).x <= 80
  {
    var id := DrawnTileId(tiles, x, y);
    assert id == 130 || id == 131 || id == 132 || id == 133 || id == 134;
  }
}
