// Source rectangles in the 64-column tile atlas, for 1-based tile ids as the
// Tiled editor numbers them.
module Atlas {

  newtype u16 = x: int | 0 <= x < 0x1_0000

  /** Sprites per atlas row, and the side of a sprite in pixels. */
  const TilesPerRow: int := 64
  const TileSize: int := 16

  datatype Rect = Rect(x: int, y: int, w: int, h: int)

  /** The 1-based tile id whose sprite starts at the rectangle's origin. */
  function AtlasId(r: Rect): int
  {
    (r.y / TileSize) * TilesPerRow + r.x / TileSize + 1
  }

  /** tile_uv: the 16 x 16 sprite rectangle of a tile id. Id 0 would underflow
      `tile - 1`, so ids start at 1. The rectangle is on the sprite grid, inside
      the atlas's 64 columns, and its origin gives the id back. */
  function TileUv(tile: u16): (r: Rect)
    requires tile >= 1
    ensures r.w == TileSize && r.h == TileSize
    ensures 0 <= r.x <= (TilesPerRow - 1) * TileSize && r.x % TileSize == 0
    ensures 0 <= r.y && r.y % TileSize == 0
    ensures AtlasId(r) == tile as int
  {
    var index := tile - 1;
    Rect((index % 64) as int * TileSize, (index / 64) as int * TileSize, TileSize, TileSize)
  }

  /** Distinct tile ids get distinct sprite rectangles. */
  lemma TileUvInjective(a: u16, b: u16)
    requires a >= 1 && b >= 1
    ensures TileUv(a) == TileUv(b) <==> a == b
  {
  }
}
