// The composed world map: an ordered stack of layers of raw u32 tile ids (0 is an
// empty cell, the first layer is the ocean), its collision query and the range
// of tiles the draw loop visits for a camera.
module WorldMapGrid {
  import opened Wrappers
  import Atlas
  import opened Terrain

  newtype u32 = x: int | 0 <= x < 0x1_0000_0000

  /** A layer as the map stores it: rows of tile ids, with its nominal size. */
  datatype Layer = Layer(tiles: seq<seq<u32>>, width: nat, height: nat)

  const MapWidth: int := 64
  const MapHeight: int := 64

  datatype Vec2 = Vec2(x: real, y: real)

  /** The camera as the draw loop reads it. */
  datatype Camera = Camera(target: Vec2, zoom: Vec2)

  /** A layer is_collision can scan without an index panic: it has a first row,
      and no row is shorter than that first row, whose length is the width used. */
  predicate Scannable(layer: Layer)
  {
    |layer.tiles| > 0 && forall y :: 0 <= y < |layer.tiles| ==> |layer.tiles[y]| >= |layer.tiles[0]|
  }

  /** Cell (x, y) of a layer blocks movement: it is off the layer (width taken from
      the first row, height from the row count), or it holds the empty id 0. */
  predicate Blocked(layer: Layer, x: int, y: int)
    requires Scannable(layer)
  {
    x < 0 || y < 0 || x >= |layer.tiles[0]| || y >= |layer.tiles|
    || layer.tiles[y][x] == 0
  }

  /** Some layer above the first has a blocked cell in [minX..maxX] x [minY..maxY]. */
  ghost predicate CollidesInRange(layers: seq<Layer>, minX: int, minY: int, maxX: int, maxY: int)
    requires forall i :: 1 <= i < |layers| ==> Scannable(layers[i])
  {
    exists i, y, x :: 1 <= i < |layers| && minY <= y <= maxY && minX <= x <= maxX && Blocked(layers[i], x, y)
  }

  /** is_collision: covers the box [position, position + size] with the inclusive
      range of tiles from floor(position / 16) to floor((position + size) / 16) and
      reports a collision exactly when some layer above the ocean has a blocked
      cell in that range. The ocean layer is never read; indexing layers[1..]
      needs at least one layer. */
  method IsCollision(layers: seq<Layer>, position: Vec2, size: Vec2) returns (hit: bool)
    requires |layers| >= 1
    requires forall i :: 1 <= i < |layers| ==> Scannable(layers[i])
    ensures hit <==> CollidesInRange(layers, TileCoord(position.x), TileCoord(position.y),
                                     TileCoord(position.x + size.x), TileCoord(position.y + size.y))
  {
    var minX := TileCoord(position.x);
    var minY := TileCoord(position.y);
    var maxX := TileCoord(position.x + size.x);
    var maxY := TileCoord(position.y + size.y);

    var i := 1;
    while i < |layers|
      invariant 1 <= i <= |layers|
      invariant forall j, y, x :: 1 <= j < i && minY <= y <= maxY && minX <= x <= maxX ==> !Blocked(layers[j], x, y)
    {
      var layer := layers[i];
      var height := |layer.tiles|;
      var width := |layer.tiles[0]|;
      var y := minY;
      while y <= maxY
        invariant minY <= y
        invariant forall yy, x :: minY <= yy < y && minX <= x <= maxX ==> !Blocked(layer, x, yy)
        decreases maxY - y
      {
        var x := minX;
        while x <= maxX
          invariant minX <= x
          invariant forall xx :: minX <= xx < x ==> !Blocked(layer, xx, y)
          decreases maxX - x
        {
          if x < 0 || y < 0 || x >= width || y >= height {
            assert Blocked(layers[i], x, y);
            return true;
          }
          if layer.tiles[y][x] == 0 {
            assert Blocked(layers[i], x, y);
            return true;
          }
          x := x + 1;
        }
        y := y + 1;
      }
      i := i + 1;
    }
    return false;
  }

  /** Only the layers above the first decide a collision: replacing the ocean layer
      changes nothing, and a map of the ocean alone never collides. */
  lemma OceanNeverConsulted(layers: seq<Layer>, ocean: Layer, minX: int, minY: int, maxX: int, maxY: int)
    requires |layers| >= 1
    requires forall i :: 1 <= i < |layers| ==> Scannable(layers[i])
    ensures CollidesInRange([ocean] + layers[1..], minX, minY, maxX, maxY)
            == CollidesInRange(layers, minX, minY, maxX, maxY)
    ensures |layers| == 1 ==> !CollidesInRange(layers, minX, minY, maxX, maxY)
  {
    var other := [ocean] + layers[1..];
    assert forall i :: 1 <= i < |layers| ==> other[i] == layers[i];
  }

  /** A box reaching past the map's edge collides whatever the tiles hold, as long
      as there is a layer above the ocean. */
  lemma OutOfMapCollides(layers: seq<Layer>, minX: int, minY: int, maxX: int, maxY: int)
    requires |layers| >= 2
    requires forall i :: 1 <= i < |layers| ==> Scannable(layers[i])
    requires minY <= maxY && minX <= maxX
    requires |layers[1].tiles| > 0
    requires minX < 0 || minY < 0 || maxX >= |layers[1].tiles[0]| || maxY >= |layers[1].tiles|
    ensures CollidesInRange(layers, minX, minY, maxX, maxY)
  {
    if minX < 0 {
      assert Blocked(layers[1], minX, minY);
    } else if minY < 0 {
      assert Blocked(layers[1], minX, minY);
    } else if maxX >= |layers[1].tiles[0]| {
      assert Blocked(layers[1], maxX, minY);
    } else {
      assert Blocked(layers[1], minX, maxY);
    }
  }

  /** tile_uv of the world map: id 0 is an empty cell with no sprite; any other id
      gets its atlas rectangle. */
  function TileUv(tile: Atlas.u16): (r: Option<Atlas.Rect>)
    ensures r.None? <==> tile == 0
    ensures r.Some? ==> r.value.w == 16 && r.value.h == 16 && 0 <= r.value.x <= 1008
    ensures r.Some? ==> r.value.x % 16 == 0 && 0 <= r.value.y && r.value.y % 16 == 0
    ensures r.Some? ==> Atlas.AtlasId(r.value) == tile as int
  {
    if tile == 0 then None else Some(Atlas.TileUv(tile))
  }

  /** What the draw loop does with a cell's id: it truncates the u32 to u16 and
      skips the cell exactly when that truncation is 0. */
  function DrawnRect(id: u32): (r: Option<Atlas.Rect>)
    ensures r.None? <==> id as int % 0x1_0000 == 0
    ensures r.Some? ==> Atlas.AtlasId(r.value) == id as int % 0x1_0000
  {
    TileUv((id % 0x1_0000) as int as Atlas.u16)
  }

  /** The visible world rectangle, with sides left, top, right and bottom. */
  datatype View = View(left: real, top: real, right: real, bottom: real)

  /** The visible rectangle of draw: target -/+ half the screen over the zoom. The
      horizontal half-extent is the full view width (not halved), so the rectangle
      is twice the view width across and the view height down. */
  function ViewRect(camera: Camera, viewWidth: real, viewHeight: real): (v: View)
    requires camera.zoom.x != 0.0 && camera.zoom.y != 0.0
    ensures v.right - v.left == 2.0 * (viewWidth / camera.zoom.x)
    ensures v.bottom - v.top == viewHeight / camera.zoom.y
    ensures v.left + v.right == 2.0 * camera.target.x && v.top + v.bottom == 2.0 * camera.target.y
  {
    var halfScreen := Vec2(viewWidth, viewHeight / 2.0);
    View(camera.target.x - halfScreen.x / camera.zoom.x,
         camera.target.y - halfScreen.y / camera.zoom.y,
         camera.target.x + halfScreen.x / camera.zoom.x,
         camera.target.y + halfScreen.y / camera.zoom.y)
  }

  function Ceil(r: real): int
  {
    -((-r).Floor)
  }

  /** A half-open range of tile indices start..end. */
  datatype Span = Span(start: nat, end: nat)

  predicate InSpan(s: Span, t: int)
  {
    s.start <= t < s.end
  }

  /** Tile t of a row of `limit` tiles shows some of the open interval (lo, hi). */
  predicate ShowsPartOf(t: int, lo: real, hi: real, limit: int)
  {
    0 <= t < limit && t as real * TileSize < hi && lo < (t + 1) as real * TileSize
  }

  /** One axis of the visible range: floor(lo / 16) raised to 0, and ceil(hi / 16)
      lowered to the map size (a negative value saturates to 0 on the cast to
      usize). The span is exactly the tiles inside the map that show part of
      (lo, hi), and never leaves the map. */
  function TileSpan(lo: real, hi: real, limit: nat): (s: Span)
    ensures s.end <= limit
    ensures forall t :: InSpan(s, t) <==> ShowsPartOf(t, lo, hi, limit)
  {
    var first := (lo / TileSize).Floor;
    var last := Ceil(hi / TileSize);
    var start := if first > 0 then first else 0;
    var capped := if last < limit then last else limit;
    Span(start, if capped < 0 then 0 else capped)
  }

  /** The tiles draw visits for a camera, by column and by row. */
  datatype TileRange = TileRange(columns: Span, rows: Span)

  /** The visible-tile range of draw: every (x, y) it visits lies inside the 64 x 64
      map, and it visits exactly the map tiles that show part of the view. */
  function VisibleTileRange(camera: Camera, viewWidth: real, viewHeight: real): (r: TileRange)
    requires camera.zoom.x != 0.0 && camera.zoom.y != 0.0
    ensures r.columns.end <= MapWidth && r.rows.end <= MapHeight
    ensures forall x :: InSpan(r.columns, x) <==>
              ShowsPartOf(x, ViewRect(camera, viewWidth, viewHeight).left, ViewRect(camera, viewWidth, viewHeight).right, MapWidth)
    ensures forall y :: InSpan(r.rows, y) <==>
              ShowsPartOf(y, ViewRect(camera, viewWidth, viewHeight).top, ViewRect(camera, viewWidth, viewHeight).bottom, MapHeight)
  {
    var v := ViewRect(camera, viewWidth, viewHeight);
    TileRange(TileSpan(v.left, v.right, MapWidth), TileSpan(v.top, v.bottom, MapHeight))
  }

  /** One sprite draw issues: the map cell it covers and the atlas rectangle. */
  datatype DrawCall = DrawCall(x: int, y: int, source: Atlas.Rect)

  /** A layer draw can index anywhere on the map: at least MapHeight rows, each of
      at least MapWidth cells. */
  predicate CoversMap(layer: Layer)
  {
    |layer.tiles| >= MapHeight && forall y :: 0 <= y < MapHeight ==> |layer.tiles[y]| >= MapWidth
  }

  /** Some layer's cell (x, y) draws the sprite source. */
  ghost predicate SomeLayerDraws(layers: seq<Layer>, x: int, y: int, source: Atlas.Rect)
    requires forall i :: 0 <= i < |layers| ==> CoversMap(layers[i])
    requires 0 <= x < MapWidth && 0 <= y < MapHeight
  {
    exists i :: 0 <= i < |layers| && CoversMap(layers[i]) && DrawnRect(layers[i].tiles[y][x]) == Some(source)
  }

  /** The calls draw makes for a tile range: one per layer whose cell in the range
      holds a sprite, none for empty cells. */
  ghost predicate Drawn(layers: seq<Layer>, range: TileRange, c: DrawCall)
    requires forall i :: 0 <= i < |layers| ==> CoversMap(layers[i])
    requires range.columns.end <= MapWidth && range.rows.end <= MapHeight
  {
    InSpan(range.columns, c.x) && InSpan(range.rows, c.y) && SomeLayerDraws(layers, c.x, c.y, c.source)
  }

  /** draw: the loops over the visible range, each cell through every layer in
      order. Every cell they index lies on the map, and they draw exactly the
      non-empty cells of every layer that show part of the view. */
  method Draw(layers: seq<Layer>, camera: Camera, viewWidth: real, viewHeight: real)
    returns (calls: seq<DrawCall>)
    requires forall i :: 0 <= i < |layers| ==> CoversMap(layers[i])
    requires camera.zoom.x != 0.0 && camera.zoom.y != 0.0
    ensures forall c :: c in calls <==> Drawn(layers, VisibleTileRange(camera, viewWidth, viewHeight), c)
  {
    var range := VisibleTileRange(camera, viewWidth, viewHeight);
    calls := [];
    var y := range.rows.start;
    while y < range.rows.end
      invariant forall c :: c in calls <==> Drawn(layers, range, c) && c.y < y
    {
      var x := range.columns.start;
      while x < range.columns.end
        invariant range.rows.start <= y < range.rows.end
        invariant forall c :: c in calls <==> Drawn(layers, range, c) && (c.y < y || (c.y == y && c.x < x))
      {
        var i := 0;
        while i < |layers|
          invariant 0 <= i <= |layers|
          invariant range.columns.start <= x < range.columns.end
          invariant forall c :: c in calls <==>
                      (Drawn(layers, range, c) && (c.y < y || (c.y == y && c.x < x)))
                      || (c.y == y && c.x == x && exists j :: 0 <= j < i && DrawnRect(layers[j].tiles[y][x]) == Some(c.source))
        {
          var rect := DrawnRect(layers[i].tiles[y][x]);
          if rect.Some? {
            calls := calls + [DrawCall(x, y, rect.value)];
          }
          i := i + 1;
        }
        x := x + 1;
      }
      y := y + 1;
    }
  }
}
