// The tile catalogue of the sunnyside-world atlas: each variant's discriminant is
// its atlas id (row * 64 + column, counting from the top-left sprite).
module Tileset {

  import opened Wrappers

  /** Atlas columns per row; discriminants are row * AtlasColumns + column. */
  const AtlasColumns: int := 64

  datatype TileIndex =
    | GrassDark | GrassLight
    | GrassSpottedLight1 | GrassSpottedLight2 | GrassSpottedLight3
    | GrassSpottedLight4 | GrassSpottedLight5 | GrassSpottedLight6 | GrassSpottedLight7
    | GrassDiagonal | GrassGrid
    | Ocean1 | Ocean2 | Ocean3 | Ocean4
    | Ocean5 | Ocean6 | Ocean7 | Ocean8
    | Ocean9 | Ocean10 | Ocean11 | Ocean12
    | Ocean13 | Ocean14 | Ocean15 | Ocean16
    | Sand | SandSpotted1 | SandSpotted2 | SandSpotted3
    | SandEdgeTop | SandEdgeBottom | SandEdgeLeft | SandEdgeRight
    | SandEdgeTopLeft | SandEdgeTopRight | SandEdgeBottomLeft | SandEdgeBottomRight
    | SandCornerTopLeft | SandCornerTopRight | SandCornerBottomLeft | SandCornerBottomRight

  /** The variant's discriminant: its atlas id. Every discriminant decodes back to
      its variant, so distinct variants never share an atlas id. */
  function Value(t: TileIndex): (v: int)
    ensures 0 < v < AtlasColumns * AtlasColumns
    ensures FromValue(v) == Some(t)
  {
    match t
    case GrassDark => 66
    case GrassLight => 67
    case GrassSpottedLight1 => 130
    case GrassSpottedLight2 => 131
    case GrassSpottedLight3 => 132
    case GrassSpottedLight4 => 196
    case GrassSpottedLight5 => 197
    case GrassSpottedLight6 => 258
    case GrassSpottedLight7 => 259
    case GrassDiagonal => 193
    case GrassGrid => 194
    case Ocean1 => 1164
    case Ocean2 => 1165
    case Ocean3 => 1166
    case Ocean4 => 1167
    case Ocean5 => 1228
    case Ocean6 => 1229
    case Ocean7 => 1230
    case Ocean8 => 1231
    case Ocean9 => 1292
    case Ocean10 => 1293
    case Ocean11 => 1294
    case Ocean12 => 1295
    case Ocean13 => 1356
    case Ocean14 => 1357
    case Ocean15 => 1358
    case Ocean16 => 1359
    case Sand => 70
    case SandSpotted1 => 72
    case SandSpotted2 => 73
    case SandSpotted3 => 74
    case SandEdgeTop => 28 * 64 + 7
    case SandEdgeBottom => 32 * 64 + 7
    case SandEdgeLeft => 30 * 64 + 5
    case SandEdgeRight => 30 * 64 + 9
    case SandEdgeTopLeft => 29 * 64 + 6
    case SandEdgeTopRight => 29 * 64 + 8
    case SandEdgeBottomLeft => 31 * 64 + 6
    case SandEdgeBottomRight => 31 * 64 + 8
    case SandCornerTopLeft => 28 * 64 + 6
    case SandCornerTopRight => 28 * 64 + 8
    case SandCornerBottomLeft => 32 * 64 + 6
    case SandCornerBottomRight => 32 * 64 + 8
  }

  /** The variant whose discriminant is v, if any (the inverse of Value). */
  function FromValue(v: int): Option<TileIndex>
  {
    match v
    case 66 => Some(GrassDark)
    case 67 => Some(GrassLight)
    case 130 => Some(GrassSpottedLight1)
    case 131 => Some(GrassSpottedLight2)
    case 132 => Some(GrassSpottedLight3)
    case 196 => Some(GrassSpottedLight4)
    case 197 => Some(GrassSpottedLight5)
    case 258 => Some(GrassSpottedLight6)
    case 259 => Some(GrassSpottedLight7)
    case 193 => Some(GrassDiagonal)
    case 194 => Some(GrassGrid)
    case 1164 => Some(Ocean1)
    case 1165 => Some(Ocean2)
    case 1166 => Some(Ocean3)
    case 1167 => Some(Ocean4)
    case 1228 => Some(Ocean5)
    case 1229 => Some(Ocean6)
    case 1230 => Some(Ocean7)
    case 1231 => Some(Ocean8)
    case 1292 => Some(Ocean9)
    case 1293 => Some(Ocean10)
    case 1294 => Some(Ocean11)
    case 1295 => Some(Ocean12)
    case 1356 => Some(Ocean13)
    case 1357 => Some(Ocean14)
    case 1358 => Some(Ocean15)
    case 1359 => Some(Ocean16)
    case 70 => Some(Sand)
    case 72 => Some(SandSpotted1)
    case 73 => Some(SandSpotted2)
    case 74 => Some(SandSpotted3)
    case 1799 => Some(SandEdgeTop)
    case 2055 => Some(SandEdgeBottom)
    case 1925 => Some(SandEdgeLeft)
    case 1929 => Some(SandEdgeRight)
    case 1862 => Some(SandEdgeTopLeft)
    case 1864 => Some(SandEdgeTopRight)
    case 1990 => Some(SandEdgeBottomLeft)
    case 1992 => Some(SandEdgeBottomRight)
    case 1798 => Some(SandCornerTopLeft)
    case 1800 => Some(SandCornerTopRight)
    case 2054 => Some(SandCornerBottomLeft)
    case 2056 => Some(SandCornerBottomRight)
    case _ => None
  }

  /** Distinct variants have distinct atlas ids. */
  lemma ValueInjective(a: TileIndex, b: TileIndex)
    ensures Value(a) == Value(b) <==> a == b
  {
    if Value(a) == Value(b) {
      assert Some(a) == FromValue(Value(a)) == FromValue(Value(b)) == Some(b);
    }
  }

  /** Atlas row and column of a variant. */
  function AtlasRow(t: TileIndex): (r: int)
    ensures 0 <= r < AtlasColumns
  {
    Value(t) / AtlasColumns
  }

  function AtlasColumn(t: TileIndex): (c: int)
    ensures 0 <= c < AtlasColumns
    ensures AtlasRow(t) * AtlasColumns + c == Value(t)
  {
    Value(t) % AtlasColumns
  }

  predicate IsBottomEdge(t: TileIndex) { t.SandEdgeBottom? }

  predicate IsTopEdge(t: TileIndex) { t.SandEdgeTop? }

  predicate IsRightEdge(t: TileIndex) { t.SandEdgeRight? }

  predicate IsLeftEdge(t: TileIndex) { t.SandEdgeLeft? }

  /** How many of the four edge classifiers accept t. */
  function EdgeKinds(t: TileIndex): nat
  {
    (if IsBottomEdge(t) then 1 else 0) + (if IsTopEdge(t) then 1 else 0)
    + (if IsRightEdge(t) then 1 else 0) + (if IsLeftEdge(t) then 1 else 0)
  }

  predicate IsSandEdge(t: TileIndex)
  {
    t.SandEdgeTop? || t.SandEdgeBottom? || t.SandEdgeLeft? || t.SandEdgeRight?
    || t.SandEdgeTopLeft? || t.SandEdgeTopRight? || t.SandEdgeBottomLeft? || t.SandEdgeBottomRight?
  }

  /** The four sand edges that are not diagonal. */
  predicate IsStraightSandEdge(t: TileIndex)
  {
    t.SandEdgeTop? || t.SandEdgeBottom? || t.SandEdgeLeft? || t.SandEdgeRight?
  }

  predicate IsSandCorner(t: TileIndex)
  {
    t.SandCornerTopLeft? || t.SandCornerTopRight? || t.SandCornerBottomLeft? || t.SandCornerBottomRight?
  }

  predicate IsOcean(t: TileIndex)
  {
    t.Ocean1? || t.Ocean2? || t.Ocean3? || t.Ocean4? || t.Ocean5? || t.Ocean6? || t.Ocean7? || t.Ocean8?
    || t.Ocean9? || t.Ocean10? || t.Ocean11? || t.Ocean12? || t.Ocean13? || t.Ocean14? || t.Ocean15? || t.Ocean16?
  }

  /** No tile is two kinds of edge, and exactly the four straight sand edges are
      any kind: diagonal edges, corners, sand centres, ocean and grass are none. */
  lemma EdgeClassifiersExclusive(t: TileIndex)
    ensures EdgeKinds(t) <= 1
    ensures EdgeKinds(t) == 1 <==> IsStraightSandEdge(t)
    ensures IsStraightSandEdge(t) ==> IsSandEdge(t)
    ensures IsSandCorner(t) || IsOcean(t) ==> EdgeKinds(t) == 0
  {
  }

  /** The straight top and bottom edges share an atlas column, and the left and
      right edges share an atlas row. */
  lemma EdgeAtlasGeometry()
    ensures AtlasColumn(SandEdgeTop) == AtlasColumn(SandEdgeBottom) == 7
    ensures AtlasRow(SandEdgeLeft) == AtlasRow(SandEdgeRight) == 30
    ensures AtlasRow(SandEdgeTop) == 28 && AtlasRow(SandEdgeBottom) == 32
    ensures AtlasColumn(SandEdgeLeft) == 5 && AtlasColumn(SandEdgeRight) == 9
    ensures Value(SandEdgeTop) == 1799 && Value(SandEdgeBottom) == 2055
    ensures Value(SandEdgeLeft) == 1925 && Value(SandEdgeRight) == 1929
  {
  }
}
