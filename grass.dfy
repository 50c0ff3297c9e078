// The grass layer: a generated grid whose edges and corners are all the dark
// grass sprite, stacked at an altitude one above the grass layer beneath it.
module Grass {
  import opened Wrappers
  import opened Tileset
  import opened Terrain

  datatype GrassLayer = GrassLayer(tiles: Grid, center: WorldPoint, altitude: nat)

  /** The kinds of layer a grass layer can be placed on. Only the grass variant
      matters to the altitude rule; the other variants are not part of this model. */
  datatype LayerType = Grass(layer: GrassLayer) | OtherLayer

  /** The altitude rule of new: one above a grass layer directly beneath, and 0 on
      anything else or on nothing. */
  function Altitude(prev: Option<LayerType>): (a: nat)
    ensures prev.Some? && prev.value.Grass? ==> a == prev.value.layer.altitude + 1
    ensures !(prev.Some? && prev.value.Grass?) ==> a == 0
  {
    match prev
    case Some(Grass(g)) => g.altitude + 1
    case _ => 0
  }

  /** new: the tiles and centre are whatever the terrain generator returns (not
      part of this model); the altitude follows Altitude. */
  function New(prev: Option<LayerType>, generated: (WorldPoint, Grid)): (layer: GrassLayer)
    ensures layer.tiles == generated.1 && layer.center == generated.0
    ensures layer.altitude == Altitude(prev)
  {
    GrassLayer(generated.1, generated.0, Altitude(prev))
  }

  /** The number of grass layers on top of a stack, counted down to the first
      layer that is not grass. */
  function GrassRun(stack: seq<LayerType>): nat
  {
    if stack == [] || !stack[|stack| - 1].Grass? then 0 else 1 + GrassRun(stack[..|stack| - 1])
  }

  /** Every grass layer in the stack stands at the height of the grass run beneath it. */
  predicate AltitudesConsistent(stack: seq<LayerType>)
  {
    forall i :: 0 <= i < |stack| && stack[i].Grass? ==> stack[i].layer.altitude == GrassRun(stack[..i])
  }

  function Top(stack: seq<LayerType>): Option<LayerType>
  {
    if stack == [] then None else Some(stack[|stack| - 1])
  }

  /** Placing a new grass layer on top of a stack keeps every altitude equal to the
      number of grass layers directly beneath it. */
  lemma {:induction false} PushKeepsAltitudes(stack: seq<LayerType>, generated: (WorldPoint, Grid))
    requires AltitudesConsistent(stack)
    ensures AltitudesConsistent(stack + [Grass(New(Top(stack), generated))])
  {
    var g := New(Top(stack), generated);
    var s' := stack + [Grass(g)];
    forall i | 0 <= i < |s'| && s'[i].Grass?
      ensures s'[i].layer.altitude == GrassRun(s'[..i])
    {
      if i < |stack| {
        assert s'[..i] == stack[..i];
      } else {
        assert s'[..i] == stack;
        if stack != [] && stack[|stack| - 1].Grass? {
          assert stack[|stack| - 1].layer.altitude == GrassRun(stack[..|stack| - 1]);
        }
      }
    }
  }

  function GetTile(layer: GrassLayer, x: nat, y: nat): (cell: Option<TileIndex>)
    requires y < |layer.tiles| && x < |layer.tiles[y]|
    ensures cell == layer.tiles[y][x]
  {
    CellAt(layer.tiles, x, y)
  }

  /** From the origin to (columns * 16, rows * 16), columns counted in row 0:
      exactly the cells of that width and the grid's height lie inside. */
  function GetBounds(layer: GrassLayer): (b: Bounds)
    requires |layer.tiles| > 0
    ensures b.min == WorldPoint(0.0, 0.0)
    ensures forall x: int, y: int {:trigger CellInside(x, y, b)} ::
              CellInside(x, y, b) <==> 0 <= x < |layer.tiles[0]| && 0 <= y < |layer.tiles|
  {
    GridBounds(layer.tiles)
  }

  /** Every edge role gets the dark grass sprite, which no is_*_edge classifier
      accepts and which is no sand edge. */
  function EdgeTile(role: EdgeRole): (t: TileIndex)
    ensures EdgeKinds(t) == 0 && !IsSandEdge(t)
  {
    GrassDark
  }

  /** Every corner role gets the dark grass sprite too. */
  function CornerTile(role: CornerRole): (t: TileIndex)
    ensures !IsSandCorner(t)
  {
    GrassDark
  }

  function CenterTiles(): (s: seq<TileIndex>)
    ensures |s| == 4
    ensures forall i, j :: 0 <= i < j < |s| ==> s[i] != s[j]
    ensures forall i :: 0 <= i < |s| ==> s[i] != GrassDark && EdgeKinds(s[i]) == 0
  {
    [GrassLight, GrassSpottedLight1, GrassSpottedLight2, GrassSpottedLight3]
  }

  /** All edge and corner roles share one sprite, distinct from every centre tile:
      a grass layer's outline is drawn in a single tile. */
  lemma OutlineIsUniform(a: EdgeRole, b: EdgeRole, c: CornerRole, i: nat)
    requires i < |CenterTiles()|
    ensures EdgeTile(a) == EdgeTile(b) == CornerTile(c)
    ensures CenterTiles()[i] != EdgeTile(a)
  {
  }
}
