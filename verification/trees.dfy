/**
 * The tree templates and generateTree: a template is a stack of layers,
 * each a grid of rows (j) by columns (i) of optional block types, stamped
 * around a base cell into one chunk.
 */
module Trees {
  import opened Blocks
  import opened Grid
  import opened Chunks

  type Cell = Option<BlockType>
  type Layer = seq<seq<Cell>>
  type Shape = seq<Layer>

  /** One entry of blocksToAdd: the cell and the type to add there. */
  datatype Placement = Placement(at: Coord, t: BlockType)

  const N: Cell := None
  const W: Cell := Some(Wood)
  const L: Cell := Some(Leaves)

  /** The small pine: layer 0 is the trunk base. */
  const Pine: Shape := [
    [[N, N, N, N, N], [N, N, W, N, N], [N, N, N, N, N], [N, N, N, N, N], [N, N, N, N, N]],
    [[N, N, N, N, N], [N, N, W, N, N], [N, N, N, N, N], [N, N, N, N, N], [N, N, N, N, N]],
    [[N, N, L, N, N], [N, N, W, N, N], [N, N, W, N, N], [N, N, N, N, N], [N, N, N, N, N]],
    [[N, L, L, L, N], [L, L, W, L, L], [L, L, L, L, L], [L, L, L, L, L], [N, L, L, L, N]],
    [[N, N, L, N, N], [N, L, L, L, N], [L, L, L, L, L], [N, L, L, L, N], [N, N, L, N, N]],
    [[N, N, N, N, N], [N, N, L, N, N], [N, L, L, L, N], [N, N, L, N, N], [N, N, N, N, N]]
  ]

  /** The broad oak: layer 0 is the trunk base. */
  const Oak: Shape := [
    [[N, N, N, N, N], [N, N, N, N, N], [N, N, W, N, N], [N, N, N, N, N], [N, N, N, N, N]],
    [[N, N, N, N, N], [N, N, N, N, N], [N, N, W, N, N], [N, N, N, N, N], [N, N, N, N, N]],
    [[N, N, N, N, N], [N, N, W, N, N], [N, L, W, L, N], [N, N, W, N, N], [N, N, N, N, N]],
    [[N, L, L, L, N], [L, L, W, L, L], [L, W, W, W, L], [L, L, W, L, L], [N, L, L, L, N]],
    [[N, N, L, N, N], [N, L, L, L, N], [L, L, L, L, L], [N, L, L, L, N], [N, N, L, N, N]],
    [[N, N, N, N, N], [N, N, N, N, N], [N, N, L, N, N], [N, N, N, N, N], [N, N, N, N, N]]
  ]

  const TreeShapes: seq<Shape> := [Pine, Oak]

  /** Every layer has at least one row and all its rows have the width of its first row. */
  predicate WellFormed(shape: Shape)
  {
    forall l :: 0 <= l < |shape| ==>
      |shape[l]| > 0 && forall r :: 0 <= r < |shape[l]| ==> |shape[l][r]| == |shape[l][0]|
  }

  /** Math.floor(Math.random() * trees.length) for a draw in [0, 1). */
  function ShapeIndex(draw: real): (r: int)
    requires 0.0 <= draw < 1.0
    ensures 0 <= r < |TreeShapes|
    ensures r == 0 <==> draw < 0.5
  {
    (draw * 2.0).Floor
  }

  /** The vertical offset of layer l: layers + l - (ceil(layers / 2) + 2). */
  function LayerOffset(layers: int, l: int): int
    requires layers >= 0
  {
    layers + l - (CeilDiv(layers, 2) + 2)
  }

  /** For six layers, layer l sits l + 1 above the base: layer 0 is the lowest and none is at the base itself. */
  lemma SixLayerOffsets(l: int)
    ensures LayerOffset(6, l) == l + 1
  {
    assert CeilDiv(6, 2) == 3;
  }

  /** The placements of columns [0, n) of one row, column c going to i0 + c. */
  function RowStamp(row: seq<Cell>, n: int, i0: int, j: int, y: int): seq<Placement>
    requires 0 <= n <= |row|
  {
    if n == 0 then []
    else RowStamp(row, n - 1, i0, j, y)
         + match row[n - 1] case None => [] case Some(t) => [Placement(Coord(i0 + n - 1, j, y), t)]
  }

  /** The placements of rows [0, n) of one layer, row r going to j0 + r. */
  function LayerStamp(layer: Layer, n: int, i0: int, j0: int, y: int): seq<Placement>
    requires 0 <= n <= |layer|
    requires forall r :: 0 <= r < |layer| ==> |layer[r]| == |layer[0]|
  {
    if n == 0 then []
    else LayerStamp(layer, n - 1, i0, j0, y) + RowStamp(layer[n - 1], |layer[0]|, i0, j0 + n - 1, y)
  }

  /** The placements of layers [0, n), each centred on (baseI, baseJ) at its own height. */
  function ShapeStamp(shape: Shape, n: int, baseI: int, baseJ: int, baseK: int): seq<Placement>
    requires WellFormed(shape) && 0 <= n <= |shape|
  {
    if n == 0 then []
    else
      var layer := shape[n - 1];
      ShapeStamp(shape, n - 1, baseI, baseJ, baseK)
      + LayerStamp(layer, |layer|, baseI - |layer[0]| / 2, baseJ - |layer| / 2, baseK + LayerOffset(|shape|, n - 1))
  }

  /** blocksToAdd once generateTree's nested loops have run over the whole shape. */
  function Stamp(shape: Shape, baseI: int, baseJ: int, baseK: int): seq<Placement>
    requires WellFormed(shape)
  {
    ShapeStamp(shape, |shape|, baseI, baseJ, baseK)
  }

  /** The number of non-null cells in columns [0, n) of a row. */
  function RowCount(row: seq<Cell>, n: int): int
    requires 0 <= n <= |row|
  {
    if n == 0 then 0 else RowCount(row, n - 1) + (if row[n - 1].Some? then 1 else 0)
  }

  function LayerCount(layer: Layer, n: int): int
    requires 0 <= n <= |layer|
  {
    if n == 0 then 0 else LayerCount(layer, n - 1) + RowCount(layer[n - 1], |layer[n - 1]|)
  }

  function ShapeCount(shape: Shape, n: int): int
    requires 0 <= n <= |shape|
  {
    if n == 0 then 0 else ShapeCount(shape, n - 1) + LayerCount(shape[n - 1], |shape[n - 1]|)
  }

  lemma {:induction false} RowStampCount(row: seq<Cell>, n: int, i0: int, j: int, y: int)
    requires 0 <= n <= |row|
    ensures |RowStamp(row, n, i0, j, y)| == RowCount(row, n)
  {
    if n > 0 {
      RowStampCount(row, n - 1, i0, j, y);
    }
  }

  lemma {:induction false} LayerStampCount(layer: Layer, n: int, i0: int, j0: int, y: int)
    requires 0 <= n <= |layer|
    requires forall r :: 0 <= r < |layer| ==> |layer[r]| == |layer[0]|
    ensures |LayerStamp(layer, n, i0, j0, y)| == LayerCount(layer, n)
  {
    if n > 0 {
      LayerStampCount(layer, n - 1, i0, j0, y);
      RowStampCount(layer[n - 1], |layer[0]|, i0, j0 + n - 1, y);
    }
  }

  /** generateTree adds one block per non-null template cell, and no more. */
  lemma {:induction false} ShapeStampCount(shape: Shape, n: int, baseI: int, baseJ: int, baseK: int)
    requires WellFormed(shape) && 0 <= n <= |shape|
    ensures |ShapeStamp(shape, n, baseI, baseJ, baseK)| == ShapeCount(shape, n)
  {
    if n > 0 {
      var layer := shape[n - 1];
      ShapeStampCount(shape, n - 1, baseI, baseJ, baseK);
      LayerStampCount(layer, |layer|, baseI - |layer[0]| / 2, baseJ - |layer| / 2, baseK + LayerOffset(|shape|, n - 1));
    }
  }

  /** Every layer is a 5 x 5 grid, as in both templates. */
  predicate Square5(shape: Shape)
  {
    forall l :: 0 <= l < |shape| ==> |shape[l]| == 5 && forall r :: 0 <= r < 5 ==> |shape[l][r]| == 5
  }

  /** Every cell is empty, wood or leaves. */
  predicate WoodAndLeavesOnly(shape: Shape)
  {
    forall l, r, c :: 0 <= l < |shape| && 0 <= r < |shape[l]| && 0 <= c < |shape[l][r]| ==>
      shape[l][r][c] in {None, Some(Wood), Some(Leaves)}
  }

  lemma Templates()
    ensures |Pine| == 6 && |Oak| == 6
    ensures Square5(Pine) && Square5(Oak) && WellFormed(Pine) && WellFormed(Oak)
    ensures WoodAndLeavesOnly(Pine) && WoodAndLeavesOnly(Oak)
  {
  }

  /** What the proofs need of a template: six 5 x 5 layers of wood, leaves or nothing. */
  predicate TreeShape(shape: Shape)
  {
    |shape| == 6 && WellFormed(shape) && Square5(shape) && WoodAndLeavesOnly(shape)
  }

  /** Both templates are tree shapes. */
  lemma PickedTreeShape(draw: real)
    requires 0.0 <= draw < 1.0
    ensures TreeShape(TreeShapes[ShapeIndex(draw)])
  {
    Templates();
  }

  /** The template a draw picks is well formed. */
  lemma PickedWellFormed(draw: real)
    requires 0.0 <= draw < 1.0
    ensures WellFormed(TreeShapes[ShapeIndex(draw)])
  {
    Templates();
  }

  /** Each placement of a row prefix comes from a non-null cell of that row, one column per step. */
  lemma {:induction false} RowStampSound(row: seq<Cell>, n: int, i0: int, j: int, y: int)
    requires 0 <= n <= |row|
    ensures forall p :: p in RowStamp(row, n, i0, j, y) ==>
              i0 <= p.at.i < i0 + n && p.at.j == j && p.at.k == y && row[p.at.i - i0] == Some(p.t)
  {
    if n > 0 {
      RowStampSound(row, n - 1, i0, j, y);
    }
  }

  /** Each placement of a layer prefix comes from a non-null cell of that layer. */
  lemma {:induction false} LayerStampSound(layer: Layer, n: int, i0: int, j0: int, y: int)
    requires 0 <= n <= |layer|
    requires forall r :: 0 <= r < |layer| ==> |layer[r]| == |layer[0]|
    ensures forall p :: p in LayerStamp(layer, n, i0, j0, y) ==>
              j0 <= p.at.j < j0 + n && i0 <= p.at.i < i0 + |layer[0]| && p.at.k == y
              && layer[p.at.j - j0][p.at.i - i0] == Some(p.t)
  {
    if n > 0 {
      var prefix := LayerStamp(layer, n - 1, i0, j0, y);
      var row := RowStamp(layer[n - 1], |layer[0]|, i0, j0 + n - 1, y);
      LayerStampSound(layer, n - 1, i0, j0, y);
      RowStampSound(layer[n - 1], |layer[0]|, i0, j0 + n - 1, y);
      forall p: Placement | p in LayerStamp(layer, n, i0, j0, y)
        ensures j0 <= p.at.j < j0 + n && i0 <= p.at.i < i0 + |layer[0]| && p.at.k == y
                && layer[p.at.j - j0][p.at.i - i0] == Some(p.t)
      {
        assert p in prefix || p in row;
      }
    }
  }

  /**
   * Every block generateTree adds for a 5 x 5 template comes from a non-null
   * cell of the template: layer l lands at baseK + LayerOffset(l), row r at
   * baseJ + r - 2 and column c at baseI + c - 2, with the cell's own type.
   */
  lemma {:induction false} ShapeStampSound(shape: Shape, n: int, baseI: int, baseJ: int, baseK: int)
    requires WellFormed(shape) && Square5(shape) && 0 <= n <= |shape|
    ensures forall p :: p in ShapeStamp(shape, n, baseI, baseJ, baseK) ==>
              var l := p.at.k - baseK - LayerOffset(|shape|, 0);
              0 <= l < n && baseI - 2 <= p.at.i <= baseI + 2 && baseJ - 2 <= p.at.j <= baseJ + 2
              && shape[l][p.at.j - baseJ + 2][p.at.i - baseI + 2] == Some(p.t)
  {
    if n > 0 {
      var layer := shape[n - 1];
      var y := baseK + LayerOffset(|shape|, n - 1);
      var prefix := ShapeStamp(shape, n - 1, baseI, baseJ, baseK);
      var top := LayerStamp(layer, |layer|, baseI - 2, baseJ - 2, y);
      assert ShapeStamp(shape, n, baseI, baseJ, baseK) == prefix + top;
      ShapeStampSound(shape, n - 1, baseI, baseJ, baseK);
      LayerStampSound(layer, |layer|, baseI - 2, baseJ - 2, y);
      forall p: Placement | p in prefix + top
        ensures var l := p.at.k - baseK - LayerOffset(|shape|, 0);
                0 <= l < n && baseI - 2 <= p.at.i <= baseI + 2 && baseJ - 2 <= p.at.j <= baseJ + 2
                && shape[l][p.at.j - baseJ + 2][p.at.i - baseI + 2] == Some(p.t)
      {
        if p !in prefix {
          assert p in top;
          assert p.at.k - baseK - LayerOffset(|shape|, 0) == n - 1;
        }
      }
    }
  }

  /** Both templates stamp only wood and leaves, within two cells of the base horizontally and one to six cells above it. */
  lemma StampBounds(draw: real, baseI: int, baseJ: int, baseK: int)
    requires 0.0 <= draw < 1.0
    ensures WellFormed(TreeShapes[ShapeIndex(draw)])
    ensures forall p :: p in Stamp(TreeShapes[ShapeIndex(draw)], baseI, baseJ, baseK) ==>
              (p.t == Wood || p.t == Leaves)
              && baseI - 2 <= p.at.i <= baseI + 2 && baseJ - 2 <= p.at.j <= baseJ + 2
              && baseK + 1 <= p.at.k <= baseK + 6
  {
    Templates();
    var shape := TreeShapes[ShapeIndex(draw)];
    ShapeStampSound(shape, 6, baseI, baseJ, baseK);
    SixLayerOffsets(0);
  }

  function Filled(c: Cell): int
  {
    if c.Some? then 1 else 0
  }

  lemma RowCount5(row: seq<Cell>)
    requires |row| == 5
    ensures RowCount(row, 5) == Filled(row[0]) + Filled(row[1]) + Filled(row[2]) + Filled(row[3]) + Filled(row[4])
  {
    assert RowCount(row, 1) == Filled(row[0]);
    assert RowCount(row, 2) == RowCount(row, 1) + Filled(row[1]);
    assert RowCount(row, 3) == RowCount(row, 2) + Filled(row[2]);
    assert RowCount(row, 4) == RowCount(row, 3) + Filled(row[3]);
  }

  lemma LayerCount5(layer: Layer)
    requires |layer| == 5 && forall r :: 0 <= r < 5 ==> |layer[r]| == 5
    ensures LayerCount(layer, 5) == RowCount(layer[0], 5) + RowCount(layer[1], 5) + RowCount(layer[2], 5) + RowCount(layer[3], 5) + RowCount(layer[4], 5)
  {
    assert LayerCount(layer, 1) == RowCount(layer[0], 5);
    assert LayerCount(layer, 2) == LayerCount(layer, 1) + RowCount(layer[1], 5);
    assert LayerCount(layer, 3) == LayerCount(layer, 2) + RowCount(layer[2], 5);
    assert LayerCount(layer, 4) == LayerCount(layer, 3) + RowCount(layer[3], 5);
  }

  lemma ShapeCount6(shape: Shape)
    requires |shape| == 6 && Square5(shape)
    ensures ShapeCount(shape, 6) == LayerCount(shape[0], 5) + LayerCount(shape[1], 5) + LayerCount(shape[2], 5)
                                    + LayerCount(shape[3], 5) + LayerCount(shape[4], 5) + LayerCount(shape[5], 5)
  {
    assert ShapeCount(shape, 1) == LayerCount(shape[0], 5);
    assert ShapeCount(shape, 2) == ShapeCount(shape, 1) + LayerCount(shape[1], 5);
    assert ShapeCount(shape, 3) == ShapeCount(shape, 2) + LayerCount(shape[2], 5);
    assert ShapeCount(shape, 4) == ShapeCount(shape, 3) + LayerCount(shape[3], 5);
    assert ShapeCount(shape, 5) == ShapeCount(shape, 4) + LayerCount(shape[4], 5);
  }

  /** Unfolds the cell count of a six-layer 5 x 5 template down to its cells. */
  lemma CountCells(shape: Shape)
    requires |shape| == 6 && Square5(shape)
    ensures forall l :: 0 <= l < 6 ==>
              LayerCount(shape[l], 5) == RowCount(shape[l][0], 5) + RowCount(shape[l][1], 5) + RowCount(shape[l][2], 5) + RowCount(shape[l][3], 5) + RowCount(shape[l][4], 5)
    ensures forall l, r :: 0 <= l < 6 && 0 <= r < 5 ==>
              RowCount(shape[l][r], 5) == Filled(shape[l][r][0]) + Filled(shape[l][r][1]) + Filled(shape[l][r][2]) + Filled(shape[l][r][3]) + Filled(shape[l][r][4])
  {
    forall l | 0 <= l < 6
      ensures LayerCount(shape[l], 5) ==
              RowCount(shape[l][0], 5) + RowCount(shape[l][1], 5) + RowCount(shape[l][2], 5) + RowCount(shape[l][3], 5) + RowCount(shape[l][4], 5)
    {
      LayerCount5(shape[l]);
    }
    forall l, r | 0 <= l < 6 && 0 <= r < 5
      ensures RowCount(shape[l][r], 5) ==
              Filled(shape[l][r][0]) + Filled(shape[l][r][1]) + Filled(shape[l][r][2]) + Filled(shape[l][r][3]) + Filled(shape[l][r][4])
    {
      RowCount5(shape[l][r]);
    }
  }

  /** The pine template has 44 non-null cells. */
  lemma PineCount()
    ensures ShapeCount(Pine, 6) == 44
  {
    Templates();
    ShapeCount6(Pine);
    PineLowerLayers();
    PineUpperLayers();
  }

  /** The trunk layers of the pine: one, one and three cells. */
  lemma PineLowerLayers()
    ensures LayerCount(Pine[0], 5) == 1 && LayerCount(Pine[1], 5) == 1 && LayerCount(Pine[2], 5) == 3
  {
    Templates();
    CountCells(Pine);
  }

  /** The crown layers of the pine: twenty-one, thirteen and five cells. */
  lemma PineUpperLayers()
    ensures LayerCount(Pine[3], 5) == 21 && LayerCount(Pine[4], 5) == 13 && LayerCount(Pine[5], 5) == 5
  {
    Templates();
    CountCells(Pine);
  }

  /** The oak template has 42 non-null cells. */
  lemma OakCount()
    ensures ShapeCount(Oak, 6) == 42
  {
    Templates();
    ShapeCount6(Oak);
    OakLowerLayers();
    OakUpperLayers();
  }

  /** The trunk layers of the oak: one, one and five cells. */
  lemma OakLowerLayers()
    ensures LayerCount(Oak[0], 5) == 1 && LayerCount(Oak[1], 5) == 1 && LayerCount(Oak[2], 5) == 5
  {
    Templates();
    CountCells(Oak);
  }

  /** The crown layers of the oak: twenty-one, thirteen and one cells. */
  lemma OakUpperLayers()
    ensures LayerCount(Oak[3], 5) == 21 && LayerCount(Oak[4], 5) == 13 && LayerCount(Oak[5], 5) == 1
  {
    Templates();
    CountCells(Oak);
  }

  /** generateTree adds 44 blocks for the pine and 42 for the oak. */
  lemma StampSizes(baseI: int, baseJ: int, baseK: int)
    ensures WellFormed(Pine) && WellFormed(Oak)
    ensures |Stamp(Pine, baseI, baseJ, baseK)| == 44
    ensures |Stamp(Oak, baseI, baseJ, baseK)| == 42
  {
    Templates();
    ShapeStampCount(Pine, 6, baseI, baseJ, baseK);
    ShapeStampCount(Oak, 6, baseI, baseJ, baseK);
    PineCount();
    OakCount();
  }

  /** The cells of the placements of type t, in order. */
  function CellsOfType(ps: seq<Placement>, t: BlockType): seq<Coord>
  {
    if ps == [] then []
    else CellsOfType(ps[..|ps| - 1], t) + (if ps[|ps| - 1].t == t then [ps[|ps| - 1].at] else [])
  }

  /** blocksToAdd.forEach(addBlock): the placements added one by one, in order. */
  function AddAll(cs: ChunkState, ps: seq<Placement>): ChunkState
  {
    if ps == [] then cs
    else Added(AddAll(cs, ps[..|ps| - 1]), ps[|ps| - 1].at, ps[|ps| - 1].t)
  }

  /**
   * Adding a sequence of placements keeps the length/count invariant and
   * appends, for every mesh type, exactly the cells placed with that type
   * (in order) to that type's list; origin and published counts are untouched.
   */
  lemma {:induction false} AddAllCells(cs: ChunkState, ps: seq<Placement>)
    requires TablesOk(cs)
    ensures TablesOk(AddAll(cs, ps))
    ensures forall u :: HasMesh(u) ==> CellsOf(AddAll(cs, ps), u) == CellsOf(cs, u) + CellsOfType(ps, u)
    ensures AddAll(cs, ps).origin == cs.origin && AddAll(cs, ps).published == cs.published
  {
    if ps != [] {
      var init := ps[..|ps| - 1];
      var last := ps[|ps| - 1];
      AddAllCells(cs, init);
      AddedSpec(AddAll(cs, init), last.at, last.t);
    }
  }

  lemma CellsOfTypeAppend(ps: seq<Placement>, p: Placement, t: BlockType)
    ensures CellsOfType(ps + [p], t) == CellsOfType(ps, t) + (if p.t == t then [p.at] else [])
  {
    assert (ps + [p])[..|ps|] == ps;
  }

  /** The innermost loop of generateTree: one row's non-null cells, column by column. */
  method StampRow(blocks: seq<Placement>, row: seq<Cell>, cols: int, i0: int, j: int, y: int) returns (out: seq<Placement>)
    requires 0 <= cols <= |row|
    ensures out == blocks + RowStamp(row, cols, i0, j, y)
  {
    out := blocks;
    var c := 0;
    while c < cols
      invariant 0 <= c <= cols
      invariant out == blocks + RowStamp(row, c, i0, j, y)
    {
      var cell: Cell := row[c];
      if cell.Some? {
        out := out + [Placement(Coord(i0 + c, j, y), cell.value)];
      }
      c := c + 1;
    }
  }

  /** The middle loop of generateTree: one layer, row by row. */
  method StampLayer(blocks: seq<Placement>, layer: Layer, i0: int, j0: int, y: int) returns (out: seq<Placement>)
    requires |layer| > 0 && forall r :: 0 <= r < |layer| ==> |layer[r]| == |layer[0]|
    ensures out == blocks + LayerStamp(layer, |layer|, i0, j0, y)
  {
    out := blocks;
    var r := 0;
    while r < |layer|
      invariant 0 <= r <= |layer|
      invariant out == blocks + LayerStamp(layer, r, i0, j0, y)
    {
      assert LayerStamp(layer, r + 1, i0, j0, y) == LayerStamp(layer, r, i0, j0, y) + RowStamp(layer[r], |layer[0]|, i0, j0 + r, y);
      out := StampRow(out, layer[r], |layer[0]|, i0, j0 + r, y);
      r := r + 1;
    }
  }

  /** The whole nested loop of generateTree: blocksToAdd for a template, layer by layer. */
  method StampShape(shape: Shape, baseI: int, baseJ: int, baseK: int) returns (blocksToAdd: seq<Placement>)
    requires WellFormed(shape)
    ensures blocksToAdd == Stamp(shape, baseI, baseJ, baseK)
  {
    var layers := |shape|;
    blocksToAdd := [];
    var l := 0;
    while l < layers
      invariant 0 <= l <= layers
      invariant blocksToAdd == ShapeStamp(shape, l, baseI, baseJ, baseK)
    {
      var layer := shape[l];
      var midRow := |layer| / 2;
      var midCol := |layer[0]| / 2;
      var y := baseK + (layers + l - (CeilDiv(layers, 2) + 2));
      blocksToAdd := StampLayer(blocksToAdd, layer, baseI - midCol, baseJ - midRow, y);
      l := l + 1;
    }
  }

  /** blocksToAdd.forEach(bl => chunk.addBlock(...)). */
  method AddEach(chunk: Chunk, blocks: seq<Placement>)
    modifies chunk
    ensures chunk.Value() == AddAll(old(chunk.Value()), blocks)
  {
    var n := 0;
    while n < |blocks|
      invariant 0 <= n <= |blocks|
      invariant chunk.Value() == AddAll(old(chunk.Value()), blocks[..n])
    {
      chunk.AddBlock(blocks[n].at, blocks[n].t);
      assert blocks[..n + 1][..n] == blocks[..n];
      n := n + 1;
    }
    assert blocks[..n] == blocks;
  }

  /**
   * generateTree(chunk, baseI, baseJ, baseK) with the random draw as a
   * parameter: pick a template, collect its placements inside a loop that
   * runs once (the occupancy test that could stop it is commented out), then
   * add them all to the given chunk, whatever chunk's region the cells fall in.
   */
  method GenerateTree(chunk: Chunk, baseI: int, baseJ: int, baseK: int, draw: real)
    requires 0.0 <= draw < 1.0
    modifies chunk
    ensures WellFormed(TreeShapes[ShapeIndex(draw)])
    ensures chunk.Value() == AddAll(old(chunk.Value()), Stamp(TreeShapes[ShapeIndex(draw)], baseI, baseJ, baseK))
  {
    var shape := TreeShapes[ShapeIndex(draw)];
    assert WellFormed(shape) by {
      Templates();
    }
    var generationAllowed := true;
    while generationAllowed
      invariant generationAllowed ==> chunk.Value() == old(chunk.Value())
      invariant !generationAllowed ==> chunk.Value() == AddAll(old(chunk.Value()), Stamp(shape, baseI, baseJ, baseK))
      decreases if generationAllowed then 1 else 0
    {
      var blocksToAdd := StampShape(shape, baseI, baseJ, baseK);
      AddEach(chunk, blocksToAdd);
      generationAllowed := false;
    }
  }
}
