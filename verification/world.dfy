/**
 * The world: the chunks array in creation order and the resources ledger,
 * the module-level creation and strata fill of chunk.js, and the value
 * (WorldState) every world-changing operation is specified on.
 */
module Worlds {
  import opened Blocks
  import opened Grid
  import opened Chunks
  import opened Trees

  /** The value of the world: its constants, every chunk's state in creation order, and the ledger. */
  datatype WorldState = WorldState(g: Geometry, chunks: seq<ChunkState>, resources: map<BlockType, int>)

  /** Well-formed world: one chunk per index, each satisfying the length/count invariant, at the origin its index decodes to. */
  predicate WorldOk(ws: WorldState)
  {
    ws.g.Valid() && |ws.chunks| == ws.g.ChunkTotal()
    && forall n :: 0 <= n < |ws.chunks| ==> TablesOk(ws.chunks[n]) && ws.chunks[n].origin == Origin(ws.g, Decode(ws.g, n))
  }

  /** ws with chunk idx replaced by cs. */
  function WithChunk(ws: WorldState, idx: int, cs: ChunkState): WorldState
    requires 0 <= idx < |ws.chunks|
  {
    ws.(chunks := ws.chunks[idx := cs])
  }

  /** Replacing one chunk by a state with the same origin that keeps the invariant keeps the world well-formed. */
  lemma WithChunkOk(ws: WorldState, idx: int, cs: ChunkState)
    requires WorldOk(ws) && 0 <= idx < |ws.chunks|
    requires TablesOk(cs) && cs.origin == ws.chunks[idx].origin
    ensures WorldOk(WithChunk(ws, idx, cs))
  {
  }

  /** The cells of type t over all chunks, the quantity the dig floor is tested against. */
  function Total(chunks: seq<ChunkState>, t: BlockType): int
  {
    if chunks == [] then 0
    else Total(chunks[..|chunks| - 1], t) + Get(chunks[|chunks| - 1].counts, t)
  }

  /** Total over a world whose one chunk changed is the old total plus that chunk's change. */
  lemma {:induction false} TotalUpdate(chunks: seq<ChunkState>, idx: int, cs: ChunkState, t: BlockType)
    requires 0 <= idx < |chunks|
    ensures Total(chunks[idx := cs], t) == Total(chunks, t) - Get(chunks[idx].counts, t) + Get(cs.counts, t)
  {
    var last := |chunks| - 1;
    if idx < last {
      assert chunks[idx := cs][..last] == chunks[..last][idx := cs];
      TotalUpdate(chunks[..last], idx, cs, t);
    } else {
      assert chunks[idx := cs][..last] == chunks[..last];
    }
  }

  /** Total is never negative on well-formed chunks. */
  lemma {:induction false} TotalNonNegative(chunks: seq<ChunkState>, t: BlockType)
    requires forall n :: 0 <= n < |chunks| ==> TablesOk(chunks[n])
    ensures Total(chunks, t) >= 0
  {
    if chunks != [] {
      TotalNonNegative(chunks[..|chunks| - 1], t);
    }
  }

  /** The stratum the fill gives depth k: hay from soilStart + 3, grass at soilStart + 2, soil from soilStart, stone below. */
  function Stratum(g: Geometry, k: int): BlockType
  {
    var s := g.SoilStart();
    if k >= s + 3 then Hay else if k >= s + 2 then Grass else if k >= s then Soil else Stone
  }

  /** The cell the fill plants its tree on: the grass cell at the centre column. */
  function TreeCell(g: Geometry): Coord
  {
    Coord(g.gridSize / 2, g.gridSize / 2, g.SoilStart() + 2)
  }

  /** The fill's tree test: the centre column's grass cell. */
  predicate TreeTrigger(g: Geometry, c: Coord)
  {
    c.i == g.gridSize / 2 && c.j == g.gridSize / 2 && Stratum(g, c.k) == Grass
  }

  lemma TreeTriggerCell(g: Geometry, c: Coord)
    ensures TreeTrigger(g, c) <==> c == TreeCell(g)
  {
  }

  /** The chunks right after the creation loops: chunk n is a fresh chunk at the coordinates n decodes to. */
  function Created(g: Geometry): seq<ChunkState>
    requires g.Valid()
  {
    seq(g.ChunkTotal(), n requires 0 <= n < g.ChunkTotal() => Initial(g, Decode(g, n)))
  }

  /** The fill's state: the chunks and the treePlaced flag. */
  datatype FillState = FillState(chunks: seq<ChunkState>, treePlaced: bool)

  /** The tree the fill plants (the template the draw picked), stamped on the given base cell. */
  function TreeStamp(c: Coord, shape: Shape): seq<Placement>
    requires TreeShape(shape)
  {
    Stamp(shape, c.i, c.j, c.k)
  }

  /** One iteration of the fill loop: maybe plant the tree, then add the cell's stratum block to the cell's chunk. */
  function FillStep(g: Geometry, fs: FillState, c: Coord, shape: Shape): (r: FillState)
    requires g.Valid() && |fs.chunks| == g.ChunkTotal() && InBounds(g, c) && TreeShape(shape)
    ensures |r.chunks| == |fs.chunks|
  {
    ChunkIndexInRange(g, c);
    var idx := ChunkIndex(g, c);
    var tree := !fs.treePlaced && TreeTrigger(g, c);
    var cs := if tree then AddAll(fs.chunks[idx], TreeStamp(c, shape)) else fs.chunks[idx];
    FillState(fs.chunks[idx := Added(cs, c, Stratum(g, c.k))], fs.treePlaced || tree)
  }

  predicate AllInBounds(g: Geometry, cells: seq<Coord>)
  {
    forall n :: 0 <= n < |cells| ==> InBounds(g, cells[n])
  }

  /** The fill loop run over the given cells in order, starting from the freshly created chunks. */
  function Fill(g: Geometry, cells: seq<Coord>, shape: Shape): (r: FillState)
    requires g.Valid() && AllInBounds(g, cells) && TreeShape(shape)
    ensures |r.chunks| == g.ChunkTotal()
  {
    if cells == [] then FillState(Created(g), false)
    else
      var init := cells[..|cells| - 1];
      assert AllInBounds(g, init) by {
        forall n | 0 <= n < |init| ensures InBounds(g, init[n]) {
          assert init[n] == cells[n];
        }
      }
      FillStep(g, Fill(g, init, shape), cells[|cells| - 1], shape)
  }

  /** The cells of the given ones that the fill gives type t and that belong to chunk m, in order. */
  function Select(g: Geometry, cells: seq<Coord>, t: BlockType, m: int): seq<Coord>
    requires g.Valid()
  {
    if cells == [] then []
    else
      var c := cells[|cells| - 1];
      Select(g, cells[..|cells| - 1], t, m) + (if Stratum(g, c.k) == t && ChunkIndex(g, c) == m then [c] else [])
  }

  lemma {:induction false} SelectMembers(g: Geometry, cells: seq<Coord>, t: BlockType, m: int)
    requires g.Valid()
    ensures forall c :: c in Select(g, cells, t, m) <==> c in cells && Stratum(g, c.k) == t && ChunkIndex(g, c) == m
  {
    if cells != [] {
      SelectMembers(g, cells[..|cells| - 1], t, m);
      assert cells == cells[..|cells| - 1] + [cells[|cells| - 1]];
    }
  }

  /** Placements that never have type t contribute no cells of type t. */
  lemma {:induction false} CellsOfTypeNone(ps: seq<Placement>, t: BlockType)
    requires forall p :: p in ps ==> p.t != t
    ensures CellsOfType(ps, t) == []
  {
    if ps != [] {
      CellsOfTypeNone(ps[..|ps| - 1], t);
    }
  }

  /** The wood and leaves the fill's tree leaves in chunk m: the stamp's cells of type t, in the tree's chunk only. */
  function TreePart(g: Geometry, cells: seq<Coord>, t: BlockType, m: int, shape: Shape): seq<Coord>
    requires g.Valid() && TreeShape(shape)
  {
    if TreeCell(g) in cells && m == ChunkIndex(g, TreeCell(g)) then CellsOfType(TreeStamp(TreeCell(g), shape), t) else []
  }

  /** Chunk m after filling the given cells, as FillContents describes it. */
  predicate ChunkFilled(g: Geometry, cells: seq<Coord>, shape: Shape, m: int, cs: ChunkState)
    requires g.Valid() && 0 <= m < g.ChunkTotal() && TreeShape(shape)
  {
    TablesOk(cs) && cs.origin == Origin(g, Decode(g, m)) && cs.published == Initial(g, Decode(g, m)).published
    && forall t :: HasMesh(t) ==> CellsOf(cs, t) == Select(g, cells, t, m) + TreePart(g, cells, t, m, shape)
  }

  /** The fill's state after the given cells, as FillContents describes it. */
  predicate Filled(g: Geometry, cells: seq<Coord>, shape: Shape, fs: FillState)
    requires g.Valid() && TreeShape(shape)
  {
    (fs.treePlaced <==> TreeCell(g) in cells) && |fs.chunks| == g.ChunkTotal()
    && forall m :: 0 <= m < g.ChunkTotal() ==> ChunkFilled(g, cells, shape, m, fs.chunks[m])
  }

  /**
   * What the fill leaves in every chunk: the invariant holds, origins and
   * published counts are those of creation, and for each mesh type the list
   * is exactly the visited cells of that stratum in the chunk (in visiting
   * order) followed by the tree's cells of that type if the chunk got the
   * tree; the tree is planted once, when its cell is visited.
   */
  lemma {:induction false} FillContents(g: Geometry, cells: seq<Coord>, shape: Shape)
    requires g.Valid() && AllInBounds(g, cells) && TreeShape(shape)
    ensures Filled(g, cells, shape, Fill(g, cells, shape))
  {
    if cells == [] {
      forall m | 0 <= m < g.ChunkTotal() ensures ChunkFilled(g, cells, shape, m, Created(g)[m]) {
        InitialTables(g, Decode(g, m));
      }
    } else {
      var init := cells[..|cells| - 1];
      var c := cells[|cells| - 1];
      assert cells == init + [c];
      assert AllInBounds(g, init);
      FillContents(g, init, shape);
      FillSnoc(g, init, c, shape);
      FillStepContents(g, init, c, shape, Fill(g, init, shape));
    }
  }

  lemma FillSnoc(g: Geometry, init: seq<Coord>, c: Coord, shape: Shape)
    requires g.Valid() && AllInBounds(g, init) && InBounds(g, c) && TreeShape(shape)
    ensures AllInBounds(g, init + [c])
    ensures Fill(g, init + [c], shape) == FillStep(g, Fill(g, init, shape), c, shape)
  {
    var cells := init + [c];
    assert cells[..|cells| - 1] == init;
  }

  /** One fill step changes only the cell's chunk, by the optional tree and then the cell's stratum block. */
  lemma StepChunk(g: Geometry, fs: FillState, c: Coord, shape: Shape)
    requires g.Valid() && |fs.chunks| == g.ChunkTotal() && InBounds(g, c) && TreeShape(shape)
    requires forall m :: 0 <= m < |fs.chunks| ==> TablesOk(fs.chunks[m])
    ensures 0 <= ChunkIndex(g, c) < g.ChunkTotal()
    ensures var r := FillStep(g, fs, c, shape);
            var old_ := fs.chunks[ChunkIndex(g, c)];
            var new_ := r.chunks[ChunkIndex(g, c)];
            r.treePlaced == (fs.treePlaced || TreeTrigger(g, c))
            && (forall m :: 0 <= m < |fs.chunks| && m != ChunkIndex(g, c) ==> r.chunks[m] == fs.chunks[m])
            && TablesOk(new_) && new_.origin == old_.origin && new_.published == old_.published
  {
    ChunkIndexInRange(g, c);
    var idx := ChunkIndex(g, c);
    var tree := !fs.treePlaced && TreeTrigger(g, c);
    var cs0 := fs.chunks[idx];
    var stamp := TreeStamp(c, shape);
    var cs1 := if tree then AddAll(cs0, stamp) else cs0;
    AddAllCells(cs0, stamp);
    AddedSpec(cs1, c, Stratum(g, c.k));
  }

  /** A fill step leaves every other chunk alone. */
  lemma StepOther(g: Geometry, fs: FillState, c: Coord, shape: Shape, m: int)
    requires g.Valid() && |fs.chunks| == g.ChunkTotal() && InBounds(g, c) && TreeShape(shape)
    requires 0 <= m < |fs.chunks| && m != ChunkIndex(g, c)
    ensures FillStep(g, fs, c, shape).chunks[m] == fs.chunks[m]
  {
  }

  /** The cells of type t in the chunk a fill step writes to: the optional tree's, then the cell itself if it has stratum t. */
  lemma StepChunkCells(g: Geometry, fs: FillState, c: Coord, shape: Shape, t: BlockType)
    requires g.Valid() && |fs.chunks| == g.ChunkTotal() && InBounds(g, c) && TreeShape(shape) && HasMesh(t)
    requires forall m :: 0 <= m < |fs.chunks| ==> TablesOk(fs.chunks[m])
    ensures 0 <= ChunkIndex(g, c) < g.ChunkTotal()
    ensures CellsOf(FillStep(g, fs, c, shape).chunks[ChunkIndex(g, c)], t)
            == CellsOf(fs.chunks[ChunkIndex(g, c)], t)
               + (if !fs.treePlaced && TreeTrigger(g, c) then CellsOfType(TreeStamp(c, shape), t) else [])
               + (if t == Stratum(g, c.k) then [c] else [])
  {
    ChunkIndexInRange(g, c);
    var idx := ChunkIndex(g, c);
    var tree := !fs.treePlaced && TreeTrigger(g, c);
    var cs0 := fs.chunks[idx];
    var stamp := TreeStamp(c, shape);
    var cs1 := if tree then AddAll(cs0, stamp) else cs0;
    var part := if tree then CellsOfType(stamp, t) else [];
    AddAllCells(cs0, stamp);
    assert TablesOk(cs1) && CellsOf(cs1, t) == CellsOf(cs0, t) + part;
    var u := Stratum(g, c.k);
    AddedSpec(cs1, c, u);
    assert FillStep(g, fs, c, shape).chunks[idx] == Added(cs1, c, u);
    if t == u {
      assert CellsOf(Added(cs1, c, u), t) == CellsOf(cs1, t) + [c];
    } else {
      assert CellsOf(Added(cs1, c, u), t) == CellsOf(cs1, t);
    }
  }

  /** The stamp's cells of a stratum type are none: trees hold only wood and leaves. */
  lemma StampOnlyTree(c: Coord, shape: Shape, t: BlockType)
    requires TreeShape(shape) && t != Wood && t != Leaves
    ensures CellsOfType(TreeStamp(c, shape), t) == []
  {
    ShapeStampSound(shape, |shape|, c.i, c.j, c.k);
    CellsOfTypeNone(TreeStamp(c, shape), t);
  }

  /** Select over one more cell. */
  lemma SelectSnoc(g: Geometry, init: seq<Coord>, c: Coord, t: BlockType, m: int)
    requires g.Valid()
    ensures Select(g, init + [c], t, m) == Select(g, init, t, m) + (if Stratum(g, c.k) == t && ChunkIndex(g, c) == m then [c] else [])
  {
    assert (init + [c])[..|init|] == init;
  }

  /** TreePart over one more cell: the tree's cells join its chunk when its cell is first visited. */
  lemma TreePartSnoc(g: Geometry, init: seq<Coord>, c: Coord, t: BlockType, m: int, shape: Shape)
    requires g.Valid() && TreeShape(shape)
    ensures TreePart(g, init + [c], t, m, shape)
            == TreePart(g, init, t, m, shape)
               + (if c == TreeCell(g) && TreeCell(g) !in init && m == ChunkIndex(g, c) then CellsOfType(TreeStamp(c, shape), t) else [])
  {
    assert TreeCell(g) in init + [c] <==> TreeCell(g) in init || c == TreeCell(g);
  }

  /** One fill step on the cells of one type in one chunk. */
  lemma StepCells(g: Geometry, init: seq<Coord>, c: Coord, shape: Shape, fs: FillState, m: int, t: BlockType)
    requires g.Valid() && InBounds(g, c) && TreeShape(shape) && |fs.chunks| == g.ChunkTotal()
    requires forall n :: 0 <= n < |fs.chunks| ==> TablesOk(fs.chunks[n])
    requires fs.treePlaced <==> TreeCell(g) in init
    requires 0 <= m < g.ChunkTotal() && HasMesh(t)
    requires CellsOf(fs.chunks[m], t) == Select(g, init, t, m) + TreePart(g, init, t, m, shape)
    ensures CellsOf(FillStep(g, fs, c, shape).chunks[m], t) == Select(g, init + [c], t, m) + TreePart(g, init + [c], t, m, shape)
  {
    ChunkIndexInRange(g, c);
    SelectSnoc(g, init, c, t, m);
    TreePartSnoc(g, init, c, t, m, shape);
    if m != ChunkIndex(g, c) {
      StepOther(g, fs, c, shape, m);
      assert Select(g, init + [c], t, m) == Select(g, init, t, m);
      assert TreePart(g, init + [c], t, m, shape) == TreePart(g, init, t, m, shape);
    } else {
      StepCellsHere(g, init, c, shape, fs, t);
      SameChunkCells(g, init, c, shape, t, CellsOf(fs.chunks[m], t), CellsOf(FillStep(g, fs, c, shape).chunks[m], t));
    }
  }

  /** The list algebra of StepCells in the visited cell's chunk: the tree never adds a stratum type. */
  lemma SameChunkCells(g: Geometry, init: seq<Coord>, c: Coord, shape: Shape, t: BlockType, before: seq<Coord>, after: seq<Coord>)
    requires g.Valid() && TreeShape(shape)
    requires before == Select(g, init, t, ChunkIndex(g, c)) + TreePart(g, init, t, ChunkIndex(g, c), shape)
    requires after == before
                      + (if c == TreeCell(g) && TreeCell(g) !in init then CellsOfType(TreeStamp(c, shape), t) else [])
                      + (if Stratum(g, c.k) == t then [c] else [])
    ensures after == Select(g, init + [c], t, ChunkIndex(g, c)) + TreePart(g, init + [c], t, ChunkIndex(g, c), shape)
  {
    var m := ChunkIndex(g, c);
    SelectSnoc(g, init, c, t, m);
    TreePartSnoc(g, init, c, t, m, shape);
    var sel := Select(g, init, t, m);
    var old_ := TreePart(g, init, t, m, shape);
    var part := if c == TreeCell(g) && TreeCell(g) !in init then CellsOfType(TreeStamp(c, shape), t) else [];
    var strat := if Stratum(g, c.k) == t then [c] else [];
    if strat != [] {
      // a stratum type is never wood or leaves, so no tree adds any of it
      StampOnlyTree(TreeCell(g), shape, t);
      assert old_ == [] && part == [];
    } else if part != [] {
      assert old_ == [];
    }
  }

  /** StepCells in the chunk the visited cell belongs to. */
  lemma StepCellsHere(g: Geometry, init: seq<Coord>, c: Coord, shape: Shape, fs: FillState, t: BlockType)
    requires g.Valid() && InBounds(g, c) && TreeShape(shape) && |fs.chunks| == g.ChunkTotal()
    requires forall n :: 0 <= n < |fs.chunks| ==> TablesOk(fs.chunks[n])
    requires fs.treePlaced <==> TreeCell(g) in init
    requires HasMesh(t)
    ensures 0 <= ChunkIndex(g, c) < g.ChunkTotal()
    ensures CellsOf(FillStep(g, fs, c, shape).chunks[ChunkIndex(g, c)], t)
            == CellsOf(fs.chunks[ChunkIndex(g, c)], t)
               + (if c == TreeCell(g) && TreeCell(g) !in init then CellsOfType(TreeStamp(c, shape), t) else [])
               + (if Stratum(g, c.k) == t then [c] else [])
  {
    TreeTriggerCell(g, c);
    StepChunkCells(g, fs, c, shape, t);
  }

  /** The inductive step of FillContents: one more cell visited. */
  lemma FillStepContents(g: Geometry, init: seq<Coord>, c: Coord, shape: Shape, fs: FillState)
    requires g.Valid() && InBounds(g, c) && TreeShape(shape)
    requires Filled(g, init, shape, fs)
    ensures Filled(g, init + [c], shape, FillStep(g, fs, c, shape))
  {
    var cells := init + [c];
    var r := FillStep(g, fs, c, shape);
    StepChunk(g, fs, c, shape);
    TreeTriggerCell(g, c);
    assert TreeCell(g) in cells <==> TreeCell(g) in init || c == TreeCell(g);
    assert forall n :: 0 <= n < |fs.chunks| ==> TablesOk(fs.chunks[n]);
    forall m | 0 <= m < g.ChunkTotal()
      ensures ChunkFilled(g, cells, shape, m, r.chunks[m])
    {
      assert ChunkFilled(g, init, shape, m, fs.chunks[m]);
      forall t | HasMesh(t)
        ensures CellsOf(r.chunks[m], t) == Select(g, cells, t, m) + TreePart(g, cells, t, m, shape)
      {
        StepCells(g, init, c, shape, fs, m, t);
      }
    }
  }

  /** The innermost fill loop's cells: (i, j, k) for k below n, in order. */
  function Column(i: int, j: int, n: nat): seq<Coord>
  {
    if n == 0 then [] else Column(i, j, n - 1) + [Coord(i, j, n - 1)]
  }

  /** The middle loop's cells: the columns (i, j) for j below n, in order. */
  function Slab(g: Geometry, i: int, n: nat): seq<Coord>
    requires g.gridDepth >= 0
  {
    if n == 0 then [] else Slab(g, i, n - 1) + Column(i, n - 1, g.gridDepth)
  }

  /** The outer loop's cells: the slabs i for i below n, in order. */
  function Order(g: Geometry, n: nat): seq<Coord>
    requires g.gridSize >= 0 && g.gridDepth >= 0
  {
    if n == 0 then [] else Order(g, n - 1) + Slab(g, n - 1, g.gridSize)
  }

  /** Every cell of the grid in the order the three nested fill loops visit it. */
  function FillOrder(g: Geometry): seq<Coord>
    requires g.Valid()
  {
    Order(g, g.gridSize)
  }

  lemma {:induction false} ColumnMembers(i: int, j: int, n: nat)
    ensures |Column(i, j, n)| == n
    ensures forall c :: c in Column(i, j, n) <==> c.i == i && c.j == j && 0 <= c.k < n
  {
    if n > 0 {
      ColumnMembers(i, j, n - 1);
    }
  }

  lemma {:induction false} SlabMembers(g: Geometry, i: int, n: nat)
    requires g.gridDepth >= 0
    ensures forall c :: c in Slab(g, i, n) <==> c.i == i && 0 <= c.j < n && 0 <= c.k < g.gridDepth
  {
    if n > 0 {
      SlabMembers(g, i, n - 1);
      ColumnMembers(i, n - 1, g.gridDepth);
    }
  }

  lemma {:induction false} OrderMembers(g: Geometry, n: nat)
    requires g.gridSize >= 0 && g.gridDepth >= 0
    ensures forall c :: c in Order(g, n) <==> 0 <= c.i < n && 0 <= c.j < g.gridSize && 0 <= c.k < g.gridDepth
  {
    if n > 0 {
      OrderMembers(g, n - 1);
      SlabMembers(g, n - 1, g.gridSize);
    }
  }

  /** The fill visits exactly the in-bounds cells. */
  lemma FillOrderMembers(g: Geometry)
    requires g.Valid()
    ensures forall c :: c in FillOrder(g) <==> InBounds(g, c)
    ensures AllInBounds(g, FillOrder(g))
  {
    OrderMembers(g, g.gridSize);
  }

  /** The innermost fill loop for (i, j) run from fs over the depths below n. */
  function ColumnFill(g: Geometry, fs: FillState, i: int, j: int, n: nat, shape: Shape): (r: FillState)
    requires g.Valid() && |fs.chunks| == g.ChunkTotal() && TreeShape(shape)
    requires 0 <= i < g.gridSize && 0 <= j < g.gridSize && n <= g.gridDepth
    ensures |r.chunks| == g.ChunkTotal()
  {
    if n == 0 then fs else FillStep(g, ColumnFill(g, fs, i, j, n - 1, shape), Coord(i, j, n - 1), shape)
  }

  /** The middle fill loop for i run from fs over the columns below n. */
  function SlabFill(g: Geometry, fs: FillState, i: int, n: nat, shape: Shape): (r: FillState)
    requires g.Valid() && |fs.chunks| == g.ChunkTotal() && TreeShape(shape)
    requires 0 <= i < g.gridSize && n <= g.gridSize
    ensures |r.chunks| == g.ChunkTotal()
  {
    if n == 0 then fs else ColumnFill(g, SlabFill(g, fs, i, n - 1, shape), i, n - 1, g.gridDepth, shape)
  }

  /** The outer fill loop run from fs over the slabs below n. */
  function GridFill(g: Geometry, fs: FillState, n: nat, shape: Shape): (r: FillState)
    requires g.Valid() && |fs.chunks| == g.ChunkTotal() && TreeShape(shape) && n <= g.gridSize
    ensures |r.chunks| == g.ChunkTotal()
  {
    if n == 0 then fs else SlabFill(g, GridFill(g, fs, n - 1, shape), n - 1, g.gridSize, shape)
  }

  /** Running the innermost loop after some cells is running the fill over those cells followed by the column. */
  lemma {:induction false} ColumnFillIsFill(g: Geometry, pre: seq<Coord>, i: int, j: int, n: nat, shape: Shape)
    requires g.Valid() && TreeShape(shape) && AllInBounds(g, pre)
    requires 0 <= i < g.gridSize && 0 <= j < g.gridSize && n <= g.gridDepth
    ensures AllInBounds(g, pre + Column(i, j, n))
    ensures Fill(g, pre + Column(i, j, n), shape) == ColumnFill(g, Fill(g, pre, shape), i, j, n, shape)
  {
    if n == 0 {
      assert pre + Column(i, j, n) == pre;
    } else {
      ColumnFillIsFill(g, pre, i, j, n - 1, shape);
      var prev := Column(i, j, n - 1);
      assert Column(i, j, n) == prev + [Coord(i, j, n - 1)];
      assert pre + (prev + [Coord(i, j, n - 1)]) == (pre + prev) + [Coord(i, j, n - 1)];
      FillSnoc(g, pre + Column(i, j, n - 1), Coord(i, j, n - 1), shape);
    }
  }

  /** The same for the middle loop and a slab. */
  lemma {:induction false} SlabFillIsFill(g: Geometry, pre: seq<Coord>, i: int, n: nat, shape: Shape)
    requires g.Valid() && TreeShape(shape) && AllInBounds(g, pre)
    requires 0 <= i < g.gridSize && n <= g.gridSize
    ensures AllInBounds(g, pre + Slab(g, i, n))
    ensures Fill(g, pre + Slab(g, i, n), shape) == SlabFill(g, Fill(g, pre, shape), i, n, shape)
  {
    if n == 0 {
      assert pre + Slab(g, i, n) == pre;
    } else {
      SlabFillIsFill(g, pre, i, n - 1, shape);
      var prev, col := Slab(g, i, n - 1), Column(i, n - 1, g.gridDepth);
      assert Slab(g, i, n) == prev + col;
      assert pre + (prev + col) == (pre + prev) + col;
      ColumnFillIsFill(g, pre + Slab(g, i, n - 1), i, n - 1, g.gridDepth, shape);
    }
  }

  /** The three nested loops, run from the freshly created chunks, compute the fill over the cells in their visiting order. */
  lemma {:induction false} GridFillIsFill(g: Geometry, n: nat, shape: Shape)
    requires g.Valid() && TreeShape(shape) && n <= g.gridSize
    ensures AllInBounds(g, Order(g, n))
    ensures Fill(g, Order(g, n), shape) == GridFill(g, FillState(Created(g), false), n, shape)
  {
    if n > 0 {
      GridFillIsFill(g, n - 1, shape);
      SlabFillIsFill(g, Order(g, n - 1), n - 1, g.gridSize, shape);
    }
  }

  /** Each chunk finalized. */
  function FinalizeAll(chunks: seq<ChunkState>): seq<ChunkState>
  {
    seq(|chunks|, n requires 0 <= n < |chunks| => Finalized(chunks[n]))
  }

  /**
   * The world as the module-level code of chunk.js leaves it: the chunks
   * created, filled in the order of the three loops with the given tree
   * template, then finalized; the ledger is the given one.
   */
  function InitialWorld(g: Geometry, resources: map<BlockType, int>, shape: Shape): WorldState
    requires g.Valid() && TreeShape(shape)
  {
    FillOrderMembers(g);
    WorldState(g, FinalizeAll(Fill(g, FillOrder(g), shape).chunks), resources)
  }

  /** For an in-bounds cell, getChunkIndex names chunk m exactly when the cell lies in the region of the chunk created m-th. */
  lemma IndexIffRegion(g: Geometry, c: Coord, m: int)
    requires g.Valid() && InBounds(g, c) && 0 <= m < g.ChunkTotal()
    ensures ChunkIndex(g, c) == m <==> InRegion(g, Decode(g, m), c)
  {
    ChunkIndexInRange(g, c);
    if InRegion(g, Decode(g, m), c) {
      RegionOwner(g, Decode(g, m), c);
      DecodeLinear(g, m);
    }
  }

  /** The cells of a stratum type in a filled chunk, after finalize: those of that stratum in the chunk's region, nothing from the tree. */
  lemma FilledStratum(g: Geometry, shape: Shape, m: int, filled: ChunkState, t: BlockType)
    requires g.Valid() && TreeShape(shape) && 0 <= m < g.ChunkTotal() && HasMesh(t) && t != Wood && t != Leaves
    requires ChunkFilled(g, FillOrder(g), shape, m, filled)
    ensures forall c :: c in CellsOf(Finalized(filled), t) <==> InBounds(g, c) && InRegion(g, Decode(g, m), c) && Stratum(g, c.k) == t
  {
    FillOrderMembers(g);
    StampOnlyTree(TreeCell(g), shape, t);
    assert CellsOf(Finalized(filled), t) == Select(g, FillOrder(g), t, m);
    SelectMembers(g, FillOrder(g), t, m);
    forall c | InBounds(g, c)
      ensures ChunkIndex(g, c) == m <==> InRegion(g, Decode(g, m), c)
    {
      IndexIffRegion(g, c, m);
    }
  }

  /** The wood and leaves of a filled chunk: the tree's, in the tree's chunk only. */
  lemma FilledTree(g: Geometry, shape: Shape, m: int, cs: ChunkState, t: BlockType)
    requires g.Valid() && TreeShape(shape) && 0 <= m < g.ChunkTotal() && (t == Wood || t == Leaves)
    requires ChunkFilled(g, FillOrder(g), shape, m, cs)
    ensures CellsOf(cs, t) == if InBounds(g, TreeCell(g)) && m == ChunkIndex(g, TreeCell(g))
                              then CellsOfType(TreeStamp(TreeCell(g), shape), t) else []
  {
    FillOrderMembers(g);
    assert TreeCell(g) in FillOrder(g) <==> InBounds(g, TreeCell(g));
    SelectNoStratum(g, FillOrder(g), t, m);
    assert CellsOf(cs, t) == TreePart(g, FillOrder(g), t, m, shape);
  }

  /** No cell is filled with a type that is not a stratum. */
  lemma {:induction false} SelectNoStratum(g: Geometry, cells: seq<Coord>, t: BlockType, m: int)
    requires g.Valid() && (t == Wood || t == Leaves || t == Air)
    ensures Select(g, cells, t, m) == []
  {
    if cells != [] {
      SelectNoStratum(g, cells[..|cells| - 1], t, m);
    }
  }

  /** A filled chunk after finalize, with the properties InitialChunks states. */
  lemma FinalChunk(g: Geometry, shape: Shape, m: int, filled: ChunkState)
    requires g.Valid() && TreeShape(shape) && 0 <= m < g.ChunkTotal()
    requires ChunkFilled(g, FillOrder(g), shape, m, filled)
    ensures var cs := Finalized(filled);
            TablesOk(cs) && cs.origin == Origin(g, Decode(g, m))
            && (forall t :: t in cs.published <==> Counted(t))
            && (forall t :: Counted(t) ==> cs.published[t] == cs.counts[t])
    ensures forall t, c :: HasMesh(t) && t != Wood && t != Leaves ==>
              (c in CellsOf(Finalized(filled), t) <==> InBounds(g, c) && InRegion(g, Decode(g, m), c) && Stratum(g, c.k) == t)
    ensures forall t :: t == Wood || t == Leaves ==>
              CellsOf(Finalized(filled), t) == if InBounds(g, TreeCell(g)) && m == ChunkIndex(g, TreeCell(g))
                                               then CellsOfType(TreeStamp(TreeCell(g), shape), t) else []
  {
    FinalizedSpec(filled);
    var cs := Finalized(filled);
    forall t | HasMesh(t) && t != Wood && t != Leaves
      ensures forall c :: c in CellsOf(cs, t) <==> InBounds(g, c) && InRegion(g, Decode(g, m), c) && Stratum(g, c.k) == t
    {
      FilledStratum(g, shape, m, filled, t);
    }
    forall t | t == Wood || t == Leaves
      ensures CellsOf(cs, t) == if InBounds(g, TreeCell(g)) && m == ChunkIndex(g, TreeCell(g))
                                then CellsOfType(TreeStamp(TreeCell(g), shape), t) else []
    {
      FilledTree(g, shape, m, filled, t);
    }
  }

  /**
   * The initial world, chunk by chunk: the invariant holds at the origin of
   * the chunk's creation coordinates; every counted type publishes its count
   * and air publishes none; a stratum type (or air) holds exactly the
   * in-bounds cells of the chunk's region with that stratum; wood and leaves
   * are exactly the tree's, in the chunk of the tree's base cell only.
   */
  lemma InitialChunks(g: Geometry, resources: map<BlockType, int>, shape: Shape, m: int)
    requires g.Valid() && TreeShape(shape) && 0 <= m < g.ChunkTotal()
    ensures |InitialWorld(g, resources, shape).chunks| == g.ChunkTotal()
    ensures var cs := InitialWorld(g, resources, shape).chunks[m];
            TablesOk(cs) && cs.origin == Origin(g, Decode(g, m))
            && (forall t :: t in cs.published <==> Counted(t))
            && (forall t :: Counted(t) ==> cs.published[t] == cs.counts[t])
    ensures var cs := InitialWorld(g, resources, shape).chunks[m];
            forall t, c :: HasMesh(t) && t != Wood && t != Leaves ==>
              (c in CellsOf(cs, t) <==> InBounds(g, c) && InRegion(g, Decode(g, m), c) && Stratum(g, c.k) == t)
    ensures var cs := InitialWorld(g, resources, shape).chunks[m];
            forall t :: t == Wood || t == Leaves ==>
              CellsOf(cs, t) == if InBounds(g, TreeCell(g)) && m == ChunkIndex(g, TreeCell(g))
                                then CellsOfType(TreeStamp(TreeCell(g), shape), t) else []
  {
    FillOrderMembers(g);
    FillContents(g, FillOrder(g), shape);
    var filled := Fill(g, FillOrder(g), shape).chunks[m];
    assert ChunkFilled(g, FillOrder(g), shape, m, filled);
    assert InitialWorld(g, resources, shape).chunks[m] == Finalized(filled);
    FinalChunk(g, shape, m, filled);
  }

  /** The initial world is well-formed. */
  lemma InitialWorldOk(g: Geometry, resources: map<BlockType, int>, shape: Shape)
    requires g.Valid() && TreeShape(shape)
    ensures WorldOk(InitialWorld(g, resources, shape))
  {
    forall m | 0 <= m < g.ChunkTotal()
      ensures TablesOk(InitialWorld(g, resources, shape).chunks[m])
      ensures InitialWorld(g, resources, shape).chunks[m].origin == Origin(g, Decode(g, m))
    {
      InitialChunks(g, resources, shape, m);
    }
  }

  /** The chunk states of a sequence of chunk objects. */
  function Values(cs: seq<Chunk>): seq<ChunkState>
    reads cs
  {
    seq(|cs|, n requires 0 <= n < |cs| reads cs => cs[n].Value())
  }

  /**
   * The effect of one fill iteration on the chunks (the tree, if planted now,
   * then the cell's stratum block, both in the cell's chunk) is FillStep.
   */
  lemma StepMatches(g: Geometry, before: FillState, c: Coord, shape: Shape, mid: seq<ChunkState>, after: seq<ChunkState>, treePlaced: bool)
    requires g.Valid() && |before.chunks| == g.ChunkTotal() && InBounds(g, c) && TreeShape(shape)
    requires 0 <= ChunkIndex(g, c) < g.ChunkTotal()
    requires treePlaced == (before.treePlaced || TreeTrigger(g, c))
    requires var idx := ChunkIndex(g, c);
             mid == if !before.treePlaced && TreeTrigger(g, c) then before.chunks[idx := AddAll(before.chunks[idx], TreeStamp(c, shape))] else before.chunks
    requires after == mid[ChunkIndex(g, c) := Added(mid[ChunkIndex(g, c)], c, Stratum(g, c.k))]
    ensures FillStep(g, before, c, shape) == FillState(after, treePlaced)
  {
    var idx := ChunkIndex(g, c);
    var cs := if !before.treePlaced && TreeTrigger(g, c) then AddAll(before.chunks[idx], TreeStamp(c, shape)) else before.chunks[idx];
    assert after == before.chunks[idx := Added(cs, c, Stratum(g, c.k))];
  }

  /** The chunks right after creation are well-formed at the origins their indices decode to. */
  lemma CreatedOk(g: Geometry, resources: map<BlockType, int>)
    requires g.Valid()
    ensures WorldOk(WorldState(g, Created(g), resources))
  {
    forall n | 0 <= n < g.ChunkTotal() ensures TablesOk(Created(g)[n]) {
      InitialTables(g, Decode(g, n));
    }
  }

  /** The innermost creation loop for (cx, cy): new Chunk(cx, cy, cz) pushed for every cz in order. */
  method CreateColumn(g: Geometry, cs: seq<Chunk>, cx: int, cy: int) returns (out: seq<Chunk>)
    requires g.Valid() && 0 <= cx < g.CountX() && 0 <= cy < g.CountY()
    requires |cs| == Linear(g, ChunkPos(cx, cy, 0))
    ensures |out| == |cs| + g.CountZ() && out[..|cs|] == cs
    ensures forall n :: |cs| <= n < |out| ==> fresh(out[n]) && out[n].Value() == Initial(g, Decode(g, n))
    ensures forall a, b :: |cs| <= a < b < |out| ==> out[a] != out[b]
  {
    out := cs;
    var cz := 0;
    while cz < g.CountZ()
      invariant 0 <= cz <= g.CountZ() && |out| == |cs| + cz && out[..|cs|] == cs
      invariant forall n :: |cs| <= n < |out| ==> fresh(out[n]) && out[n].Value() == Initial(g, Decode(g, n))
      invariant forall a, b :: |cs| <= a < b < |out| ==> out[a] != out[b]
    {
      var chunk := new Chunk(g, cx, cy, cz);
      LinearDecode(g, ChunkPos(cx, cy, cz));
      out := out + [chunk];
      cz := cz + 1;
    }
  }

  /** The middle creation loop for cx: the columns for every cy in order. */
  method CreateSlab(g: Geometry, cs: seq<Chunk>, cx: int) returns (out: seq<Chunk>)
    requires g.Valid() && 0 <= cx < g.CountX()
    requires |cs| == Linear(g, ChunkPos(cx, 0, 0))
    ensures |out| == |cs| + g.CountY() * g.CountZ() && out[..|cs|] == cs
    ensures forall n :: |cs| <= n < |out| ==> fresh(out[n]) && out[n].Value() == Initial(g, Decode(g, n))
    ensures forall a, b :: |cs| <= a < b < |out| ==> out[a] != out[b]
  {
    out := cs;
    var cy := 0;
    while cy < g.CountY()
      invariant 0 <= cy <= g.CountY() && |out| == |cs| + cy * g.CountZ() && out[..|cs|] == cs
      invariant forall n :: |cs| <= n < |out| ==> fresh(out[n]) && out[n].Value() == Initial(g, Decode(g, n))
      invariant forall a, b :: |cs| <= a < b < |out| ==> out[a] != out[b]
    {
      ghost var before := out;
      out := CreateColumn(g, out, cx, cy);
      assert out[..|cs|] == before[..|cs|];
      assert cy * g.CountZ() + g.CountZ() == (cy + 1) * g.CountZ();
      cy := cy + 1;
    }
  }

  /** The creation loops of chunk.js: new Chunk(cx, cy, cz) pushed for every chunk coordinate, cx outermost. */
  method CreateChunks(g: Geometry) returns (cs: seq<Chunk>)
    requires g.Valid()
    ensures |cs| == g.ChunkTotal()
    ensures forall n :: 0 <= n < |cs| ==> fresh(cs[n])
    ensures forall a, b :: 0 <= a < b < |cs| ==> cs[a] != cs[b]
    ensures Values(cs) == Created(g)
  {
    cs := [];
    var cx := 0;
    while cx < g.CountX()
      invariant 0 <= cx <= g.CountX() && |cs| == cx * (g.CountY() * g.CountZ())
      invariant forall n :: 0 <= n < |cs| ==> fresh(cs[n]) && cs[n].Value() == Initial(g, Decode(g, n))
      invariant forall a, b :: 0 <= a < b < |cs| ==> cs[a] != cs[b]
    {
      ghost var before := cs;
      cs := CreateSlab(g, cs, cx);
      assert cs[..|before|] == before;
      assert cx * (g.CountY() * g.CountZ()) + g.CountY() * g.CountZ() == (cx + 1) * (g.CountY() * g.CountZ());
      cx := cx + 1;
    }
  }

  /** The chunks array and the resources ledger, shared by every interaction. */
  class World {
    const g: Geometry
    const chunks: seq<Chunk>
    var resources: map<BlockType, int>

    /** The chunks are distinct objects, so changing one leaves the others alone. */
    predicate Valid()
      reads this, chunks
    {
      (forall a, b :: 0 <= a < b < |chunks| ==> chunks[a] != chunks[b])
      && WorldOk(State())
    }

    function State(): WorldState
      reads this, chunks
    {
      WorldState(g, Values(chunks), resources)
    }

    lemma ChunkValid(idx: int)
      requires Valid() && 0 <= idx < |chunks|
      ensures chunks[idx].Valid() && State().chunks[idx] == chunks[idx].Value()
    {
      assert TablesOk(Values(chunks)[idx]);
    }

    /** chunks[idx].addBlock(c, t). */
    method AddBlockAt(idx: int, c: Coord, t: BlockType)
      requires Valid() && 0 <= idx < |chunks|
      modifies chunks[idx]
      ensures Valid()
      ensures State() == WithChunk(old(State()), idx, Added(old(State()).chunks[idx], c, t))
    {
      ChunkValid(idx);
      AddedSpec(chunks[idx].Value(), c, t);
      chunks[idx].AddBlock(c, t);
      assert Values(chunks) == old(Values(chunks))[idx := chunks[idx].Value()];
    }

    /** chunks[idx].removeInstance(t, slot). */
    method RemoveAt(idx: int, t: BlockType, slot: int)
      requires Valid() && 0 <= idx < |chunks| && Counted(t) && 0 <= slot < State().chunks[idx].counts[t]
      modifies chunks[idx]
      ensures Valid()
      ensures State() == WithChunk(old(State()), idx, Removed(old(State()).chunks[idx], t, slot))
    {
      ChunkValid(idx);
      RemovedSpec(chunks[idx].Value(), t, slot);
      chunks[idx].RemoveInstance(t, slot);
      assert Values(chunks) == old(Values(chunks))[idx := chunks[idx].Value()];
    }

    /** chunks[idx].finalize(). */
    method FinalizeAt(idx: int)
      requires Valid() && 0 <= idx < |chunks|
      modifies chunks[idx]
      ensures Valid()
      ensures State() == WithChunk(old(State()), idx, Finalized(old(State()).chunks[idx]))
    {
      ChunkValid(idx);
      FinalizedSpec(chunks[idx].Value());
      chunks[idx].Finalize();
      assert Values(chunks) == old(Values(chunks))[idx := chunks[idx].Value()];
    }

    /** An assignment to the resources ledger; the chunks are untouched. */
    method SetResources(r: map<BlockType, int>)
      requires Valid()
      modifies this
      ensures Valid() && State() == old(State()).(resources := r)
    {
      resources := r;
    }

    /** generateTree(chunks[idx], base.i, base.j, base.k) with the random draw. */
    method TreeAt(idx: int, base: Coord, draw: real)
      requires Valid() && 0 <= idx < |chunks| && 0.0 <= draw < 1.0
      modifies chunks[idx]
      ensures Valid() && WellFormed(TreeShapes[ShapeIndex(draw)])
      ensures State() == WithChunk(old(State()), idx, AddAll(old(State()).chunks[idx], Stamp(TreeShapes[ShapeIndex(draw)], base.i, base.j, base.k)))
    {
      PickedWellFormed(draw);
      ChunkValid(idx);
      AddAllCells(chunks[idx].Value(), Stamp(TreeShapes[ShapeIndex(draw)], base.i, base.j, base.k));
      GenerateTree(chunks[idx], base.i, base.j, base.k, draw);
      assert Values(chunks) == old(Values(chunks))[idx := chunks[idx].Value()];
    }

    /**
     * The module-level code of chunk.js: create the chunks, fill the strata
     * and plant the tree (the draw stands for Math.random()), finalize every
     * chunk; the ledger is the one main.js starts with.
     */
    constructor Create(g: Geometry, resources: map<BlockType, int>, draw: real)
      requires g.Valid() && 0.0 <= draw < 1.0
      ensures Valid() && TreeShape(TreeShapes[ShapeIndex(draw)])
      ensures State() == InitialWorld(g, resources, TreeShapes[ShapeIndex(draw)])
    {
      this.g := g;
      var cs := CreateChunks(g);
      chunks := cs;
      this.resources := resources;
      new;
      CreatedOk(g, resources);
      FillChunks(draw);
      FinalizeChunks();
      PickedTreeShape(draw);
    }

    /** The fill loops over i, j and k, planting the tree on the first grass cell of the centre column. */
    method FillChunks(draw: real)
      requires Valid() && State().chunks == Created(g) && 0.0 <= draw < 1.0
      modifies chunks
      ensures Valid() && TreeShape(TreeShapes[ShapeIndex(draw)]) && AllInBounds(g, FillOrder(g))
      ensures State() == old(State()).(chunks := Fill(g, FillOrder(g), TreeShapes[ShapeIndex(draw)]).chunks)
    {
      PickedTreeShape(draw);
      ghost var start := FillState(Created(g), false);
      var treePlaced := false;
      var i := 0;
      while i < g.gridSize
        invariant 0 <= i <= g.gridSize && Valid() && resources == old(resources)
        invariant FillState(State().chunks, treePlaced) == GridFill(g, start, i, TreeShapes[ShapeIndex(draw)])
      {
        ghost var before := FillState(State().chunks, treePlaced);
        treePlaced := FillSlab(i, treePlaced, draw);
        assert FillState(State().chunks, treePlaced) == SlabFill(g, before, i, g.gridSize, TreeShapes[ShapeIndex(draw)]);
        i := i + 1;
      }
      GridFillIsFill(g, g.gridSize, TreeShapes[ShapeIndex(draw)]);
    }

    /** The middle fill loop for one i. */
    method FillSlab(i: int, treePlaced: bool, draw: real) returns (placed: bool)
      requires Valid() && 0 <= i < g.gridSize && 0.0 <= draw < 1.0 && TreeShape(TreeShapes[ShapeIndex(draw)])
      modifies chunks
      ensures Valid() && resources == old(resources)
      ensures FillState(State().chunks, placed)
              == SlabFill(g, FillState(old(State()).chunks, treePlaced), i, g.gridSize, TreeShapes[ShapeIndex(draw)])
    {
      placed := treePlaced;
      var j := 0;
      while j < g.gridSize
        invariant 0 <= j <= g.gridSize && Valid() && resources == old(resources)
        invariant FillState(State().chunks, placed)
                  == SlabFill(g, FillState(old(State()).chunks, treePlaced), i, j, TreeShapes[ShapeIndex(draw)])
      {
        ghost var before := FillState(State().chunks, placed);
        placed := FillColumn(i, j, placed, draw);
        assert FillState(State().chunks, placed) == ColumnFill(g, before, i, j, g.gridDepth, TreeShapes[ShapeIndex(draw)]);
        j := j + 1;
      }
    }

    /** The innermost fill loop for one (i, j). */
    method FillColumn(i: int, j: int, treePlaced: bool, draw: real) returns (placed: bool)
      requires Valid() && 0 <= i < g.gridSize && 0 <= j < g.gridSize && 0.0 <= draw < 1.0 && TreeShape(TreeShapes[ShapeIndex(draw)])
      modifies chunks
      ensures Valid() && resources == old(resources)
      ensures FillState(State().chunks, placed)
              == ColumnFill(g, FillState(old(State()).chunks, treePlaced), i, j, g.gridDepth, TreeShapes[ShapeIndex(draw)])
    {
      placed := treePlaced;
      var k := 0;
      while k < g.gridDepth
        invariant 0 <= k <= g.gridDepth && Valid() && resources == old(resources)
        invariant FillState(State().chunks, placed)
                  == ColumnFill(g, FillState(old(State()).chunks, treePlaced), i, j, k, TreeShapes[ShapeIndex(draw)])
      {
        ghost var before := FillState(State().chunks, placed);
        placed := FillCell(i, j, k, placed, draw);
        assert FillState(State().chunks, placed) == FillStep(g, before, Coord(i, j, k), TreeShapes[ShapeIndex(draw)]);
        k := k + 1;
      }
    }

    /** One iteration of the fill loops: the stratum of depth k, the cell's chunk index, the tree, the block. */
    method FillCell(i: int, j: int, k: int, treePlaced: bool, draw: real) returns (placed: bool)
      requires Valid() && InBounds(g, Coord(i, j, k)) && 0.0 <= draw < 1.0
      modifies chunks
      ensures Valid() && TreeShape(TreeShapes[ShapeIndex(draw)]) && resources == old(resources)
      ensures FillState(State().chunks, placed)
              == FillStep(g, FillState(old(State()).chunks, treePlaced), Coord(i, j, k), TreeShapes[ShapeIndex(draw)])
    {
      PickedTreeShape(draw);
      var soilStart := g.SoilStart();
      var t := if k >= soilStart + 3 then Hay else if k >= soilStart + 2 then Grass else if k >= soilStart then Soil else Stone;
      var cx, cy, cz := i / g.chunkX, j / g.chunkY, k / g.chunkZ;
      var idx := cx * g.CountY() * g.CountZ() + cy * g.CountZ() + cz;
      var c := Coord(i, j, k);
      ChunkIndexInRange(g, c);
      assert idx == ChunkIndex(g, c) && t == Stratum(g, k);
      ghost var before := State().chunks;
      placed := treePlaced;
      if !placed && i == g.gridSize / 2 && j == g.gridSize / 2 && t == Grass {
        placed := true;
        TreeAt(idx, c, draw);
      }
      ghost var mid := State().chunks;
      AddBlockAt(idx, c, t);
      StepMatches(g, FillState(before, treePlaced), c, TreeShapes[ShapeIndex(draw)], mid, State().chunks, placed);
    }

    /** chunks.forEach(c => c.finalize()). */
    method FinalizeChunks()
      requires Valid()
      modifies chunks
      ensures Valid()
      ensures State() == old(State()).(chunks := FinalizeAll(old(State()).chunks))
    {
      ghost var start := State().chunks;
      var n := 0;
      while n < |chunks|
        invariant 0 <= n <= |chunks| && Valid() && resources == old(resources)
        invariant |State().chunks| == |start|
        invariant forall m :: 0 <= m < n ==> State().chunks[m] == Finalized(start[m])
        invariant forall m :: n <= m < |start| ==> State().chunks[m] == start[m]
      {
        FinalizeAt(n);
        n := n + 1;
      }
      assert State().chunks == FinalizeAll(start);
    }
  }
}
