/**
 * Build resolution and dispatch: the topmost ray hit, the neighbouring cell
 * across the hit face, the bounds test, the resource-ledger gate, and the
 * dispatch to addBlock + finalize or to the tree stamper; the preview flags
 * of updateBuildHighlight and the mode changes of the build buttons.
 */
module Build {
  import opened Blocks
  import opened Grid
  import opened Chunks
  import opened Trees
  import opened Worlds
  import opened Modes
  import opened Hits

  /** Who asks for a placement: the player (with the ray's hits) or the flora code (with the cell). */
  datatype Initiator = Player(hits: seq<Hit>) | Flora(at: Coord)

  /** The reduce over the first n hits that keeps the current top unless a later hit is strictly higher, as an index. */
  function TopOf(hits: seq<Hit>, n: int): (r: int)
    requires 1 <= n <= |hits|
    ensures 0 <= r < n
  {
    if n == 1 then 0
    else
      var top := TopOf(hits, n - 1);
      if hits[n - 1].height > hits[top].height then n - 1 else top
  }

  /** The index of the hit placeBlock builds on. */
  function Topmost(hits: seq<Hit>): (r: int)
    requires |hits| > 0
    ensures 0 <= r < |hits|
  {
    TopOf(hits, |hits|)
  }

  lemma {:induction false} TopOfSpec(hits: seq<Hit>, n: int)
    requires 1 <= n <= |hits|
    ensures forall m :: 0 <= m < n ==> hits[m].height <= hits[TopOf(hits, n)].height
    ensures forall m :: 0 <= m < TopOf(hits, n) ==> hits[m].height < hits[TopOf(hits, n)].height
  {
    if n > 1 {
      TopOfSpec(hits, n - 1);
    }
  }

  /** The chosen hit has maximal height, and every earlier hit is strictly lower (ties keep the earliest). */
  lemma TopmostSpec(hits: seq<Hit>)
    requires |hits| > 0
    ensures forall m :: 0 <= m < |hits| ==> hits[m].height <= hits[Topmost(hits)].height
    ensures forall m :: 0 <= m < Topmost(hits) ==> hits[m].height < hits[Topmost(hits)].height
  {
    TopOfSpec(hits, |hits|);
  }

  /** The cell across the hit face, testing +Y, -Y, +X, -X, +Z, -Z in that order (Y moves k, X moves i, Z moves j). */
  function Neighbour(c: Coord, n: Normal): Coord
  {
    if n.y == Above then c.(k := c.k + 1)
    else if n.y == Below then c.(k := c.k - 1)
    else if n.x == Above then c.(i := c.i + 1)
    else if n.x == Below then c.(i := c.i - 1)
    else if n.z == Above then c.(j := c.j + 1)
    else if n.z == Below then c.(j := c.j - 1)
    else c
  }

  function Abs(x: int): int
  {
    if x < 0 then -x else x
  }

  /** Grid (taxicab) distance between two cells. */
  function Dist(a: Coord, b: Coord): int
  {
    Abs(a.i - b.i) + Abs(a.j - b.j) + Abs(a.k - b.k)
  }

  /**
   * The neighbour is one step away along exactly one axis, the vertical one
   * winning over x and x over z, in the direction of the face; a normal with
   * no component beyond the thresholds leaves the cell where it is.
   */
  lemma NeighbourSpec(c: Coord, n: Normal)
    ensures Dist(c, Neighbour(c, n)) == if n == Normal(Within, Within, Within) then 0 else 1
    ensures Neighbour(c, n).k - c.k == if n.y == Above then 1 else if n.y == Below then -1 else 0
    ensures n.y != Within ==> Neighbour(c, n).i == c.i && Neighbour(c, n).j == c.j
    ensures n.y == Within && n.x != Within ==>
              Neighbour(c, n).i - c.i == (if n.x == Above then 1 else -1) && Neighbour(c, n).j == c.j
    ensures n.y == Within && n.x == Within && n.z != Within ==>
              Neighbour(c, n).j - c.j == (if n.z == Above then 1 else -1) && Neighbour(c, n).i == c.i
  {
  }

  /** The cell a player build targets: none without hits or when the neighbour of the topmost hit is out of bounds. */
  function Target(ws: WorldState, hits: seq<Hit>): Option<Coord>
    requires HitsOk(ws, hits)
  {
    if hits == [] then None
    else
      var top := hits[Topmost(hits)];
      var c := Neighbour(HitCell(ws, top), top.normal);
      if InBounds(ws.g, c) then Some(c) else None
  }

  /** The cell a placement uses: the player's target, or the flora code's cell as given (no bounds test). */
  function PlaceCell(ws: WorldState, who: Initiator): Option<Coord>
    requires who.Player? ==> HitsOk(ws, who.hits)
  {
    match who
    case Player(hits) => Target(ws, hits)
    case Flora(at) => Some(at)
  }

  /** What placeBlock needs of its inputs: valid hits from the player, a cell whose chunk exists from the flora code. */
  predicate PlaceOk(ws: WorldState, who: Initiator)
  {
    ws.g.Valid()
    && match who
       case Player(hits) => HitsOk(ws, hits)
       case Flora(at) => 0 <= ChunkIndex(ws.g, at) < |ws.chunks|
  }

  /** The ledger after the player spends one block of t: that entry one lower, every other entry kept. */
  function Charge(res: map<BlockType, int>, t: BlockType): (r: map<BlockType, int>)
    requires Get(res, t) > 0
    ensures Get(r, t) == Get(res, t) - 1 && r.Keys == res.Keys
    ensures forall u :: u != t ==> Get(r, u) == Get(res, u)
  {
    res[t := res[t] - 1]
  }

  /**
   * The placement of a type other than the tree at cell c: refused when the
   * ledger holds none of it, otherwise added at c and the chunk finalized,
   * the ledger losing one only for the player.
   */
  function PutBlock(ws: WorldState, t: BlockType, c: Coord, player: bool): WorldState
    requires ws.g.Valid() && 0 <= ChunkIndex(ws.g, c) < |ws.chunks|
  {
    var idx := ChunkIndex(ws.g, c);
    if Get(ws.resources, t) <= 0 then ws
    else
      var placed := WithChunk(ws, idx, Finalized(Added(ws.chunks[idx], c, t)));
      if player then placed.(resources := Charge(ws.resources, t)) else placed
  }

  /**
   * The placement at cell c: a tree is stamped on (i, j, k - 1) into c's chunk
   * with no gate, no finalize and no ledger change; any other type goes
   * through PutBlock.
   */
  function Put(ws: WorldState, t: BlockType, c: Coord, player: bool, shape: Shape): WorldState
    requires ws.g.Valid() && 0 <= ChunkIndex(ws.g, c) < |ws.chunks| && WellFormed(shape)
  {
    var idx := ChunkIndex(ws.g, c);
    if t == Tree then WithChunk(ws, idx, AddAll(ws.chunks[idx], Stamp(shape, c.i, c.j, c.k - 1)))
    else PutBlock(ws, t, c, player)
  }

  /** A placement that passes the gate: the chunk with c added and finalized, and the charge for the player. */
  lemma PutBlockPasses(ws: WorldState, t: BlockType, c: Coord, player: bool)
    requires ws.g.Valid() && 0 <= ChunkIndex(ws.g, c) < |ws.chunks| && Get(ws.resources, t) > 0
    ensures var placed := WithChunk(ws, ChunkIndex(ws.g, c), Finalized(Added(ws.chunks[ChunkIndex(ws.g, c)], c, t)));
            PutBlock(ws, t, c, player) == if player then placed.(resources := Charge(ws.resources, t)) else placed
  {
  }

  /** Put for the tree is the stamp alone. */
  lemma PutTree(ws: WorldState, c: Coord, player: bool, shape: Shape)
    requires ws.g.Valid() && 0 <= ChunkIndex(ws.g, c) < |ws.chunks| && WellFormed(shape)
    ensures var idx := ChunkIndex(ws.g, c);
            Put(ws, Tree, c, player, shape) == WithChunk(ws, idx, AddAll(ws.chunks[idx], Stamp(shape, c.i, c.j, c.k - 1)))
  {
  }

  /** Put for a type other than the tree does not depend on the template. */
  lemma PutNotTree(ws: WorldState, t: BlockType, c: Coord, player: bool, shape: Shape)
    requires ws.g.Valid() && 0 <= ChunkIndex(ws.g, c) < |ws.chunks| && WellFormed(shape) && t != Tree
    ensures Put(ws, t, c, player, shape) == PutBlock(ws, t, c, player)
  {
  }

  lemma PlaceCellInRange(ws: WorldState, who: Initiator)
    requires WorldOk(ws) && PlaceOk(ws, who)
    ensures PlaceCell(ws, who).Some? ==> 0 <= ChunkIndex(ws.g, PlaceCell(ws, who).value) < |ws.chunks|
  {
    if who.Player? && PlaceCell(ws, who).Some? {
      ChunkIndexInRange(ws.g, PlaceCell(ws, who).value);
    }
  }

  /** placeBlock(blockType, initiator) on the world value. */
  function Placed(ws: WorldState, t: BlockType, who: Initiator, shape: Shape): WorldState
    requires WorldOk(ws) && PlaceOk(ws, who) && WellFormed(shape)
  {
    PlaceCellInRange(ws, who);
    match PlaceCell(ws, who)
    case None => ws
    case Some(c) => Put(ws, t, c, who.Player?, shape)
  }

  /** With a cell to place at, placeBlock is Put at that cell. */
  lemma PlacedAt(ws: WorldState, t: BlockType, who: Initiator, shape: Shape)
    requires WorldOk(ws) && PlaceOk(ws, who) && WellFormed(shape) && PlaceCell(ws, who).Some?
    ensures 0 <= ChunkIndex(ws.g, PlaceCell(ws, who).value) < |ws.chunks|
    ensures Placed(ws, t, who, shape) == Put(ws, t, PlaceCell(ws, who).value, who.Player?, shape)
  {
    PlaceCellInRange(ws, who);
  }

  /** A player build with no hits or an out-of-bounds target changes nothing. */
  lemma PlacedNoTarget(ws: WorldState, t: BlockType, hits: seq<Hit>, shape: Shape)
    requires WorldOk(ws) && HitsOk(ws, hits) && WellFormed(shape)
    requires hits == [] || Target(ws, hits) == None
    ensures Placed(ws, t, Player(hits), shape) == ws
  {
  }

  /** Without stock of a non-tree type, the build is refused for the player and the flora code alike. */
  lemma PlacedRefused(ws: WorldState, t: BlockType, who: Initiator, shape: Shape)
    requires WorldOk(ws) && PlaceOk(ws, who) && WellFormed(shape)
    requires t != Tree && Get(ws.resources, t) <= 0
    ensures Placed(ws, t, who, shape) == ws
  {
  }

  /**
   * Adding c of type t to a chunk and finalizing it appends c to the chunk's
   * list of t and nothing else, and publishes the chunk's counts.
   */
  lemma AddFinalizeChunk(cs: ChunkState, c: Coord, t: BlockType)
    requires TablesOk(cs) && HasMesh(t)
    ensures var r := Finalized(Added(cs, c, t));
            TablesOk(r) && r.origin == cs.origin
            && CellsOf(r, t) == CellsOf(cs, t) + [c]
            && (forall u :: u != t ==> CellsOf(r, u) == CellsOf(cs, u))
            && (forall u :: Counted(u) ==> r.published[u] == r.counts[u])
            && Get(r.counts, t) == Get(cs.counts, t) + (if Counted(t) then 1 else 0)
  {
    AddedSpec(cs, c, t);
    FinalizedSpec(Added(cs, c, t));
  }

  /** Doing so to chunk idx of a world keeps it well-formed, leaves the other chunks alone and adds one to the total of a counted t. */
  lemma AddFinalize(ws: WorldState, idx: int, c: Coord, t: BlockType)
    requires WorldOk(ws) && 0 <= idx < |ws.chunks| && HasMesh(t)
    ensures var r := WithChunk(ws, idx, Finalized(Added(ws.chunks[idx], c, t)));
            WorldOk(r) && |r.chunks| == |ws.chunks|
            && (forall m :: 0 <= m < |ws.chunks| && m != idx ==> r.chunks[m] == ws.chunks[m])
            && Total(r.chunks, t) == Total(ws.chunks, t) + (if Counted(t) then 1 else 0)
  {
    var fc := Finalized(Added(ws.chunks[idx], c, t));
    AddFinalizeChunk(ws.chunks[idx], c, t);
    WithChunkOk(ws, idx, fc);
    TotalUpdate(ws.chunks, idx, fc, t);
  }

  /**
   * A build that passes the gate is addBlock at the cell followed by
   * finalize of that cell's chunk; the ledger loses one of t only when the
   * player built (the flora code is never charged).
   */
  lemma PlacedBlock(ws: WorldState, t: BlockType, who: Initiator, shape: Shape)
    requires WorldOk(ws) && PlaceOk(ws, who) && WellFormed(shape)
    requires t != Tree && Get(ws.resources, t) > 0 && PlaceCell(ws, who).Some?
    ensures var c := PlaceCell(ws, who).value;
            var idx := ChunkIndex(ws.g, c);
            var r := Placed(ws, t, who, shape);
            0 <= idx < |ws.chunks|
            && r.chunks == WithChunk(ws, idx, Finalized(Added(ws.chunks[idx], c, t))).chunks
            && r.resources == if who.Player? then Charge(ws.resources, t) else ws.resources
  {
    PlaceCellInRange(ws, who);
    var c := PlaceCell(ws, who).value;
    var idx := ChunkIndex(ws.g, c);
    var placed := WithChunk(ws, idx, Finalized(Added(ws.chunks[idx], c, t)));
    assert Placed(ws, t, who, shape) == Put(ws, t, c, who.Player?, shape);
    assert Put(ws, t, c, who.Player?, shape)
        == if who.Player? then placed.(resources := Charge(ws.resources, t)) else placed;
  }

  /**
   * Hence a build that passes the gate adds exactly one instance of t, at the
   * target cell, to the chunk getChunkIndex names (occupied or not), leaves
   * every other list and every other chunk alone, publishes that chunk's
   * counts, keeps the world well-formed and raises the world total of a
   * counted t by one.
   */
  lemma PlacedBlockEffect(ws: WorldState, t: BlockType, who: Initiator, shape: Shape)
    requires WorldOk(ws) && PlaceOk(ws, who) && WellFormed(shape)
    requires t != Tree && Get(ws.resources, t) > 0 && PlaceCell(ws, who).Some?
    ensures var c := PlaceCell(ws, who).value;
            var idx := ChunkIndex(ws.g, c);
            var r := Placed(ws, t, who, shape);
            0 <= idx < |ws.chunks| && WorldOk(r) && |r.chunks| == |ws.chunks|
            && CellsOf(r.chunks[idx], t) == CellsOf(ws.chunks[idx], t) + [c]
            && (forall u :: u != t ==> CellsOf(r.chunks[idx], u) == CellsOf(ws.chunks[idx], u))
            && (forall m :: 0 <= m < |ws.chunks| && m != idx ==> r.chunks[m] == ws.chunks[m])
            && (forall u :: Counted(u) ==> r.chunks[idx].published[u] == r.chunks[idx].counts[u])
            && Total(r.chunks, t) == Total(ws.chunks, t) + (if Counted(t) then 1 else 0)
  {
    PlacedBlock(ws, t, who, shape);
    PlaceCellInRange(ws, who);
    var c := PlaceCell(ws, who).value;
    var idx := ChunkIndex(ws.g, c);
    var r := Placed(ws, t, who, shape);
    var placed := WithChunk(ws, idx, Finalized(Added(ws.chunks[idx], c, t)));
    assert r.chunks == placed.chunks && r.g == ws.g;
    AddFinalizeChunk(ws.chunks[idx], c, t);
    AddFinalize(ws, idx, c, t);
    assert WorldOk(placed);
    assert r.chunks[idx] == Finalized(Added(ws.chunks[idx], c, t));
  }

  /**
   * A tree build stamps the template the draw picks on (i, j, k - 1) into the
   * target's chunk, whatever regions the stamped cells fall in; nothing else
   * changes, the ledger included.
   */
  lemma PlacedTree(ws: WorldState, who: Initiator, shape: Shape)
    requires WorldOk(ws) && PlaceOk(ws, who) && WellFormed(shape) && PlaceCell(ws, who).Some?
    ensures var c := PlaceCell(ws, who).value;
            var idx := ChunkIndex(ws.g, c);
            var r := Placed(ws, Tree, who, shape);
            0 <= idx < |ws.chunks| && WorldOk(r) && r.resources == ws.resources
            && r.chunks == ws.chunks[idx := AddAll(ws.chunks[idx], Stamp(shape, c.i, c.j, c.k - 1))]
  {
    PlacedAt(ws, Tree, who, shape);
    var c := PlaceCell(ws, who).value;
    PutTree(ws, c, who.Player?, shape);
    StampedOk(ws, ChunkIndex(ws.g, c), Stamp(shape, c.i, c.j, c.k - 1));
  }

  /** Stamping placements into one chunk keeps the world well-formed. */
  lemma StampedOk(ws: WorldState, idx: int, ps: seq<Placement>)
    requires WorldOk(ws) && 0 <= idx < |ws.chunks|
    ensures WorldOk(WithChunk(ws, idx, AddAll(ws.chunks[idx], ps)))
  {
    AddAllCells(ws.chunks[idx], ps);
    WithChunkOk(ws, idx, AddAll(ws.chunks[idx], ps));
  }

  /** The first half of placeBlock for the player: the topmost hit, the cell across its face, the bounds test. */
  method FindTarget(w: World, hits: seq<Hit>) returns (target: Option<Coord>)
    requires w.Valid() && HitsOk(w.State(), hits)
    ensures target == Target(w.State(), hits)
  {
    if |hits| == 0 {
      return None;
    }
    var hit := hits[Topmost(hits)];
    assert HitOk(w.State(), hit);
    w.ChunkValid(hit.chunk);
    var coord := w.chunks[hit.chunk].instanceCoord[hit.tileType][hit.slot];
    assert coord == HitCell(w.State(), hit);
    var i, j, k := coord.i, coord.j, coord.k;
    var n := hit.normal;
    if n.y == Above {
      k := k + 1;
    } else if n.y == Below {
      k := k - 1;
    } else if n.x == Above {
      i := i + 1;
    } else if n.x == Below {
      i := i - 1;
    } else if n.z == Above {
      j := j + 1;
    } else if n.z == Below {
      j := j - 1;
    }
    assert Coord(i, j, k) == Neighbour(coord, n);
    if i < 0 || i >= w.g.gridSize || j < 0 || j >= w.g.gridSize || k < 0 || k >= w.g.gridDepth {
      return None;
    }
    return Some(Coord(i, j, k));
  }

  /** The second half of placeBlock for a type other than the tree: the gate, addBlock, finalize, the charge. */
  method PutBlockAt(w: World, blockType: BlockType, place: Coord, player: bool)
    requires w.Valid() && 0 <= ChunkIndex(w.g, place) < |w.chunks|
    modifies w, w.chunks
    ensures w.Valid() && w.State() == PutBlock(old(w.State()), blockType, place, player)
  {
    var idx := ChunkIndex(w.g, place);
    if Get(w.resources, blockType) <= 0 {
      return;
    }
    ghost var s0 := w.State();
    w.AddBlockAt(idx, place, blockType);
    w.FinalizeAt(idx);
    ghost var placed := WithChunk(s0, idx, Finalized(Added(s0.chunks[idx], place, blockType)));
    assert w.State() == placed;
    PutBlockPasses(s0, blockType, place, player);
    if player {
      w.SetResources(Charge(w.resources, blockType));
    }
  }

  /** The second half of placeBlock: stamp a tree, or place any other type. */
  method PutAt(w: World, blockType: BlockType, place: Coord, player: bool, draw: real)
    requires w.Valid() && 0 <= ChunkIndex(w.g, place) < |w.chunks| && 0.0 <= draw < 1.0
    modifies w, w.chunks
    ensures w.Valid() && WellFormed(TreeShapes[ShapeIndex(draw)])
    ensures w.State() == Put(old(w.State()), blockType, place, player, TreeShapes[ShapeIndex(draw)])
  {
    PickedWellFormed(draw);
    if blockType == Tree {
      w.TreeAt(ChunkIndex(w.g, place), Coord(place.i, place.j, place.k - 1), draw);
    } else {
      PutNotTree(w.State(), blockType, place, player, TreeShapes[ShapeIndex(draw)]);
      PutBlockAt(w, blockType, place, player);
    }
  }

  /** placeBlock(blockType, initiator): the cell (the player's target, or the flora code's cell), then the placement. */
  method PlaceBlock(w: World, blockType: BlockType, who: Initiator, draw: real)
    requires w.Valid() && PlaceOk(w.State(), who) && 0.0 <= draw < 1.0
    modifies w, w.chunks
    ensures w.Valid() && WellFormed(TreeShapes[ShapeIndex(draw)])
    ensures w.State() == Placed(old(w.State()), blockType, who, TreeShapes[ShapeIndex(draw)])
  {
    PickedWellFormed(draw);
    PlaceCellInRange(w.State(), who);
    var place: Coord;
    if who.Player? {
      var target := FindTarget(w, who.hits);
      if target == None {
        return;
      }
      place := target.value;
    } else {
      place := who.at;
    }
    PutAt(w, blockType, place, who.Player?, draw);
  }

  /** The two preview boxes of updateBuildHighlight. */
  datatype Boxes = Boxes(highlight: bool, notAllowed: bool)

  /** updateBuildHighlight(canPlace): "not allowed" without a target, otherwise the boxes follow canPlace. */
  function Highlight(ws: WorldState, hits: seq<Hit>, canPlace: bool): (r: Boxes)
    requires HitsOk(ws, hits)
    ensures r.highlight != r.notAllowed
    ensures r.highlight <==> Target(ws, hits).Some? && canPlace
  {
    if Target(ws, hits) == None then Boxes(false, true) else Boxes(canPlace, !canPlace)
  }

  /** The stock of the selected type, (resources[selectedType] || 0); nothing selected reads as none. */
  function Stock(resources: map<BlockType, int>, selected: Option<BlockType>): int
  {
    if selected.Some? then Get(resources, selected.value) else 0
  }

  /** The pointermove handler: no preview outside the build modes; tree planting always previews as allowed. */
  function HoverBoxes(f: Flags, ws: WorldState, hits: seq<Hit>, selected: Option<BlockType>): (r: Option<Boxes>)
    requires HitsOk(ws, hits)
    ensures r.None? <==> !f.placing && !f.treePlanting
    ensures r.Some? ==> r.value.highlight != r.value.notAllowed
    ensures r.Some? ==> (r.value.highlight <==> Target(ws, hits).Some? && (f.treePlanting || Stock(ws.resources, selected) > 0))
  {
    if !f.placing && !f.treePlanting then None
    else if f.treePlanting then Some(Highlight(ws, hits, true))
    else Some(Highlight(ws, hits, Stock(ws.resources, selected) > 0))
  }

  /**
   * The placing preview is truthful: with a block type selected, the
   * highlight box shows exactly when a click with the same hits would add a
   * block, and the "not allowed" box exactly when it would change nothing.
   */
  lemma HoverMatchesPlace(ws: WorldState, hits: seq<Hit>, t: BlockType, shape: Shape)
    requires WorldOk(ws) && HitsOk(ws, hits) && WellFormed(shape) && t != Tree
    ensures var b := HoverBoxes(Flags(false, true, false), ws, hits, Some(t)).value;
            (b.highlight <==> Placed(ws, t, Player(hits), shape) != ws)
            && (b.notAllowed <==> Placed(ws, t, Player(hits), shape) == ws)
  {
    var who := Player(hits);
    assert PlaceOk(ws, who);
    if Target(ws, hits).Some? && Get(ws.resources, t) > 0 {
      PlacedBlock(ws, t, who, shape);
      var c := Target(ws, hits).value;
      var idx := ChunkIndex(ws.g, c);
      assert |CellsOf(Placed(ws, t, who, shape).chunks[idx], t)| == |CellsOf(ws.chunks[idx], t)| + 1;
    }
  }

  /** The click handler: outside the build modes nothing happens; otherwise placeBlock(selectedType, 'player'). */
  method OnCanvasClick(w: World, modes: ModeState, selected: Option<BlockType>, hits: seq<Hit>, draw: real)
    requires w.Valid() && HitsOk(w.State(), hits) && 0.0 <= draw < 1.0
    modifies w, w.chunks
    ensures w.Valid() && WellFormed(TreeShapes[ShapeIndex(draw)])
    ensures w.State() == if (!modes.placing && !modes.treePlanting) || selected == None then old(w.State())
                         else Placed(old(w.State()), selected.value, Player(hits), TreeShapes[ShapeIndex(draw)])
  {
    if !modes.placing && !modes.treePlanting {
      return;
    }
    if selected == None {
      // placeBlock(null, ...) fails the ledger gate: resources[null] is undefined
      return;
    }
    PlaceBlock(w, selected.value, Player(hits), draw);
  }

  /** A resource counter's click: with stock, select the type and switch to placing only. */
  method OnResourceButton(modes: ModeState, resources: map<BlockType, int>, t: BlockType, selected: Option<BlockType>)
    returns (sel: Option<BlockType>)
    modifies modes
    ensures Get(resources, t) <= 0 ==> sel == selected && modes.Value() == old(modes.Value())
    ensures Get(resources, t) > 0 ==> sel == Some(t) && modes.Value() == Flags(false, true, false)
  {
    if Get(resources, t) <= 0 {
      return selected;
    }
    sel := Some(t);
    modes.ResetModes();
    modes.placing := true;
  }

  /** A structure button's click: select it, clear the modes, and switch to tree planting when it is the tree. */
  method OnStructureButton(modes: ModeState, t: BlockType) returns (sel: Option<BlockType>)
    modifies modes
    ensures sel == Some(t) && modes.Value() == Flags(false, false, t == Tree)
  {
    sel := Some(t);
    modes.ResetModes();
    if t == Tree {
      modes.treePlanting := true;
    }
  }
}
