/**
 * Occupancy and hay growth: isOccupied, growSingleOverGrass and one tick
 * of randomHayGrowth (flatten the grass cells, choose how many to grow,
 * splice-select them and grow hay above each).
 */
module Flora {
  import opened Blocks
  import opened Grid
  import opened Chunks
  import opened Worlds
  import opened Build

  /**
   * isOccupied as written: true when getChunkIndex names no chunk, otherwise
   * true iff one of that chunk's non-air lists holds c. There is no bounds
   * test, so a cell outside the grid whose index names a chunk can be free.
   */
  predicate Occupied(ws: WorldState, c: Coord)
    requires ws.g.Valid()
  {
    var idx := ChunkIndex(ws.g, c);
    !(0 <= idx < |ws.chunks|) || exists t :: t != Air && c in CellsOf(ws.chunks[idx], t)
  }

  /** The occupancy test the growth needs: a cell outside the grid counts as occupied. */
  predicate Blocked(ws: WorldState, c: Coord)
    requires ws.g.Valid()
  {
    !InBounds(ws.g, c) || Occupied(ws, c)
  }

  /** The occupancy test growth consults: isOccupied as written, or with the bounds test its comment promises. */
  datatype Test = AsWritten | WithBounds

  /** Whether growth under test refuses to build at c. */
  predicate Refuses(ws: WorldState, test: Test, c: Coord)
    requires ws.g.Valid()
  {
    match test
    case AsWritten => Occupied(ws, c)
    case WithBounds => Blocked(ws, c)
  }

  /** A cell either test lets growth build on has a chunk index naming a chunk; under the corrected test it also lies in the grid. */
  lemma FreeInRange(ws: WorldState, test: Test, c: Coord)
    requires WorldOk(ws) && !Refuses(ws, test, c)
    ensures 0 <= ChunkIndex(ws.g, c) < |ws.chunks|
    ensures test == WithBounds ==> InBounds(ws.g, c)
  {
    if test == WithBounds {
      ChunkIndexInRange(ws.g, c);
    }
  }

  /** arr.some(x => x matches c). */
  method AnyMatches(arr: seq<Coord>, c: Coord) returns (found: bool)
    ensures found <==> c in arr
  {
    var n := 0;
    while n < |arr|
      invariant 0 <= n <= |arr|
      invariant c !in arr[..n]
    {
      if arr[n] == c {
        return true;
      }
      assert arr[..n + 1] == arr[..n] + [arr[n]];
      n := n + 1;
    }
    assert arr[..n] == arr;
    return false;
  }

  /** isOccupied(c.i, c.j, c.k): the chunk lookup, then every mesh list except air's. */
  method IsOccupied(w: World, c: Coord) returns (r: bool)
    requires w.Valid()
    ensures r == Occupied(w.State(), c)
  {
    var idx := ChunkIndex(w.g, c);
    if !(0 <= idx < |w.chunks|) {
      return true;
    }
    w.ChunkValid(idx);
    var chk := w.chunks[idx];
    ghost var cs := chk.Value();
    var n := 0;
    while n < |MeshOrder|
      invariant 0 <= n <= |MeshOrder|
      invariant forall m :: 0 <= m < n && MeshOrder[m] != Air ==> c !in CellsOf(cs, MeshOrder[m])
    {
      var t := MeshOrder[n];
      if t != Air {
        var found := AnyMatches(chk.instanceCoord[t], c);
        if found {
          assert c in CellsOf(cs, t);
          return true;
        }
      }
      n := n + 1;
    }
    assert forall t :: HasMesh(t) ==> t in MeshOrder;
    return false;
  }

  /** isOccupied with the bounds test its comment promises. */
  method IsBlocked(w: World, c: Coord) returns (r: bool)
    requires w.Valid()
    ensures r == Blocked(w.State(), c)
  {
    if !InBounds(w.g, c) {
      return true;
    }
    r := IsOccupied(w, c);
  }

  /** The cell growSingleOverGrass(t, i, j, k) builds on: (i, j, k + 1). */
  function Above(c: Coord): Coord
  {
    Coord(c.i, c.j, c.k + 1)
  }

  /**
   * One pass of growSingleOverGrass's inner loop: skip when test refuses the
   * cell above, otherwise placeBlock(t, 'flora', above), whose flora path is
   * PutBlock at that cell with no charge. The source's pass is test AsWritten.
   */
  function GrowStep(ws: WorldState, test: Test, t: BlockType, above: Coord): WorldState
    requires WorldOk(ws) && Counted(t)
  {
    if Refuses(ws, test, above) then ws
    else
      FreeInRange(ws, test, above);
      PutBlock(ws, t, above, false)
  }

  /** With the cell above refused, or none of t in the ledger, a pass changes nothing. */
  lemma GrowStepUnchanged(ws: WorldState, test: Test, t: BlockType, above: Coord)
    requires WorldOk(ws) && Counted(t) && (Refuses(ws, test, above) || Get(ws.resources, t) <= 0)
    ensures GrowStep(ws, test, t, above) == ws
  {
    if !Refuses(ws, test, above) {
      FreeInRange(ws, test, above);
    }
  }

  /**
   * Otherwise a pass appends the cell above to the list of t of the chunk
   * its index names, and to nothing else; t's total goes up by one, the
   * ledger is kept, and the cell is occupied afterwards. Only under the
   * corrected test is that cell sure to lie in the grid.
   */
  lemma GrowStepPlaced(ws: WorldState, test: Test, t: BlockType, above: Coord)
    requires WorldOk(ws) && Counted(t) && !Refuses(ws, test, above) && Get(ws.resources, t) > 0
    ensures 0 <= ChunkIndex(ws.g, above) < |ws.chunks|
    ensures test == WithBounds ==> InBounds(ws.g, above)
    ensures var r := GrowStep(ws, test, t, above);
            var idx := ChunkIndex(ws.g, above);
            WorldOk(r) && r.g == ws.g && r.resources == ws.resources && |r.chunks| == |ws.chunks|
            && Occupied(r, above) && Refuses(r, test, above)
            && CellsOf(r.chunks[idx], t) == CellsOf(ws.chunks[idx], t) + [above]
            && (forall u :: u != t ==> CellsOf(r.chunks[idx], u) == CellsOf(ws.chunks[idx], u))
            && (forall m :: 0 <= m < |ws.chunks| && m != idx ==> r.chunks[m] == ws.chunks[m])
            && Total(r.chunks, t) == Total(ws.chunks, t) + 1
  {
    FreeInRange(ws, test, above);
    var idx := ChunkIndex(ws.g, above);
    AddFinalize(ws, idx, above, t);
    AddFinalizeChunk(ws.chunks[idx], above, t);
    var r := GrowStep(ws, test, t, above);
    assert above in CellsOf(r.chunks[idx], t);
  }

  /** A pass keeps the world well-formed, its constants, its size and its ledger. */
  lemma GrowStepOk(ws: WorldState, test: Test, t: BlockType, above: Coord)
    requires WorldOk(ws) && Counted(t)
    ensures var r := GrowStep(ws, test, t, above);
            WorldOk(r) && r.g == ws.g && r.resources == ws.resources && |r.chunks| == |ws.chunks|
  {
    if Refuses(ws, test, above) || Get(ws.resources, t) <= 0 {
      GrowStepUnchanged(ws, test, t, above);
    } else {
      GrowStepPlaced(ws, test, t, above);
    }
  }

  /** Once a pass has run, further passes change nothing: the cell above is now occupied, or the ledger still has none of t. */
  lemma GrowStepIdempotent(ws: WorldState, test: Test, t: BlockType, above: Coord)
    requires WorldOk(ws) && Counted(t)
    ensures WorldOk(GrowStep(ws, test, t, above))
    ensures GrowStep(GrowStep(ws, test, t, above), test, t, above) == GrowStep(ws, test, t, above)
  {
    if Refuses(ws, test, above) || Get(ws.resources, t) <= 0 {
      GrowStepUnchanged(ws, test, t, above);
    } else {
      GrowStepPlaced(ws, test, t, above);
      GrowStepUnchanged(GrowStep(ws, test, t, above), test, t, above);
    }
  }

  /** Some chunk has a grass entry, so growSingleOverGrass's inner body runs at least once. */
  predicate HasGrass(chunks: seq<ChunkState>)
  {
    exists m :: 0 <= m < |chunks| && CellsOf(chunks[m], Grass) != []
  }

  /**
   * growSingleOverGrass(t, c.i, c.j, c.k) under test: the inner body runs once
   * per grass entry of every chunk, and once it has run, running it again
   * changes nothing, so the call is one pass when there is any grass and none
   * otherwise.
   */
  function Grown(ws: WorldState, test: Test, t: BlockType, c: Coord): (r: WorldState)
    requires WorldOk(ws) && Counted(t)
    ensures WorldOk(r) && r.g == ws.g && r.resources == ws.resources && |r.chunks| == |ws.chunks|
  {
    GrowStepOk(ws, test, t, Above(c));
    if HasGrass(ws.chunks) then GrowStep(ws, test, t, Above(c)) else ws
  }

  /** The chunks up to n have grass iff those up to n - 1 do or chunk n does. */
  lemma HasGrassSnoc(chunks: seq<ChunkState>, n: int)
    requires 0 <= n < |chunks|
    ensures HasGrass(chunks[..n + 1]) <==> HasGrass(chunks[..n]) || CellsOf(chunks[n], Grass) != []
  {
    if HasGrass(chunks[..n + 1]) && CellsOf(chunks[n], Grass) == [] {
      var m :| 0 <= m < n + 1 && CellsOf(chunks[..n + 1][m], Grass) != [];
      assert chunks[..n][m] == chunks[m];
    }
    if HasGrass(chunks[..n]) {
      var m :| 0 <= m < n && CellsOf(chunks[..n][m], Grass) != [];
      assert chunks[..n + 1][m] == chunks[m];
    }
    if CellsOf(chunks[n], Grass) != [] {
      assert chunks[..n + 1][n] == chunks[n];
    }
  }

  /** The occupancy test of a pass: isOccupied as written, or isOccupied behind the bounds test. */
  method Consult(w: World, test: Test, c: Coord) returns (r: bool)
    requires w.Valid()
    ensures r == Refuses(w.State(), test, c)
  {
    match test
    case AsWritten => r := IsOccupied(w, c);
    case WithBounds => r := IsBlocked(w, c);
  }

  /** The inner loop body, the occupancy test then placeBlock(t, 'flora', above), is one pass. */
  method GrowPass(w: World, test: Test, t: BlockType, above: Coord)
    requires w.Valid() && Counted(t)
    modifies w, w.chunks
    ensures w.Valid() && w.State() == GrowStep(old(w.State()), test, t, above)
  {
    var refused := Consult(w, test, above);
    if !refused {
      FreeInRange(w.State(), test, above);
      PutBlockAt(w, t, above, false);
    }
  }

  /** The grass entries of chunk n still to visit, plus one while the cell above is free: a pass never raises it. */
  function Slack(ws: WorldState, test: Test, n: int, above: Coord): int
    requires ws.g.Valid() && 0 <= n < |ws.chunks|
  {
    |CellsOf(ws.chunks[n], Grass)| + (if Refuses(ws, test, above) then 0 else 1)
  }

  lemma GrowStepSlack(ws: WorldState, test: Test, t: BlockType, above: Coord, n: int)
    requires WorldOk(ws) && Counted(t) && 0 <= n < |ws.chunks|
    ensures Slack(GrowStep(ws, test, t, above), test, n, above) <= Slack(ws, test, n, above)
  {
    if Refuses(ws, test, above) || Get(ws.resources, t) <= 0 {
      GrowStepUnchanged(ws, test, t, above);
    } else {
      PlacedGrass(ws, test, t, above, n);
    }
  }

  /** A pass that builds adds at most one grass entry to any chunk and leaves the cell above refused. */
  lemma PlacedGrass(ws: WorldState, test: Test, t: BlockType, above: Coord, n: int)
    requires WorldOk(ws) && Counted(t) && 0 <= n < |ws.chunks|
    requires !Refuses(ws, test, above) && Get(ws.resources, t) > 0
    ensures var r := GrowStep(ws, test, t, above);
            WorldOk(r) && |r.chunks| == |ws.chunks| && Refuses(r, test, above)
            && |CellsOf(r.chunks[n], Grass)| <= |CellsOf(ws.chunks[n], Grass)| + 1
  {
    GrowStepPlaced(ws, test, t, above);
    var r := GrowStep(ws, test, t, above);
    if n != ChunkIndex(ws.g, above) {
      assert r.chunks[n] == ws.chunks[n];
    } else if t != Grass {
      assert CellsOf(r.chunks[n], Grass) == CellsOf(ws.chunks[n], Grass);
    }
  }

  /** The inner loop over one chunk's grass list; its length is read afresh each pass, as a grass build can lengthen it. */
  method GrowOverChunk(w: World, test: Test, t: BlockType, above: Coord, n: int)
    requires w.Valid() && Counted(t) && 0 <= n < |w.chunks|
    modifies w, w.chunks
    ensures w.Valid()
    ensures var s := old(w.State());
            w.State() == if CellsOf(s.chunks[n], Grass) != [] then GrowStep(s, test, t, above) else s
  {
    ghost var s0 := w.State();
    GrowStepIdempotent(s0, test, t, above);
    w.ChunkValid(n);
    var g := 0;
    while g < |w.chunks[n].instanceCoord[Grass]|
      invariant w.Valid() && 0 <= g
      invariant |w.chunks[n].instanceCoord[Grass]| == |CellsOf(w.State().chunks[n], Grass)|
      invariant w.State() == if g > 0 then GrowStep(s0, test, t, above) else s0
      invariant g > 0 ==> CellsOf(s0.chunks[n], Grass) != []
      decreases Slack(w.State(), test, n, above) - g
    {
      GrowStepSlack(w.State(), test, t, above, n);
      GrowPass(w, test, t, above);
      g := g + 1;
      w.ChunkValid(n);
    }
  }

  /** growSingleOverGrass(t, c.i, c.j, c.k) under test, for a type that is counted (the only caller grows hay). */
  method GrowSingleOverGrass(w: World, test: Test, t: BlockType, c: Coord)
    requires w.Valid() && Counted(t)
    modifies w, w.chunks
    ensures w.Valid() && w.State() == Grown(old(w.State()), test, t, c)
  {
    ghost var s0 := w.State();
    var above := Above(c);
    GrowStepIdempotent(s0, test, t, above);
    var n := 0;
    while n < |w.chunks|
      invariant w.Valid() && 0 <= n <= |w.chunks|
      invariant w.State() == if HasGrass(s0.chunks[..n]) then GrowStep(s0, test, t, above) else s0
    {
      GrowOverChunk(w, test, t, above, n);
      HasGrassSnoc(s0.chunks, n);
      n := n + 1;
    }
    assert s0.chunks[..n] == s0.chunks;
  }

  /**
   * As written, growth on the Default grid builds outside it: over the grass
   * cell (0, 0, 39) of the top layer, the cell above, (0, 0, 40), is not in
   * the grid, yet its index names chunk 1, so unless chunk 1 lists it,
   * isOccupied says free and growSingleOverGrass adds the hay to chunk 1 at
   * k = 40. With the bounds test the same call changes nothing.
   */
  lemma OutOfGridGrowth(ws: WorldState)
    requires WorldOk(ws) && ws.g == Default && Get(ws.resources, Hay) > 0
    requires exists m :: 0 <= m < |ws.chunks| && Coord(0, 0, 39) in CellsOf(ws.chunks[m], Grass)
    requires forall u :: u != Air ==> Coord(0, 0, 40) !in CellsOf(ws.chunks[1], u)
    ensures var above := Above(Coord(0, 0, 39));
            !InBounds(ws.g, above) && ChunkIndex(ws.g, above) == 1
            && CellsOf(Grown(ws, AsWritten, Hay, Coord(0, 0, 39)).chunks[1], Hay) == CellsOf(ws.chunks[1], Hay) + [above]
            && !AllInGrid(Grown(ws, AsWritten, Hay, Coord(0, 0, 39)))
            && Grown(ws, WithBounds, Hay, Coord(0, 0, 39)) == ws
  {
    DefaultGeometry();
    var above := Above(Coord(0, 0, 39));
    assert ChunkIndex(ws.g, above) == 1;
    assert HasGrass(ws.chunks);
    GrowStepPlaced(ws, AsWritten, Hay, above);
  }

  /** A freshly created world is well formed and lists nothing. */
  lemma CreatedEmpty(g: Geometry, res: map<BlockType, int>)
    requires g.Valid()
    ensures var ws := WorldState(g, Created(g), res);
            WorldOk(ws) && forall m, u :: 0 <= m < |ws.chunks| ==> CellsOf(ws.chunks[m], u) == []
  {
    CreatedOk(g, res);
    forall m, u | 0 <= m < g.ChunkTotal()
      ensures CellsOf(Created(g)[m], u) == []
    {
      InitialTables(g, Decode(g, m));
    }
  }

  /** Every cell the chunks list lies in the grid. */
  predicate AllInGrid(ws: WorldState)
  {
    forall m, u, x :: 0 <= m < |ws.chunks| && x in CellsOf(ws.chunks[m], u) ==> InBounds(ws.g, x)
  }

  /** A pass under the corrected test never lists a cell outside the grid. */
  lemma GrowStepInGrid(ws: WorldState, t: BlockType, above: Coord)
    requires WorldOk(ws) && Counted(t) && AllInGrid(ws)
    ensures AllInGrid(GrowStep(ws, WithBounds, t, above))
  {
    if Refuses(ws, WithBounds, above) || Get(ws.resources, t) <= 0 {
      GrowStepUnchanged(ws, WithBounds, t, above);
    } else {
      FreeInRange(ws, WithBounds, above);
      var r := GrowStep(ws, WithBounds, t, above);
      forall m, u, x | 0 <= m < |r.chunks| && x in CellsOf(r.chunks[m], u)
        ensures InBounds(r.g, x)
      {
        PlacedListed(ws, WithBounds, t, above, m, u, x);
      }
    }
  }

  /** After a pass that builds, a listed cell was listed before or is the cell built on. */
  lemma PlacedListed(ws: WorldState, test: Test, t: BlockType, above: Coord, m: int, u: BlockType, x: Coord)
    requires WorldOk(ws) && Counted(t) && !Refuses(ws, test, above) && Get(ws.resources, t) > 0
    requires 0 <= m < |ws.chunks| && x in CellsOf(GrowStep(ws, test, t, above).chunks[m], u)
    ensures x in CellsOf(ws.chunks[m], u) || x == above
  {
    FreeInRange(ws, test, above);
    var idx := ChunkIndex(ws.g, above);
    assert GrowStep(ws, test, t, above) == WithChunk(ws, idx, Finalized(Added(ws.chunks[idx], above, t)));
    if m == idx {
      AddFinalizeChunk(ws.chunks[idx], above, t);
    }
  }

  /**
   * The premises of OutOfGridGrowth are met: the freshly created Default
   * world, with hay and grass in the ledger, after a flora pass has built
   * grass at (0, 0, 39).
   */
  lemma OutOfGridWitness(ws0: WorldState)
    requires ws0.g == Default && ws0.chunks == Created(ws0.g)
    requires Get(ws0.resources, Hay) > 0 && Get(ws0.resources, Grass) > 0
    ensures WorldOk(ws0)
    ensures var ws := GrowStep(ws0, WithBounds, Grass, Coord(0, 0, 39));
            WorldOk(ws) && ws.g == Default && Get(ws.resources, Hay) > 0 && |ws.chunks| == 4
            && (exists m :: 0 <= m < |ws.chunks| && Coord(0, 0, 39) in CellsOf(ws.chunks[m], Grass))
            && forall u :: u != Air ==> Coord(0, 0, 40) !in CellsOf(ws.chunks[1], u)
  {
    DefaultGeometry();
    CreatedEmpty(ws0.g, ws0.resources);
    var c := Coord(0, 0, 39);
    EmptyFree(ws0, WithBounds, c);
    GrowStepPlaced(ws0, WithBounds, Grass, c);
    GrowStepInGrid(ws0, Grass, c);
    var ws := GrowStep(ws0, WithBounds, Grass, c);
    assert c in CellsOf(ws.chunks[ChunkIndex(ws0.g, c)], Grass);
    assert !InBounds(ws.g, Coord(0, 0, 40));
  }

  /** In a world that lists nothing, neither test refuses an in-grid cell. */
  lemma EmptyFree(ws: WorldState, test: Test, c: Coord)
    requires WorldOk(ws) && InBounds(ws.g, c)
    requires forall m, u :: 0 <= m < |ws.chunks| ==> CellsOf(ws.chunks[m], u) == []
    ensures !Refuses(ws, test, c)
  {
    ChunkIndexInRange(ws.g, c);
  }

  /** allGrass: the grass lists of the chunks, in chunk order, one after another. */
  function AllGrass(chunks: seq<ChunkState>): seq<Coord>
  {
    if chunks == [] then []
    else AllGrass(chunks[..|chunks| - 1]) + CellsOf(chunks[|chunks| - 1], Grass)
  }

  /** allGrass holds exactly the grass cells of the chunks. */
  lemma {:induction false} AllGrassMembers(chunks: seq<ChunkState>, c: Coord)
    ensures c in AllGrass(chunks) <==> exists m :: 0 <= m < |chunks| && c in CellsOf(chunks[m], Grass)
  {
    if chunks != [] {
      var init := chunks[..|chunks| - 1];
      AllGrassMembers(init, c);
      if c in AllGrass(chunks) && c !in CellsOf(chunks[|chunks| - 1], Grass) {
        var m :| 0 <= m < |init| && c in CellsOf(init[m], Grass);
        assert chunks[m] == init[m];
      }
      if exists m :: 0 <= m < |chunks| && c in CellsOf(chunks[m], Grass) {
        var m :| 0 <= m < |chunks| && c in CellsOf(chunks[m], Grass);
        if m < |init| {
          assert init[m] == chunks[m];
        }
      }
    }
  }

  /** allGrass is as long as the chunks' grass total. */
  lemma {:induction false} AllGrassLength(chunks: seq<ChunkState>)
    requires forall n :: 0 <= n < |chunks| ==> TablesOk(chunks[n])
    ensures |AllGrass(chunks)| == Total(chunks, Grass)
  {
    if chunks != [] {
      var init := chunks[..|chunks| - 1];
      assert forall n :: 0 <= n < |init| ==> init[n] == chunks[n];
      AllGrassLength(init);
    }
  }

  /** allGrass is empty iff no chunk has grass. */
  lemma {:induction false} AllGrassEmpty(chunks: seq<ChunkState>)
    ensures AllGrass(chunks) == [] <==> !HasGrass(chunks)
  {
    if chunks != [] {
      var init := chunks[..|chunks| - 1];
      AllGrassEmpty(init);
      HasGrassSnoc(chunks, |chunks| - 1);
      assert chunks[..|chunks|] == chunks;
    }
  }

  /** forEach(c => all.push({...c})): all with the cells of grass appended in order. */
  method PushAll(all: seq<Coord>, grass: seq<Coord>) returns (out: seq<Coord>)
    ensures out == all + grass
  {
    out := all;
    var g := 0;
    while g < |grass|
      invariant 0 <= g <= |grass|
      invariant out == all + grass[..g]
    {
      assert grass[..g + 1] == grass[..g] + [grass[g]];
      out := out + [grass[g]];
      g := g + 1;
    }
    assert grass[..g] == grass;
  }

  /** Step 1 of tick: every chunk's grass cells pushed, in order, onto a fresh array. */
  method FlattenGrass(w: World) returns (all: seq<Coord>)
    requires w.Valid()
    ensures all == AllGrass(w.State().chunks)
  {
    ghost var cs := w.State().chunks;
    all := [];
    var n := 0;
    while n < |w.chunks|
      invariant 0 <= n <= |w.chunks| && |cs| == |w.chunks|
      invariant all == AllGrass(cs[..n])
    {
      w.ChunkValid(n);
      var grass := w.chunks[n].instanceCoord[Grass];
      assert grass == CellsOf(cs[n], Grass);
      AllGrassSnoc(cs, n);
      all := PushAll(all, grass);
      n := n + 1;
    }
    assert cs[..n] == cs;
  }

  lemma AllGrassSnoc(cs: seq<ChunkState>, n: int)
    requires 0 <= n < |cs|
    ensures AllGrass(cs[..n + 1]) == AllGrass(cs[..n]) + CellsOf(cs[n], Grass)
  {
    assert cs[..n + 1][..n] == cs[..n];
  }

  /** MAX_PCT. */
  const MaxPct: real := 0.001

  /** A draw in [0, 1) scales a positive bound to a value whose floor lies in [0, bound). */
  lemma ScaledFloor(draw: real, bound: real)
    requires 0.0 <= draw < 1.0 && bound > 0.0
    ensures 0 <= (draw * bound).Floor && (draw * bound).Floor as real < bound
  {
    assert bound - draw * bound == (1.0 - draw) * bound;
    var x := draw * bound;
    assert x.Floor as real <= x;
  }

  /** pickCount = floor(draw * (len * MAX_PCT + 1)): below len * MAX_PCT + 1, so never more than the grass cells there are. */
  function PickCount(len: nat, draw: real): (r: int)
    requires 0.0 <= draw < 1.0
    ensures 0 <= r <= len
    ensures r as real < len as real * MaxPct + 1.0
  {
    var bound := len as real * MaxPct + 1.0;
    assert bound == len as real * 0.001 + 1.0 <= len as real + 1.0;
    ScaledFloor(draw, bound);
    var r := (draw * bound).Floor;
    assert r as real < (len + 1) as real;
    r
  }

  /** floor(draw * len), the index a splice removes: a valid index of a non-empty array. */
  function PickIndex(len: int, draw: real): (r: int)
    requires len > 0 && 0.0 <= draw < 1.0
    ensures 0 <= r < len
  {
    ScaledFloor(draw, len as real);
    (draw * len as real).Floor
  }

  /** The array after splice(idx, 1): the entry at idx gone, the rest in order, one occurrence fewer of that entry. */
  function Spliced(s: seq<Coord>, idx: int): (r: seq<Coord>)
    requires 0 <= idx < |s|
    ensures |r| == |s| - 1 && multiset(r) + multiset{s[idx]} == multiset(s)
  {
    assert s == s[..idx] + [s[idx]] + s[idx + 1..];
    s[..idx] + s[idx + 1..]
  }

  predicate Draws(ds: seq<real>)
  {
    forall n :: 0 <= n < |ds| ==> 0.0 <= ds[n] < 1.0
  }

  /** The cells step 3 of tick picks, one per draw, each spliced out of the pool before the next: a sub-multiset of the pool. */
  function Picks(pool: seq<Coord>, ds: seq<real>): (r: seq<Coord>)
    requires |ds| <= |pool| && Draws(ds)
    ensures |r| == |ds| && multiset(r) <= multiset(pool)
  {
    if ds == [] then []
    else
      var idx := PickIndex(|pool|, ds[0]);
      [pool[idx]] + Picks(Spliced(pool, idx), ds[1..])
  }

  predicate Distinct(s: seq<Coord>)
  {
    forall a, b :: 0 <= a < b < |s| ==> s[a] != s[b]
  }

  /** A cell occurs at most once in a sequence without repeats. */
  lemma {:induction false} DistinctCount(s: seq<Coord>, c: Coord)
    requires Distinct(s)
    ensures multiset(s)[c] <= 1
  {
    if s != [] {
      var init := s[..|s| - 1];
      assert s == init + [s[|s| - 1]];
      DistinctCount(init, c);
      if s[|s| - 1] == c {
        assert c !in init;
      }
    }
  }

  /** A cell at two positions of a sequence occurs there at least twice. */
  lemma DupCount(s: seq<Coord>, a: int, b: int)
    requires 0 <= a < b < |s| && s[a] == s[b]
    ensures multiset(s)[s[a]] >= 2
  {
    assert s == s[..b] + s[b..];
    assert s[a] in s[..b] && s[b] in s[b..];
  }

  /** No cell of a pool without repeats is picked twice. */
  lemma PicksDistinct(pool: seq<Coord>, ds: seq<real>)
    requires |ds| <= |pool| && Draws(ds) && Distinct(pool)
    ensures Distinct(Picks(pool, ds))
  {
    var r := Picks(pool, ds);
    forall a, b | 0 <= a < b < |r|
      ensures r[a] != r[b]
    {
      if r[a] == r[b] {
        DupCount(r, a, b);
        DistinctCount(pool, r[a]);
        assert false;
      }
    }
  }

  /** One growth under test of t above each cell of cells, in order. */
  function GrowAll(ws: WorldState, test: Test, t: BlockType, cells: seq<Coord>): (r: WorldState)
    requires WorldOk(ws) && Counted(t)
    ensures WorldOk(r) && r.g == ws.g && r.resources == ws.resources && |r.chunks| == |ws.chunks|
  {
    if cells == [] then ws
    else Grown(GrowAll(ws, test, t, cells[..|cells| - 1]), test, t, cells[|cells| - 1])
  }

  /**
   * Chunk m's list before, extended by cells whose index names chunk m and
   * which, under the corrected test, lie in the grid.
   */
  predicate Extends(g: Geometry, test: Test, m: int, before: seq<Coord>, after: seq<Coord>)
    requires g.Valid()
  {
    |before| <= |after| && after[..|before|] == before
    && forall n :: |before| <= n < |after| ==> Lands(g, test, m, after[n])
  }

  /** A cell growth may add to chunk m's list: its index names chunk m, and under the corrected test it lies in the grid. */
  predicate Lands(g: Geometry, test: Test, m: int, x: Coord)
    requires g.Valid()
  {
    ChunkIndex(g, x) == m && (test == WithBounds ==> InBounds(g, x))
  }

  lemma ExtendsSnoc(g: Geometry, test: Test, m: int, a: seq<Coord>, x: Coord)
    requires g.Valid() && Lands(g, test, m, x)
    ensures Extends(g, test, m, a, a + [x])
  {
    assert (a + [x])[..|a|] == a;
  }

  lemma ExtendsTrans(g: Geometry, test: Test, m: int, a: seq<Coord>, b: seq<Coord>, c: seq<Coord>)
    requires g.Valid() && Extends(g, test, m, a, b) && Extends(g, test, m, b, c)
    ensures Extends(g, test, m, a, c)
  {
    assert c[..|a|] == c[..|b|][..|a|];
  }

  lemma ExtendsRefl(g: Geometry, test: Test, m: int, a: seq<Coord>)
    requires g.Valid()
    ensures Extends(g, test, m, a, a)
  {
    assert a[..|a|] == a;
  }

  /** Without grass, with the cell above refused, or with none of t in the ledger, growth changes nothing. */
  lemma GrownUnchanged(ws: WorldState, test: Test, t: BlockType, c: Coord)
    requires WorldOk(ws) && Counted(t)
    requires !HasGrass(ws.chunks) || Refuses(ws, test, Above(c)) || Get(ws.resources, t) <= 0
    ensures Grown(ws, test, t, c) == ws
  {
    if HasGrass(ws.chunks) {
      GrowStepUnchanged(ws, test, t, Above(c));
    }
  }

  /**
   * One growth is either no change, or the cell above added to the list of t
   * of the chunk its index names and that chunk finalized; under the
   * corrected test that cell lies in the grid.
   */
  lemma GrownShape(ws: WorldState, test: Test, t: BlockType, c: Coord)
    requires WorldOk(ws) && Counted(t)
    ensures Grown(ws, test, t, c) == ws
            || (0 <= ChunkIndex(ws.g, Above(c)) < |ws.chunks| && (test == WithBounds ==> InBounds(ws.g, Above(c)))
                && Grown(ws, test, t, c) == WithChunk(ws, ChunkIndex(ws.g, Above(c)), Finalized(Added(ws.chunks[ChunkIndex(ws.g, Above(c))], Above(c), t))))
  {
    if !HasGrass(ws.chunks) || Refuses(ws, test, Above(c)) || Get(ws.resources, t) <= 0 {
      GrownUnchanged(ws, test, t, c);
    } else {
      FreeInRange(ws, test, Above(c));
    }
  }

  /** One growth leaves every list of a type other than t as it was. */
  lemma GrownOthers(ws: WorldState, test: Test, t: BlockType, c: Coord)
    requires WorldOk(ws) && Counted(t)
    ensures forall m, u :: 0 <= m < |ws.chunks| && u != t ==> CellsOf(Grown(ws, test, t, c).chunks[m], u) == CellsOf(ws.chunks[m], u)
  {
    GrownShape(ws, test, t, c);
    if Grown(ws, test, t, c) != ws {
      AddFinalizeChunk(ws.chunks[ChunkIndex(ws.g, Above(c))], Above(c), t);
    }
  }

  /** One growth extends each chunk's list of t by cells its index names, in-grid ones under the corrected test. */
  lemma GrownExtends(ws: WorldState, test: Test, t: BlockType, c: Coord, m: int)
    requires WorldOk(ws) && Counted(t) && 0 <= m < |ws.chunks|
    ensures Extends(ws.g, test, m, CellsOf(ws.chunks[m], t), CellsOf(Grown(ws, test, t, c).chunks[m], t))
  {
    if !HasGrass(ws.chunks) || Refuses(ws, test, Above(c)) || Get(ws.resources, t) <= 0 {
      GrownUnchanged(ws, test, t, c);
      ExtendsRefl(ws.g, test, m, CellsOf(ws.chunks[m], t));
    } else {
      PlacedExtends(ws, test, t, Above(c), m);
    }
  }

  /** A pass that builds extends each chunk's list of t as GrownExtends says. */
  lemma PlacedExtends(ws: WorldState, test: Test, t: BlockType, above: Coord, m: int)
    requires WorldOk(ws) && Counted(t) && 0 <= m < |ws.chunks|
    requires !Refuses(ws, test, above) && Get(ws.resources, t) > 0
    ensures Extends(ws.g, test, m, CellsOf(ws.chunks[m], t), CellsOf(GrowStep(ws, test, t, above).chunks[m], t))
  {
    var a := CellsOf(ws.chunks[m], t);
    GrowStepPlaced(ws, test, t, above);
    if m == ChunkIndex(ws.g, above) {
      ExtendsSnoc(ws.g, test, m, a, above);
    } else {
      ExtendsRefl(ws.g, test, m, a);
    }
  }

  /** One growth adds at most one to t's total. */
  lemma GrownTotal(ws: WorldState, test: Test, t: BlockType, c: Coord)
    requires WorldOk(ws) && Counted(t)
    ensures Total(Grown(ws, test, t, c).chunks, t) <= Total(ws.chunks, t) + 1
  {
    GrownShape(ws, test, t, c);
    if Grown(ws, test, t, c) != ws {
      AddFinalize(ws, ChunkIndex(ws.g, Above(c)), Above(c), t);
    }
  }

  /**
   * Growing t above a series of cells touches nothing but the lists of t,
   * which are only extended, each by cells whose index names that chunk and,
   * under the corrected test, lie in the grid, at most one per cell grown
   * over; the ledger is untouched.
   */
  lemma {:induction false} GrowAllEffect(ws: WorldState, test: Test, t: BlockType, cells: seq<Coord>)
    requires WorldOk(ws) && Counted(t)
    ensures var r := GrowAll(ws, test, t, cells);
            (forall m, u :: 0 <= m < |ws.chunks| && u != t ==> CellsOf(r.chunks[m], u) == CellsOf(ws.chunks[m], u))
            && (forall m :: 0 <= m < |ws.chunks| ==> Extends(ws.g, test, m, CellsOf(ws.chunks[m], t), CellsOf(r.chunks[m], t)))
            && Total(r.chunks, t) <= Total(ws.chunks, t) + |cells|
  {
    if cells != [] {
      var init := cells[..|cells| - 1];
      var mid := GrowAll(ws, test, t, init);
      GrowAllEffect(ws, test, t, init);
      GrownOthers(mid, test, t, cells[|cells| - 1]);
      GrownTotal(mid, test, t, cells[|cells| - 1]);
      var r := GrowAll(ws, test, t, cells);
      assert r == Grown(mid, test, t, cells[|cells| - 1]);
      forall m | 0 <= m < |ws.chunks|
        ensures Extends(ws.g, test, m, CellsOf(ws.chunks[m], t), CellsOf(r.chunks[m], t))
      {
        GrownExtends(mid, test, t, cells[|cells| - 1], m);
        ExtendsTrans(ws.g, test, m, CellsOf(ws.chunks[m], t), CellsOf(mid.chunks[m], t), CellsOf(r.chunks[m], t));
      }
    }
  }

  /** Under the corrected test, growing over any series of cells keeps every listed cell in the grid. */
  lemma {:induction false} GrowAllInGrid(ws: WorldState, t: BlockType, cells: seq<Coord>)
    requires WorldOk(ws) && Counted(t) && AllInGrid(ws)
    ensures AllInGrid(GrowAll(ws, WithBounds, t, cells))
  {
    if cells != [] {
      var init := cells[..|cells| - 1];
      GrowAllInGrid(ws, t, init);
      var mid := GrowAll(ws, WithBounds, t, init);
      if HasGrass(mid.chunks) {
        GrowStepInGrid(mid, t, Above(cells[|cells| - 1]));
      }
    }
  }

  /** The first pick of a non-empty series of draws, and the picks after it from the spliced pool. */
  lemma PicksFirst(pool: seq<Coord>, ds: seq<real>)
    requires 0 < |ds| <= |pool| && Draws(ds)
    ensures var idx := PickIndex(|pool|, ds[0]);
            Draws(ds[1..]) && Picks(pool, ds) == [pool[idx]] + Picks(Spliced(pool, idx), ds[1..])
  {
  }

  /** The picks still to come, after one more is made. */
  lemma PicksStep(whole: seq<Coord>, picked: seq<Coord>, left: seq<Coord>, rest: seq<real>)
    requires 0 < |rest| <= |left| && Draws(rest) && whole == picked + Picks(left, rest)
    ensures var idx := PickIndex(|left|, rest[0]);
            Draws(rest[1..]) && |Spliced(left, idx)| == |left| - 1
            && whole == (picked + [left[idx]]) + Picks(Spliced(left, idx), rest[1..])
  {
    var idx := PickIndex(|left|, rest[0]);
    PicksFirst(left, rest);
    var tail := Picks(Spliced(left, idx), rest[1..]);
    assert picked + ([left[idx]] + tail) == (picked + [left[idx]]) + tail;
  }

  /** Step 3 of tick: for each draw, a cell spliced out of the pool and hay grown above it under test. */
  method GrowPicks(w: World, test: Test, pool: seq<Coord>, ds: seq<real>)
    requires w.Valid() && |ds| <= |pool| && Draws(ds)
    modifies w, w.chunks
    ensures w.Valid() && w.State() == GrowAll(old(w.State()), test, Hay, Picks(pool, ds))
  {
    ghost var s0 := w.State();
    var allGrass := pool;
    var rest := ds;
    ghost var picked: seq<Coord> := [];
    var n := 0;
    while n < |ds|
      invariant 0 <= n <= |ds| && |rest| == |ds| - n && |allGrass| == |pool| - n && Draws(rest)
      invariant Picks(pool, ds) == picked + Picks(allGrass, rest)
      invariant w.Valid() && w.State() == GrowAll(s0, test, Hay, picked)
    {
      var idx := PickIndex(|allGrass|, rest[0]);
      var cell := allGrass[idx];
      PicksStep(Picks(pool, ds), picked, allGrass, rest);
      allGrass := Spliced(allGrass, idx);
      rest := rest[1..];
      GrowSingleOverGrass(w, test, Hay, cell);
      GrowAllSnoc(s0, test, Hay, picked, cell);
      picked := picked + [cell];
      n := n + 1;
    }
    assert rest == [] && picked == Picks(pool, ds);
  }

  /** GrowAll over one more cell is one more growth. */
  lemma GrowAllSnoc(ws: WorldState, test: Test, t: BlockType, cells: seq<Coord>, c: Coord)
    requires WorldOk(ws) && Counted(t)
    ensures GrowAll(ws, test, t, cells + [c]) == Grown(GrowAll(ws, test, t, cells), test, t, c)
  {
    assert (cells + [c])[..|cells|] == cells;
  }

  /**
   * One tick of randomHayGrowth: the grass cells flattened, pickCount chosen
   * from the first draw, then pickCount cells spliced out of the array with
   * the next draws, hay grown above each under test (the source's tick is
   * test AsWritten).
   */
  method Tick(w: World, test: Test, countDraw: real, ds: seq<real>)
    requires w.Valid() && 0.0 <= countDraw < 1.0 && Draws(ds)
    requires |ds| >= PickCount(|AllGrass(w.State().chunks)|, countDraw)
    modifies w, w.chunks
    ensures var pool := AllGrass(old(w.State()).chunks);
            w.Valid() && w.State() == GrowAll(old(w.State()), test, Hay, Picks(pool, ds[..PickCount(|pool|, countDraw)]))
  {
    var allGrass := FlattenGrass(w);
    var pickCount := PickCount(|allGrass|, countDraw);
    GrowPicks(w, test, allGrass, ds[..pickCount]);
  }
}
