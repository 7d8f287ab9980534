/**
 * One chunk of the world: per block type a live instance count and a dense
 * list of the cells drawn by that type's instanced mesh, plus the count each
 * mesh currently publishes to the renderer.
 *
 * ChunkState is the value of a chunk; Added, Removed and Finalized are the
 * specifications of addBlock, removeInstance and finalize, and the Chunk
 * class below updates its fields in place and is proved against them.
 */
module Chunks {
  import opened Blocks
  import opened Grid

  /**
   * counts has a key for every counted type (air never gets one: the
   * `counts[air]` of the source is undefined); coords has a key for every
   * mesh type; published is each mesh's `count` (a missing key is undefined).
   */
  datatype ChunkState = ChunkState(
    origin: Coord,
    counts: map<BlockType, int>,
    coords: map<BlockType, seq<Coord>>,
    published: map<BlockType, int>)

  /** The length/count invariant: one live count per counted type, equal to the length of its list. */
  predicate TablesOk(cs: ChunkState)
  {
    (forall t :: t in cs.coords <==> HasMesh(t))
    && (forall t :: t in cs.counts <==> Counted(t))
    && (forall t :: t in cs.published ==> HasMesh(t))
    && forall t :: Counted(t) ==> cs.counts[t] == |cs.coords[t]|
  }

  /** A fresh chunk: empty lists, zero counts, and every mesh publishing its full capacity. */
  function Initial(g: Geometry, p: ChunkPos): ChunkState
  {
    ChunkState(
      Origin(g, p),
      map t | Counted(t) :: 0,
      map t | HasMesh(t) :: [],
      map t | HasMesh(t) :: g.MaxInstances())
  }

  /** The cells of chunk state cs drawn as type t (none for a type without a mesh). */
  function CellsOf(cs: ChunkState, t: BlockType): seq<Coord>
  {
    if t in cs.coords then cs.coords[t] else []
  }

  /**
   * addBlock(i, j, k, t): a type without a mesh changes nothing; otherwise the
   * cell is appended to t's list and t's count (if it has one) goes up by one.
   */
  function Added(cs: ChunkState, c: Coord, t: BlockType): ChunkState
  {
    if t !in cs.coords then cs
    else
      cs.(coords := cs.coords[t := cs.coords[t] + [c]],
          counts := if t in cs.counts then cs.counts[t := cs.counts[t] + 1] else cs.counts)
  }

  /**
   * removeInstance(t, idx): the last entry overwrites slot idx (unless idx is
   * the last), the list is popped, the count goes down by one and the mesh
   * publishes the new count.
   */
  function Removed(cs: ChunkState, t: BlockType, idx: int): ChunkState
    requires TablesOk(cs) && Counted(t) && 0 <= idx < cs.counts[t]
  {
    var last := cs.counts[t] - 1;
    var l := cs.coords[t];
    var swapped := if idx != last then l[idx := l[last]] else l;
    cs.(coords := cs.coords[t := swapped[..last]],
        counts := cs.counts[t := last],
        published := cs.published[t := last])
  }

  /** finalize: every mesh publishes its type's count (air's is undefined, so its key is dropped). */
  function Finalized(cs: ChunkState): ChunkState
  {
    cs.(published := map t | t in cs.counts :: cs.counts[t])
  }

  /** A fresh chunk satisfies the length/count invariant and is empty. */
  lemma InitialTables(g: Geometry, p: ChunkPos)
    ensures TablesOk(Initial(g, p))
    ensures forall t :: HasMesh(t) ==> CellsOf(Initial(g, p), t) == []
    ensures Initial(g, p).origin == Coord(p.cx * g.chunkX, p.cy * g.chunkY, p.cz * g.chunkZ)
  {
  }

  /**
   * addBlock uses slot counts[t] (the old count), appends the cell as the last
   * entry, grows the count by exactly one, keeps the invariant and leaves the
   * other types alone; a type without a mesh is a no-op.
   */
  lemma AddedSpec(cs: ChunkState, c: Coord, t: BlockType)
    requires TablesOk(cs)
    ensures TablesOk(Added(cs, c, t))
    ensures !HasMesh(t) ==> Added(cs, c, t) == cs
    ensures Counted(t) ==>
              Added(cs, c, t).counts[t] == cs.counts[t] + 1
              && |Added(cs, c, t).coords[t]| == cs.counts[t] + 1
              && Added(cs, c, t).coords[t][cs.counts[t]] == c
              && Added(cs, c, t).coords[t][..cs.counts[t]] == cs.coords[t]
    ensures HasMesh(t) ==> CellsOf(Added(cs, c, t), t) == CellsOf(cs, t) + [c]
    ensures HasMesh(t) ==> multiset(CellsOf(Added(cs, c, t), t)) == multiset(CellsOf(cs, t)) + multiset{c}
    ensures forall u :: u != t ==> CellsOf(Added(cs, c, t), u) == CellsOf(cs, u)
    ensures forall u :: u != t && Counted(u) ==> Added(cs, c, t).counts[u] == cs.counts[u]
    ensures Added(cs, c, t).published == cs.published && Added(cs, c, t).origin == cs.origin
  {
    if HasMesh(t) {
      var l := cs.coords[t];
      assert (l + [c])[..|l|] == l;
    }
  }

  /**
   * removeInstance keeps the invariant, shrinks t's list and count by one,
   * moves the entry from the last slot into idx, keeps every other slot below
   * the last, publishes the new count and touches no other type.
   */
  lemma RemovedSpec(cs: ChunkState, t: BlockType, idx: int)
    requires TablesOk(cs) && Counted(t) && 0 <= idx < cs.counts[t]
    ensures TablesOk(Removed(cs, t, idx))
    ensures Removed(cs, t, idx).counts[t] == cs.counts[t] - 1
    ensures |Removed(cs, t, idx).coords[t]| == cs.counts[t] - 1
    ensures idx < cs.counts[t] - 1 ==> Removed(cs, t, idx).coords[t][idx] == cs.coords[t][cs.counts[t] - 1]
    ensures forall n :: 0 <= n < cs.counts[t] - 1 && n != idx ==> Removed(cs, t, idx).coords[t][n] == cs.coords[t][n]
    ensures t in Removed(cs, t, idx).published && Removed(cs, t, idx).published[t] == Removed(cs, t, idx).counts[t]
    ensures forall u :: u != t ==> CellsOf(Removed(cs, t, idx), u) == CellsOf(cs, u)
    ensures forall u :: u != t && Counted(u) ==> Removed(cs, t, idx).counts[u] == cs.counts[u]
    ensures forall u :: u != t && u in cs.published ==> u in Removed(cs, t, idx).published && Removed(cs, t, idx).published[u] == cs.published[u]
    ensures Removed(cs, t, idx).origin == cs.origin
  {
  }

  /** Swap-removal drops exactly one occurrence: the old multiset minus the entry at idx. */
  lemma SwapRemoveMultiset(l: seq<Coord>, idx: int)
    requires 0 <= idx < |l|
    ensures var last := |l| - 1;
            multiset((if idx != last then l[idx := l[last]] else l)[..last]) == multiset(l) - multiset{l[idx]}
  {
    var last := |l| - 1;
    if idx == last {
      assert l == l[..last] + [l[last]];
    } else {
      var s := l[idx := l[last]];
      assert s[..last] == l[..idx] + [l[last]] + l[idx + 1..last];
      assert l == l[..idx] + [l[idx]] + l[idx + 1..last] + [l[last]];
    }
  }

  /** The multiset form of removeInstance on the chunk state. */
  lemma RemovedMultiset(cs: ChunkState, t: BlockType, idx: int)
    requires TablesOk(cs) && Counted(t) && 0 <= idx < cs.counts[t]
    ensures multiset(Removed(cs, t, idx).coords[t]) == multiset(cs.coords[t]) - multiset{cs.coords[t][idx]}
  {
    var l := cs.coords[t];
    var last := |l| - 1;
    assert Removed(cs, t, idx).coords[t] == (if idx != last then l[idx := l[last]] else l)[..last];
    SwapRemoveMultiset(l, idx);
  }

  /** Adding a cell and then removing the slot it was given restores the lists and counts. */
  lemma AddThenRemove(cs: ChunkState, c: Coord, t: BlockType)
    requires TablesOk(cs) && Counted(t)
    ensures TablesOk(Added(cs, c, t)) && cs.counts[t] < Added(cs, c, t).counts[t]
    ensures Removed(Added(cs, c, t), t, cs.counts[t]).coords == cs.coords
    ensures Removed(Added(cs, c, t), t, cs.counts[t]).counts == cs.counts
  {
    AddedSpec(cs, c, t);
    var l := cs.coords[t];
    assert (l + [c])[..|l|] == l;
    assert Removed(Added(cs, c, t), t, cs.counts[t]).coords[t] == l;
  }

  /** After finalize every counted type publishes exactly its live count; lists and counts are unchanged. */
  lemma FinalizedSpec(cs: ChunkState)
    requires TablesOk(cs)
    ensures TablesOk(Finalized(cs))
    ensures forall t :: t in Finalized(cs).published <==> Counted(t)
    ensures forall t :: Counted(t) ==> Finalized(cs).published[t] == |cs.coords[t]|
    ensures Finalized(cs).coords == cs.coords && Finalized(cs).counts == cs.counts
  {
  }

  /** The mesh types in the order of the rule table, the order finalize visits the meshes. */
  const MeshOrder: seq<BlockType> := [Stone, Wood, Leaves, Soil, Grass, Hay, Air]

  /** One step of finalize's loop: mesh t publishes counts[t], or an undefined count when t has none. */
  function PublishOne(published: map<BlockType, int>, counts: map<BlockType, int>, t: BlockType): map<BlockType, int>
  {
    if t in counts then published[t := counts[t]] else published - {t}
  }

  /** finalize's loop after visiting the meshes of ts in order. */
  function PublishAll(published: map<BlockType, int>, counts: map<BlockType, int>, ts: seq<BlockType>): map<BlockType, int>
  {
    if ts == [] then published
    else PublishOne(PublishAll(published, counts, ts[..|ts| - 1]), counts, ts[|ts| - 1])
  }

  /** Visited meshes publish their type's count (or nothing); unvisited ones keep their old count. */
  lemma {:induction false} PublishAllSpec(published: map<BlockType, int>, counts: map<BlockType, int>, ts: seq<BlockType>)
    ensures forall u :: u in ts ==> (u in PublishAll(published, counts, ts) <==> u in counts)
    ensures forall u :: u in ts && u in counts ==> PublishAll(published, counts, ts)[u] == counts[u]
    ensures forall u :: u !in ts ==> (u in PublishAll(published, counts, ts) <==> u in published)
    ensures forall u :: u !in ts && u in published ==> PublishAll(published, counts, ts)[u] == published[u]
  {
    if ts != [] {
      var init := ts[..|ts| - 1];
      PublishAllSpec(published, counts, init);
      assert ts == init + [ts[|ts| - 1]];
    }
  }

  /** Visiting every mesh type publishes exactly the live counts, provided no other type had a published count. */
  lemma PublishAllMeshes(published: map<BlockType, int>, counts: map<BlockType, int>)
    requires forall t :: t in published ==> HasMesh(t)
    requires forall t :: t in counts ==> HasMesh(t)
    ensures PublishAll(published, counts, MeshOrder) == map t | t in counts :: counts[t]
  {
    PublishAllSpec(published, counts, MeshOrder);
    assert forall t :: HasMesh(t) ==> t in MeshOrder;
  }

  class Chunk {
    const cx: int
    const cy: int
    const cz: int
    const origin: Coord
    var counts: map<BlockType, int>
    var instanceCoord: map<BlockType, seq<Coord>>
    var published: map<BlockType, int>

    function Value(): ChunkState
      reads this
    {
      ChunkState(origin, counts, instanceCoord, published)
    }

    predicate Valid()
      reads this
    {
      TablesOk(Value())
    }

    /** new Chunk(cx, cy, cz): origin from CHUNK_SIZE, one empty list per mesh, a zero count per counted type. */
    constructor(g: Geometry, cx: int, cy: int, cz: int)
      ensures this.cx == cx && this.cy == cy && this.cz == cz
      ensures Value() == Initial(g, ChunkPos(cx, cy, cz))
      ensures Valid()
    {
      this.cx, this.cy, this.cz := cx, cy, cz;
      origin := Origin(g, ChunkPos(cx, cy, cz));
      counts := map t | Counted(t) :: 0;
      instanceCoord := map t | HasMesh(t) :: [];
      published := map t | HasMesh(t) :: g.MaxInstances();
    }

    method AddBlock(c: Coord, t: BlockType)
      modifies this
      ensures Value() == Added(old(Value()), c, t)
    {
      if t !in instanceCoord {
        return;
      }
      if t in counts {
        counts := counts[t := counts[t] + 1];
      }
      instanceCoord := instanceCoord[t := instanceCoord[t] + [c]];
    }

    /** removeInstance(t, idx): the source does not guard idx, so a valid slot is the caller's duty. */
    method RemoveInstance(t: BlockType, idx: int)
      requires Valid() && Counted(t) && 0 <= idx < counts[t]
      modifies this
      ensures Value() == Removed(old(Value()), t, idx)
      ensures Valid()
    {
      RemovedSpec(Value(), t, idx);
      var last := counts[t] - 1;
      if idx != last {
        instanceCoord := instanceCoord[t := instanceCoord[t][idx := instanceCoord[t][last]]];
      }
      instanceCoord := instanceCoord[t := instanceCoord[t][..last]];
      counts := counts[t := last];
      published := published[t := counts[t]];
    }

    /** finalize: visit every mesh and publish its type's count. */
    method Finalize()
      requires Valid()
      modifies this
      ensures Value() == Finalized(old(Value()))
      ensures Valid()
    {
      var n := 0;
      while n < |MeshOrder|
        invariant 0 <= n <= |MeshOrder|
        invariant counts == old(counts) && instanceCoord == old(instanceCoord)
        invariant published == PublishAll(old(published), counts, MeshOrder[..n])
      {
        var t := MeshOrder[n];
        if t in counts {
          published := published[t := counts[t]];
        } else {
          published := published - {t};
        }
        assert MeshOrder[..n + 1][..n] == MeshOrder[..n];
        n := n + 1;
      }
      assert MeshOrder[..n] == MeshOrder;
      PublishAllMeshes(old(published), counts);
    }
  }
}
