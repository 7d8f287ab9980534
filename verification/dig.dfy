/**
 * Digging: the dig button, the hover preview and destroyBlock, which finds
 * the first non-air hit, refuses when the world total of its type is at or
 * below the type's floor, and otherwise removes the instance from its chunk
 * and credits the ledger with the type's yield.
 */
module Dig {
  import opened Blocks
  import opened Chunks
  import opened Worlds
  import opened Modes
  import opened Hits

  /** allowIf.minRemainingBlocks || 1: a missing or zero floor reads as 1, any other value (negative ones too) as itself. */
  function Floor(rule: DigRule): int
  {
    match rule.minRemainingBlocks
    case None => 1
    case Some(v) => if v == 0 then 1 else v
  }

  /** yield[type] || 1: a missing or zero yield reads as 1. */
  function Yield(rule: DigRule, t: BlockType): int
  {
    if t in rule.grants && rule.grants[t] != 0 then rule.grants[t] else 1
  }

  /** The floor destroyBlock applies to a counted type: 2 for stone, soil and grass, -1 for wood, leaves and hay. */
  function DigFloor(t: BlockType): int
    requires Counted(t)
  {
    if t in {Stone, Soil, Grass} then 2 else -1
  }

  /** The ledger credit for digging one block of a counted type. */
  function DigYield(t: BlockType): int
    requires Counted(t)
  {
    1
  }

  /**
   * DigFloor and DigYield are what the rule table gives through the
   * `|| 1` fallbacks; the floor is negative exactly for wood, leaves and hay.
   */
  lemma RuleValues(t: BlockType)
    requires Counted(t)
    ensures t in CountedTypes
    ensures DigFloor(t) == Floor(DigRuleOf(t))
    ensures DigYield(t) == Yield(DigRuleOf(t), t)
    ensures DigFloor(t) < 0 <==> t in {Wood, Leaves, Hay}
  {
    TypeSets(t);
  }

  /** hits.find(h => tileType !== 'air'), as an index. */
  function FirstSolid(hits: seq<Hit>): (r: Option<int>)
    ensures r.None? <==> forall n :: 0 <= n < |hits| ==> hits[n].tileType == Air
    ensures r.Some? ==> 0 <= r.value < |hits| && hits[r.value].tileType != Air
    ensures r.Some? ==> forall n :: 0 <= n < r.value ==> hits[n].tileType == Air
  {
    if hits == [] then None
    else if hits[0].tileType != Air then Some(0)
    else
      match FirstSolid(hits[1..])
      case None => None
      case Some(n) => Some(n + 1)
  }

  /** The dig of a type is refused when the world total of that type is at or below its floor. */
  predicate Refused(ws: WorldState, t: BlockType)
    requires Counted(t)
  {
    Total(ws.chunks, t) <= DigFloor(t)
  }

  /** The hit a dig acts on has a counted type and a slot below its chunk's count of that type. */
  lemma SolidHit(ws: WorldState, h: Hit)
    requires WorldOk(ws) && HitOk(ws, h) && h.tileType != Air
    ensures Counted(h.tileType) && 0 <= h.slot < ws.chunks[h.chunk].counts[h.tileType]
  {
    assert TablesOk(ws.chunks[h.chunk]);
  }

  /** The world after a dig that passes the floor: the instance removed, the yield credited. */
  function Removal(ws: WorldState, h: Hit): WorldState
    requires WorldOk(ws) && HitOk(ws, h) && h.tileType != Air
  {
    SolidHit(ws, h);
    var t := h.tileType;
    ws.(chunks := ws.chunks[h.chunk := Removed(ws.chunks[h.chunk], t, h.slot)],
        resources := Credit(ws.resources, t))
  }

  /** The ledger after a dig of t: the yield added to t's entry, the other entries kept. */
  function Credit(res: map<BlockType, int>, t: BlockType): (r: map<BlockType, int>)
    requires Counted(t)
    ensures Get(r, t) == Get(res, t) + DigYield(t)
    ensures forall u :: u != t ==> Get(r, u) == Get(res, u)
  {
    res[t := Get(res, t) + DigYield(t)]
  }

  /** Removal field by field. */
  lemma RemovalFields(ws: WorldState, h: Hit)
    requires WorldOk(ws) && HitOk(ws, h) && h.tileType != Air
    ensures Counted(h.tileType) && 0 <= h.slot < ws.chunks[h.chunk].counts[h.tileType]
    ensures Removal(ws, h) == WorldState(ws.g, ws.chunks[h.chunk := Removed(ws.chunks[h.chunk], h.tileType, h.slot)],
                                         Credit(ws.resources, h.tileType))
  {
    SolidHit(ws, h);
  }

  /** destroyBlock on the world value. */
  function Dug(ws: WorldState, hits: seq<Hit>): WorldState
    requires WorldOk(ws) && HitsOk(ws, hits)
  {
    match FirstSolid(hits)
    case None => ws
    case Some(n) =>
      SolidHit(ws, hits[n]);
      if Refused(ws, hits[n].tileType) then ws else Removal(ws, hits[n])
  }

  /** With a solid hit, destroyBlock is either refused or the removal of that hit. */
  lemma DugAt(ws: WorldState, hits: seq<Hit>, n: int)
    requires WorldOk(ws) && HitsOk(ws, hits) && FirstSolid(hits) == Some(n)
    ensures Counted(hits[n].tileType) && HitOk(ws, hits[n])
    ensures Dug(ws, hits) == if Refused(ws, hits[n].tileType) then ws else Removal(ws, hits[n])
  {
    SolidHit(ws, hits[n]);
  }

  /** A dig with no solid hit, or one whose type is at its floor, changes nothing. */
  lemma DugNothing(ws: WorldState, hits: seq<Hit>)
    requires WorldOk(ws) && HitsOk(ws, hits)
    requires FirstSolid(hits).None? || Refused(ws, hits[FirstSolid(hits).value].tileType)
    ensures Dug(ws, hits) == ws
  {
  }

  /** Removing slot idx of a counted type keeps the chunk well-formed and drops exactly that entry of that list. */
  lemma RemovedChunk(cs: ChunkState, t: BlockType, idx: int)
    requires TablesOk(cs) && Counted(t) && 0 <= idx < cs.counts[t]
    ensures var r := Removed(cs, t, idx);
            TablesOk(r) && r.origin == cs.origin
            && multiset(CellsOf(r, t)) == multiset(CellsOf(cs, t)) - multiset{CellsOf(cs, t)[idx]}
            && |CellsOf(r, t)| == |CellsOf(cs, t)| - 1
            && (forall u :: u != t ==> CellsOf(r, u) == CellsOf(cs, u))
            && Get(r.counts, t) == Get(cs.counts, t) - 1
  {
    RemovedSpec(cs, t, idx);
    RemovedMultiset(cs, t, idx);
  }

  /** The chunk half of a removal: the hit's chunk loses exactly the hit instance, other chunks are kept. */
  lemma RemovalChunks(ws: WorldState, h: Hit)
    requires WorldOk(ws) && HitOk(ws, h) && h.tileType != Air
    ensures var t := h.tileType;
            var r := Removal(ws, h);
            WorldOk(r) && |r.chunks| == |ws.chunks|
            && multiset(CellsOf(r.chunks[h.chunk], t)) == multiset(CellsOf(ws.chunks[h.chunk], t)) - multiset{HitCell(ws, h)}
            && |CellsOf(r.chunks[h.chunk], t)| == |CellsOf(ws.chunks[h.chunk], t)| - 1
            && (forall u :: u != t ==> CellsOf(r.chunks[h.chunk], u) == CellsOf(ws.chunks[h.chunk], u))
            && (forall m :: 0 <= m < |ws.chunks| && m != h.chunk ==> r.chunks[m] == ws.chunks[m])
  {
    SolidHit(ws, h);
    var removed := Removed(ws.chunks[h.chunk], h.tileType, h.slot);
    RemovedChunk(ws.chunks[h.chunk], h.tileType, h.slot);
    RemovalFields(ws, h);
    WithChunkOk(ws, h.chunk, removed);
  }

  /**
   * A dig that passes the floor takes the hit instance, and only it, out of
   * its chunk's list (as a multiset; the last entry moves into its slot),
   * lowers the world total of the type by one, credits the ledger with one
   * block of that type and leaves every other list, chunk and ledger entry
   * alone; the world stays well-formed.
   */
  lemma RemovalEffect(ws: WorldState, h: Hit)
    requires WorldOk(ws) && HitOk(ws, h) && h.tileType != Air
    ensures var t := h.tileType;
            var r := Removal(ws, h);
            WorldOk(r) && |r.chunks| == |ws.chunks|
            && multiset(CellsOf(r.chunks[h.chunk], t)) == multiset(CellsOf(ws.chunks[h.chunk], t)) - multiset{HitCell(ws, h)}
            && |CellsOf(r.chunks[h.chunk], t)| == |CellsOf(ws.chunks[h.chunk], t)| - 1
            && (forall u :: u != t ==> CellsOf(r.chunks[h.chunk], u) == CellsOf(ws.chunks[h.chunk], u))
            && (forall m :: 0 <= m < |ws.chunks| && m != h.chunk ==> r.chunks[m] == ws.chunks[m])
            && Total(r.chunks, t) == Total(ws.chunks, t) - 1
            && Get(r.resources, t) == Get(ws.resources, t) + 1
            && (forall u :: u != t ==> Get(r.resources, u) == Get(ws.resources, u))
  {
    SolidHit(ws, h);
    var t := h.tileType;
    var removed := Removed(ws.chunks[h.chunk], t, h.slot);
    RemovalChunks(ws, h);
    RemovedChunk(ws.chunks[h.chunk], t, h.slot);
    RemovalFields(ws, h);
    TotalUpdate(ws.chunks, h.chunk, removed, t);
  }

  /** A dig never takes a type below its floor: a total at or above the floor stays there, for every type. */
  lemma DugKeepsFloor(ws: WorldState, hits: seq<Hit>, u: BlockType)
    requires WorldOk(ws) && HitsOk(ws, hits) && Counted(u)
    ensures Total(Dug(ws, hits).chunks, u) >= if Total(ws.chunks, u) < DigFloor(u) then Total(ws.chunks, u) else DigFloor(u)
  {
    if FirstSolid(hits).Some? {
      var h := hits[FirstSolid(hits).value];
      SolidHit(ws, h);
      if !Refused(ws, h.tileType) {
        RemovalEffect(ws, h);
        if u != h.tileType {
          var cs := ws.chunks[h.chunk];
          RemovedSpec(cs, h.tileType, h.slot);
          TotalUpdate(ws.chunks, h.chunk, Removed(cs, h.tileType, h.slot), u);
        }
      }
    }
  }

  /** Wood, leaves and hay have a negative floor: a solid hit of those types is always dug, down to the last block. */
  lemma NegativeFloorNeverRefuses(ws: WorldState, hits: seq<Hit>)
    requires WorldOk(ws) && HitsOk(ws, hits) && FirstSolid(hits).Some?
    requires hits[FirstSolid(hits).value].tileType in {Wood, Leaves, Hay}
    ensures var t := hits[FirstSolid(hits).value].tileType;
            Total(Dug(ws, hits).chunks, t) == Total(ws.chunks, t) - 1
  {
    var h := hits[FirstSolid(hits).value];
    RuleValues(h.tileType);
    TotalNonNegative(ws.chunks, h.tileType);
    RemovalEffect(ws, h);
  }

  /** The outcome of the dig pointermove handler. */
  datatype Hover = NoHit | Throws | Show(tool: Tool, canDig: bool)

  /**
   * The dig preview looks at the first hit, air included; air has no dig
   * rule, so reading it throws. Otherwise the cursor shows the rule's tool
   * and the highlight shows whether the total is above the floor.
   */
  function HoverDig(ws: WorldState, hits: seq<Hit>): (r: Hover)
    requires HitsOk(ws, hits)
    ensures r.NoHit? <==> hits == []
    ensures r.Throws? <==> hits != [] && hits[0].tileType == Air
    ensures r.Show? ==> Counted(hits[0].tileType) && (r.canDig <==> !Refused(ws, hits[0].tileType))
  {
    if hits == [] then NoHit
    else if hits[0].tileType == Air then Throws
    else
      assert HitOk(ws, hits[0]);
      TypeSets(hits[0].tileType);
      Show(DigRuleOf(hits[0].tileType).tool, Total(ws.chunks, hits[0].tileType) > DigFloor(hits[0].tileType))
  }

  /** When the first hit is solid the preview is truthful: it allows the dig exactly when a click would change the world. */
  lemma HoverMatchesDig(ws: WorldState, hits: seq<Hit>)
    requires WorldOk(ws) && HitsOk(ws, hits) && hits != [] && hits[0].tileType != Air
    ensures HoverDig(ws, hits).Show?
    ensures HoverDig(ws, hits).canDig <==> Dug(ws, hits) != ws
  {
    assert FirstSolid(hits) == Some(0);
    SolidHit(ws, hits[0]);
    if !Refused(ws, hits[0].tileType) {
      RemovalEffect(ws, hits[0]);
    }
  }

  /** Total over a prefix grows by the next chunk's count; over the whole length it is the total. */
  lemma TotalSnoc(cs: seq<ChunkState>, n: int, t: BlockType)
    requires 0 <= n <= |cs|
    ensures n < |cs| ==> Total(cs[..n + 1], t) == Total(cs[..n], t) + Get(cs[n].counts, t)
    ensures n == |cs| ==> Total(cs[..n], t) == Total(cs, t)
  {
    if n < |cs| {
      assert cs[..n + 1][..n] == cs[..n];
    } else {
      assert cs[..n] == cs;
    }
  }

  /** chunks.reduce((sum, c) => sum + c.counts[type], 0) */
  method TotalOf(w: World, t: BlockType) returns (total: int)
    requires w.Valid() && Counted(t)
    ensures total == Total(w.State().chunks, t)
  {
    ghost var cs := w.State().chunks;
    total := 0;
    var n := 0;
    while n < |w.chunks|
      invariant 0 <= n <= |w.chunks|
      invariant total == Total(cs[..n], t)
    {
      w.ChunkValid(n);
      TotalSnoc(cs, n, t);
      total := total + w.chunks[n].counts[t];
      n := n + 1;
    }
    TotalSnoc(cs, n, t);
  }

  /** The find over the hits for the first one that is not air. */
  method FindSolid(hits: seq<Hit>) returns (r: Option<int>)
    ensures r == FirstSolid(hits)
  {
    var n := 0;
    while n < |hits|
      invariant 0 <= n <= |hits|
      invariant forall m :: 0 <= m < n ==> hits[m].tileType == Air
    {
      if hits[n].tileType != Air {
        return Some(n);
      }
      n := n + 1;
    }
    return None;
  }

  lemma FirstSolidUnique(hits: seq<Hit>, n: int)
    requires 0 <= n < |hits| && hits[n].tileType != Air
    requires forall m :: 0 <= m < n ==> hits[m].tileType == Air
    ensures FirstSolid(hits) == Some(n)
  {
  }

  /** destroyBlock: the first solid hit, the floor test, removeInstance, the ledger credit. */
  method DestroyBlock(w: World, hits: seq<Hit>)
    requires w.Valid() && HitsOk(w.State(), hits)
    modifies w, w.chunks
    ensures w.Valid() && w.State() == Dug(old(w.State()), hits)
  {
    var found := FindSolid(hits);
    if found == None {
      DugNothing(w.State(), hits);
      return;
    }
    var h := hits[found.value];
    assert HitOk(w.State(), h);
    SolidHit(w.State(), h);
    var t := h.tileType;
    var total := TotalOf(w, t);
    if total <= DigFloor(t) {
      DugAt(w.State(), hits, found.value);
      return;
    }
    ghost var s0 := w.State();
    DugAt(s0, hits, found.value);
    RemovalFields(s0, h);
    w.RemoveAt(h.chunk, t, h.slot);
    assert w.resources == s0.resources;
    var credited := Credit(w.resources, t);
    w.SetResources(credited);
  }

  /** The pointerdown handler: destroyBlock in dig mode, nothing otherwise. */
  method OnPointerDown(w: World, modes: ModeState, hits: seq<Hit>)
    requires w.Valid() && HitsOk(w.State(), hits)
    modifies w, w.chunks
    ensures w.Valid()
    ensures w.State() == if modes.digging then Dug(old(w.State()), hits) else old(w.State())
  {
    if !modes.digging {
      return;
    }
    DestroyBlock(w, hits);
  }

  /** The dig button as written: resetModes clears digging, so the flip that follows always turns it on. */
  function DigButtonAsWritten(f: Flags): (r: Flags)
    ensures r == Flags(true, false, false)
  {
    var cleared := Cleared;
    cleared.(digging := !cleared.digging)
  }

  /** Pressing the dig button while digging leaves dig mode on: the button never turns it off. */
  lemma DigButtonNeverLeaves(f: Flags)
    ensures DigButtonAsWritten(f) == Flags(true, false, false)
    ensures f.digging ==> DigButtonAsWritten(f).digging
  {
  }

  /** The dig button as evidently intended: the other modes cleared, digging flipped from its value before the press. */
  function DigToggled(f: Flags): Flags
  {
    Flags(!f.digging, false, false)
  }

  /** The toggle flips dig mode, leaves at most one mode on, and two presses from a cleared state come back to it. */
  lemma DigToggleSpec(f: Flags)
    ensures DigToggled(f).digging != f.digging
    ensures AtMostOne(DigToggled(f))
    ensures !f.digging ==> DigToggled(DigToggled(f)) == Cleared
  {
  }

  /** The dig button's click, with the flip taken from the flag's value before resetModes. */
  method OnDigButton(modes: ModeState)
    modifies modes
    ensures modes.Value() == DigToggled(old(modes.Value()))
  {
    var wasDigging := modes.digging;
    modes.ResetModes();
    modes.digging := !wasDigging;
  }
}
