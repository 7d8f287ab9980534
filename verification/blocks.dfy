/**
 * Block types, grid coordinates and the per-type rule table (blockConfigs)
 * with its reduction to blockObjects.
 */
module Blocks {

  datatype Option<T> = None | Some(value: T)

  /** Every block type the world knows; Tree is a placeable structure with no mesh of its own. */
  datatype BlockType = Stone | Wood | Leaves | Soil | Grass | Hay | Air | Tree

  /** A grid cell: i and j are horizontal, k is vertical (depth). */
  datatype Coord = Coord(i: int, j: int, k: int)

  /** The types that own an instanced mesh in every chunk (one per entry of the rule table). */
  const MeshTypes: set<BlockType> := {Stone, Wood, Leaves, Soil, Grass, Hay, Air}

  /** The mesh types that keep a live instance count; air never gets one. */
  const CountedTypes: set<BlockType> := {Stone, Wood, Leaves, Soil, Grass, Hay}

  /** Whether a type owns an instanced mesh (every type but Tree). */
  predicate HasMesh(t: BlockType)
  {
    t != Tree
  }

  /** Whether a type keeps a live instance count (every mesh type but Air). */
  predicate Counted(t: BlockType)
  {
    t != Tree && t != Air
  }

  lemma TypeSets(t: BlockType)
    ensures t in MeshTypes <==> HasMesh(t)
    ensures t in CountedTypes <==> Counted(t)
  {
  }

  /** A ledger or count lookup with JavaScript's `(m[t] || 0)` fallback. */
  function Get(m: map<BlockType, int>, t: BlockType): int
  {
    if t in m then m[t] else 0
  }

  datatype Tool = Pickaxe | Shovel | Scythe

  /** actions.dig: the tool, the yield per type (`yield` in the table) and the optional allowIf.minRemainingBlocks floor. */
  datatype DigRule = DigRule(tool: Tool, grants: map<BlockType, int>, minRemainingBlocks: Option<int>)

  datatype Actions = Actions(dig: DigRule)

  /** One entry of blockConfigs. */
  datatype BlockConfig = BlockConfig(
    tileType: BlockType,
    textures: seq<string>,
    initialOpacity: real,
    interactable: bool,
    actions: Option<Actions>)

  /** One value of blockObjects: the config without its type and textures. */
  datatype BlockObject = BlockObject(initialOpacity: real, interactable: bool, actions: Option<Actions>)

  function Rule(tool: Tool, t: BlockType, floor: int): Option<Actions>
  {
    Some(Actions(DigRule(tool, map[t := 1], Some(floor))))
  }

  const BlockConfigs: seq<BlockConfig> := [
    BlockConfig(Stone, ["stone.png"], 1.0, true, Rule(Pickaxe, Stone, 2)),
    BlockConfig(Wood, ["wood.png", "wood.png", "wood-xy.png"], 1.0, true, Rule(Pickaxe, Wood, -1)),
    BlockConfig(Leaves, ["leaves.png"], 1.0, true, Rule(Pickaxe, Leaves, -1)),
    BlockConfig(Soil, ["soil.png"], 1.0, true, Rule(Shovel, Soil, 2)),
    BlockConfig(Grass, ["grass.png", "soil.png", "grass-xy.png"], 1.0, true, Rule(Shovel, Grass, 2)),
    BlockConfig(Hay, ["hay.png"], 0.4, true, Rule(Scythe, Hay, -1)),
    BlockConfig(Air, ["air.png"], 0.01, false, None)
  ]

  function Strip(c: BlockConfig): BlockObject
  {
    BlockObject(c.initialOpacity, c.interactable, c.actions)
  }

  /** The `reduce` that builds blockObjects: each config overwrites the entry for its type. */
  function Collect(acc: map<BlockType, BlockObject>, configs: seq<BlockConfig>): map<BlockType, BlockObject>
    decreases |configs|
  {
    if configs == [] then acc
    else Collect(acc[configs[0].tileType := Strip(configs[0])], configs[1..])
  }

  function BlockObjects(): map<BlockType, BlockObject>
  {
    Collect(map[], BlockConfigs)
  }

  /** The types the configs name. */
  function TypesOf(configs: seq<BlockConfig>): set<BlockType>
  {
    if configs == [] then {} else {configs[0].tileType} + TypesOf(configs[1..])
  }

  predicate DistinctTypes(configs: seq<BlockConfig>)
  {
    forall a, b :: 0 <= a < b < |configs| ==> configs[a].tileType != configs[b].tileType
  }

  lemma {:induction false} TypesOfIndex(configs: seq<BlockConfig>, t: BlockType)
    ensures t in TypesOf(configs) <==> exists n :: 0 <= n < |configs| && configs[n].tileType == t
  {
    if configs != [] {
      TypesOfIndex(configs[1..], t);
      if t in TypesOf(configs[1..]) {
        var n :| 0 <= n < |configs| - 1 && configs[1..][n].tileType == t;
        assert configs[n + 1].tileType == t;
      }
      if exists n :: 0 <= n < |configs| && configs[n].tileType == t {
        var n :| 0 <= n < |configs| && configs[n].tileType == t;
        if n > 0 { assert configs[1..][n - 1].tileType == t; }
      }
    }
  }

  /**
   * With pairwise distinct types, the reduction has one key per config and
   * maps each config's type to that config minus its type and textures;
   * keys of the accumulator that no config names are kept.
   */
  lemma {:induction false} CollectEntries(acc: map<BlockType, BlockObject>, configs: seq<BlockConfig>)
    requires DistinctTypes(configs)
    ensures Collect(acc, configs).Keys == acc.Keys + TypesOf(configs)
    ensures forall n :: 0 <= n < |configs| ==>
              configs[n].tileType in Collect(acc, configs) && Collect(acc, configs)[configs[n].tileType] == Strip(configs[n])
    ensures forall t :: t in acc && t !in TypesOf(configs) ==> Collect(acc, configs)[t] == acc[t]
    decreases |configs|
  {
    if configs != [] {
      var acc' := acc[configs[0].tileType := Strip(configs[0])];
      var rest := configs[1..];
      assert DistinctTypes(rest) by {
        forall a, b | 0 <= a < b < |rest| ensures rest[a].tileType != rest[b].tileType {
          assert rest[a] == configs[a + 1] && rest[b] == configs[b + 1];
        }
      }
      CollectEntries(acc', rest);
      var r := Collect(acc, configs);
      assert r == Collect(acc', rest);
      assert configs[0].tileType !in TypesOf(rest) by {
        forall m | 0 <= m < |rest| ensures rest[m].tileType != configs[0].tileType {
          assert rest[m] == configs[m + 1];
        }
        TypesOfIndex(rest, configs[0].tileType);
      }
      forall n | 0 <= n < |configs|
        ensures configs[n].tileType in r && r[configs[n].tileType] == Strip(configs[n])
      {
        if n > 0 {
          assert rest[n - 1] == configs[n];
        }
      }
    }
  }

  /** blockObjects holds exactly one entry per config, each the config minus type and textures. */
  lemma BlockObjectsTable()
    ensures BlockObjects().Keys == MeshTypes
    ensures forall n :: 0 <= n < |BlockConfigs| ==>
              BlockConfigs[n].tileType in BlockObjects() && BlockObjects()[BlockConfigs[n].tileType] == Strip(BlockConfigs[n])
  {
    var cs := BlockConfigs;
    DistinctConfigs();
    CollectEntries(map[], cs);
    assert TypesOf(cs) == MeshTypes by {
      TypesOfLiteral();
    }
  }

  /** Each config names its own type. */
  lemma DistinctConfigs()
    ensures DistinctTypes(BlockConfigs)
  {
    forall n | 0 <= n < |BlockConfigs| ensures ConfigIndex(BlockConfigs[n].tileType) == n {
      if n == 0 {} else if n == 1 {} else if n == 2 {} else if n == 3 {} else if n == 4 {} else if n == 5 {} else {}
    }
  }

  /** The position of a type's config in BlockConfigs. */
  function ConfigIndex(t: BlockType): int
  {
    match t
    case Stone => 0
    case Wood => 1
    case Leaves => 2
    case Soil => 3
    case Grass => 4
    case Hay => 5
    case Air => 6
    case Tree => 7
  }

  lemma TypesOfLiteral()
    ensures TypesOf(BlockConfigs) == MeshTypes
  {
    var cs := BlockConfigs;
    assert TypesOf(cs[6..]) == {Air};
    assert TypesOf(cs[5..]) == {Hay, Air};
    assert TypesOf(cs[4..]) == {Grass, Hay, Air};
    assert TypesOf(cs[3..]) == {Soil, Grass, Hay, Air};
    assert TypesOf(cs[2..]) == {Leaves, Soil, Grass, Hay, Air};
    assert TypesOf(cs[1..]) == {Wood, Leaves, Soil, Grass, Hay, Air};
  }

  /** The dig rule of a counted (non-air) type, read from blockObjects[type].actions.dig. */
  function DigRuleOf(t: BlockType): (r: DigRule)
    requires t in CountedTypes
    ensures r.grants == map[t := 1]
    ensures r.minRemainingBlocks == (if t in {Stone, Soil, Grass} then Some(2) else Some(-1))
    ensures r.tool == (if t in {Stone, Wood, Leaves} then Pickaxe else if t in {Soil, Grass} then Shovel else Scythe)
  {
    BlockObjectsTable();
    var n := if t == Stone then 0 else if t == Wood then 1 else if t == Leaves then 2
             else if t == Soil then 3 else if t == Grass then 4 else 5;
    assert BlockConfigs[n].tileType == t;
    BlockObjects()[t].actions.value.dig
  }

  /** Air is not interactable and has no actions; every other type is interactable with a dig action. */
  lemma AirHasNoActions()
    ensures Air in BlockObjects() && !BlockObjects()[Air].interactable && BlockObjects()[Air].actions == None
    ensures forall t :: t in CountedTypes ==> t in BlockObjects() && BlockObjects()[t].interactable && BlockObjects()[t].actions.Some?
  {
    BlockObjectsTable();
    assert BlockConfigs[6].tileType == Air;
    forall t | t in CountedTypes
      ensures t in BlockObjects() && BlockObjects()[t].interactable && BlockObjects()[t].actions.Some?
    {
      var n := if t == Stone then 0 else if t == Wood then 1 else if t == Leaves then 2
               else if t == Soil then 3 else if t == Grass then 4 else 5;
      assert BlockConfigs[n].tileType == t;
    }
  }
}
