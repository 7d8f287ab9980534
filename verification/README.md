# block-clicker world core in Dafny

This project models the core of block-clicker, a browser voxel sandbox, and proves properties of that model.

The world is a `gridSize × gridSize × gridDepth` grid of integer cells. It is split into chunks of `CHUNK_SIZE` cells. Each chunk keeps two things per block type: a dense list of the cells drawn with that type (`instanceCoord`) and a live count (`counts`). The player digs blocks out, which credits a resource ledger, and builds blocks in, which spends it. Hay grows on grass at random, and trees are stamped from two fixed templates.

The model covers these parts of the source:

- the chunk tables (`addBlock`, the swap-removing `removeInstance`, `finalize`);
- the coordinate arithmetic (`getChunkIndex`, `computePosition`);
- the creation and strata-fill loops, including the one tree they plant;
- build dispatch (topmost hit, face-normal neighbour, bounds test, ledger gate, tree routing) and its preview;
- dig dispatch (first non-air hit, scarcity floor, removal, ledger credit) and its preview;
- occupancy and hay growth (`isOccupied`, `growSingleOverGrass`, one tick of the random growth);
- tree stamping (the templates and `generateTree`);
- the per-type rule table (`blockConfigs` reduced to `blockObjects`);
- the interaction mode flags;
- the keyboard side of `PlayerController.pollInput`.

Modules, one per concept of the source:

| module | file | models |
|---|---|---|
| `Blocks` | blocks.dfy | block types, `blockConfigs`, the `blockObjects` reduction |
| `Grid` | grid.dfy | world constants, `getChunkIndex`, creation order, `computePosition` |
| `Chunks` | chunk.dfy | the `Chunk` class (imperative) and its value-level specification |
| `Trees` | trees.dfy | tree templates, the `generateTree` loops (imperative) |
| `Worlds` | world.dfy | the chunk array and ledger (`World` class), chunk creation and the strata fill |
| `Modes` | modes.dfy | `modeState` and `resetModes` |
| `Hits` | hits.dfy | ray hits as input records |
| `Build` | build.dfy | `placeBlock`, `updateBuildHighlight`, the build buttons |
| `Dig` | dig.dfy | `destroyBlock`, the dig preview, the dig button |
| `Flora` | flora.dfy | `isOccupied`, `growSingleOverGrass`, one growth tick |
| `Controller` | controller.dfy | `PlayerController`'s key map and `pollInput` |

Whatever the source changes in place is modelled as a class:

- a chunk (`Chunks.Chunk`);
- the chunk array and the ledger (`Worlds.World`);
- the mode flags (`Modes.ModeState`);
- the controller (`Controller.PlayerController`).

Each method is proved against a function over the value of that state (`Value()`, `State()`), and the properties are proved about those functions.

Choices and inputs:

- Ray hits are an input sequence. Each hit records the height of the hit point, the hit mesh's chunk and tile type, the instance slot, and the face normal as one of three bands per axis (above 0.5, below -0.5, neither).
- `Math.random` is a parameter: a draw in `[0, 1)` or a sequence of draws.
- The world constants are a `Geometry` value; `Grid.Default` holds the source's values.
- JavaScript numbers are modelled as unbounded integers. Every count and coordinate here stays far below 2^53.

Where the code and its own comments differ, the model follows the code:

- Tree layer `l` lands at `baseK + layers + l - (ceil(layers / 2) + 2)`, which is `baseK + l + 1` for six layers. So layer 0 (the trunk base) is the lowest layer and one cell above the base.
- The fill plants its tree on the centre column's grass cell, not on a soil cell.
- `isOccupied` performs no bounds test (see Findings). Growth is modelled under a `Test` parameter: `AsWritten` is the source's `isOccupied`, `WithBounds` also refuses cells outside the grid.

## Model

| member | source | states |
|---|---|---|
| Blocks.TypeSets | js/world/chunk.js:38-51 | every config type gets a mesh and a coordinate list; every mesh type but air gets a live count |
| Blocks.TypesOfLiteral | js/world/textures.js:18-79 | the configs name exactly the seven mesh types |
| Blocks.DistinctConfigs | js/world/textures.js:18-79 | no two configs name the same type |
| Blocks.CollectEntries | js/world/textures.js:177-180 | with distinct types, the reduce has exactly the accumulator's keys plus the configs' types, maps each config's type to the config without type and textures, and keeps untouched keys |
| Blocks.BlockObjectsTable | js/world/textures.js:177-180 | blockObjects has one entry per mesh type, each the config of that type minus type and textures |
| Blocks.DigRuleOf | js/world/textures.js:18-72 | each non-air type yields one of itself; its floor is 2 for stone, soil and grass and -1 for wood, leaves and hay; its tool is pickaxe, shovel or scythe as in the table |
| Blocks.AirHasNoActions | js/world/textures.js:73-78 | air is not interactable and has no actions; every other type is interactable with a dig action |
| Grid.CeilDiv | js/main.js:30-34 | Math.ceil(a / b) is the least r with a <= r * b |
| Grid.Geometry.CountX | js/main.js:31 | CHUNK_COUNT.x is the least positive count of chunks covering gridSize |
| Grid.Geometry.CountY | js/main.js:32 | CHUNK_COUNT.y is the least positive count of chunks covering gridSize |
| Grid.Geometry.CountZ | js/main.js:33 | CHUNK_COUNT.z is the least positive count of chunks covering gridDepth |
| Grid.Geometry.ChunkTotal | js/world/chunk.js:120-126 | the creation loops make a positive number of chunks |
| Grid.LinearDecode | js/world/chunk.js:116 | the linear index of in-range chunk coordinates lies in [0, total), and the creation order decodes it back to those coordinates |
| Grid.DecodeLinear | js/world/chunk.js:120-126 | the n-th chunk created has in-range coordinates whose linear index is n |
| Grid.ChunkIndexInRange | js/world/chunk.js:112-117 | for an in-bounds cell, getChunkIndex lies in [0, total), names the chunk created with the cell's chunk coordinates, and that chunk's region holds the cell |
| Grid.AxisInRange | js/world/chunk.js:113-115 | floor(v / size) of an in-range coordinate is an in-range chunk coordinate whose span holds v |
| Grid.RegionOwner | js/world/chunk.js:16-20 | a cell in a chunk's region gets that chunk's coordinates, so regions do not overlap |
| Grid.DefaultGeometry | js/main.js:15-34 | the source's constants: soilStart 20, 2 x 2 x 1 chunks, 4 in all |
| Grid.PositionRoundTrip | js/world/chunk.js:71-80 | the cell is recovered from its computed centre, so distinct cells never share a centre |
| Grid.PositionSpacing | js/world/chunk.js:71-80 | i moves x, j moves z and k moves y by one tile each; the other axes stay put |
| Chunks.InitialTables | js/world/chunk.js:14-56 | a new chunk has empty lists, a zero count per counted type, the length/count invariant, and origin = chunk coordinates times CHUNK_SIZE |
| Chunks.AddedSpec | js/world/chunk.js:58-69 | a type without a mesh is a no-op; otherwise the cell is appended at slot counts[t] (the old count), the count rises by one, the invariant holds, and other types are untouched |
| Chunks.RemovedSpec | js/world/chunk.js:82-98 | the last entry moves to idx, other slots keep their entries, the list and the count shrink by one, the type's count is republished, and other types are untouched |
| Chunks.SwapRemoveMultiset | js/world/chunk.js:85-94 | swap-removal drops exactly one occurrence of the entry at idx |
| Chunks.RemovedMultiset | js/world/chunk.js:82-95 | removeInstance's list is the old multiset minus the entry at idx |
| Chunks.AddThenRemove | js/world/chunk.js:58-98 | adding a cell and then removing the slot it got restores lists and counts |
| Chunks.FinalizedSpec | js/world/chunk.js:100-106 | after finalize exactly the counted types publish a count, equal to their list length; lists and counts are unchanged |
| Chunks.PublishAllSpec | js/world/chunk.js:101-105 | visited meshes publish their type's count (or none for air); unvisited ones keep theirs |
| Chunks.PublishAllMeshes | js/world/chunk.js:100-106 | visiting every mesh type publishes exactly the live counts |
| Chunks.Chunk.constructor | js/world/chunk.js:14-56 | new Chunk(cx, cy, cz) holds the initial chunk state at those coordinates and is valid |
| Chunks.Chunk.AddBlock | js/world/chunk.js:58-69 | addBlock changes the chunk exactly as Added describes |
| Chunks.Chunk.RemoveInstance | js/world/chunk.js:82-98 | removeInstance changes the chunk exactly as Removed describes and keeps it valid |
| Chunks.Chunk.Finalize | js/world/chunk.js:100-106 | finalize changes the chunk exactly as Finalized describes |
| Trees.ShapeIndex | js/world/flora/trees.js:124 | the template index is valid; the pine is picked iff the draw is below 0.5 |
| Trees.SixLayerOffsets | js/world/flora/trees.js:137 | in a six-layer template, layer l sits l + 1 above the base |
| Trees.RowStampCount | js/world/flora/trees.js:139-146 | a row adds one block per non-null cell |
| Trees.LayerStampCount | js/world/flora/trees.js:138-147 | a layer adds one block per non-null cell |
| Trees.ShapeStampCount | js/world/flora/trees.js:130-148 | blocksToAdd holds one block per non-null template cell |
| Trees.Templates | js/world/flora/trees.js:11-111 | both templates have six 5 x 5 layers of wood, leaves or nothing |
| Trees.PickedTreeShape | js/world/flora/trees.js:124 | whatever the draw, the chosen template has six 5 x 5 layers of wood, leaves or nothing |
| Trees.PickedWellFormed | js/world/flora/trees.js:124 | whatever the draw, the chosen template has non-empty, rectangular layers |
| Trees.RowStampSound | js/world/flora/trees.js:139-146 | each block of a row comes from a non-null cell of it, at i0 plus its column, with the cell's type |
| Trees.LayerStampSound | js/world/flora/trees.js:138-147 | each block of a layer comes from a non-null cell of it, at its row and column offset, at the layer's height |
| Trees.ShapeStampSound | js/world/flora/trees.js:130-148 | each block comes from a non-null template cell: its column and row at offsets -2..2 from the base, its layer at baseK + offset, its type the cell's |
| Trees.StampBounds | js/world/flora/trees.js:130-148 | only wood and leaves are added, within two cells of the base horizontally and one to six cells above it |
| Trees.PineCount | js/world/flora/trees.js:13-60 | the pine has 44 non-null cells |
| Trees.PineLowerLayers | js/world/flora/trees.js:15-36 | the pine's trunk layers hold 1, 1 and 3 cells |
| Trees.PineUpperLayers | js/world/flora/trees.js:37-59 | the pine's crown layers hold 21, 13 and 5 cells |
| Trees.OakCount | js/world/flora/trees.js:63-110 | the oak has 42 non-null cells |
| Trees.OakLowerLayers | js/world/flora/trees.js:64-86 | the oak's trunk layers hold 1, 1 and 5 cells |
| Trees.OakUpperLayers | js/world/flora/trees.js:87-109 | the oak's crown layers hold 21, 13 and 1 cells |
| Trees.StampSizes | js/world/flora/trees.js:129-152 | generateTree adds 44 blocks for the pine and 42 for the oak |
| Trees.AddAllCells | js/world/flora/trees.js:149 | adding the stamp appends, per type, exactly its cells of that type in order, to the one chunk given, and keeps the invariant |
| Trees.StampRow | js/world/flora/trees.js:139-146 | the column loop appends the row's placements |
| Trees.StampLayer | js/world/flora/trees.js:131-147 | the row loop appends the layer's placements |
| Trees.StampShape | js/world/flora/trees.js:125-148 | the layer loop builds exactly the stamp of the template |
| Trees.AddEach | js/world/flora/trees.js:149 | the forEach adds the placements to the chunk in order |
| Trees.GenerateTree | js/world/flora/trees.js:123-153 | the chunk receives the stamp of the drawn template at the base, and nothing else |
| Worlds.TotalUpdate | js/interact/dig.js:100 | the total over chunks after one chunk changes is the old total plus that chunk's change |
| Worlds.TotalNonNegative | js/interact/dig.js:100 | the total over well-formed chunks is never negative |
| Worlds.TreeTriggerCell | js/world/chunk.js:144-147 | the tree test holds at exactly one cell: the centre column's grass cell |
| Worlds.FillStep | js/world/chunk.js:131-151 | a fill step keeps one chunk per index |
| Worlds.Fill | js/world/chunk.js:128-154 | the fill keeps one chunk per index |
| Worlds.FillContents | js/world/chunk.js:128-154 | after any prefix of cells, each chunk's list of each type is the visited cells of that stratum in that chunk, followed by the tree's cells of that type once the tree cell is visited |
| Worlds.StepChunk | js/world/chunk.js:144-151 | a fill step writes only the cell's chunk: the optional tree, then the stratum block |
| Worlds.StepOther | js/world/chunk.js:149-151 | a fill step leaves every other chunk alone |
| Worlds.StampOnlyTree | js/world/flora/trees.js:11-111 | the tree contributes no cell of a stratum type |
| Worlds.FillOrderMembers | js/world/chunk.js:128-130 | the fill loops visit exactly the in-bounds cells |
| Worlds.ColumnFill | js/world/chunk.js:130-152 | the depth loop keeps one chunk per index |
| Worlds.SlabFill | js/world/chunk.js:129-153 | the column loop keeps one chunk per index |
| Worlds.GridFill | js/world/chunk.js:128-154 | the outer loop keeps one chunk per index |
| Worlds.ColumnFillIsFill | js/world/chunk.js:130-152 | the depth loop is the fill over that column's cells |
| Worlds.SlabFillIsFill | js/world/chunk.js:129-153 | the column loop is the fill over that slab's cells |
| Worlds.GridFillIsFill | js/world/chunk.js:128-154 | the three loops from fresh chunks are the fill over the cells in visiting order |
| Worlds.IndexIffRegion | js/world/chunk.js:136-141 | for an in-bounds cell, the computed index is m iff the cell lies in the region of the m-th chunk created |
| Worlds.FilledStratum | js/world/chunk.js:131-134 | a stratum type (or air) holds exactly the in-bounds cells of that stratum in the chunk's region |
| Worlds.FilledTree | js/world/chunk.js:144-150 | wood and leaves are exactly the tree's, and only in the tree cell's chunk |
| Worlds.SelectNoStratum | js/world/chunk.js:131-134 | the fill never gives a cell wood, leaves or air |
| Worlds.FinalChunk | js/world/chunk.js:127-157 | a filled, finalized chunk has the invariant, published counts and the strata and tree contents above |
| Worlds.InitialChunks | js/world/chunk.js:120-157 | each initial chunk: invariant, origin from its creation coordinates, published counts, stratum cells of its region, and the tree's wood and leaves in the tree's chunk only |
| Worlds.InitialWorldOk | js/world/chunk.js:120-157 | the initial world is well formed |
| Worlds.CreatedOk | js/world/chunk.js:120-126 | freshly created chunks are well formed at the origins their indices decode to |
| Worlds.CreateColumn | js/world/chunk.js:122-124 | the cz loop pushes distinct fresh chunks at the decoded coordinates |
| Worlds.CreateSlab | js/world/chunk.js:121-125 | the cy loop pushes distinct fresh chunks at the decoded coordinates |
| Worlds.CreateChunks | js/world/chunk.js:120-126 | the creation loops produce distinct fresh chunks whose states are the created chunks |
| Worlds.World.AddBlockAt | js/world/chunk.js:58-69 | addBlock on one chunk changes only that chunk of the world |
| Worlds.World.RemoveAt | js/world/chunk.js:82-98 | removeInstance on one chunk changes only that chunk of the world |
| Worlds.World.FinalizeAt | js/world/chunk.js:100-106 | finalize on one chunk changes only that chunk of the world |
| Worlds.World.SetResources | js/interact/build.js:187 | a ledger assignment leaves the chunks alone |
| Worlds.World.TreeAt | js/world/flora/trees.js:123-153 | generateTree on one chunk adds the drawn stamp there and changes nothing else |
| Worlds.World.Create | js/world/chunk.js:120-157 | module initialisation yields the initial world for the drawn template |
| Worlds.World.FillChunks | js/world/chunk.js:127-154 | the fill loops compute the fill over the visiting order |
| Worlds.World.FillSlab | js/world/chunk.js:129-153 | the j loop computes the slab fill |
| Worlds.World.FillColumn | js/world/chunk.js:130-152 | the k loop computes the column fill |
| Worlds.World.FillCell | js/world/chunk.js:131-151 | one loop body computes one fill step |
| Worlds.World.FinalizeChunks | js/world/chunk.js:155-157 | every chunk is finalized |
| Modes.ModeState.constructor | js/interact/mode-state.js:7-11 | all three flags start false |
| Modes.ModeState.ResetModes | js/interact/mode-state.js:14-19 | every flag is false afterwards, whatever it was, so a second call changes nothing |
| Build.TopOf | js/interact/build.js:141-144 | the reduce's result is an index among the hits seen |
| Build.TopOfSpec | js/interact/build.js:141-144 | after a prefix, the chosen hit is highest and every earlier hit is strictly lower |
| Build.Topmost | js/interact/build.js:141-144 | the chosen hit is one of the hits |
| Build.TopmostSpec | js/interact/build.js:141-144 | the chosen hit has maximal height, and ties keep the earliest |
| Build.NeighbourSpec | js/interact/build.js:153-158 | exactly one coordinate moves by one, in the order +Y, -Y, +X, -X, +Z, -Z; with no component past 0.5 the cell is unchanged |
| Build.Charge | js/interact/build.js:187 | the ledger entry drops by one; every other entry is kept |
| Build.PlaceCellInRange | js/interact/build.js:161-172 | the target cell's chunk index names a chunk |
| Build.PlacedNoTarget | js/interact/build.js:134-161 | no hits, or an out-of-bounds target: nothing changes |
| Build.PlacedRefused | js/interact/build.js:177 | a non-tree type without stock is refused for player and flora alike |
| Build.AddFinalizeChunk | js/interact/build.js:180-181 | addBlock plus finalize appends the cell to its type's list only and publishes the counts |
| Build.AddFinalize | js/interact/build.js:172-181 | it keeps the world well formed, touches only that chunk, and adds one to a counted type's total |
| Build.PlacedBlock | js/interact/build.js:172-188 | a build that passes the gate is addBlock plus finalize, and the ledger drops by one only for the player |
| Build.PlacedBlockEffect | js/interact/build.js:172-181 | exactly one instance at the target in getChunkIndex's chunk, with no occupancy test; all else kept; total of t up by one |
| Build.PlacedTree | js/interact/build.js:174-175 | a tree build stamps the drawn template on (i, j, k - 1) into the target's chunk and keeps the ledger |
| Build.StampedOk | js/interact/build.js:175 | stamping into one chunk keeps the world well formed |
| Build.FindTarget | js/interact/build.js:128-165 | the player's target: none without hits, else the topmost hit's neighbour if it is in bounds |
| Build.PutBlockAt | js/interact/build.js:176-190 | the gate, addBlock, finalize and charge change the world exactly as PutBlock describes |
| Build.PutAt | js/interact/build.js:172-190 | the placement stamps a tree or places the block, as Put describes |
| Build.PlaceBlock | js/interact/build.js:123-191 | placeBlock changes the world exactly as Placed describes |
| Build.HoverMatchesPlace | js/interact/build.js:74-121 | in placing mode the highlight shows iff a click would add a block, and "not allowed" iff it would change nothing |
| Build.Highlight | js/interact/build.js:74-121 | exactly one box shows; the highlight iff there is an in-grid target and the caller allows placing |
| Build.HoverBoxes | js/interact/build.js:56-65 | no preview outside placing and tree-planting modes; otherwise the highlight iff there is a target and either a tree is being planted or the selected type is in stock |
| Build.OnCanvasClick | js/interact/build.js:68-72 | outside the build modes a click changes nothing; otherwise it is placeBlock(selected, player) |
| Build.OnResourceButton | js/interact/build.js:32-39 | without stock nothing changes; with stock the type is selected and only placing is on |
| Build.OnStructureButton | js/interact/build.js:46-53 | the structure is selected and only treePlanting is on, for the tree |
| Dig.RuleValues | js/interact/dig.js:99-112 | the floor and yield after the fallback to 1 for a missing or zero value; the floor is negative exactly for wood, leaves and hay |
| Dig.FirstSolid | js/interact/dig.js:91-94 | none iff every hit is air; otherwise the first non-air hit in ray order |
| Dig.FirstSolidUnique | js/interact/dig.js:91-94 | a non-air hit preceded only by air hits is the one found |
| Dig.SolidHit | js/interact/dig.js:97-110 | the hit a dig acts on has a counted type and a slot below that chunk's count |
| Dig.Credit | js/interact/dig.js:112 | the ledger entry rises by the yield; every other entry is kept |
| Dig.DugNothing | js/interact/dig.js:95-105 | with no solid hit, or a refused type, nothing changes |
| Dig.RemovedChunk | js/world/chunk.js:82-95 | removal keeps the chunk well formed and drops exactly that entry |
| Dig.RemovalEffect | js/interact/dig.js:108-112 | exactly the hit instance leaves its chunk's list, the total drops by one, the ledger gains one, and all else is kept |
| Dig.DugKeepsFloor | js/interact/dig.js:100-105 | a dig never takes a type's total below its floor |
| Dig.NegativeFloorNeverRefuses | js/interact/dig.js:100-105 | wood, leaves and hay are always dug, down to the last block |
| Dig.HoverMatchesDig | js/interact/dig.js:55-56 | with a solid first hit, the preview allows the dig iff a click would change the world |
| Dig.HoverDig | js/interact/dig.js:28-79 | no box without a hit, a thrown error on an air hit, otherwise the highlight iff the dig is not refused for the hit's type |
| Dig.TotalOf | js/interact/dig.js:100 | the reduce computes the total of the type over all chunks |
| Dig.FindSolid | js/interact/dig.js:91-94 | the find returns the first non-air hit |
| Dig.DestroyBlock | js/interact/dig.js:88-117 | destroyBlock changes the world exactly as Dug describes |
| Dig.OnPointerDown | js/interact/dig.js:82-86 | in dig mode a press digs; otherwise nothing changes |
| Dig.DigButtonNeverLeaves | js/interact/dig.js:21-26 | as written, the button always leaves dig mode on, even when pressed while digging |
| Dig.DigButtonAsWritten | js/interact/dig.js:21-26 | as written, the handler always yields digging on and the other modes off |
| Dig.DigToggleSpec | js/interact/dig.js:21-26 | the corrected toggle flips digging, leaves at most one mode on, and two presses from cleared come back to cleared |
| Dig.OnDigButton | js/interact/dig.js:21-26 | the button handler changes the flags as the corrected toggle |
| Flora.FreeInRange | js/world/flora.js:23-26 | a cell either test calls free has an index naming a chunk; under the bounds-checking test it is also in the grid |
| Flora.AnyMatches | js/world/flora.js:31 | the some() is true iff the cell is in the list |
| Flora.IsOccupied | js/world/flora.js:22-36 | true when no chunk is at the index, otherwise iff a non-air list of that chunk holds the cell |
| Flora.IsBlocked | js/world/flora.js:22-36 | the corrected test: out of the grid, or occupied |
| Flora.Consult | js/world/flora.js:47 | the method answers exactly the chosen test: isOccupied as written, or the bounds-checking one |
| Flora.GrowStepUnchanged | js/world/flora.js:46-49 | under either test, a refused cell above, or no stock of t, means the pass changes nothing |
| Flora.GrowStepPlaced | js/world/flora.js:46-49 | otherwise the cell above joins exactly the list of t in the chunk its index names (in the grid only under the bounds-checking test), the total rises by one, the ledger is kept, and the cell is refused afterwards |
| Flora.GrowStepOk | js/world/flora.js:46-49 | under either test, a pass keeps the world well formed, its constants and its ledger |
| Flora.GrowStepIdempotent | js/world/flora.js:42-50 | under either test, after one pass further passes change nothing |
| Flora.GrowStepInGrid | js/world/flora.js:46-49 | under the bounds-checking test, a pass keeps every listed cell in the grid |
| Flora.OutOfGridGrowth | js/world/flora.js:22-49 | as written, growSingleOverGrass(hay, 0, 0, 39) adds hay at (0, 0, 40), outside the grid, to chunk 1, so the world lists a cell outside the grid; with the bounds-checking test the call changes nothing |
| Flora.OutOfGridWitness | js/world/flora.js:22-36 | the freshly created default world with grass grown at (0, 0, 39) and hay in stock meets OutOfGridGrowth's premises |
| Flora.Grown | js/world/flora.js:41-52 | under either test, growth keeps the world well formed, its constants and its ledger |
| Flora.GrowPass | js/world/flora.js:45-49 | the loop body is one pass under the chosen test |
| Flora.GrowOverChunk | js/world/flora.js:43-50 | one chunk's loop is one pass if it has grass, and no change otherwise |
| Flora.GrowSingleOverGrass | js/world/flora.js:41-52 | growSingleOverGrass is at most one growth above the cell, and none without grass; with the source's isOccupied test this is the call as written |
| Flora.AllGrassMembers | js/world/flora.js:61-64 | allGrass holds exactly the chunks' grass cells |
| Flora.AllGrassLength | js/world/flora.js:61-64 | allGrass is as long as the grass total |
| Flora.AllGrassEmpty | js/world/flora.js:61-64 | allGrass is empty iff no chunk has grass |
| Flora.PushAll | js/world/flora.js:63 | the forEach appends the list in order |
| Flora.FlattenGrass | js/world/flora.js:61-64 | step 1 builds allGrass |
| Flora.PickCount | js/world/flora.js:67 | 0 <= pickCount <= the number of grass cells, and pickCount < len * MAX_PCT + 1 |
| Flora.PickIndex | js/world/flora.js:71 | the splice index is valid |
| Flora.Spliced | js/world/flora.js:72 | splice drops exactly one occurrence of the picked entry |
| Flora.Picks | js/world/flora.js:70-73 | one pick per draw, all drawn from the pool (a sub-multiset) |
| Flora.PicksDistinct | js/world/flora.js:70-73 | from a pool without repeats, no cell is picked twice |
| Flora.GrowAll | js/world/flora.js:70-74 | under either test, growth over the picks keeps the world well formed and the ledger |
| Flora.GrownUnchanged | js/world/flora.js:41-52 | no grass, a refused cell above, or no stock: no change |
| Flora.GrownShape | js/world/flora.js:41-52 | a growth is no change, or the cell above added to the chunk its index names and that chunk finalized; the cell is in the grid under the bounds-checking test |
| Flora.GrownOthers | js/world/flora.js:41-52 | under either test, lists of other types are untouched |
| Flora.GrownExtends | js/world/flora.js:41-52 | t's lists only grow, each by cells whose index names that chunk (and in the grid under the bounds-checking test) |
| Flora.GrownTotal | js/world/flora.js:41-52 | under either test, one growth adds at most one block |
| Flora.GrowAllEffect | js/world/flora.js:70-74 | a tick touches only hay lists, extends each by cells whose index names that chunk (in the grid under the bounds-checking test), and adds at most one block per pick |
| Flora.GrowAllInGrid | js/world/flora.js:70-74 | under the bounds-checking test, a tick keeps every listed cell in the grid |
| Flora.GrowPicks | js/world/flora.js:70-74 | step 3 grows hay over the picks, in order, under the chosen test |
| Flora.Tick | js/world/flora.js:59-77 | one tick grows hay over pickCount cells picked from allGrass; with the source's isOccupied test this is the tick as written |
| Controller.DownAfterEvents | js/player/player-controller.js:89-101 | a key is down iff its last event was a keydown; with no event it is as before |
| Controller.Selected | js/player/player-controller.js:55-63 | the chosen modifier is held and outranks every held one (crouch > sneak > sprint > walk) |
| Controller.SelectedUnique | js/player/player-controller.js:55-63 | exactly one modifier is held and outranks the others |
| Controller.Axis | js/player/player-controller.js:46-52 | a component is in {-1, 0, 1}; it is 1 or -1 iff exactly that key group is held |
| Controller.Direction | js/player/player-controller.js:46-52 | both components of the unnormalised direction are in {-1, 0, 1} |
| Controller.JumpEdge | js/player/player-controller.js:65-73 | jump iff Space is down and was not registered; jumpPressed becomes Space's state |
| Controller.Poll | js/player/player-controller.js:44-83 | a poll keeps the keys, selects the modifier, sets jumpPressed to Space's state, reports the rising edge and one flag per modifier |
| Controller.FlagsExclusive | js/player/player-controller.js:79-81 | at most one of crouching, sneaking and sprinting |
| Controller.HeldSpaceJumpsOnce | js/player/player-controller.js:65-73 | holding Space across polls jumps on the first poll at most |
| Controller.ReleaseRearms | js/player/player-controller.js:71-73 | a poll with Space up re-arms the jump |
| Controller.PlayerController.constructor | js/player/player-controller.js:24-35 | zero direction, no jump registered, walking, no keys |
| Controller.PlayerController.OnKey | js/player/player-controller.js:89-90 | a key event sets only that code's entry |
| Controller.PlayerController.ReadDirection | js/player/player-controller.js:46-52 | the direction block computes Direction of the keys |
| Controller.PlayerController.ReadModifier | js/player/player-controller.js:55-63 | the if-chain picks the held, highest-ranked modifier |
| Controller.PlayerController.JumpStep | js/player/player-controller.js:65-73 | jump iff Space is down and was not registered; jumpPressed ends equal to Space's state |
| Controller.PlayerController.PollInput | js/player/player-controller.js:44-83 | pollInput changes the fields and returns exactly as Poll describes |

## Left out

- Rendering is out: Three.js meshes, matrices, bounding boxes, textures, materials and `meshConfigs`. A mesh's visible instance count appears only as the `published` map.
- Raycasting, mouse normalisation and the filter for instanced hits are out. Hits are an input sequence whose heights are abstract reals and whose normals are bands per axis.
- `Math.random` is not modelled. Each draw is a parameter in `[0, 1)`: the tree template, the pick count and each splice index.
- The `setTimeout` scheduling is out. `Flora.Tick` is a single tick.
- DOM work is out: counter buttons and labels, the cursor and its tool icon, and the highlight-box matrices.
- The `updateBuildHighlight()` call after a player build (js/interact/build.js:185) is out, because it only sets box visibility.
- The `console.log` for an unknown type in `addBlock` is out, because it is only output.
- The window listener that stops arrow keys and Space from scrolling is out, because it only affects the browser.
- js/world/post-initialization.js is not part of this model. It passes coordinate objects as slot indices to `removeInstance`.
- Player physics, the camera rig, the player mesh and the tunables in character-config.js are not part of this model; they are floating-point motion and rendering.
- Controller.Poll: the direction is kept unnormalised, and the `SPEED` lookup (`speedMul`) is not modelled, because both are floating point.
- Flora.GrowStep, Flora.Grown, Flora.GrowSingleOverGrass, Flora.GrowPass and Flora.GrowOverChunk require a counted type (not tree, not air). The only caller grows hay. Growing a tree or air through the flora path is not modelled.
- Chunks.Chunk.RemoveInstance requires a valid slot, because the source does not guard `idx`.
- Worlds.World.Create takes the tree template from a single draw, made before the fill.
- Flora.PickCount and Flora.PickIndex compute pickCount and the splice index with exact reals. The source uses floating point, and 0.001 has no exact binary form, so a product that lands on a whole number here may round just below it there.
- Chunks.Added keeps no count for air: the air list grows and no count changes. In the source, `addBlock(…, 'air')` increments a missing `counts.air` (js/world/chunk.js:50, 62), which stores NaN; no caller in this model adds air.
- Dig.HoverDig models the preview reading an air hit's missing rule as a thrown error (its `Throws` outcome). Nothing after the throw is modelled.

## Findings

| source | as written | input that shows it | evidently intended | confidence | as-written member | corrected member |
|---|---|---|---|---|---|---|
| js/interact/dig.js:21-26 | `resetModes()` clears `digging` before the flip, so the flip always turns dig mode on | press the dig button while `digging` is true: it stays true | the button toggles dig mode, flipping the value it had before the press | not executed | Dig.DigButtonNeverLeaves | Dig.DigToggleSpec |
| js/world/flora.js:22-36 | `isOccupied` only calls a cell occupied when no chunk exists at its index; `getChunkIndex` has no bounds test | default grid, hay in stock, grass at (0, 0, 39): the cell above, (0, 0, 40), gets index 1, reads as free, and hay is added to chunk 1 at k = 40, outside the grid | cells outside the grid count as occupied, as the comment at line 25 says | not executed | Flora.OutOfGridGrowth | Flora.GrowAllInGrid |
