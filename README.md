# rustycraft voxel core in Dafny

This project models the voxel-world engine of rustycraft, a Minecraft-like game written in Rust, and proves properties of that model. The engine exists in several generations, and each is modelled in its own modules:

- **Current single-player engine** (`src/core`, `src/utils`, `src/traits`):
  - the sixteen-variant block table with its codes and per-face atlas rows (`Blocks`);
  - the chunk with its occupied-block index, its two-stream mesh of ten-number records and its neighbour-aware face test (`Chunks`);
  - the deterministic part of terrain generation (`Terrain`);
  - the layered chunk file format (`ChunkCodec`);
  - the world, with its render-distance sweep, one-chunk halo, mesh cache and boundary remesh after an edit (`Sweeps`, `ChunkStores`, `Worlds`);
  - the `GameWorld` trait defaults (`GameWorlds`).
- **Multiplayer mirror** (`src/models/multiplayer`):
  - the same chunk code (`Chunks`);
  - a world whose sweep fills a fetch queue and sends one `GetChunks` request per recalculation (`ServerWorlds`).
- **Older engine** (`src/models/core`, `src/models/utils`, `src/models/traits`):
  - the ten-variant block table (`LegacyBlocks`);
  - the dense grid `BlockMap` (`Grids`, `BlockMaps`);
  - the two-level `CoordMap` (`CoordMaps`);
  - world-to-chunk localisation (`WorldUtils`);
  - the unused run-length coder (`RunLength`);
  - the depth-based generator (`DepthTerrain`);
  - the self-contained chunk whose edits rebuild its mesh (`LegacyChunks`);
  - the older world (`LegacyWorlds`);
  - the `GameChunk` defaults (`GameChunks`);
  - the suffix loop of the name generator (`NameUtils`).
- **Earliest engine** (`src/models/block_type.rs`, `block_face.rs`, `chunk.rs`):
  - the six-variant block table (`EarliestBlocks`);
  - textured face quads (`BlockFaces`);
  - a full-grid mesher that emits 30 numbers per exposed face (`EarliestChunks`).

Shared modules:
- `Wrappers`: Option, and Result with the reasons a Rust call panics.
- `Ints`: i32 and truncating division.
- `Faces`: the six faces.
- `Folds`: a left fold of a step that may panic.

Modelling conventions:
- **Panics.** A Rust panic is an `Err` carrying its reason: out-of-range index, i32 or usize overflow in a debug build, `unwrap` of None, Air without a texture. The model never declares a panic away with a precondition.
- **Chunks.** The chunks are values in datatypes. An operation taking `&mut self` on a chunk returns the new chunk.
- **Mutable state.** The grid `BlockMap`, the `CoordMap` and the three worlds are classes whose methods state their new state.
- **Loops.** Loops in the source are methods with loop invariants, proved against specification functions.
- **Inputs.** Noise heights, snow offsets, the random tree position and `Chunk::new` as a whole (disk or generator) are inputs or oracles.
- **Request log.** The network connection is a log of the requests sent.

## Model

| member | source | states |
|---|---|---|
| Blocks.Code | src/core/block_type.rs:4-22 | the discriminant of every block is its declaration index, below 16 |
| Blocks.IndexToBlock | src/core/block_type.rs:24-44 | a block comes back exactly for 0..15, and it is the block whose discriminant is the index |
| Blocks.IndexOfCode | src/core/block_type.rs:24-44 | decoding a block's discriminant gives that block back |
| Blocks.CodeInjective | src/core/block_type.rs:4-22 | distinct blocks have distinct discriminants |
| Blocks.BlockToUv | src/core/block_type.rs:46-76 | the atlas row fails exactly for Air, with the no-texture fault, and is at most 18 otherwise |
| Blocks.GrassRows | src/core/block_type.rs:49-53 | Grass uses row 1 on top, 0 at the bottom and 6 on the four sides |
| Blocks.LogAndSnowRows | src/core/block_type.rs:55-69 | Log uses row 3 on top and bottom and 4 on the sides; Snow uses 13 on top, 0 at the bottom and 14 on the sides |
| Blocks.UniformRows | src/core/block_type.rs:46-76 | every textured block other than Grass, Log and Snow has the same row on all six faces |
| Blocks.WaterRowIsUnique | src/core/block_type.rs:63 | row 11 belongs to Water alone |
| EarliestBlocks.BlockToUv | src/models/block_type.rs:11-20 | the row fails exactly for Air and is below 5 otherwise |
| EarliestBlocks.DistinctRows | src/models/block_type.rs:11-20 | the five textured blocks have pairwise distinct rows |
| LegacyBlocks.BlockToUv | src/models/core/block_type.rs:17-37 | the row fails exactly for Air and is at most 11 otherwise |
| LegacyBlocks.Widen | src/models/core/block_type.rs:3-15 | the same-named variant of the current table, with a discriminant below 10; Air maps to Air and Water to Water and only they do |
| LegacyBlocks.WidenIsInjective | src/models/core/block_type.rs:3-15 | distinct variants widen to distinct variants |
| LegacyBlocks.GrassAndLogRows | src/models/core/block_type.rs:20-29 | Grass uses rows 1, 0, 6 for top, bottom, sides and Log rows 3 and 4 |
| LegacyBlocks.UniformRows | src/models/core/block_type.rs:19-34 | Dirt, Stone, Leaves, Orange, DarkOrange, Black and Water use rows 0, 2, 5, 8, 9, 10, 11 on every face |
| LegacyBlocks.AgreesWithCurrentTable | src/models/core/block_type.rs:17-37 | on the ten shared variants the older table gives the same row as the current one |
| Grids.Index | src/models/core/block_map.rs:8-19 | every in-range cell has a slot below 16 x 16 x 256 |
| Grids.IndexInjective | src/models/core/block_map.rs:8-19 | two in-range cells with the same slot are the same cell |
| Grids.Filled | src/models/core/block_map.rs:12-15 | a grid of the full size with every cell holding the given block |
| Grids.Set | src/models/core/block_map.rs:55 | a grid of the full size that reads the new block at the written cell |
| Grids.SetOther | src/models/core/block_map.rs:55 | writing one cell leaves any other in-range cell as it was |
| Grids.SetFrame | src/models/core/block_map.rs:55 | writing one cell leaves every other in-range cell as it was |
| Ints.Abs | src/models/utils/world_utils.rs:12 | the absolute value: the number or its negation, never negative |
| Ints.TruncDiv | src/models/utils/world_utils.rs:2 | Rust's integer `/`: the quotient rounded toward zero, with the sign of the dividend |
| Ints.TruncRem | src/models/utils/world_utils.rs:12 | Rust's `%`: the dividend is quotient times divisor plus the remainder, which is below the divisor in size and takes the dividend's sign |
| BlockMaps.ScanNonAir | src/models/core/block_map.rs:21-29 | the scan from y down to 1 gives a y' <= y whose cell is not Air when y' > 0, with only Air above it up to y |
| BlockMaps.ScanStopsAt | src/models/core/block_map.rs:21-29 | a column whose cell e is not Air, with only Air above it, scans to exactly e |
| BlockMaps.ScanSolid | src/models/core/block_map.rs:31-40 | the scan from h - 1 down to 0 gives a y below h whose cell is neither Air nor Water when y > 0, with only Air and Water above it below h |
| BlockMaps.SolidStopsAt | src/models/core/block_map.rs:31-40 | a column whose cell e is neither Air nor Water, with only Air and Water above it below h, scans to exactly e |
| BlockMaps.ColumnTop | src/models/core/block_map.rs:21-29 | `highest_in_column` succeeds exactly when x and z are inside the chunk |
| BlockMaps.SolidTopBelow | src/models/core/block_map.rs:31-40 | `highest_in_column_from_y` succeeds exactly when h = 0 (the loop never runs, answer 0) or x, z are inside and h <= 256 |
| BlockMaps.ScansDiffer | src/models/core/block_map.rs:21-40 | for a lone block at y = 255 the first scan finds 255 and the second, from 255, finds 0 |
| BlockMaps.BlockMap.Contents | src/models/core/block_map.rs:8 | the array seen as a full-size grid |
| BlockMaps.BlockMap.constructor | src/models/core/block_map.rs:12-15 | a fresh array with every cell Air |
| BlockMaps.BlockMap.Get | src/models/core/block_map.rs:17-19 | the cell of the grid, and a bounds panic exactly when a coordinate is out of range |
| BlockMaps.BlockMap.Set | src/models/core/block_map.rs:42-56 | panics exactly when a coordinate is out of range and then changes nothing; otherwise the grid with that one cell written |
| BlockMaps.BlockMap.HighestInColumn | src/models/core/block_map.rs:21-29 | the loop's answer is `ColumnTop` of the contents |
| BlockMaps.BlockMap.HighestInColumnFromY | src/models/core/block_map.rs:31-40 | the loop's answer is `SolidTopBelow` of the contents |
| WorldUtils.LocalizeAxisIsFloorDivision | src/models/utils/world_utils.rs:2-12 | whenever one axis does not overflow, the chunk is the floor of w / 16 and the offset the remainder in 0..15, and chunk * 16 + offset rebuilds w |
| WorldUtils.LocalizeAxisOverflow | src/models/utils/world_utils.rs:12 | one axis panics exactly when w < -2^31 + 16 or 16 * (w / 16) + w exceeds 2^31 - 1; from -2^31 + 16 up to 2^30 it never does |
| WorldUtils.LocalizeAxisExamples | src/models/utils/world_utils.rs:1-15 | -1 maps to (-1, 15), -16 to (-1, 0), -17 to (-2, 15), 15 to (0, 15), 16 to (1, 0), and -2^31 panics |
| WorldUtils.LocalizeCoordsToChunk | src/models/utils/world_utils.rs:1-15 | succeeds exactly when neither axis overflows, and then gives (x / 16, z / 16, x mod 16, z mod 16) with floor division |
| Chunks.Offset | src/core/chunk.rs:46-47 | x * 16 on i32: the value when it fits, the overflow panic exactly when it does not |
| Chunks.From | src/core/chunk.rs:31-34 | succeeds exactly when the save decodes and both offsets fit in i32; then the decoded grid and index, offsets 16x and 16z, and an empty mesh (see also src/models/multiplayer/server_chunk.rs:26-33) |
| Chunks.CellAt | src/core/chunk.rs:229-250 | `blocks.get` on i32 coordinates cast to usize: the cell exactly when in range, else the bounds panic |
| Chunks.ShowsFaceCases | src/core/chunk.rs:230-251 | Air always shows a face, a solid block never does, and Water shows it exactly to a block that is not Water |
| Chunks.CanPlaceAtLocalSpot | src/core/chunk.rs:218-231 | false below the chunk, whether the cell shows the face inside it, and a panic beside or above it (see also src/models/multiplayer/server_chunk.rs:120-127) |
| Chunks.Local | src/core/chunk.rs:240-248 | a coordinate one step outside the chunk as the neighbour sees it: in 0..15 and equal modulo 16 |
| Chunks.CanPlaceMeshFaceAtBlock | src/core/chunk.rs:233-252 | the only failure is the bounds panic (see also src/models/multiplayer/server_chunk.rs:129-148) |
| Chunks.MeshFaceQuery | src/core/chunk.rs:233-252 | false below the chunk; above it Ok(true) when corrected and a panic as written; otherwise whether the cell of the chunk or neighbour that owns (x, z) shows the face (see also src/models/multiplayer/server_chunk.rs:129-148) |
| Chunks.FaceBits | src/core/chunk.rs:147-154 | the mask is below 256 with the two low bits clear, and zero exactly when no face shows |
| Chunks.FaceBitsIsOr | src/core/chunk.rs:147-154 | the sum of the six bits equals their bitwise OR on 8 bits |
| Chunks.FaceBitsBits | src/core/chunk.rs:147-154 | bit 7 is Front, 6 Right, 5 Back, 4 Bottom, 3 Left, 2 Top, and bits 1 and 0 are clear |
| Chunks.FaceMask | src/core/chunk.rs:147-154 | every mask computed is below 256 with the two low bits clear |
| Chunks.SideQueries | src/core/chunk.rs:149-153 | for a cell inside the chunk, the four sideways queries and the downward one never panic, and each is whether the cell it looks at shows the face (nothing below the bottom layer) |
| Chunks.TopQuery | src/core/chunk.rs:154 | the upward query succeeds exactly when corrected or below the top layer, and then the sky or the cell above shows the face |
| Chunks.MaskOf | src/core/chunk.rs:147-154 | the mask of an in-chunk cell is computed exactly when corrected or below the top layer, and otherwise it is the bounds panic |
| Chunks.FaceMaskOk | src/core/chunk.rs:147-154 | the six queries compute exactly `MaskOf` |
| Chunks.MaskOfBits | src/core/chunk.rs:147-154 | each bit of the mask is whether its neighbour cell shows the face, and the low two bits are clear |
| Chunks.Rows | src/core/chunk.rs:174-185 | six texture rows, the i-th is the block's row for the i-th face of Front, Right, Back, Bottom, Left, Top |
| Chunks.Record | src/core/chunk.rs:161-187 | ten numbers per visible block |
| Chunks.MeshStep | src/core/chunk.rs:133-188 | one index entry: the only failure is the bounds panic |
| Chunks.StepOk | src/core/chunk.rs:139-154 | one entry panics exactly when it lies outside the chunk or, as written, is a block in the top layer |
| Chunks.MeshOk | src/core/chunk.rs:128-191 | `gen_mesh` panics exactly when some entry lies outside the chunk or, as written, a block sits in the top layer (see also src/models/multiplayer/server_chunk.rs:35-100) |
| Chunks.GenMesh | src/core/chunk.rs:128-191 | the loop's result is the fold of the entry step over the whole index (see also src/models/multiplayer/server_chunk.rs:35-100) |
| Chunks.MeshNext | src/core/chunk.rs:128-191 | one more index entry applies the entry step to the mesh so far, or keeps the panic |
| Chunks.BuildRecord | src/core/chunk.rs:161-187 | the numbers pushed are the record: world position, six rows, mask |
| Chunks.PushEntry | src/core/chunk.rs:135-188 | one loop iteration is the entry step |
| Chunks.RecordsAppend | src/core/chunk.rs:170-187 | appending a well-formed record to a stream of well-formed records keeps it one |
| Chunks.RecordIsOk | src/core/chunk.rs:157-187 | the record of a shown block has its world position inside the chunk's columns, its six rows, a non-zero mask, and goes to the water stream exactly for Water |
| Chunks.StepRecords | src/core/chunk.rs:133-188 | a step keeps both streams well formed and grows them by at most one record |
| Chunks.MeshRecords | src/core/chunk.rs:128-191 | both streams of a mesh are sequences of well-formed records, solid blocks first and water second, at most one per index entry |
| Chunks.MeshIgnoresCache | src/core/chunk.rs:128-191 | the cached mesh has no effect on `gen_mesh` |
| Chunks.TopLayerPanics | src/core/chunk.rs:154 | as written, one block in the top layer makes `gen_mesh` panic (see also lines 250) |
| Chunks.MeshTotal | src/core/chunk.rs:128-191 | corrected, `gen_mesh` succeeds exactly when every index entry lies in the chunk |
| Chunks.RemoveFirst | src/core/chunk.rs:205-210 | removing the first match within the limit takes out at most one entry |
| Chunks.RemoveFirstHit | src/core/chunk.rs:205-210 | when t first occurs at i within the limit, exactly that entry is cut out |
| Chunks.RemoveFirstMiss | src/core/chunk.rs:205-210 | when t does not occur within the limit, the index is unchanged |
| Chunks.CutOnce | src/core/chunk.rs:207 | cutting out an entry equal to t removes one t from the multiset of entries |
| Chunks.Updated | src/core/chunk.rs:202-216 | succeeds exactly in bounds and, as written, unless Air is written into a chunk with an empty index; the bounds panic exactly out of bounds; the grid with that cell written, the offsets and the cached mesh kept; a placed block's coordinate appended to the end of the index (see also src/models/multiplayer/server_chunk.rs:106-118) |
| Chunks.SetBlock | src/core/chunk.rs:202-216 | the method's result is `Updated` (see also src/models/multiplayer/server_chunk.rs:106-118) |
| Chunks.RemoveEntry | src/core/chunk.rs:205-210 | the loop's result is `RemoveFirst` |
| Chunks.SetBlockKeepsIndexed | src/core/chunk.rs:202-216 | every occupied cell stays indexed; the written cell reads the new block and no other cell changes |
| Chunks.IndexMembership | src/core/chunk.rs:205-210 | the removal keeps every other coordinate |
| Chunks.RemoveFirstWithin | src/core/chunk.rs:205-210 | the removal adds no coordinate |
| Chunks.LastEntryIsKept | src/core/chunk.rs:205 | as written, clearing the block of a one-entry index keeps the entry; corrected, the index becomes empty |
| Chunks.EmptyIndexUnderflows | src/core/chunk.rs:205 | as written, clearing a cell with an empty index underflows `0 - 1` |
| Chunks.RemovesFirstMatch | src/core/chunk.rs:204-210 | corrected, clearing never panics in bounds, removes exactly one occurrence when present and changes nothing otherwise |
| Chunks.FirstOccurrence | src/core/chunk.rs:205-210 | an entry that occurs has a first occurrence |
| Chunks.Generated | src/core/chunk.rs:36-126 | a generated chunk has offsets 16 cx, 16 cz and an empty mesh |
| Chunks.Generate | src/core/chunk.rs:43-125 | the method's result is `Generated` |
| Chunks.GeneratedOk | src/core/chunk.rs:46-47 | generation panics exactly when an offset overflows i32, a column cannot be filled, or the tree's top leaf does not fit (see also lines 53-121) |
| Chunks.GeneratedIndexed | src/core/chunk.rs:255-258 | a generated chunk indexes every block it holds and only coordinates inside it |
| Chunks.GeneratedMeshes | src/core/chunk.rs:123 | the corrected `gen_mesh` never panics on a generated chunk (see also lines 128-191) |
| Chunks.GeneratedTerrain | src/core/chunk.rs:48-89 | away from the tree, each column holds the column rule's blocks and Air above |
| Chunks.HighestInColumn | src/models/multiplayer/server_chunk.rs:150-152 | the highest non-Air y, at most 255, every cell above it Air; a bounds panic outside the chunk |
| Chunks.HighestInColumnFromY | src/models/multiplayer/server_chunk.rs:154-156 | the highest y below h holding neither Air nor Water, or 0; a bounds panic for a column outside the chunk or h above 256 |
| Terrain.AddBlock | src/core/chunk.rs:255-258 | succeeds exactly when the cell is in the chunk; then the grid has that one cell set and the coordinate is appended to the mesh list; out of range it is the bounds panic |
| Terrain.AddBlockCovered | src/core/chunk.rs:255-258 | whatever block it writes, every occupied cell stays listed in the mesh list |
| Terrain.SurfaceBlock | src/core/chunk.rs:66-75 | Snow exactly above 30 + snow; the `30 - snow` underflow panic exactly when the height is at most 30 + snow and snow exceeds 30; Grass only below 30 - snow and not at height 10; always one of Snow, Stone, Sand, Grass |
| Terrain.CellBlock | src/core/chunk.rs:54-86 | short columns: Sand below height - 1, Water above; tall columns: Stone low down, Stone or Dirt (by height > 20) in the two cells under the top, the surface block at the top; never Air, and only the top can panic |
| Terrain.ColumnEntries | src/core/chunk.rs:61-85 | a column fill appends exactly the coordinates (x, y, z) for y = 0..n, in order |
| Terrain.FillTo | src/core/chunk.rs:55-86 | any successful prefix of a column fill leaves the grid well formed |
| Terrain.FillToOk | src/core/chunk.rs:55-86 | the first n steps succeed exactly when n is within the chunk height and every cell's block can be computed |
| Terrain.FillToState | src/core/chunk.rs:55-86 | after n successful steps the lowest n cells of column (x, z) hold their blocks from the column rule, every other cell is unchanged, and the list grew by the column's coordinates |
| Terrain.FillToCovered | src/core/chunk.rs:55-86 | the fill keeps every occupied cell listed in the mesh list |
| Terrain.FillFails | src/core/chunk.rs:55-86 | once a step panics, the longer fill ends with that same panic |
| Terrain.ColumnFillOk | src/core/chunk.rs:54-87 | a whole column fill succeeds exactly when its column is valid (`ColumnOk`) |
| Terrain.FillColumn | src/core/chunk.rs:53-87 | the loops of one column (nine cells for a short column, `height` cells for a tall one) equal the column fill specification |
| Terrain.Column | src/core/chunk.rs:48-49 | the fill number of column (x, z) is below 256 |
| Terrain.ColumnOf | src/core/chunk.rs:48-49 | column (x, z) is the i-th filled exactly when x = i / 16 and z = i % 16 |
| Terrain.Columns | src/core/chunk.rs:48-49 | the 256 column numbers in fill order, the i-th being i |
| Terrain.LandToWellFormed | src/core/chunk.rs:48-89 | every successful prefix of the land fill is a well-formed grid with its list |
| Terrain.LandNext | src/core/chunk.rs:48-89 | one more column is the column fill of (n / 16, n % 16) on the land so far, and nothing once a column has panicked |
| Terrain.LandFails | src/core/chunk.rs:48-89 | once a column panics, the whole land fill ends with that panic |
| Terrain.FillRow | src/core/chunk.rs:49-88 | one pass of the inner loop carries the land fill from column 16x to column 16(x + 1) |
| Terrain.FillLand | src/core/chunk.rs:48-89 | the nested loops over x and z equal the land fill specification over all 256 columns |
| Terrain.LandToOk | src/core/chunk.rs:48-89 | the land fill succeeds exactly when every column it reaches is valid |
| Terrain.LandToState | src/core/chunk.rs:48-89 | the filled grid holds, in every filled column, the column rule's block below the column's extent, and Air everywhere else |
| Terrain.LandToCovered | src/core/chunk.rs:48-89 | the land fill lists every block it places |
| Terrain.LandColumn | src/core/chunk.rs:48-89 | on the filled land each column holds its rule's block at its extent - 1 and Air above |
| Terrain.LandTop | src/core/chunk.rs:48-98 | the top scan on the filled land finds y = extent - 1, and the tree check passes there exactly for a tall column whose surface is Grass |
| Terrain.TreeTo | src/core/chunk.rs:99-119 | any prefix of the tree's writes either leaves a well-formed grid or ends in the bounds panic |
| Terrain.TreeFootprint | src/core/chunk.rs:99-119 | every tree write lies within one column of (x, z) and between top + 1 and top + 5 |
| Terrain.TreeFails | src/core/chunk.rs:99-119 | once a write panics, the whole tree ends in the bounds panic |
| Terrain.TreeToOk | src/core/chunk.rs:99-119 | the first k writes succeed exactly when each of them falls inside the chunk |
| Terrain.TreeOk | src/core/chunk.rs:99-119 | away from the chunk's edges the tree succeeds exactly when its highest leaf, top + 5, is below 256 |
| Terrain.LastTreeWriteNone | src/core/chunk.rs:99-119 | a cell no write touches has no last write |
| Terrain.TreeCell | src/core/chunk.rs:99-119 | after the writes each cell holds the block of the last write to it, or its old block |
| Terrain.TreeIndex | src/core/chunk.rs:99-119 | each write appends exactly one coordinate, and every occupied cell stays listed |
| Terrain.LastTreeWriteAt | src/core/chunk.rs:99-119 | the latest write to a cell decides what the cell holds |
| Terrain.TreeColumn | src/core/chunk.rs:100-119 | the centre column ends with Log at top + 1 and top + 2 and Leaves at top + 3 to top + 5, the leaf layer overwriting the third log |
| Terrain.TreeOutside | src/core/chunk.rs:99-119 | no cell outside the 3 x 3 x 5 box above the top changes |
| Terrain.TreeStep | src/core/chunk.rs:101-119 | one `add_block` call advances the tree by exactly one write, or ends the whole tree in the bounds panic |
| Terrain.Planted | src/core/chunk.rs:94-121 | the tree at column (x, z) keeps the grid well formed or ends in the bounds panic |
| Terrain.PlantedOk | src/core/chunk.rs:96-121 | the tree panics exactly when it is stamped (top not Water, Stone, Sand or Snow) and top + 5 is above the chunk |
| Terrain.PlantedOutside | src/core/chunk.rs:96-121 | the tree changes nothing outside the 3 x 3 columns around (x, z) |
| Terrain.PlantedCovered | src/core/chunk.rs:96-121 | the tree lists every log and leaf it places |
| Terrain.StampTree | src/core/chunk.rs:96-120 | the scan for the top, the block check and the writes equal the tree specification |
| Terrain.StampTrunk | src/core/chunk.rs:100-102 | the trunk loop is the first three writes of the tree, or the tree's panic |
| Terrain.StampLeafLayer | src/core/chunk.rs:105-109 | the leaf-layer loops are writes 3 to 11 of the tree, or the tree's panic |
| Terrain.LeafWrite | src/core/chunk.rs:105-109 | write 3 + 3ix + iz is the Leaves block at (x + 1 - ix, top + 3, z + 1 - iz) |
| Terrain.StampLeafRow | src/core/chunk.rs:106-108 | one pass of the inner leaf loop is three more writes of the tree, or the tree's panic |
| Terrain.StampCrown | src/core/chunk.rs:112-119 | the plus at top + 4 and the highest leaf are the tree's last six writes, or its panic |
| ChunkCodec.Flag | src/utils/chunk_utils.rs:61 | the height flag is 0 or 1 as written (at most 2 when corrected) |
| ChunkCodec.Header | src/utils/chunk_utils.rs:58-63 | a layer header is three bytes: the sentinel 127, a flag of at most 2 and a remainder below 127 |
| ChunkCodec.DecodedY | src/utils/chunk_utils.rs:20 | the height a header decodes to stays below 256 |
| ChunkCodec.HeaderCorners | src/utils/chunk_utils.rs:20-63 | as written a header recovers its height exactly when it is not 127, 254 or 255, which come back as 0, 127 and 128 |
| ChunkCodec.CorrectedHeaderRecovers | src/utils/chunk_utils.rs:20-63 | with the flag y / 127 every height comes back |
| ChunkCodec.LayerBlocks | src/utils/chunk_utils.rs:64-69 | a layer's 256 cells in emission order, cell 16x + z being (x, y, z) |
| ChunkCodec.Codes | src/utils/chunk_utils.rs:67 | each cell is written as its block code |
| ChunkCodec.LayerBytes | src/utils/chunk_utils.rs:58-69 | one layer is 259 bytes: its header for y cast to u8, then the code of each cell (x, y mod 256, z) at offset 3 + 16x + z |
| ChunkCodec.EncodeLayers | src/utils/chunk_utils.rs:56-70 | the layers one after another, 259 bytes each, every byte below 128 |
| ChunkCodec.EncodeLayersSnoc | src/utils/chunk_utils.rs:56-70 | one more height appends exactly its layer's bytes |
| ChunkCodec.ToSerialized | src/utils/chunk_utils.rs:48-72 | writes one layer per distinct height of the mesh list, each height exactly once, in the set's iteration order, 259 bytes per distinct height (see also src/models/utils/chunk_utils.rs:95-119) |
| ChunkCodec.WriteLayer | src/utils/chunk_utils.rs:64-69 | the nested loops push the 256 codes of the layer in emission order |
| ChunkCodec.WriteRow | src/utils/chunk_utils.rs:65-68 | the z loop extends the codes of rows before x by the 16 codes of row x |
| ChunkCodec.LayerCode | src/utils/chunk_utils.rs:64-67 | code 16x + z of a layer is the code of the cell (x, y, z) |
| ChunkCodec.CollectHeights | src/utils/chunk_utils.rs:50-53 | the first loop collects exactly the heights of the index entries |
| ChunkCodec.AppendLayer | src/utils/chunk_utils.rs:56-70 | one pass of the layer loop appends the header and codes of that height to what was written before |
| ChunkCodec.Dec | src/utils/chunk_utils.rs:17-32 | a successful decode always ends with a whole grid |
| ChunkCodec.DecodedInBounds | src/utils/chunk_utils.rs:24-28 | every index entry the decoder adds lies inside the chunk |
| ChunkCodec.FromSerialized | src/utils/chunk_utils.rs:8-34 | the while loop over the bytes succeeds exactly when the decoding specification does, and then returns its index and a fresh grid holding its cells (see also src/models/utils/chunk_utils.rs:53-81) |
| ChunkCodec.LayerEntries | src/utils/chunk_utils.rs:24-26 | the decoder pushes all 256 coordinates of a layer, Air cells included, cell k being (k / 16, y, k % 16) |
| ChunkCodec.PaintFrom | src/utils/chunk_utils.rs:24-29 | decoding cells k..255 of a layer sets exactly those cells of height y and nothing else |
| ChunkCodec.Painted | src/utils/chunk_utils.rs:17-32 | decoding whole layers keeps a whole grid |
| ChunkCodec.EntriesOf | src/utils/chunk_utils.rs:26 | each layer adds exactly 256 index entries |
| ChunkCodec.DecodeCells | src/utils/chunk_utils.rs:23-30 | decoding the remaining codes of a layer paints those cells and appends their coordinates |
| ChunkCodec.DecodeHeader | src/utils/chunk_utils.rs:19-22 | a header sets the height to what it decodes to and restarts the cell count |
| ChunkCodec.EncodeLayersCons | src/utils/chunk_utils.rs:56-70 | the encoding of an order is its first layer's header and codes followed by the rest |
| ChunkCodec.EntriesOfCons | src/utils/chunk_utils.rs:26 | the entries of an order are those of its first layer followed by the rest |
| ChunkCodec.DecodeLayers | src/utils/chunk_utils.rs:8-34 | decoding what the serializer wrote, from any decoder state, never panics and yields the entries and the painted grid (see also lines 48-72) |
| ChunkCodec.DecodeEncoded | src/utils/chunk_utils.rs:8-34 | decoding a whole serialized chunk from the decoder's initial state yields the entries of every layer and the grid painted from all-Air (see also lines 48-72) |
| ChunkCodec.PaintedStep | src/utils/chunk_utils.rs:17-32 | painting an order is painting its first layer and then the rest |
| ChunkCodec.PaintLayerCell | src/utils/chunk_utils.rs:24-29 | a whole decoded layer copies the source layer's cells into height dy and leaves other heights alone |
| ChunkCodec.PaintedCell | src/utils/chunk_utils.rs:17-32 | a decoded cell comes from the one layer whose header decodes to its height, or is untouched when none does |
| ChunkCodec.RoundTrip | src/utils/chunk_utils.rs:8-34 | decoding the serialized chunk never panics, rebuilds 256 entries per layer and restores every cell of each layer whose height the header recovers, whatever the layer order (see also lines 48-72; src/models/utils/chunk_utils.rs:144-152) |
| ChunkCodec.CorrectedRoundTrip | src/utils/chunk_utils.rs:8-34 | with the corrected flag every written layer comes back exactly and every other height is Air (see also lines 48-72) |
| ChunkCodec.UnpaintedCell | src/utils/chunk_utils.rs:17-32 | a cell at a height no header decodes to keeps its old block |
| ChunkCodec.UnclaimedLayerIsAir | src/utils/chunk_utils.rs:12-32 | a height no header decodes to comes back as Air, whatever the chunk held |
| ChunkCodec.LayerAt127IsLost | src/utils/chunk_utils.rs:20-63 | as written a Stone block alone in layer 127 comes back as Air |
| ChunkCodec.DecodeEmpty | src/utils/chunk_utils.rs:11-33 | an empty save decodes to an empty index and an all-Air grid |
| ChunkCodec.DecodeRejectsUnknownCode | src/utils/chunk_utils.rs:27-28 | a code of 16 or more makes the unwrap panic |
| ChunkCodec.OriginalChars | src/utils/chunk_utils.rs:37-46 | four chars per index entry, x, y, z and the cell's code, in index order; a bounds panic exactly when an entry lies outside the chunk |
| ChunkCodec.OriginalSerialize | src/utils/chunk_utils.rs:37-46 | the loop over the index equals that specification (see also src/models/utils/chunk_utils.rs:84-93) |
| RunLength.FlagCount | src/models/utils/chunk_utils.rs:23-24 | `count \| (1 << 6)` cast to u8 is the marker byte for the run  |
| RunLength.SixthBit | src/models/utils/chunk_utils.rs:23-24 | for a count below 64, setting bit 6 adds 64 |
| RunLength.IsMarkerRange | src/models/utils/chunk_utils.rs:39 | a byte's top two bits are 01 exactly when it lies in 64..127 |
| RunLength.Run | src/models/utils/chunk_utils.rs:16-20 | a run is between 1 and 63 bytes long and fits in the input |
| RunLength.RunIsRun | src/models/utils/chunk_utils.rs:17 | a run is made of equal bytes and stops short of the cap only where the next byte differs |
| RunLength.Encoding | src/models/utils/chunk_utils.rs:10-30 | the encoding is never longer than its input |
| RunLength.Repeat | src/models/utils/chunk_utils.rs:41-43 | n copies of the byte |
| RunLength.EncodingCons | src/models/utils/chunk_utils.rs:15-28 | one pass writes a marker for a run longer than 1, then the byte, then encodes the rest |
| RunLength.RunAt | src/models/utils/chunk_utils.rs:16-20 | the run measured in place at i is 1 to 63 bytes and ends within the input |
| RunLength.RunAtFacts | src/models/utils/chunk_utils.rs:17 | that run is copies of s[i], stopping before the cap only at a different byte |
| RunLength.RunAtIsRun | src/models/utils/chunk_utils.rs:16-20 | measured in place or on the suffix, the run is the same |
| RunLength.EncodeFromIsEncoding | src/models/utils/chunk_utils.rs:15-28 | encoding in place from i is the encoding of the suffix |
| RunLength.EncodeFromRun | src/models/utils/chunk_utils.rs:15-28 | if the two encodings agree after the run at i, they agree from i |
| RunLength.EncodeFromStep | src/models/utils/chunk_utils.rs:15-28 | the in-place encoding from i is the run's marker (when the run is longer than 1), the byte, then the encoding after the run |
| RunLength.EncodingStep | src/models/utils/chunk_utils.rs:15-28 | the encoding of a sequence is its first run's marker and byte followed by the encoding of what follows the run |
| RunLength.RunLengthEncode | src/models/utils/chunk_utils.rs:10-30 | the two loops compute the encoding |
| RunLength.EncodePass | src/models/utils/chunk_utils.rs:16-27 | one pass of the outer loop advances and keeps the output a prefix of the whole encoding |
| RunLength.MeasureRun | src/models/utils/chunk_utils.rs:16-20 | the inner loop counts the run at its start and stops on its last byte |
| RunLength.RunLengthDecode | src/models/utils/chunk_utils.rs:32-51 | the decoder's loop computes the decoding, including the out-of-range read after a final marker |
| RunLength.MarkerStep | src/models/utils/chunk_utils.rs:39-44 | a marker byte decodes to count copies of the next byte, then the rest after those two bytes |
| RunLength.CopyStep | src/models/utils/chunk_utils.rs:45-47 | a byte that is not a marker decodes to itself, then the rest |
| RunLength.DecodeRun | src/models/utils/chunk_utils.rs:39-44 | a marker for n followed by a byte decodes to n copies of it |
| RunLength.DecodeCopy | src/models/utils/chunk_utils.rs:45-47 | a byte below 64 is copied |
| RunLength.RunBack | src/models/utils/chunk_utils.rs:22-44 | a run of 2 to 63 copies written as marker and byte decodes back to the run in front of the rest |
| RunLength.CopyBack | src/models/utils/chunk_utils.rs:26-47 | a single byte below 64 written as itself decodes back in front of the rest |
| RunLength.RunSplit | src/models/utils/chunk_utils.rs:16-20 | a sequence is its first run followed by the rest |
| RunLength.RoundTripStep | src/models/utils/chunk_utils.rs:10-51 | the first run decodes back whenever the rest does |
| RunLength.RoundTrip | src/models/utils/chunk_utils.rs:10-51 | decoding undoes encoding for every sequence of bytes below 64 (see also lines 137-140) |
| RunLength.MarkerRange | src/models/utils/chunk_utils.rs:17-25 | every marker written lies in 66..127 and reads as a marker |
| RunLength.EncodingStaysSevenBit | src/models/utils/chunk_utils.rs:10-30 | bytes below 128 encode to bytes below 128 |
| RunLength.EncodesTestString | src/models/utils/chunk_utils.rs:133-136 | "122333" encodes as "1B2C3" |
| RunLength.HighByteIsMisread | src/models/utils/chunk_utils.rs:22-44 | a lone byte 65 is copied by the encoder, and the decoder reads it as a marker and reads past the end |
| CoordMaps.Store | src/models/core/coord_map.rs:41-46 | after storing, the key holds the new value and every other key keeps its entry |
| CoordMaps.StoreOverwrites | src/models/core/coord_map.rs:45 | storing at a key twice keeps only the second value |
| CoordMaps.StoreCommutes | src/models/core/coord_map.rs:41-46 | stores at two different keys commute |
| CoordMaps.CoordMap.constructor | src/models/core/coord_map.rs:10-12 | a new map holds no key (see also src/models/coord_map.rs:10-12) |
| CoordMaps.CoordMap.Get | src/models/core/coord_map.rs:14-21 | None when no inner map exists for x, else the inner map's entry for z (see also src/models/coord_map.rs:14-19) |
| CoordMaps.CoordMap.Contains | src/models/core/coord_map.rs:32-39 | holds exactly when `get` returns a value (see also src/models/coord_map.rs:28-33) |
| CoordMaps.CoordMap.Insert | src/models/core/coord_map.rs:41-46 | afterwards the key holds the value and is contained, an old value is replaced, and every other key is unchanged (see also src/models/coord_map.rs:35-40) |
| CoordMaps.CoordMap.WriteThrough | src/models/core/coord_map.rs:23-30 | `get_mut` finds an entry exactly when the key is contained; a write through it replaces that entry only, and a miss changes nothing (see also src/models/coord_map.rs:21-26) |
| Sweeps.SweepRowMembers | src/core/world.rs:105-110 | one pass of the inner loop keeps the coordinates of its column that pass the distance test |
| Sweeps.SweepToMembers | src/core/world.rs:103-110 | the first n passes of the outer loop keep the visible coordinates of the square's first n columns |
| Sweeps.SweepMembers | src/core/world.rs:103-110 | the sweep holds exactly the coordinates of x in pcx - r ..= pcx + r - 1 and z in pcz - r ..= pcz + r - 1 within distance r |
| Sweeps.Concat | src/core/world.rs:103-110 | two ascending runs, the first wholly before the second, make one |
| Sweeps.SweepRowAscending | src/core/world.rs:105-110 | one column's coordinates come in increasing z |
| Sweeps.SweepToAscending | src/core/world.rs:103-110 | the sweep so far is in loop order |
| Sweeps.SweepDistinct | src/core/world.rs:103-110 | the sweep is in loop order, so it visits no coordinate twice |
| ChunkStores.FromSound | src/core/chunk.rs:31-34 | a chunk decoded from a save indexes only cells inside the chunk |
| ChunkStores.Halo | src/core/world.rs:111-115 | the five coordinates the sweep makes sure of, the chunk itself first |
| ChunkStores.HasHaloMembers | src/core/world.rs:190-194 | a chunk has its halo exactly when it and its four neighbours are stored |
| ChunkStores.InHaloSnoc | src/core/world.rs:111-116 | one more view coordinate adds exactly its own halo |
| ChunkStores.NeighboursAt | src/core/world.rs:129-133 | the right (x + 1), left (x - 1), front (z + 1) and back (z - 1) chunks' grids, all whole (see also lines 190-193) |
| ChunkStores.FreshMesh | src/core/world.rs:129-133 | with its index inside the chunk, `gen_mesh` on a stored chunk with its four neighbours never panics (see also lines 195) |
| ChunkStores.CachedOrFresh | src/core/world.rs:124-134 | a cached mesh is reused exactly when its opaque part is non-empty, otherwise it is rebuilt from the neighbours |
| ChunkStores.WithMeshShape | src/core/world.rs:136-137 | writing a mesh back changes only that chunk's mesh (see also lines 197) |
| ChunkStores.ShapeKeepsMeshing | src/core/world.rs:124-134 | chunks that differ only in cached meshes mesh alike |
| ChunkStores.Remesh | src/core/world.rs:120-141 | the remesh pass keeps every chunk's blocks and index and yields one mesh per view coordinate |
| ChunkStores.RemeshResult | src/core/world.rs:120-141 | over a view without repeats, every view chunk gets its cached-or-fresh mesh, the list holds them in view order, and every other key is untouched |
| ChunkStores.UpdateMeshIn | src/core/world.rs:188-198 | the `unwrap` panic exactly when the chunk or one of its four neighbours is absent; otherwise only the chunk's mesh changes, to the freshly built one |
| ChunkStores.BoundaryNeighbour | src/core/world.rs:177-185 | no neighbour exactly when the cell is on no edge; else the first of lx == 0, lx == 15, lz == 0, lz == 15 picks x - 1, x + 1, z - 1 or z + 1 |
| ChunkStores.UpdatedSound | src/core/chunk.rs:202-216 | a chunk's own `set_block` keeps it sound |
| ChunkStores.EditIn | src/core/world.rs:167-173 | the edit succeeds exactly when the chunk is stored and the cell is in range (an absent chunk is the unwrap panic); it sets that one cell and changes no other cell or key |
| ChunkStores.RemeshAfterEdit | src/core/world.rs:176-185 | succeeds exactly when the edited chunk and the chosen neighbour have their halos; only those two chunks change, each now holding the mesh `gen_mesh` builds for it from the edited world |
| ChunkStores.SetBlockIn | src/core/world.rs:166-186 | a successful edit keeps every stored chunk sound |
| ChunkStores.EditThenRemeshOk | src/core/world.rs:166-186 | edit and remesh together succeed exactly when the cell is in range and every halo they need is stored |
| ChunkStores.SetBlockOk | src/core/world.rs:166-186 | `set_block` succeeds exactly when the coordinates localise, 0 <= y < 256, and the chunk's and the boundary neighbour's halos are stored |
| ChunkStores.SetBlockEffect | src/core/world.rs:166-186 | afterwards the edited cell holds the block and every other cell of the edited chunk and of every other chunk reads as before; only the edited chunk and the boundary neighbour get new meshes, and each is the mesh `gen_mesh` builds from the world as it now stands |
| ChunkStores.RemeshPrefix | src/core/world.rs:120-139 | the remesh pass over one more coordinate is one more step on what the prefix left |
| ChunkStores.RemeshAt | src/core/world.rs:121-138 | one step of the second loop returns the cached-or-fresh mesh and writes it back |
| ChunkStores.RemeshView | src/core/world.rs:120-141 | the second loop equals the remesh pass |
| ChunkStores.UpdateChunkMesh | src/core/world.rs:188-198 | equals `update_chunk_mesh`'s specification, panicking with nothing changed when a halo chunk is absent |
| ChunkStores.EditAt | src/core/world.rs:170-173 | equals the edit's specification |
| ChunkStores.RemeshAfterEditAt | src/core/world.rs:176-185 | equals the remeshing's specification |
| GameChunks.HighestInColumnFromY | src/models/traits/game_chunk.rs:8-10 | the grid's scan from h: the highest y below h holding neither Air nor Water, or 0; a bounds panic for a column outside the chunk or h above 256 |
| GameChunks.HighestInColumn | src/models/traits/game_chunk.rs:5-7 | the scan from 255, so never 255 |
| GameChunks.HighestIsZero | src/models/traits/game_chunk.rs:5-10 | 0 exactly when no cell strictly between 0 and 255 holds a block other than Air or Water |
| GameChunks.DefaultSkipsWater | src/models/traits/game_chunk.rs:5-7 | Water over Stone: the default answers the Stone while the grid's own `highest_in_column` answers the Water (see also src/models/core/block_map.rs:21-29) |
| GameWorlds.Moveable | src/traits/game_world.rs:7-13 | true exactly when the world answers Air or Water, so never in an absent chunk |
| GameWorlds.HighestInColumn | src/traits/game_world.rs:14-22 | None exactly for an absent chunk, else the chunk's default scan at the local column |
| GameWorlds.HighestInColumnFromY | src/traits/game_world.rs:23-31 | as `highest_in_column` with `world_y` as the scan height; a negative y never succeeds |
| GameWorlds.FromYNeedsHeight | src/traits/game_world.rs:30 | inside a present chunk, succeeds exactly for 0 <= y <= 256 |
| Worlds.BlockIn | src/core/world.rs:26-35 | None exactly for an absent chunk or y outside 0..256, else the cell at the localised coordinates |
| Worlds.MoveableIn | src/traits/game_world.rs:7-13 | `moveable` over this world: true exactly for Air or Water, never in an absent chunk or outside 0..256 (see also src/core/world.rs:26-35) |
| Worlds.Ensure | src/core/world.rs:144-153 | afterwards the key is stored; a stored chunk is never replaced; a missing one is created; no other key changes |
| Worlds.EnsureHaloLookup | src/core/world.rs:111-115 | the halo pass keeps every stored chunk and creates exactly the missing halo chunks |
| Worlds.PopulateSnoc | src/core/world.rs:103-118 | one more visible coordinate is one more halo pass |
| Worlds.PopulateLookup | src/core/world.rs:103-118 | the first loop never replaces a chunk and creates exactly the missing chunks of the halos of the view |
| Worlds.PopulateHalos | src/core/world.rs:103-118 | after the first loop every view coordinate and its four neighbours are stored |
| Worlds.PopulateSound | src/core/world.rs:103-118 | the first loop keeps every chunk sound |
| Worlds.Recalculated | src/core/world.rs:100-142 | the recalculation keeps every chunk sound and yields one mesh per view coordinate |
| Worlds.RecalculatedView | src/core/world.rs:100-142 | after a recalculation every swept coordinate and its neighbours are stored, the list holds each swept chunk's cached-or-fresh mesh in sweep order, that mesh is stored back, and stored chunks keep their blocks and index |
| Worlds.SetBlockReadsBack | src/core/world.rs:26-35 | after a successful `set_block`, `get_block` reads the new block at the edited cell (see also lines 166-186) |
| Worlds.World.constructor | src/core/world.rs:50-61 | no chunks, player chunk (0, 0), an empty mesh list |
| Worlds.World.GetOrInsertChunk | src/core/world.rs:144-153 | the store becomes the `Ensure` of its old value and the returned chunk is the one stored |
| Worlds.World.EnsureHaloAt | src/core/world.rs:111-115 | the five calls for a visible coordinate are the halo pass |
| Worlds.World.SweepCellAt | src/core/world.rs:106-116 | one step of the inner loop adds the coordinate to the view and runs its halo pass exactly when it is visible |
| Worlds.World.SweepRowAt | src/core/world.rs:105-117 | the inner loop carries the view and the store across one column of the sweep |
| Worlds.World.PopulateSweep | src/core/world.rs:101-118 | the first loop collects the sweep and populates it |
| Worlds.World.Recalculate | src/core/world.rs:100-142 | store and mesh list become the recalculation's; the recorded player chunk is untouched |
| Worlds.World.GetWorldMesh | src/core/world.rs:82-98 | when not forced, with a non-empty list and the same truncated player chunk, nothing changes; otherwise the world is recalculated from that chunk and the chunk recorded; the result is the stored list |
| Worlds.World.UpdateChunkMesh | src/core/world.rs:188-198 | equals `update_chunk_mesh`'s specification on the store |
| Worlds.World.SetBlock | src/core/world.rs:166-186 | succeeds exactly when the edit specification does and leaves its store; a panic carries the same fault |
| ServerWorlds.BlockIn | src/models/multiplayer/server_world.rs:29-38 | None exactly for an absent chunk or a negative y; there is no upper check, so a y of 256 or more in a present chunk is the bounds panic; otherwise the cell at the localised coordinates |
| ServerWorlds.MoveableIn | src/traits/game_world.rs:7-13 | `moveable` over this world: true exactly for Air or Water, and it panics exactly where `get_block` does (see also src/models/multiplayer/server_world.rs:29-38) |
| ServerWorlds.BlockInAgrees | src/models/multiplayer/server_world.rs:29-38 | below y = 256 both worlds' `get_block` give the same answer (see also src/core/world.rs:26-35) |
| ServerWorlds.Missing | src/models/multiplayer/server_world.rs:99-130 | one swept coordinate queues exactly its absent halo chunks, and nothing exactly when its halo is stored |
| ServerWorlds.View | src/models/multiplayer/server_world.rs:104-109 | every coordinate of the view list has its halo stored |
| ServerWorlds.ViewMembers | src/models/multiplayer/server_world.rs:99-109 | a coordinate enters the view exactly when it is swept and it and its four neighbours are stored |
| ServerWorlds.ViewAscending | src/models/multiplayer/server_world.rs:91-132 | the view keeps the sweep's order |
| ServerWorlds.QueueMembers | src/models/multiplayer/server_world.rs:110-130 | the queue holds exactly the absent halo chunks of the swept coordinates, so no stored chunk is queued |
| ServerWorlds.QueueEmpty | src/models/multiplayer/server_world.rs:99-130 | nothing is queued exactly when every swept coordinate enters the view |
| ServerWorlds.ViewLength | src/models/multiplayer/server_world.rs:104-109 | the view is never longer than the sweep |
| ServerWorlds.Recalculated | src/models/multiplayer/server_world.rs:86-162 | after a recalculation the queue is exactly the absent halo chunks of the sweep, the list holds in sweep order the cached-or-fresh mesh of each fully stored swept chunk, that mesh is stored back, and nothing else changes |
| ServerWorlds.ViewConcat | src/models/multiplayer/server_world.rs:91-132 | the view of two runs of coordinates is the first's followed by the second's |
| ServerWorlds.QueueConcat | src/models/multiplayer/server_world.rs:91-132 | the queue of two runs is the union of their queues |
| ServerWorlds.ScanStep | src/models/multiplayer/server_world.rs:93-131 | one more z value adds that cell's view and queue |
| ServerWorlds.Received | src/models/multiplayer/server_world.rs:164-166 | succeeds exactly when the chunk decodes; it is then stored at its key over any old one and no other key changes; a malformed chunk panics with the decoder's fault (see also src/models/multiplayer/server_chunk.rs:26-33) |
| ServerWorlds.SetBlockReadsBack | src/models/multiplayer/server_world.rs:29-38 | after a successful `set_block`, `get_block` reads the new block at the edited cell (see also lines 186-206) |
| ServerWorlds.EmptyListIsReused | src/models/multiplayer/server_world.rs:68-72 | an empty list for the same chunk is handed back here but recalculated in the single-player world (see also src/core/world.rs:85-89) |
| ServerWorlds.ServerWorld.constructor | src/models/multiplayer/server_world.rs:53-63 | no chunks, player chunk (0, 0), no meshes, an empty queue and nothing sent |
| ServerWorlds.ServerWorld.ScanCellAt | src/models/multiplayer/server_world.rs:94-130 | one step of the inner loop adds the cell's view entry or its missing halo chunks |
| ServerWorlds.ServerWorld.ScanRowAt | src/models/multiplayer/server_world.rs:93-131 | the inner loop adds one column's view entries and queue |
| ServerWorlds.ServerWorld.ScanSweep | src/models/multiplayer/server_world.rs:91-132 | the first loop yields the view and the queue of the whole sweep |
| ServerWorlds.ServerWorld.Recalculate | src/models/multiplayer/server_world.rs:86-162 | the queue is emptied and refilled with the sweep's absent halo chunks, the view is remeshed into the list, one `GetChunks` with the queue is sent exactly when it is not empty, and the player chunk is untouched |
| ServerWorlds.ServerWorld.RecalculateFromPlayer | src/models/multiplayer/server_world.rs:82-84 | the recalculation from the stored player chunk |
| ServerWorlds.ServerWorld.GetWorldMesh | src/models/multiplayer/server_world.rs:65-80 | when not forced and the truncated player chunk is the same, nothing changes, even for an empty list; otherwise the world is recalculated from that chunk and the chunk recorded |
| ServerWorlds.ServerWorld.InsertSerializedChunk | src/models/multiplayer/server_world.rs:164-173 | a malformed chunk panics with nothing changed; otherwise the chunk is stored, its key leaves the queue, and the world is recalculated from the stored player chunk exactly when the queue is then empty |
| ServerWorlds.ServerWorld.UpdateChunkMesh | src/models/multiplayer/server_world.rs:208-218 | equals `update_chunk_mesh`'s specification on the store |
| ServerWorlds.ServerWorld.SetBlock | src/models/multiplayer/server_world.rs:186-206 | succeeds exactly when the edit specification does and leaves its store; a panic carries the same fault |
| BlockFaces.FaceType | src/models/block_face.rs:91-107 | Air has no face type (the panic); Grass is Grass on top, Dirt below and SideGrass on the four sides; Log is Log on top and bottom and LogSide on the sides; Dirt, Leaves and Stone keep their own type on every face |
| BlockFaces.TextureMapIndex | src/models/block_face.rs:109-119 | every face type has a texture index below 7 |
| BlockFaces.TextureMapIndexInjective | src/models/block_face.rs:109-119 | two face types with the same texture index are the same type |
| BlockFaces.TextureMapIndexOnto | src/models/block_face.rs:109-119 | every index 0 to 6 is the index of some face type |
| BlockFaces.CellOf | src/models/block_face.rs:11-15 | the atlas cell of an index has column below 6 and row at least 0 with row * 6 + column equal to the index; right and bottom are one past left and top |
| BlockFaces.Numbers | src/models/block_face.rs:5-7 | a vertex is five numbers: x, y, z, u, v |
| BlockFaces.Flatten | src/models/block_face.rs:5-7 | a list of vertices flattens to five numbers per vertex |
| BlockFaces.FlattenField | src/models/block_face.rs:5-7 | number f of vertex k sits at position 5 * k + f of the flat array |
| BlockFaces.Quad | src/models/block_face.rs:16-73 | each face lists six vertices |
| BlockFaces.QuadShape | src/models/block_face.rs:16-73 | a face's quad is 30 numbers, every vertex on that face's side of the unit cube and textured with corners of the atlas cell |
| BlockFaces.QuadVertex | src/models/block_face.rs:16-73 | each of the six vertices has the face's axis coordinate at the face's side, every coordinate at -0.5 or 0.5, u at the cell's left or right and v at its top or bottom |
| BlockFaces.FlattenShape | src/models/block_face.rs:16-73 | six vertices that each lie on the side and carry cell corners flatten to a 30-number quad with those properties |
| BlockFaces.New | src/models/block_face.rs:10-75 | `BlockFace::new` fails exactly for Air; otherwise it gives 30 numbers |
| BlockFaces.NewShape | src/models/block_face.rs:10-75 | for a non-Air block the quad lies on the face's side and is textured with the atlas cell of the face type's texture index (see also lines 91-119) |
| BlockFaces.MovedFields | src/models/block_face.rs:77-88 | moving adds x, y and z to the three position fields of every vertex and keeps the two texture fields |
| BlockFaces.Transform | src/models/block_face.rs:77-88 | the loop adds x, y or z to each number by its position modulo 5 and keeps fields 3 and 4; the result is the moved quad and the input is untouched |
| BlockFaces.TransformKeepsTexture | src/models/block_face.rs:77-88 | a quad moved as `transform` moves it keeps the texture fields of every vertex and has its x shifted by x |
| DepthTerrain.Put | src/models/core/chunk.rs:41-42 | succeeds exactly when the cell is in the chunk; then the grid has that one cell set and the coordinate appended; out of range it is the bounds panic |
| DepthTerrain.PutCovered | src/models/core/chunk.rs:41-42 | every non-Air cell stays listed after a write |
| DepthTerrain.GetSet | src/models/core/block_map.rs:42-56 | after a write the written cell holds the block and every other cell its old one |
| DepthTerrain.DepthRule | src/models/core/chunk.rs:34-40 | the top cell of a column is Grass, the two below it Dirt, everything lower Stone (see also src/models/chunk.rs:33-39) |
| DepthTerrain.FillTo | src/models/core/chunk.rs:34-43 | every successful prefix of a column fill is well formed |
| DepthTerrain.FillToOk | src/models/core/chunk.rs:34-43 | a column fill panics exactly when it reaches above y = 255 |
| DepthTerrain.FillToState | src/models/core/chunk.rs:34-43 | after n writes the column's lowest n cells hold the depth rule's blocks, every other cell is unchanged, and the list grew by the column's coordinates (see also src/models/chunk.rs:33-41) |
| DepthTerrain.FillToCovered | src/models/core/chunk.rs:34-43 | the fill keeps every non-Air cell listed |
| DepthTerrain.FillFails | src/models/core/chunk.rs:34-43 | once a write panics, the longer fill ends with that panic |
| DepthTerrain.FillColumn | src/models/core/chunk.rs:34-43 | the innermost loop equals the column fill specification (see also src/models/chunk.rs:33-41) |
| DepthTerrain.LandToWellFormed | src/models/core/chunk.rs:28-45 | every successful prefix of the land fill is well formed |
| DepthTerrain.LandNext | src/models/core/chunk.rs:28-45 | one more column is the column fill of (n / 16, n % 16), and nothing once a column has panicked |
| DepthTerrain.LandFails | src/models/core/chunk.rs:28-45 | once a column panics, the whole fill ends with that panic |
| DepthTerrain.FillRow | src/models/core/chunk.rs:29-44 | one pass of the middle loop carries the fill across the 16 columns of row x |
| DepthTerrain.FillLand | src/models/core/chunk.rs:28-45 | the nested loops equal the land fill specification (see also src/models/chunk.rs:27-43) |
| DepthTerrain.LandToOk | src/models/core/chunk.rs:28-45 | the fill panics exactly when some column is taller than the chunk |
| DepthTerrain.LandToState | src/models/core/chunk.rs:28-45 | each filled column holds the depth rule's blocks below its height, everything else is Air (see also src/models/chunk.rs:27-43) |
| DepthTerrain.LandToCovered | src/models/core/chunk.rs:28-45 | the fill lists every block it places |
| DepthTerrain.Planted | src/models/core/chunk.rs:50-79 | the tree at a column keeps the grid well formed or ends in the bounds panic (see also src/models/chunk.rs:48-59) |
| DepthTerrain.Tree | src/models/core/chunk.rs:53-78 | the nine writes succeed exactly when the top leaf, top + 4, is below 256 |
| DepthTerrain.Trunk | src/models/core/chunk.rs:53-63 | the four Log writes succeed exactly when the column is in the chunk and top + 3 is below 256 |
| DepthTerrain.Crown | src/models/core/chunk.rs:65-78 | the five Leaves writes succeed exactly when top + 4 is below 256 |
| DepthTerrain.TrunkShape | src/models/core/chunk.rs:53-63 | after the trunk, the cells top..top + 3 of the column hold Logs, no other cell changes, and the four coordinates are appended in order |
| DepthTerrain.CrownShape | src/models/core/chunk.rs:65-78 | after the crown, the four cells around the trunk at top + 3 and the cell at top + 4 hold Leaves, no other cell changes, and the five coordinates are appended in order |
| DepthTerrain.TreeShape | src/models/core/chunk.rs:53-78 | after the tree, trunk cells hold Logs and leaf cells Leaves, every other cell is unchanged, and the nine coordinates are appended in write order (see also src/models/chunk.rs:51-59) |
| DepthTerrain.TreeCells | src/models/core/chunk.rs:53-78 | Logs at top..top + 3 of the column and Leaves at (x ± 1, top + 3, z), (x, top + 3, z ± 1) and (x, top + 4, z) |
| DepthTerrain.TreeCovered | src/models/core/chunk.rs:53-78 | every write appends its coordinate, so every non-Air cell stays listed |
| DepthTerrain.LandTop | src/models/core/chunk.rs:52 | on the filled land `highest_in_column` finds the top block at height - 1 (0 for a column of height at most 1, y = 0 never being inspected) (see also src/models/core/block_map.rs:21-29) |
| LegacyChunks.BlockAt | src/models/core/chunk.rs:141-143 | the cell exactly when in range, else the bounds panic |
| LegacyChunks.AirAt | src/models/core/chunk.rs:160-172 | false below y = 2; true outside the chunk's columns or at y >= 256; otherwise exactly when the cell is Air |
| LegacyChunks.Mask | src/models/core/chunk.rs:101-108 | the face mask is below 256 and uses only bits 2 to 7 |
| LegacyChunks.MaskBits | src/models/core/chunk.rs:101-108 | bit 7 is Front (z - 1), 6 Right (x + 1), 5 Back (z + 1), 4 Bottom (y - 1), 3 Left (x - 1), 2 Top (y + 1), each the `air_at` answer for that neighbour |
| LegacyChunks.LowLayersHidden | src/models/core/chunk.rs:101-112 | a block at y = 0 has mask 0, and one at y = 1 at most its top bit (see also lines 161-163) |
| LegacyChunks.Rows | src/models/core/chunk.rs:122-133 | six texture rows, the i-th being the block's row for the i-th of Front, Right, Back, Bottom, Left, Top |
| LegacyChunks.Record | src/models/core/chunk.rs:114-135 | one visible block pushes exactly ten numbers |
| LegacyChunks.MeshStep | src/models/core/chunk.rs:88-136 | one list entry panics exactly when it lies outside the chunk |
| LegacyChunks.MeshOk | src/models/core/chunk.rs:86-139 | `gen_mesh` panics exactly when some list entry lies outside the chunk |
| LegacyChunks.RecordsAppend | src/models/core/chunk.rs:118-135 | a well-formed record appended to a stream of records is a stream of records |
| LegacyChunks.StepRecords | src/models/core/chunk.rs:88-136 | one entry keeps the stream made of records and pushes at most one |
| LegacyChunks.MeshRecords | src/models/core/chunk.rs:86-139 | the mesh is a sequence of well-formed records, at most one per list entry |
| LegacyChunks.MeshIgnoresCache | src/models/core/chunk.rs:86-139 | the mesh depends on the grid, the list and the offsets, never on the cached mesh |
| LegacyChunks.GenMesh | src/models/core/chunk.rs:86-139 | as the specification: the new mesh is stored in the chunk and the same value is returned |
| LegacyChunks.BuildRecord | src/models/core/chunk.rs:114-135 | the loop over six faces builds the ten-number record |
| LegacyChunks.PushEntry | src/models/core/chunk.rs:89-135 | the loop body equals one mesh step |
| LegacyChunks.Edited | src/models/core/chunk.rs:146-156 | the edit succeeds exactly in range and, as written, unless Air is set on an empty list (the `len() - 1` underflow); it sets the cell and keeps offsets and mesh |
| LegacyChunks.Updated | src/models/core/chunk.rs:145-158 | `set_block` succeeds exactly when the edit and the rebuilt mesh do; the stored mesh is then fresh for the new grid and list |
| LegacyChunks.SetBlock | src/models/core/chunk.rs:145-158 | the method equals that specification |
| LegacyChunks.UpdatedOk | src/models/core/chunk.rs:145-158 | with the list inside the chunk, `set_block` panics only out of range or, as written, on setting Air with an empty list, and the new list stays inside the chunk |
| LegacyChunks.SetBlockKeepsIndexed | src/models/core/chunk.rs:145-158 | every non-Air cell stays listed; the written cell reads the new block and no other cell changes |
| LegacyChunks.StaleEntryDoublesRecord | src/models/core/chunk.rs:148-155 | as written, clearing a chunk's only block and placing it again lists it twice and meshes it twice; scanning the whole list keeps one entry and one record |
| LegacyChunks.HighestInColumn | src/models/core/chunk.rs:174-176 | the highest non-Air y, at most 255, every cell above it Air; a bounds panic outside the chunk (see also src/models/core/block_map.rs:21-29) |
| LegacyChunks.HighestInColumnFromY | src/models/core/chunk.rs:178-180 | the highest y below h holding neither Air nor Water, or 0 (see also src/models/core/block_map.rs:31-40) |
| LegacyChunks.Generated | src/models/core/chunk.rs:22-84 | a generated chunk has offsets 16x and 16z and already carries its generated mesh |
| LegacyChunks.Generate | src/models/core/chunk.rs:22-84 | the method equals that specification |
| LegacyChunks.GeneratedOk | src/models/core/chunk.rs:22-84 | generation panics exactly when an offset overflows i32, a column is taller than 256, or the tree's top leaf does not fit |
| LegacyChunks.GeneratedIndexed | src/models/core/chunk.rs:22-84 | a generated chunk lists every block it holds, and only coordinates inside it |
| LegacyChunks.GeneratedTerrain | src/models/core/chunk.rs:28-45 | away from the tree each column holds the depth rule's blocks below its height and Air above |
| LegacyChunks.GeneratedTree | src/models/core/chunk.rs:50-78 | the trunk stands on the column's top block: Logs at top..top + 3, Leaves on the four sides at top + 3 and above at top + 4 |
| LegacyChunks.EditedList | src/models/core/chunk.rs:145-156 | corrected, an edit inside the chunk never panics, appends a placed block, and clearing removes exactly one occurrence of the coordinate when present and changes nothing otherwise |
| LegacyWorlds.GeneratedSound | src/models/core/chunk.rs:22-84 | a chunk `Chunk::new` builds indexes only cells inside it |
| LegacyWorlds.Ensure | src/models/core/world.rs:73-82 | afterwards the key is stored; a stored chunk is never replaced; a missing one is created; no other key changes |
| LegacyWorlds.Recalc | src/models/core/world.rs:55-71 | the recalculation pushes one mesh per visible coordinate |
| LegacyWorlds.RecalcSnoc | src/models/core/world.rs:65-66 | one more visible coordinate gets or inserts its chunk, then pushes its cached mesh |
| LegacyWorlds.RecalcLookup | src/models/core/world.rs:55-71 | the recalculation never replaces a chunk and creates exactly the missing chunks of the view, with no halo |
| LegacyWorlds.RecalcMeshes | src/models/core/world.rs:55-71 | the i-th mesh pushed is the cached mesh of the chunk stored at the i-th visible coordinate |
| LegacyWorlds.RecalcSound | src/models/core/world.rs:55-71 | the recalculation keeps every chunk sound |
| LegacyWorlds.RecalculatedView | src/models/core/world.rs:55-71 | after a recalculation, stored chunks are unchanged, exactly the swept coordinates without a chunk get a new one, and the list holds the swept chunks' meshes in sweep order |
| LegacyWorlds.BlockIn | src/models/core/world.rs:108-128 | None exactly for an absent chunk or a negative y, decided before the local offsets are computed; in a present chunk from y = 0 up, the i32 overflow of the offsets or, for y of 256 or more, the bounds panic of `block_at`; otherwise the cell at the floor-divided coordinates |
| LegacyWorlds.SetBlockIn | src/models/core/world.rs:130-146 | a successful edit stores the chunk's own `set_block` result at the localised key; an absent chunk is the unwrap panic |
| LegacyWorlds.SetBlockEffect | src/models/core/world.rs:130-146 | with the corrected list scan, succeeds exactly when the coordinates localise, the chunk is stored and 0 <= y < 256; the world stays sound and `get_block` then reads the new block (see also src/models/core/chunk.rs:145-158) |
| LegacyWorlds.AirAtIn | src/models/core/world.rs:98-106 | an absent chunk (found by truncating division) answers false |
| LegacyWorlds.NegativeCoordinateReadsAir | src/models/core/world.rs:98-106 | a negative x not a multiple of 16 gives a negative local coordinate, so from y = 2 up `air_at` answers true whatever the cell holds (see also src/models/core/chunk.rs:165-169) |
| LegacyWorlds.AirAtMisreadsStone | src/models/core/world.rs:98-128 | with chunk (-1, 0) holding Stone at local (15, 10, 0), `get_block(-1, 10, 0)` reads Stone while `air_at` answers true; the floor-division version answers false |
| LegacyWorlds.AirAtFloor | src/models/core/world.rs:98-106 | the corrected `air_at`, by floor division; an absent chunk answers false |
| LegacyWorlds.AirAtFloorAgrees | src/models/core/world.rs:98-128 | from y = 2 to the top of a stored chunk, the corrected `air_at` holds exactly when `get_block` reads Air |
| LegacyWorlds.AirAtNonNegative | src/models/core/world.rs:98-128 | for x, z >= 0 `air_at` as written equals the corrected one, and agrees with `get_block` reading Air wherever that does not panic |
| LegacyWorlds.World.constructor | src/models/core/world.rs:20-25 | no chunks, player chunk (0, 0), an empty mesh list |
| LegacyWorlds.World.GetOrInsertChunk | src/models/core/world.rs:73-82 | the store becomes the `Ensure` of its old value and the returned chunk is the one stored |
| LegacyWorlds.World.SweepCellAt | src/models/core/world.rs:60-66 | one step of the inner loop gets or inserts a visible chunk and pushes its mesh |
| LegacyWorlds.World.SweepRowAt | src/models/core/world.rs:59-67 | the inner loop carries the recalculation across one column |
| LegacyWorlds.World.CollectSweep | src/models/core/world.rs:56-68 | the loops equal the recalculation specification over the sweep |
| LegacyWorlds.World.Recalculate | src/models/core/world.rs:55-71 | store and mesh list become the recalculation's; the player chunk is untouched |
| LegacyWorlds.World.GetWorldMesh | src/models/core/world.rs:37-53 | when not forced, with a non-empty list and the same truncated player chunk, nothing changes; otherwise the world is recalculated and the chunk recorded |
| LegacyWorlds.World.SetBlock | src/models/core/world.rs:130-146 | equals the edit specification; a panic leaves the store unchanged |
| EarliestChunks.BlockAt | src/models/chunk.rs:119-121 | the cell exactly when in range, else the bounds panic |
| EarliestChunks.SetBlock | src/models/chunk.rs:123-125 | succeeds exactly in range; writes that one cell and leaves the offsets and the cached mesh as they were |
| EarliestChunks.AirAt | src/models/chunk.rs:127-139 | false below y = 2; true outside the chunk's columns or at y >= 256; otherwise exactly when the cell is Air |
| EarliestChunks.Exposed | src/models/chunk.rs:72-111 | a cell draws at most six faces |
| EarliestChunks.FaceMesh | src/models/chunk.rs:80-85 | a moved face quad is 30 numbers |
| EarliestChunks.Shown | src/models/chunk.rs:83-111 | a face contributes 30 numbers when `air_at` holds for its neighbour and none otherwise |
| EarliestChunks.CellMesh | src/models/chunk.rs:72-111 | one cell contributes 30 numbers per face it draws |
| EarliestChunks.ColumnMesh | src/models/chunk.rs:71-112 | the first n cells of a column contribute 30 numbers per face they draw |
| EarliestChunks.SlabMesh | src/models/chunk.rs:70-113 | the first n columns of a slab contribute 30 numbers per face they draw |
| EarliestChunks.GridMesh | src/models/chunk.rs:69-114 | the first n slabs of the grid contribute 30 numbers per face they draw |
| EarliestChunks.MeshOf | src/models/chunk.rs:67-117 | the mesh of a chunk holds 30 numbers per face drawn over the whole grid |
| EarliestChunks.MoveQuad | src/models/chunk.rs:84-85 | `BlockFace::new` then `transform` gives the face quad at the block's world position |
| EarliestChunks.PushFace | src/models/chunk.rs:83-86 | appends the face's quad exactly when `air_at` holds for the neighbour |
| EarliestChunks.PushCell | src/models/chunk.rs:72-111 | appends the cell's shown faces in the order Right, Left, Top, Bottom, Back, Front, nothing for Air |
| EarliestChunks.PushColumn | src/models/chunk.rs:71-112 | the y loop appends exactly the mesh of the column's 256 cells, y ascending |
| EarliestChunks.PushSlab | src/models/chunk.rs:70-113 | the z loop appends exactly the meshes of the slab's 16 columns, z ascending |
| EarliestChunks.PushGrid | src/models/chunk.rs:68-114 | the x loop, from an empty list, builds the mesh of all 16 slabs |
| EarliestChunks.GenMesh | src/models/chunk.rs:67-117 | the stored mesh is the full scan of the grid, the returned mesh is the stored one, and nothing else of the chunk changes |
| EarliestChunks.BottomLayerHidden | src/models/chunk.rs:98-130 | a block at y = 0 draws no face |
| EarliestChunks.FaceMeshShape | src/models/chunk.rs:80-85 | each vertex of a drawn face is a corner of the unit cube centred on the block's world position, on the face's side, with the texture numbers of `BlockFace::new` |
| EarliestChunks.SetBlockLeavesMeshStale | src/models/chunk.rs:123-125 | placing Stone in an all-Air chunk keeps its empty mesh although a fresh scan would draw six faces (180 numbers) |
| EarliestChunks.AirMesh | src/models/chunk.rs:67-117 | an all-Air chunk scans to an empty mesh |
| EarliestChunks.OneBlockMesh | src/models/chunk.rs:67-139 | a chunk whose only block is Stone at (0, 10, 0) scans to six faces, 180 numbers |
| EarliestChunks.AirColumnFaces | src/models/chunk.rs:71-75 | no cell of an all-Air column draws a face |
| EarliestChunks.AirSlabFaces | src/models/chunk.rs:70-75 | no column of an all-Air slab draws a face |
| EarliestChunks.AirGridFaces | src/models/chunk.rs:69-75 | no slab of an all-Air grid draws a face |
| EarliestChunks.StoneInAir | src/models/chunk.rs:123-125 | writing Stone at (0, 10, 0) into an all-Air grid leaves every other cell Air |
| EarliestChunks.OneBlockColumnFaces | src/models/chunk.rs:71-111 | with one Stone block at (0, 10, 0) among Air, the first n cells of a column draw six faces when the column is (0, 0) and n passes y = 10, and none otherwise (see also lines 127-139) |
| EarliestChunks.OneBlockSlabFaces | src/models/chunk.rs:70-111 | in that grid a slab draws six faces when it is x = 0, none otherwise |
| EarliestChunks.OneBlockGridFaces | src/models/chunk.rs:69-111 | that grid draws exactly six faces |
| EarliestChunks.Generated | src/models/chunk.rs:22-65 | a generated chunk has offsets 16 * cx and 16 * cz, a full grid and the mesh of its grid |
| EarliestChunks.Generate | src/models/chunk.rs:22-65 | the method builds exactly the generated chunk, the panics included |
| EarliestChunks.GeneratedOk | src/models/chunk.rs:25-59 | `Chunk::new` panics exactly when an offset times 16 leaves i32, a column is taller than 256, or the tree's top leaf does not fit |
| EarliestChunks.GeneratedTerrain | src/models/chunk.rs:27-43 | away from the tree every column holds Grass, then two Dirt, then Stone below its height and Air above |
| EarliestChunks.GeneratedTree | src/models/chunk.rs:47-59 | the trunk stands on the column's top block: four Logs, four Leaves around the fourth, one Leaves on top |
| EarliestChunks.GeneratedBlocks | src/models/chunk.rs:27-59 | a generated chunk with a tree holds the filled land with the tree planted at its column |
| NameUtils.FirstUpper | src/models/utils/name_utils.rs:10-12 | the first uppercase position is within the string, holds an uppercase character when below the end, and has no uppercase character before it |
| NameUtils.Trimmed | src/models/utils/name_utils.rs:7-18 | what is kept is a proper suffix of a non-empty name (empty for an empty one) that is empty or starts uppercase, with no uppercase character between the first character and its start |
| NameUtils.TrimmedUnique | src/models/utils/name_utils.rs:9-16 | the kept suffix starts at the first uppercase position after the first character |
| NameUtils.NoUpperKeepsNothing | src/models/utils/name_utils.rs:9-16 | a name with no uppercase character after the first keeps nothing |
| NameUtils.GenName | src/models/utils/name_utils.rs:7-18 | the loop computes the trimmed name |

## Left out

- Rendering, windowing, text, shaders, textures, the event loop and `src/main.rs`: these are GPU and UI code with nothing to state about the world.
- Noise sampling (`gen_heightmap`, `sample`, `octave_simplex`) and `rand::thread_rng`: these are floating-point and random calls. Column heights, snow offsets, the tree decision and the tree position are inputs instead.
- File I/O:
  - the chunk-file read in `Chunk::new` and `save`;
  - the seed file and directories in `World::new` and `new_with_seed`;
  - `.last_world`.
  
  `Chunk::new`, as a whole, is an oracle argument of the worlds that create chunks on demand.
- The network:
  - Everything in `server_connection.rs` and `server_state.rs` is left out: TCP, the listener thread, `Mutex`, JSON.
  - `send_message` is modelled as an append to the world's log of sent requests. Its `.expect` failure is not modelled.
- `raymarch_block`, in all three world files: float geometry. So are the players, the camera and `vector_utils.rs`.
- `src/models/world.rs`: it refers to a module that does not exist and holds only a fixed grid.
- Floating point:
  - Mesh numbers are written in the source as `f32`. Here they are `int` or `real`, with no rounding. The chunks emit integers, and the earliest mesher also emits integers plus or minus 0.5. An `f32` holds these exactly only while they are small. The model is therefore exact while world |x| and |z| stay at most 2^24 (chunk coordinates below 2^20), and below 2^23 for the earliest mesher's half-integers. Beyond that, `(x + self.x) as f32` rounds (src/core/chunk.rs:161-163, src/models/core/chunk.rs:114-116, src/models/multiplayer/server_chunk.rs:68-70), and that rounding is not modelled.
  - The render-distance test `sqrt(dx^2 + dz^2) > r` is written as `dx^2 + dz^2 > r^2`.
- Sweeps.SweepMembers: does not model i32 overflow of the swept coordinates `x - r + pcx` or of the halo coordinates `x + 1`. They are unbounded integers here, which agrees with the source wherever those sums fit in an i32.
- In-place mutation of chunks:
  - Chunks stored in a `CoordMap` are values. An edit through `get_mut` is modelled as `CoordMap.WriteThrough`, which writes the new value back under the same key.
  - Aliasing between chunks cannot arise in the source either, because each chunk is owned by its map.
- `Rc`/`Arc` sharing of meshes is modelled as plain values.
- Iteration order:
  - `HashSet` iteration order in `to_serialized` is an arbitrary enumeration of the set, with every property proved for every order.
  - The fetch queue is a set of coordinates. The one `GetChunks` request carries exactly that set.
- Older decoder (`src/models/utils/chunk_utils.rs`, `from_serialized`):
  - It calls an `index_to_block` that the older block table does not define. It is modelled as the current decoder, including its `unwrap` panic on an unknown code.
  - The multiplayer chunk (`server_chunk.rs`) is modelled with the current sixteen-variant blocks. The older table's rows agree with the current one on every variant they share (`LegacyBlocks.AgreesWithCurrentTable`).
- `src/models/block_map.rs` and `src/core/block_map.rs` are not part of this model. The chunks that use them are modelled over the grid of `src/models/core/block_map.rs` (`Grids`, `BlockMaps`), on the assumption that their `get`, `set` and column scans behave the same, including the index panic of `get` and `set` at y = 256. The Findings row for src/core/chunk.rs:233-252 rests on that assumption.
- Chunk-format strings are modelled as sequences of chars below 256, not as their UTF-8 bytes. `to_serialized` emits only values below 128, where the two agree. For `original_serialize`, whose y can be 128 or more, the byte length `len()` is not modelled.
- `char::is_uppercase` in `gen_name` is restricted to the ASCII letters A to Z. The `adjective_adjective_animal` generator is left out, so the name is a parameter.
- Player position: it arrives as the two `i32` values the source divides by 16. The float-to-int conversion of the player's position happens in `src/main.rs`, outside this model.
- Corrected chunk operations: the two newer worlds (`ChunkStores`, `Worlds`, `ServerWorlds`) and the older world (`LegacyWorlds`) use the corrected chunk operations of the Findings below:
  - the whole index scanned on `set_block`;
  - no panic for the face above the top layer.
  
  The as-written forms are kept beside them, behind the same `corrected` flag, with lemmas that exhibit the difference.

## Findings

| source | as written | input that shows it | evidently intended | confidence | as-written member | corrected member |
|---|---|---|---|---|---|---|
| src/utils/chunk_utils.rs:61 | the height header's flag is `y > 127` and the remainder `y % 127`, and the decoder rebuilds `flag * 127 + rem` | a chunk whose only block is Stone at y = 127 (header 0, 0) comes back with Air there; 254 and 255 decode as 127 and 128 | flag `y / 127`, so every height 0..255 is recovered | not executed | ChunkCodec.LayerAt127IsLost | ChunkCodec.CorrectedRoundTrip |
| src/core/chunk.rs:233-252 | `can_place_mesh_face_at_block` has no upper bound on y, so the query above a top-layer block reads `blocks.get(x, 256, z)` | any non-Air block at y = 255 in the index makes `gen_mesh` panic | the sky above the chunk shows the face | not executed | Chunks.TopLayerPanics | Chunks.MeshTotal |
| src/core/chunk.rs:205 | the removal loop runs over `0..len - 1`, so it never looks at the last entry | clearing the block of a chunk whose index is the single entry (x, y, z) leaves that entry in place | scan `0..len` | not executed | Chunks.LastEntryIsKept | Chunks.RemovesFirstMatch |
| src/core/chunk.rs:205 | `len - 1` on `usize` with an empty index | setting Air in a chunk with an empty index underflows and panics | an empty index is left alone | not executed | Chunks.EmptyIndexUnderflows | Chunks.RemovesFirstMatch |
| src/models/core/chunk.rs:148 | the same `0..len - 1` removal loop in the older chunk | clear a chunk's only block, then place it again: the list names it twice and the mesh holds its record twice (20 numbers) | one entry and one ten-number record | not executed | LegacyChunks.StaleEntryDoublesRecord | LegacyChunks.EditedList |
| src/models/core/world.rs:98-106 | `air_at` uses truncating `x / 16` and `x % 16` where `get_block` uses floor division | with Stone at local (15, 10, 0) of chunk (-1, 0), `air_at(-1, 10, 0)` asks chunk 0 for local x = -1 and answers true | the floor-division chunk and offset, as in `get_block` | not executed | LegacyWorlds.AirAtMisreadsStone | LegacyWorlds.AirAtFloorAgrees |
