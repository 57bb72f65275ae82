/**
 * The older chunk (models/core/chunk.rs): a grid of the ten-variant blocks, the list of
 * coordinates written so far, the world offsets, and a cached mesh that every edit rebuilds.
 * Its mesh is one stream of ten-number records and looks no further than the chunk itself:
 * `air_at` answers for cells outside it.
 */
module LegacyChunks {
  import opened Wrappers
  import opened Faces
  import opened Grids
  import opened Folds
  import opened LegacyBlocks
  import BlockMaps
  import Terrain
  import DepthTerrain
  import Chunks
  import Ints

  /** The blocks `Chunk::new` writes. */
  const Blocks: DepthTerrain.Palette<BlockType> := DepthTerrain.Palette(Grass, Dirt, Stone, Log, Leaves, Air)

  datatype Chunk = Chunk(blocks: seq<BlockType>, index: seq<Coord>, x: int, z: int, mesh: seq<int>)

  /** `block_at`: the cell, panicking out of range. */
  function BlockAt(c: Chunk, x: nat, y: nat, z: nat): (r: Result<BlockType>)
    requires IsGrid(c.blocks)
    ensures r.Ok? <==> InBounds(x, y, z)
    ensures r.Ok? ==> r.value == Get(c.blocks, x, y, z)
    ensures r.Err? ==> r.fault == OutOfBounds
  {
    if InBounds(x, y, z) then Ok(Get(c.blocks, x, y, z)) else Err(OutOfBounds)
  }

  /**
   * `air_at`: whether a face towards (x, y, z) shows. Never below y = 2; always outside the
   * chunk's columns and above its top; otherwise exactly when the cell is Air.
   */
  function AirAt(g: seq<BlockType>, x: int, y: int, z: int): (b: bool)
    requires IsGrid(g)
    ensures y < 2 ==> !b
    ensures y >= 2 && !InBounds(x, y, z) ==> b
    ensures y >= 2 && InBounds(x, y, z) ==> (b <==> Get(g, x, y, z) == Air)
  {
    if y < 2 then false
    else if x < 0 || x >= ChunkSize || y >= ChunkHeight || z < 0 || z >= ChunkSize then true
    else Get(g, x, y, z) == Air
  }

  /** The six-bit face mask of `gen_mesh`, with the bit assignment of the current chunk. */
  function Mask(g: seq<BlockType>, x: int, y: int, z: int): (m: nat)
    requires IsGrid(g)
    ensures m < 256 && m % 4 == 0
  {
    Chunks.FaceBits(AirAt(g, x, y, z - 1), AirAt(g, x + 1, y, z), AirAt(g, x, y, z + 1),
                    AirAt(g, x, y - 1, z), AirAt(g, x - 1, y, z), AirAt(g, x, y + 1, z))
  }

  /** Each bit of the mask is the `air_at` answer of one neighbour: Front z - 1, Right x + 1, Back z + 1, Bottom y - 1, Left x - 1, Top y + 1. */
  lemma MaskBits(g: seq<BlockType>, x: int, y: int, z: int)
    requires IsGrid(g)
    ensures Chunks.Bit(Mask(g, x, y, z), 7) == AirAt(g, x, y, z - 1)
    ensures Chunks.Bit(Mask(g, x, y, z), 6) == AirAt(g, x + 1, y, z)
    ensures Chunks.Bit(Mask(g, x, y, z), 5) == AirAt(g, x, y, z + 1)
    ensures Chunks.Bit(Mask(g, x, y, z), 4) == AirAt(g, x, y - 1, z)
    ensures Chunks.Bit(Mask(g, x, y, z), 3) == AirAt(g, x - 1, y, z)
    ensures Chunks.Bit(Mask(g, x, y, z), 2) == AirAt(g, x, y + 1, z)
  {
    Chunks.FaceBitsBits(AirAt(g, x, y, z - 1), AirAt(g, x + 1, y, z), AirAt(g, x, y, z + 1),
                        AirAt(g, x, y - 1, z), AirAt(g, x - 1, y, z), AirAt(g, x, y + 1, z));
  }

  /**
   * The bottom two layers are drawn from above only: a block at y = 0 shows no face at all and a
   * block at y = 1 at most its top face, as `air_at` is false below y = 2.
   */
  lemma LowLayersHidden(g: seq<BlockType>, x: int, z: int)
    requires IsGrid(g)
    ensures Mask(g, x, 0, z) == 0
    ensures Mask(g, x, 1, z) == (if AirAt(g, x, 2, z) then 4 else 0)
  {
  }

  /** The texture rows of a block's faces, in the order Front, Right, Back, Bottom, Left, Top. */
  function Rows(block: BlockType): (r: seq<int>)
    requires block != Air
    ensures |r| == 6
    ensures forall i :: 0 <= i < 6 ==> r[i] == BlockToUv(block, MeshFaceOrder[i]).value
  {
    [BlockToUv(block, Front).value, BlockToUv(block, Right).value, BlockToUv(block, Back).value,
     BlockToUv(block, Bottom).value, BlockToUv(block, Left).value, BlockToUv(block, Top).value]
  }

  /** The ten numbers pushed for one visible block: world position, six texture rows, mask. */
  function Record(offsetX: int, offsetZ: int, x: int, y: int, z: int, block: BlockType, mask: nat): (r: seq<int>)
    requires block != Air
    ensures |r| == 10
  {
    [x + offsetX, y, z + offsetZ] + Rows(block) + [mask]
  }

  /** What `gen_mesh` does with one list entry: panic out of range, skip Air and hidden blocks, else push the record. */
  function MeshStep(c: Chunk, m: seq<int>, e: Coord): (r: Result<seq<int>>)
    requires IsGrid(c.blocks)
    ensures r.Ok? <==> CoordInBounds(e)
    ensures r.Err? ==> r.fault == OutOfBounds
  {
    var (x, y, z) := e;
    if !InBounds(x, y, z) then Err(OutOfBounds)
    else
      var block := Get(c.blocks, x, y, z);
      if block == Air then Ok(m)
      else
        var mask := Mask(c.blocks, x, y, z);
        if mask == 0 then Ok(m) else Ok(m + Record(c.x, c.z, x, y, z, block, mask))
  }

  /** The loop body of `gen_mesh` as a step over list entries. */
  function Step(c: Chunk): (seq<int>, Coord) -> Result<seq<int>>
    requires IsGrid(c.blocks)
  {
    (m: seq<int>, e: Coord) => MeshStep(c, m, e)
  }

  /** What `gen_mesh` has pushed after the first k entries of the list. */
  function MeshOf(c: Chunk, k: nat): Result<seq<int>>
    requires IsGrid(c.blocks) && k <= |c.index|
  {
    Fold(Step(c), [], c.index, k)
  }

  /** `gen_mesh` never looks outside the chunk, so it panics only on a list entry out of range. */
  lemma MeshOk(c: Chunk)
    requires IsGrid(c.blocks)
    ensures MeshOf(c, |c.index|).Ok? <==> forall j :: 0 <= j < |c.index| ==> CoordInBounds(c.index[j])
  {
    FoldOk(Step(c), [], c.index, |c.index|, (m: seq<int>) => true, (e: Coord) => CoordInBounds(e));
  }

  /**
   * One pushed record: a world position in the chunk's columns above the bottom layer, six
   * texture rows of the table, and a non-zero mask with the two low bits clear.
   */
  predicate RecordOk(r: seq<int>, offsetX: int, offsetZ: int)
  {
    |r| == 10
    && offsetX <= r[0] < offsetX + ChunkSize && 1 <= r[1] < ChunkHeight && offsetZ <= r[2] < offsetZ + ChunkSize
    && (forall i :: 3 <= i < 9 ==> 0 <= r[i] <= 11)
    && 0 < r[9] < 256 && r[9] % 4 == 0
  }

  /** A stream made of whole records, each RecordOk. */
  predicate Records(s: seq<int>, offsetX: int, offsetZ: int)
    decreases |s|
  {
    if |s| == 0 then true
    else |s| >= 10 && RecordOk(s[..10], offsetX, offsetZ) && Records(s[10..], offsetX, offsetZ)
  }

  lemma {:induction false} RecordsAppend(s: seq<int>, r: seq<int>, offsetX: int, offsetZ: int)
    requires Records(s, offsetX, offsetZ) && RecordOk(r, offsetX, offsetZ)
    ensures Records(s + r, offsetX, offsetZ)
    decreases |s|
  {
    if |s| == 0 {
      assert (s + r)[..10] == r && (s + r)[10..] == [];
    } else {
      RecordsAppend(s[10..], r, offsetX, offsetZ);
      assert (s + r)[..10] == s[..10];
      assert (s + r)[10..] == s[10..] + r;
    }
  }

  /** A step keeps the stream made of well-formed records and pushes at most one. */
  lemma StepRecords(c: Chunk, m: seq<int>, e: Coord)
    requires IsGrid(c.blocks) && MeshStep(c, m, e).Ok?
    ensures Records(m, c.x, c.z) ==> Records(MeshStep(c, m, e).value, c.x, c.z)
    ensures |MeshStep(c, m, e).value| <= |m| + 10
  {
    var (x, y, z) := e;
    var block := Get(c.blocks, x, y, z);
    if block != Air {
      var mask := Mask(c.blocks, x, y, z);
      if mask != 0 && Records(m, c.x, c.z) {
        if y == 0 {
          LowLayersHidden(c.blocks, x, z);
        }
        var r := Record(c.x, c.z, x, y, z, block, mask);
        assert RecordOk(r, c.x, c.z);
        RecordsAppend(m, r, c.x, c.z);
      }
    }
  }

  /** The mesh `gen_mesh` returns is a sequence of well-formed records, at most one per list entry. */
  lemma MeshRecords(c: Chunk)
    requires IsGrid(c.blocks) && MeshOf(c, |c.index|).Ok?
    ensures Records(MeshOf(c, |c.index|).value, c.x, c.z)
    ensures |MeshOf(c, |c.index|).value| <= 10 * |c.index|
  {
    var step := Step(c);
    var inv := (m: seq<int>) => Records(m, c.x, c.z);
    forall m, e | step(m, e).Ok?
      ensures (inv(m) ==> inv(step(m, e).value)) && |step(m, e).value| <= |m| + 10
    {
      StepRecords(c, m, e);
    }
    FoldKeeps(step, [], c.index, |c.index|, inv);
    FoldGrows(step, [], c.index, |c.index|, (m: seq<int>) => |m|, 10);
  }

  /** `gen_mesh` reads the grid, the list and the offsets, never the cached mesh it replaces. */
  lemma MeshIgnoresCache(c: Chunk, cached: seq<int>)
    requires IsGrid(c.blocks)
    ensures MeshOf(c.(mesh := cached), |c.index|) == MeshOf(c, |c.index|)
  {
    var d := c.(mesh := cached);
    forall m, e ensures Step(d)(m, e) == Step(c)(m, e) {
    }
    FoldAgree(Step(d), Step(c), [], c.index, |c.index|);
  }

  /** A chunk whose cached mesh is what `gen_mesh` computes from it now. */
  predicate Fresh(c: Chunk)
  {
    IsGrid(c.blocks) && MeshOf(c, |c.index|) == Ok(c.mesh)
  }

  /** `gen_mesh`: compute the mesh, store it in the chunk and hand back that same mesh. */
  method GenMesh(c: Chunk) returns (r: Result<(Chunk, seq<int>)>)
    requires IsGrid(c.blocks)
    ensures r.Ok? <==> MeshOf(c, |c.index|).Ok?
    ensures r.Ok? ==> r.value.0 == c.(mesh := MeshOf(c, |c.index|).value) && r.value.1 == r.value.0.mesh
    ensures r.Ok? ==> Fresh(r.value.0)
    ensures r.Err? ==> r.fault == MeshOf(c, |c.index|).fault
  {
    var vertices := [];
    for k := 0 to |c.index|
      invariant Fold(Step(c), [], c.index, k) == Ok(vertices)
    {
      var step := PushEntry(c, vertices, c.index[k]);
      FoldNext(Step(c), [], c.index, k);
      if step.Err? {
        FoldFails(Step(c), [], c.index, k + 1, |c.index|);
        return Err(step.fault);
      }
      vertices := step.value;
    }
    var stored := c.(mesh := vertices);
    MeshIgnoresCache(c, vertices);
    return Ok((stored, stored.mesh));
  }

  /** The ten numbers pushed for one visible block. */
  method BuildRecord(offsetX: int, offsetZ: int, x: int, y: int, z: int, block: BlockType, mask: nat) returns (record: seq<int>)
    requires block != Air
    ensures record == Record(offsetX, offsetZ, x, y, z, block, mask)
  {
    record := [x + offsetX, y, z + offsetZ];
    for i := 0 to 6
      invariant record == [x + offsetX, y, z + offsetZ] + Rows(block)[..i]
    {
      record := record + [BlockToUv(block, MeshFaceOrder[i]).value];
    }
    record := record + [mask];
  }

  /** The body of the `gen_mesh` loop for one list entry. */
  method PushEntry(c: Chunk, vertices: seq<int>, e: Coord) returns (r: Result<seq<int>>)
    requires IsGrid(c.blocks)
    ensures r == MeshStep(c, vertices, e)
  {
    var (x, y, z) := e;
    if !InBounds(x, y, z) {
      return Err(OutOfBounds);
    }
    var block := Get(c.blocks, x, y, z);
    if block == Air {
      return Ok(vertices);
    }
    var faces := Mask(c.blocks, x, y, z);
    if faces == 0 {
      return Ok(vertices);
    }
    var record := BuildRecord(c.x, c.z, x, y, z, block, faces);
    return Ok(vertices + record);
  }

  /** Every non-Air cell of the chunk appears in its list. */
  ghost predicate Indexed(c: Chunk)
    requires IsGrid(c.blocks)
  {
    DepthTerrain.Covered(DepthTerrain.Build(c.blocks, c.index), Air)
  }

  /** The grid and list edit of `set_block`, as in the current chunk, before the mesh is rebuilt. */
  function Edited(c: Chunk, x: nat, y: nat, z: nat, block: BlockType, corrected: bool): (r: Result<Chunk>)
    requires IsGrid(c.blocks)
    ensures r.Ok? <==> InBounds(x, y, z) && (corrected || block != Air || |c.index| > 0)
    ensures r.Err? ==> (r.fault == OutOfBounds <==> !InBounds(x, y, z))
    ensures r.Ok? ==> r.value.blocks == Set(c.blocks, x, y, z, block)
    ensures r.Ok? ==> r.value.x == c.x && r.value.z == c.z && r.value.mesh == c.mesh
  {
    if !InBounds(x, y, z) then Err(OutOfBounds)
    else
      var blocks := Set(c.blocks, x, y, z, block);
      if block != Air then Ok(c.(blocks := blocks, index := c.index + [(x, y, z)]))
      else if !corrected && |c.index| == 0 then Err(Overflow)
      else Ok(c.(blocks := blocks, index := Chunks.RemoveFirst(c.index, (x, y, z), if corrected then |c.index| else |c.index| - 1)))
  }

  /**
   * `set_block`: write the cell, update the list (append a block; for Air remove the first match
   * among entries 0 .. len - 2, which skips the last entry and underflows on an empty list; the
   * corrected form scans the whole list), then `gen_mesh`. The stored mesh is never stale.
   */
  function Updated(c: Chunk, x: nat, y: nat, z: nat, block: BlockType, corrected: bool): (r: Result<Chunk>)
    requires IsGrid(c.blocks)
    ensures r.Ok? <==> (Edited(c, x, y, z, block, corrected).Ok? &&
      MeshOf(Edited(c, x, y, z, block, corrected).value, |Edited(c, x, y, z, block, corrected).value.index|).Ok?)
    ensures r.Ok? ==> Fresh(r.value) && r.value.blocks == Set(c.blocks, x, y, z, block)
    ensures r.Ok? ==> r.value.index == Edited(c, x, y, z, block, corrected).value.index
    ensures r.Ok? ==> r.value.x == c.x && r.value.z == c.z
  {
    var edited :- Edited(c, x, y, z, block, corrected);
    var mesh :- MeshOf(edited, |edited.index|);
    MeshIgnoresCache(edited, mesh);
    Ok(edited.(mesh := mesh))
  }

  method SetBlock(c: Chunk, x: nat, y: nat, z: nat, block: BlockType, corrected: bool) returns (r: Result<Chunk>)
    requires IsGrid(c.blocks)
    ensures r == Updated(c, x, y, z, block, corrected)
  {
    if !InBounds(x, y, z) {
      return Err(OutOfBounds);
    }
    var blocks := Set(c.blocks, x, y, z, block);
    var index := c.index;
    if block == Air {
      if !corrected && |index| == 0 {
        return Err(Overflow);
      }
      index := Chunks.RemoveEntry(index, (x, y, z), if corrected then |index| else |index| - 1);
    } else {
      index := index + [(x, y, z)];
    }
    var meshed := GenMesh(c.(blocks := blocks, index := index));
    if meshed.Err? {
      return Err(meshed.fault);
    }
    return Ok(meshed.value.0);
  }

  /**
   * On a chunk whose list holds only coordinates inside it, `set_block` panics only out of range
   * or, as written, on clearing a cell of a chunk with an empty list, and the list it leaves
   * holds only coordinates inside the chunk.
   */
  lemma UpdatedOk(c: Chunk, x: nat, y: nat, z: nat, block: BlockType, corrected: bool)
    requires IsGrid(c.blocks)
    requires forall j :: 0 <= j < |c.index| ==> CoordInBounds(c.index[j])
    ensures Updated(c, x, y, z, block, corrected).Ok? <==> InBounds(x, y, z) && (corrected || block != Air || |c.index| > 0)
    ensures Updated(c, x, y, z, block, corrected).Ok? ==>
      forall j :: 0 <= j < |Updated(c, x, y, z, block, corrected).value.index| ==>
        CoordInBounds(Updated(c, x, y, z, block, corrected).value.index[j])
  {
    var edited := Edited(c, x, y, z, block, corrected);
    if edited.Ok? {
      var e := edited.value;
      var limit := if corrected then |c.index| else |c.index| - 1;
      forall j | 0 <= j < |e.index|
        ensures CoordInBounds(e.index[j])
      {
        if block == Air {
          Chunks.RemoveFirstWithin(c.index, (x, y, z), limit, e.index[j]);
        }
      }
      MeshOk(e);
    }
  }

  /** `set_block` keeps every non-Air cell listed; the written cell reads the new block and no other cell changes. */
  lemma SetBlockKeepsIndexed(c: Chunk, x: nat, y: nat, z: nat, block: BlockType, corrected: bool)
    requires IsGrid(c.blocks) && Indexed(c) && Updated(c, x, y, z, block, corrected).Ok?
    ensures Indexed(Updated(c, x, y, z, block, corrected).value)
    ensures Get(Updated(c, x, y, z, block, corrected).value.blocks, x, y, z) == block
    ensures forall x', y', z' :: InBounds(x', y', z') && (x', y', z') != (x, y, z) ==>
      Get(Updated(c, x, y, z, block, corrected).value.blocks, x', y', z') == Get(c.blocks, x', y', z')
  {
    var after := Updated(c, x, y, z, block, corrected).value;
    var limit := if corrected then |c.index| else |c.index| - 1;
    SetFrame(c.blocks, x, y, z, block);
    forall x', y', z' | InBounds(x', y', z') && Get(after.blocks, x', y', z') != Air
      ensures (x', y', z') in after.index
    {
      if block == Air {
        Chunks.IndexMembership(c.index, (x, y, z), limit, (x', y', z'));
      }
    }
  }

  /**
   * As written, the removal loop skips the last list entry, so clearing a chunk's only block
   * leaves its entry behind, and placing a block there again lists it twice: `gen_mesh` then
   * pushes its record twice. Scanning the whole list keeps one entry and one record.
   */
  lemma StaleEntryDoublesRecord(c: Chunk, x: nat, y: nat, z: nat)
    requires InBounds(x, y, z) && 2 <= y
    requires c.blocks == Set(Filled(Air), x, y, z, Stone) && c.index == [(x, y, z)]
    ensures var cleared := Updated(c, x, y, z, Air, false);
      cleared.Ok? && Updated(cleared.value, x, y, z, Stone, false).Ok? &&
      Updated(cleared.value, x, y, z, Stone, false).value.index == [(x, y, z), (x, y, z)] &&
      |Updated(cleared.value, x, y, z, Stone, false).value.mesh| == 20
    ensures var cleared := Updated(c, x, y, z, Air, true);
      cleared.Ok? && Updated(cleared.value, x, y, z, Stone, true).Ok? &&
      Updated(cleared.value, x, y, z, Stone, true).value.index == [(x, y, z)] &&
      |Updated(cleared.value, x, y, z, Stone, true).value.mesh| == 10
  {
    var g := Set(Set(c.blocks, x, y, z, Air), x, y, z, Stone);
    assert g == c.blocks by {
      assert g == Filled(Air)[Index(x, y, z) := Stone];
    }
    var mask := Mask(c.blocks, x, y, z);
    assert Chunks.Bit(mask, 2) by {
      MaskBits(c.blocks, x, y, z);
      if y + 1 < ChunkHeight {
        SetOther(Filled(Air), x, y, z, Stone, x, y + 1, z);
      }
    }
    assert mask != 0;
    var twice := Chunk(c.blocks, [(x, y, z), (x, y, z)], c.x, c.z, []);
    FoldNext(Step(twice), [], twice.index, 0);
    FoldNext(Step(twice), [], twice.index, 1);
    var once := Chunk(c.blocks, [(x, y, z)], c.x, c.z, []);
    FoldNext(Step(once), [], once.index, 0);
    var cleared := Updated(c, x, y, z, Air, false).value;
    MeshIgnoresCache(twice, Updated(cleared, x, y, z, Stone, false).value.mesh);
    var fixed := Updated(c, x, y, z, Air, true).value;
    assert fixed.index == [];
    MeshIgnoresCache(once, Updated(fixed, x, y, z, Stone, true).value.mesh);
  }

  /**
   * With the whole list scanned, an edit inside the chunk never panics: a block is appended, and
   * clearing a cell removes exactly one occurrence of its coordinate when there is one and leaves
   * the list alone when there is none.
   */
  lemma EditedList(c: Chunk, x: nat, y: nat, z: nat, block: BlockType)
    requires IsGrid(c.blocks) && InBounds(x, y, z)
    ensures Edited(c, x, y, z, block, true).Ok?
    ensures block != Air ==> Edited(c, x, y, z, block, true).value.index == c.index + [(x, y, z)]
    ensures block == Air && (x, y, z) in c.index ==>
      multiset(Edited(c, x, y, z, block, true).value.index) + multiset{(x, y, z)} == multiset(c.index)
    ensures block == Air && (x, y, z) !in c.index ==> Edited(c, x, y, z, block, true).value.index == c.index
  {
    var t := (x, y, z);
    if block == Air {
      if t in c.index {
        var i :| 0 <= i < |c.index| && c.index[i] == t;
        Chunks.FirstOccurrence(c.index, t, i);
        var f :| 0 <= f < |c.index| && c.index[f] == t && forall j :: 0 <= j < f ==> c.index[j] != t;
        Chunks.RemoveFirstHit(c.index, t, |c.index|, f);
        Chunks.CutOnce(c.index, t, f);
      } else {
        Chunks.RemoveFirstMiss(c.index, t, |c.index|);
      }
    }
  }

  /** `highest_in_column`: the grid's scan from y = 255 for a non-Air cell. */
  function HighestInColumn(c: Chunk, x: nat, z: nat): (r: Result<nat>)
    requires IsGrid(c.blocks)
    ensures r.Ok? <==> x < ChunkSize && z < ChunkSize
    ensures r.Ok? ==> r.value < ChunkHeight
    ensures r.Ok? && r.value > 0 ==> Get(c.blocks, x, r.value, z) != Air
    ensures r.Ok? ==> forall y :: r.value < y < ChunkHeight ==> Get(c.blocks, x, y, z) == Air
  {
    BlockMaps.ColumnTop(c.blocks, x, z, Air)
  }

  /** `highest_in_column_from_y`: the grid's scan below h for a cell that is neither Air nor Water. */
  function HighestInColumnFromY(c: Chunk, x: nat, h: nat, z: nat): (r: Result<nat>)
    requires IsGrid(c.blocks)
    ensures r.Ok? <==> h == 0 || (x < ChunkSize && z < ChunkSize && h <= ChunkHeight)
    ensures r.Ok? && r.value > 0 ==> r.value < h && Get(c.blocks, x, r.value, z) !in {Air, Water}
    ensures r.Ok? && h > 0 ==> forall y :: r.value < y < h ==> Get(c.blocks, x, y, z) in {Air, Water}
  {
    BlockMaps.SolidTopBelow(c.blocks, x, h, z, Air, Water)
  }

  /**
   * `Chunk::new`, with the column heights for the noise and the tree's column (None when the
   * coin flip fails) for the random number generator: offsets, the fill, the tree, then
   * `gen_mesh`.
   */
  function Generated(cx: int, cz: int, heights: seq<nat>, tree: Option<(nat, nat)>): (r: Result<Chunk>)
    requires DepthTerrain.Heights(heights) && Chunks.TreeSpot(tree)
    ensures r.Ok? ==> r.value.x == 16 * cx && r.value.z == 16 * cz && Fresh(r.value)
  {
    var ox :- Chunks.Offset(cx);
    var oz :- Chunks.Offset(cz);
    var land :- DepthTerrain.LandTo(Blocks, heights, |heights|);
    DepthTerrain.LandToWellFormed(Blocks, heights, |heights|);
    var b :- if tree.Some? then DepthTerrain.Planted(Blocks, land, tree.value.0, tree.value.1) else Ok(land);
    var unmeshed := Chunk(b.blocks, b.index, ox, oz, []);
    MeshOk(unmeshed);
    var mesh := MeshOf(unmeshed, |unmeshed.index|).value;
    MeshIgnoresCache(unmeshed, mesh);
    Ok(unmeshed.(mesh := mesh))
  }

  method Generate(cx: int, cz: int, heights: seq<nat>, tree: Option<(nat, nat)>) returns (r: Result<Chunk>)
    requires DepthTerrain.Heights(heights) && Chunks.TreeSpot(tree)
    ensures r == Generated(cx, cz, heights, tree)
  {
    var ox :- Chunks.Offset(cx);
    var oz :- Chunks.Offset(cz);
    var b :- DepthTerrain.FillLand(Blocks, heights);
    DepthTerrain.LandToWellFormed(Blocks, heights, |heights|);
    if tree.Some? {
      b :- DepthTerrain.Planted(Blocks, b, tree.value.0, tree.value.1);
    }
    var unmeshed := Chunk(b.blocks, b.index, ox, oz, []);
    MeshOk(unmeshed);
    var meshed := GenMesh(unmeshed);
    return Ok(meshed.value.0);
  }

  /** `Chunk::new` panics exactly when an offset overflows i32, a column is taller than the chunk, or the tree's top leaf does not fit. */
  lemma GeneratedOk(cx: int, cz: int, heights: seq<nat>, tree: Option<(nat, nat)>)
    requires DepthTerrain.Heights(heights) && Chunks.TreeSpot(tree)
    ensures Generated(cx, cz, heights, tree).Ok? <==>
      Ints.IsI32(cx * 16) && Ints.IsI32(cz * 16) &&
      (forall i :: 0 <= i < |heights| ==> heights[i] <= ChunkHeight) &&
      (tree.Some? ==> heights[Terrain.Column(tree.value.0, tree.value.1)] <= ChunkHeight - 4)
  {
    DepthTerrain.LandToOk(Blocks, heights, |heights|);
    var land := DepthTerrain.LandTo(Blocks, heights, |heights|);
    if land.Ok? && tree.Some? {
      DepthTerrain.LandTop(Blocks, heights, tree.value.0, tree.value.1);
    }
  }

  /** A generated chunk lists every block it holds, and only coordinates inside it. */
  lemma GeneratedIndexed(cx: int, cz: int, heights: seq<nat>, tree: Option<(nat, nat)>)
    requires DepthTerrain.Heights(heights) && Chunks.TreeSpot(tree) && Generated(cx, cz, heights, tree).Ok?
    ensures var c := Generated(cx, cz, heights, tree).value;
      IsGrid(c.blocks) && Indexed(c) && forall j :: 0 <= j < |c.index| ==> CoordInBounds(c.index[j])
  {
    var land := DepthTerrain.LandTo(Blocks, heights, |heights|).value;
    DepthTerrain.LandToCovered(Blocks, heights, |heights|);
    if tree.Some? {
      var (x, z) := tree.value;
      DepthTerrain.TreeCovered(Blocks, land, x, BlockMaps.ColumnTop(land.blocks, x, z, Air).value, z, Air);
    }
  }

  /**
   * Outside the 3 x 3 columns around the tree (everywhere when there is none), a generated
   * chunk's column holds the depth rule's blocks below its height and Air above.
   */
  lemma GeneratedTerrain(cx: int, cz: int, heights: seq<nat>, tree: Option<(nat, nat)>)
    requires DepthTerrain.Heights(heights) && Chunks.TreeSpot(tree) && Generated(cx, cz, heights, tree).Ok?
    ensures var c := Generated(cx, cz, heights, tree).value;
      IsGrid(c.blocks) &&
      forall x, y, z ::
        (InBounds(x, y, z) &&
         (tree.Some? ==> x + 1 < tree.value.0 || x > tree.value.0 + 1 || z + 1 < tree.value.1 || z > tree.value.1 + 1)) ==>
          Get(c.blocks, x, y, z) ==
            if y < heights[Terrain.Column(x, z)] then DepthTerrain.DepthBlock(Blocks, heights[Terrain.Column(x, z)], y) else Air
  {
    DepthTerrain.LandToState(Blocks, heights, |heights|);
    if tree.Some? {
      var land := DepthTerrain.LandTo(Blocks, heights, |heights|).value;
      var (x, z) := tree.value;
      DepthTerrain.LandToWellFormed(Blocks, heights, |heights|);
      DepthTerrain.TreeShape(Blocks, land, x, BlockMaps.ColumnTop(land.blocks, x, z, Air).value, z);
    }
  }

  /**
   * With a tree at (x, z) on a column of height h, the trunk stands on the column's top block
   * (y = h - 1, or 0 for a column of height at most 1): Logs at top .. top + 3, Leaves on the
   * four sides at top + 3 and above at top + 4.
   */
  lemma GeneratedTree(cx: int, cz: int, heights: seq<nat>, x: nat, z: nat)
    requires DepthTerrain.Heights(heights) && Chunks.TreeSpot(Some((x, z))) && Generated(cx, cz, heights, Some((x, z))).Ok?
    ensures var c := Generated(cx, cz, heights, Some((x, z))).value;
      var h := heights[Terrain.Column(x, z)];
      var top := if h >= 2 then h - 1 else 0;
      IsGrid(c.blocks) && top + 4 < ChunkHeight &&
      Get(c.blocks, x, top, z) == Log && Get(c.blocks, x, top + 3, z) == Log &&
      Get(c.blocks, x + 1, top + 3, z) == Leaves && Get(c.blocks, x - 1, top + 3, z) == Leaves &&
      Get(c.blocks, x, top + 3, z + 1) == Leaves && Get(c.blocks, x, top + 3, z - 1) == Leaves &&
      Get(c.blocks, x, top + 4, z) == Leaves
  {
    var land := DepthTerrain.LandTo(Blocks, heights, |heights|).value;
    DepthTerrain.LandToWellFormed(Blocks, heights, |heights|);
    DepthTerrain.LandTop(Blocks, heights, x, z);
    DepthTerrain.TreeCells(Blocks, land, x, BlockMaps.ColumnTop(land.blocks, x, z, Air).value, z);
  }
}
