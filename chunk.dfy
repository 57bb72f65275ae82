/**
 * The chunk of src/core/chunk.rs: a 16 x 256 x 16 grid, the occupied-block index
 * (`blocks_in_mesh`), the chunk's world offset and its cached mesh. The multiplayer chunk of
 * src/models/multiplayer/server_chunk.rs runs the same code for `from_serialized`, `gen_mesh`,
 * `set_block` and both `can_place_*`, so this module models both. A chunk is a value here; an
 * operation that takes `&mut self` returns the new chunk.
 */
module Chunks {
  import opened Wrappers
  import opened Ints
  import opened Faces
  import opened Grids
  import opened Blocks
  import opened Folds
  import ChunkCodec
  import Terrain
  import BlockMaps

  /** The two vertex streams of a mesh: opaque blocks, and Water, drawn after them. */
  datatype Mesh = Mesh(solid: seq<int>, water: seq<int>)

  const EmptyMesh := Mesh([], [])

  datatype Chunk = Chunk(blocks: seq<BlockType>, index: seq<Coord>, x: int, z: int, mesh: Mesh)

  /** The grids of the four chunks next to this one, in `gen_mesh`'s argument order. */
  datatype Neighbours = Neighbours(right: seq<BlockType>, left: seq<BlockType>, front: seq<BlockType>, back: seq<BlockType>)

  predicate NeighboursValid(n: Neighbours)
  {
    IsGrid(n.right) && IsGrid(n.left) && IsGrid(n.front) && IsGrid(n.back)
  }

  /** A chunk coordinate scaled to the world offset, `x * 16` on i32 (a debug build panics on overflow). */
  function Offset(c: int): (r: Result<int>)
    ensures r.Ok? <==> IsI32(c * 16)
    ensures r.Ok? ==> r.value == c * 16
    ensures r.Err? ==> r.fault == Overflow
  {
    if IsI32(c * 16) then Ok(c * 16) else Err(Overflow)
  }

  /** `Chunk::from`: the decoded grid and index, the offsets x * 16 and z * 16, and an empty mesh. */
  function From(contents: seq<ChunkCodec.Byte>, x: int, z: int): (r: Result<Chunk>)
    ensures r.Ok? <==> ChunkCodec.Decode(contents).Ok? && IsI32(x * 16) && IsI32(z * 16)
    ensures r.Ok? ==> r.value.blocks == ChunkCodec.Decode(contents).value.blocks
    ensures r.Ok? ==> r.value.index == ChunkCodec.Decode(contents).value.index
    ensures r.Ok? ==> r.value.x == 16 * x && r.value.z == 16 * z && r.value.mesh == EmptyMesh
  {
    var decoded :- ChunkCodec.Decode(contents);
    var ox :- Offset(x);
    var oz :- Offset(z);
    Ok(Chunk(decoded.blocks, decoded.index, ox, oz, EmptyMesh))
  }

  /** `blocks.get(x as usize, y as usize, z as usize)`: a negative i32 becomes a huge index, so it panics like any index out of range. */
  function CellAt(g: seq<BlockType>, x: int, y: int, z: int): (r: Result<BlockType>)
    requires IsGrid(g)
    ensures r.Ok? <==> InBounds(x, y, z)
    ensures r.Ok? ==> r.value == Get(g, x, y, z)
    ensures r.Err? ==> r.fault == OutOfBounds
  {
    if InBounds(x, y, z) then Ok(Get(g, x, y, z)) else Err(OutOfBounds)
  }

  /** Whether `block` shows a face towards a neighbouring cell: the cell is Air, or it is Water and `block` is not. */
  predicate ShowsFace(spot: BlockType, block: BlockType)
  {
    spot == Air || (spot == Water && block != Water)
  }

  /** Air never hides a face, a solid block always does, and two Water cells hide the face between them. */
  lemma ShowsFaceCases(spot: BlockType, block: BlockType)
    ensures spot == Air ==> ShowsFace(spot, block)
    ensures spot != Air && spot != Water ==> !ShowsFace(spot, block)
    ensures spot == Water ==> (ShowsFace(spot, block) <==> block != Water)
  {
  }

  /** `can_place_at_local_spot`: false below the chunk, otherwise whether the cell shows the face; above or beside the chunk the lookup panics. */
  function CanPlaceAtLocalSpot(g: seq<BlockType>, x: int, y: int, z: int, block: BlockType): (r: Result<bool>)
    requires IsGrid(g)
    ensures r == if y < 0 then Ok(false) else if InBounds(x, y, z) then Ok(ShowsFace(Get(g, x, y, z), block)) else Err(OutOfBounds)
  {
    if y < 0 then Ok(false)
    else
      var spot :- CellAt(g, x, y, z);
      Ok(spot == Air || (block != Water && spot == Water))
  }

  /** The local (x, z) of this chunk or of a neighbour that `can_place_mesh_face_at_block` may look at: one step out on one side at most. */
  predicate Reach(x: int, z: int)
  {
    (0 <= x < ChunkSize && -1 <= z <= ChunkSize) || (-1 <= x <= ChunkSize && 0 <= z < ChunkSize)
  }

  /** A local coordinate one step outside the chunk, seen from the neighbour it lies in (the coordinate modulo 16). */
  function Local(v: int): (w: int)
    ensures -1 <= v <= ChunkSize ==> 0 <= w < ChunkSize && w % ChunkSize == v % ChunkSize
  {
    if v < 0 then v + ChunkSize else if v >= ChunkSize then v - ChunkSize else v
  }

  /** The grid that owns local column (x, z): this chunk's, or the neighbour's on the side it lies beyond. */
  function Owner(g: seq<BlockType>, n: Neighbours, x: int, z: int): seq<BlockType>
  {
    if x < 0 then n.left
    else if x >= ChunkSize then n.right
    else if z < 0 then n.back
    else if z >= ChunkSize then n.front
    else g
  }

  /**
   * `can_place_mesh_face_at_block`: false below the chunk. At x = 16, x = -1, z = 16 and z = -1 it asks
   * the right, left, front and back chunk about their edge cell; inside it asks this chunk's cell.
   * As written, a cell above the chunk (y = 256) is looked up and the lookup panics; the corrected
   * version (`corrected`) treats the open sky above the chunk as showing the face.
   */
  function CanPlaceMeshFaceAtBlock(g: seq<BlockType>, n: Neighbours, x: int, y: int, z: int, block: BlockType, corrected: bool): (r: Result<bool>)
    requires IsGrid(g) && NeighboursValid(n)
    ensures r.Err? ==> r.fault == OutOfBounds
  {
    if y < 0 then Ok(false)
    else if corrected && y >= ChunkHeight then Ok(true)
    else if x == 16 then CanPlaceAtLocalSpot(n.right, 0, y, z, block)
    else if x == -1 then CanPlaceAtLocalSpot(n.left, 15, y, z, block)
    else if z == 16 then CanPlaceAtLocalSpot(n.front, x, y, 0, block)
    else if z == -1 then CanPlaceAtLocalSpot(n.back, x, y, 15, block)
    else
      var spot :- CellAt(g, x, y, z);
      Ok(spot == Air || (spot == Water && block != Water))
  }

  /**
   * What a mesh-face query answers: false below the chunk, the sky above it (a panic as
   * written), and otherwise whether the cell of the chunk or neighbour that owns (x, z) shows the face.
   */
  lemma MeshFaceQuery(g: seq<BlockType>, n: Neighbours, x: int, y: int, z: int, block: BlockType, corrected: bool)
    requires IsGrid(g) && NeighboursValid(n)
    ensures y < 0 ==> CanPlaceMeshFaceAtBlock(g, n, x, y, z, block, corrected) == Ok(false)
    ensures y >= ChunkHeight ==> CanPlaceMeshFaceAtBlock(g, n, x, y, z, block, corrected) == if corrected then Ok(true) else Err(OutOfBounds)
    ensures 0 <= y < ChunkHeight && Reach(x, z) ==>
      CanPlaceMeshFaceAtBlock(g, n, x, y, z, block, corrected) == Ok(ShowsFace(Get(Owner(g, n, x, z), Local(x), y, Local(z)), block))
  {
  }

  /** The six-bit exposed-face mask: Front (z - 1) 128, Right (x + 1) 64, Back (z + 1) 32, Bottom (y - 1) 16, Left (x - 1) 8, Top (y + 1) 4. */
  function FaceBits(front: bool, right: bool, back: bool, bottom: bool, left: bool, top: bool): (m: nat)
    ensures m < 256 && m % 4 == 0
    ensures m == 0 <==> !front && !right && !back && !bottom && !left && !top
  {
    (if front then 128 else 0) + (if right then 64 else 0) + (if back then 32 else 0)
    + (if bottom then 16 else 0) + (if left then 8 else 0) + (if top then 4 else 0)
  }

  /** Bit k of m. */
  function Bit(m: nat, k: nat): bool
  {
    (m / Pow2(k)) % 2 == 1
  }

  function Pow2(k: nat): (p: nat)
    ensures p >= 1
  {
    if k == 0 then 1 else 2 * Pow2(k - 1)
  }

  /** The source ORs the six bits together; as the bits are disjoint, that is the sum. */
  lemma FaceBitsIsOr(front: bool, right: bool, back: bool, bottom: bool, left: bool, top: bool)
    ensures FaceBits(front, right, back, bottom, left, top) as bv8
         == 0 | (if front then 0x80 else 0) | (if right then 0x40 else 0) | (if back then 0x20 else 0)
              | (if bottom then 0x10 else 0) | (if left then 0x08 else 0) | (if top then 0x04 else 0)
  {
    var sum: bv8 := (if front then 0x80 else 0) + (if right then 0x40 else 0) + (if back then 0x20 else 0)
      + (if bottom then 0x10 else 0) + (if left then 0x08 else 0) + (if top then 0x04 else 0);
    assert sum as int == FaceBits(front, right, back, bottom, left, top);
  }

  /** Each face has its own bit of the mask. */
  lemma FaceBitsBits(front: bool, right: bool, back: bool, bottom: bool, left: bool, top: bool)
    ensures Bit(FaceBits(front, right, back, bottom, left, top), 7) == front
    ensures Bit(FaceBits(front, right, back, bottom, left, top), 6) == right
    ensures Bit(FaceBits(front, right, back, bottom, left, top), 5) == back
    ensures Bit(FaceBits(front, right, back, bottom, left, top), 4) == bottom
    ensures Bit(FaceBits(front, right, back, bottom, left, top), 3) == left
    ensures Bit(FaceBits(front, right, back, bottom, left, top), 2) == top
    ensures !Bit(FaceBits(front, right, back, bottom, left, top), 1) && !Bit(FaceBits(front, right, back, bottom, left, top), 0)
  {
    assert Pow2(2) == 4 && Pow2(3) == 8 && Pow2(4) == 16 && Pow2(5) == 32 && Pow2(6) == 64 && Pow2(7) == 128;
  }

  /** The mask `gen_mesh` computes for the block at (x, y, z): all six neighbour queries are made, and any of them may panic. */
  function FaceMask(g: seq<BlockType>, n: Neighbours, x: int, y: int, z: int, block: BlockType, corrected: bool): (r: Result<nat>)
    requires IsGrid(g) && NeighboursValid(n)
    ensures r.Ok? ==> r.value < 256 && r.value % 4 == 0
  {
    var front := CanPlaceMeshFaceAtBlock(g, n, x, y, z - 1, block, corrected);
    var right := CanPlaceMeshFaceAtBlock(g, n, x + 1, y, z, block, corrected);
    var back := CanPlaceMeshFaceAtBlock(g, n, x, y, z + 1, block, corrected);
    var bottom := CanPlaceMeshFaceAtBlock(g, n, x, y - 1, z, block, corrected);
    var left := CanPlaceMeshFaceAtBlock(g, n, x - 1, y, z, block, corrected);
    var top := CanPlaceMeshFaceAtBlock(g, n, x, y + 1, z, block, corrected);
    if front.Ok? && right.Ok? && back.Ok? && bottom.Ok? && left.Ok? && top.Ok? then
      Ok(FaceBits(front.value, right.value, back.value, bottom.value, left.value, top.value))
    else Err(OutOfBounds)
  }

  /** The four sideways and the downward query of a cell of the chunk, and the cell each one inspects. */
  lemma SideQueries(g: seq<BlockType>, n: Neighbours, x: int, y: int, z: int, block: BlockType, corrected: bool)
    requires IsGrid(g) && NeighboursValid(n) && InBounds(x, y, z)
    ensures CanPlaceMeshFaceAtBlock(g, n, x, y, z - 1, block, corrected)
         == Ok(ShowsFace(Get(Owner(g, n, x, z - 1), x, y, Local(z - 1)), block))
    ensures CanPlaceMeshFaceAtBlock(g, n, x + 1, y, z, block, corrected)
         == Ok(ShowsFace(Get(Owner(g, n, x + 1, z), Local(x + 1), y, z), block))
    ensures CanPlaceMeshFaceAtBlock(g, n, x, y, z + 1, block, corrected)
         == Ok(ShowsFace(Get(Owner(g, n, x, z + 1), x, y, Local(z + 1)), block))
    ensures CanPlaceMeshFaceAtBlock(g, n, x, y - 1, z, block, corrected)
         == Ok(y > 0 && ShowsFace(Get(g, x, y - 1, z), block))
    ensures CanPlaceMeshFaceAtBlock(g, n, x - 1, y, z, block, corrected)
         == Ok(ShowsFace(Get(Owner(g, n, x - 1, z), Local(x - 1), y, z), block))
  {
    MeshFaceQuery(g, n, x, y, z - 1, block, corrected);
    MeshFaceQuery(g, n, x + 1, y, z, block, corrected);
    MeshFaceQuery(g, n, x, y, z + 1, block, corrected);
    MeshFaceQuery(g, n, x, y - 1, z, block, corrected);
    MeshFaceQuery(g, n, x - 1, y, z, block, corrected);
    assert Local(x) == x && Local(z) == z;
    assert Reach(x, z - 1) && Reach(x + 1, z) && Reach(x, z + 1) && Reach(x - 1, z) && Reach(x, z);
  }

  /** The upward query: as written it panics from the top layer; corrected, the sky shows the face. */
  lemma TopQuery(g: seq<BlockType>, n: Neighbours, x: int, y: int, z: int, block: BlockType, corrected: bool)
    requires IsGrid(g) && NeighboursValid(n) && InBounds(x, y, z)
    ensures CanPlaceMeshFaceAtBlock(g, n, x, y + 1, z, block, corrected).Ok? <==> corrected || y < ChunkHeight - 1
    ensures CanPlaceMeshFaceAtBlock(g, n, x, y + 1, z, block, corrected).Ok? ==>
      CanPlaceMeshFaceAtBlock(g, n, x, y + 1, z, block, corrected).value == (y + 1 >= ChunkHeight || ShowsFace(Get(g, x, y + 1, z), block))
  {
    MeshFaceQuery(g, n, x, y + 1, z, block, corrected);
    assert Local(x) == x && Local(z) == z;
    assert Reach(x, z);
  }

  /**
   * The mask of a cell of the chunk from what its six neighbours hold: a face shows where its
   * neighbour shows it, the bottom face never shows from the bottom layer, and the top face of
   * the top layer faces the sky; as written, the top layer's upward query panics instead.
   */
  function MaskOf(g: seq<BlockType>, n: Neighbours, x: int, y: int, z: int, block: BlockType, corrected: bool): (r: Result<nat>)
    requires IsGrid(g) && NeighboursValid(n) && InBounds(x, y, z)
    ensures r.Ok? <==> corrected || y < ChunkHeight - 1
    ensures r.Err? ==> r.fault == OutOfBounds
  {
    if !corrected && y == ChunkHeight - 1 then Err(OutOfBounds)
    else Ok(FaceBits(
      ShowsFace(Get(Owner(g, n, x, z - 1), x, y, Local(z - 1)), block),
      ShowsFace(Get(Owner(g, n, x + 1, z), Local(x + 1), y, z), block),
      ShowsFace(Get(Owner(g, n, x, z + 1), x, y, Local(z + 1)), block),
      y > 0 && ShowsFace(Get(g, x, y - 1, z), block),
      ShowsFace(Get(Owner(g, n, x - 1, z), Local(x - 1), y, z), block),
      y + 1 >= ChunkHeight || ShowsFace(Get(g, x, y + 1, z), block)))
  }

  /** The six neighbour queries of a cell of the chunk compute exactly MaskOf. */
  lemma FaceMaskOk(g: seq<BlockType>, n: Neighbours, x: int, y: int, z: int, block: BlockType, corrected: bool)
    requires IsGrid(g) && NeighboursValid(n) && InBounds(x, y, z)
    ensures FaceMask(g, n, x, y, z, block, corrected) == MaskOf(g, n, x, y, z, block, corrected)
  {
    SideQueries(g, n, x, y, z, block, corrected);
    TopQuery(g, n, x, y, z, block, corrected);
  }

  /** Each bit of the mask says whether that neighbour shows the face; the two low bits are clear. */
  lemma MaskOfBits(g: seq<BlockType>, n: Neighbours, x: int, y: int, z: int, block: BlockType, corrected: bool)
    requires IsGrid(g) && NeighboursValid(n) && InBounds(x, y, z)
    requires MaskOf(g, n, x, y, z, block, corrected).Ok?
    ensures var m := MaskOf(g, n, x, y, z, block, corrected).value;
      && Bit(m, 7) == ShowsFace(Get(Owner(g, n, x, z - 1), x, y, Local(z - 1)), block)
      && Bit(m, 6) == ShowsFace(Get(Owner(g, n, x + 1, z), Local(x + 1), y, z), block)
      && Bit(m, 5) == ShowsFace(Get(Owner(g, n, x, z + 1), x, y, Local(z + 1)), block)
      && Bit(m, 4) == (y > 0 && ShowsFace(Get(g, x, y - 1, z), block))
      && Bit(m, 3) == ShowsFace(Get(Owner(g, n, x - 1, z), Local(x - 1), y, z), block)
      && Bit(m, 2) == (y + 1 >= ChunkHeight || ShowsFace(Get(g, x, y + 1, z), block))
      && !Bit(m, 1) && !Bit(m, 0)
  {
    FaceBitsBits(
      ShowsFace(Get(Owner(g, n, x, z - 1), x, y, Local(z - 1)), block),
      ShowsFace(Get(Owner(g, n, x + 1, z), Local(x + 1), y, z), block),
      ShowsFace(Get(Owner(g, n, x, z + 1), x, y, Local(z + 1)), block),
      y > 0 && ShowsFace(Get(g, x, y - 1, z), block),
      ShowsFace(Get(Owner(g, n, x - 1, z), Local(x - 1), y, z), block),
      y + 1 >= ChunkHeight || ShowsFace(Get(g, x, y + 1, z), block));
  }

  /** The texture rows of a block's faces, in the order Front, Right, Back, Bottom, Left, Top. */
  function Rows(block: BlockType): (r: seq<int>)
    requires block != Air
    ensures |r| == 6
    ensures forall i :: 0 <= i < 6 ==> r[i] == BlockToUv(block, MeshFaceOrder[i]).value
  {
    [BlockToUv(block, Front).value, BlockToUv(block, Right).value, BlockToUv(block, Back).value,
     BlockToUv(block, Bottom).value, BlockToUv(block, Left).value, BlockToUv(block, Top).value]
  }

  /** The ten numbers `gen_mesh` pushes for one visible block: world position, six texture rows, mask. */
  function Record(offsetX: int, offsetZ: int, x: int, y: int, z: int, block: BlockType, mask: nat): (r: seq<int>)
    requires block != Air
    ensures |r| == 10
  {
    [x + offsetX, y, z + offsetZ] + Rows(block) + [mask]
  }

  /** What `gen_mesh` does with one index entry: skip it, or push its record onto one of the two streams. */
  function MeshStep(c: Chunk, n: Neighbours, m: Mesh, e: Coord, corrected: bool): (r: Result<Mesh>)
    requires IsGrid(c.blocks) && NeighboursValid(n)
    ensures r.Err? ==> r.fault == OutOfBounds
  {
    var (x, y, z) := e;
    var block :- CellAt(c.blocks, x, y, z);
    if block == Air then Ok(m)
    else
      var mask :- MaskOf(c.blocks, n, x, y, z, block, corrected);
      if mask == 0 then Ok(m)
      else if block == Water then Ok(Mesh(m.solid, m.water + Record(c.x, c.z, x, y, z, block, mask)))
      else Ok(Mesh(m.solid + Record(c.x, c.z, x, y, z, block, mask), m.water))
  }

  /** The loop body of `gen_mesh` as a step over index entries. */
  function StepOf(c: Chunk, n: Neighbours, corrected: bool): (Mesh, Coord) -> Result<Mesh>
    requires IsGrid(c.blocks) && NeighboursValid(n)
  {
    (m: Mesh, e: Coord) => MeshStep(c, n, m, e, corrected)
  }

  /** What `gen_mesh` has pushed after the first k entries of the index. */
  function MeshOf(c: Chunk, n: Neighbours, k: nat, corrected: bool): Result<Mesh>
    requires IsGrid(c.blocks) && NeighboursValid(n) && k <= |c.index|
  {
    Fold(StepOf(c, n, corrected), EmptyMesh, c.index, k)
  }

  /** An index entry `gen_mesh` can handle: one in the chunk, and as written not a block in the top layer. */
  predicate EntryOk(c: Chunk, e: Coord, corrected: bool)
    requires IsGrid(c.blocks)
  {
    CoordInBounds(e) && (corrected || e.1 < ChunkHeight - 1 || At(c, e) == Air)
  }

  function At(c: Chunk, e: Coord): BlockType
    requires IsGrid(c.blocks) && CoordInBounds(e)
  {
    Get(c.blocks, e.0, e.1, e.2)
  }

  /** One step panics exactly when its entry is outside the chunk or, as written, a block in the top layer. */
  lemma StepOk(c: Chunk, n: Neighbours, m: Mesh, e: Coord, corrected: bool)
    requires IsGrid(c.blocks) && NeighboursValid(n)
    ensures MeshStep(c, n, m, e, corrected).Ok? <==> EntryOk(c, e, corrected)
  {
  }

  /** `gen_mesh` panics exactly when an entry lies outside the chunk or, as written, a block sits in the top layer. */
  lemma MeshOk(c: Chunk, n: Neighbours, corrected: bool)
    requires IsGrid(c.blocks) && NeighboursValid(n)
    ensures MeshOf(c, n, |c.index|, corrected).Ok? <==> forall j :: 0 <= j < |c.index| ==> EntryOk(c, c.index[j], corrected)
  {
    var step := StepOf(c, n, corrected);
    var ok := (e: Coord) => EntryOk(c, e, corrected);
    forall m, e ensures step(m, e).Ok? <==> ok(e) {
      StepOk(c, n, m, e, corrected);
    }
    FoldOk(step, EmptyMesh, c.index, |c.index|, (m: Mesh) => true, ok);
  }

  /** `gen_mesh`: walk the index, push one record per block that shows a face, water into its own stream. */
  method GenMesh(c: Chunk, n: Neighbours, corrected: bool) returns (r: Result<Mesh>)
    requires IsGrid(c.blocks) && NeighboursValid(n)
    ensures r == MeshOf(c, n, |c.index|, corrected)
  {
    var mesh := EmptyMesh;
    for k := 0 to |c.index|
      invariant MeshOf(c, n, k, corrected) == Ok(mesh)
    {
      var step := PushEntry(c, n, mesh, c.index[k], corrected);
      MeshNext(c, n, corrected, k);
      if step.Err? {
        FoldFails(StepOf(c, n, corrected), EmptyMesh, c.index, k + 1, |c.index|);
        return Err(step.fault);
      }
      mesh := step.value;
    }
    return Ok(mesh);
  }

  /** One more index entry: `gen_mesh`'s step on the mesh so far, unless that already panicked. */
  lemma MeshNext(c: Chunk, n: Neighbours, corrected: bool, k: nat)
    requires IsGrid(c.blocks) && NeighboursValid(n) && k < |c.index|
    ensures MeshOf(c, n, k, corrected).Err? ==> MeshOf(c, n, k + 1, corrected) == MeshOf(c, n, k, corrected)
    ensures MeshOf(c, n, k, corrected).Ok? ==>
      MeshOf(c, n, k + 1, corrected) == MeshStep(c, n, MeshOf(c, n, k, corrected).value, c.index[k], corrected)
  {
    FoldNext(StepOf(c, n, corrected), EmptyMesh, c.index, k);
  }

  /** The numbers pushed for one visible block: its world position, a texture row per face, and the mask. */
  method BuildRecord(offsetX: int, offsetZ: int, x: int, y: int, z: int, block: BlockType, mask: nat) returns (record: seq<int>)
    requires block != Air
    ensures record == Record(offsetX, offsetZ, x, y, z, block, mask)
  {
    record := [x + offsetX, y, z + offsetZ];
    for i := 0 to 6
      invariant record == [x + offsetX, y, z + offsetZ] + Rows(block)[..i]
    {
      record := record + [BlockToUv(block, MeshFaceOrder[i]).value];
    }
    record := record + [mask];
  }

  /** The body of the `gen_mesh` loop for one index entry. */
  method PushEntry(c: Chunk, n: Neighbours, mesh: Mesh, e: Coord, corrected: bool) returns (r: Result<Mesh>)
    requires IsGrid(c.blocks) && NeighboursValid(n)
    ensures r == MeshStep(c, n, mesh, e, corrected)
  {
    var (x, y, z) := e;
    var cell := CellAt(c.blocks, x, y, z);
    if cell.Err? {
      return Err(cell.fault);
    }
    var block := cell.value;
    if block == Air {
      return Ok(mesh);
    }
    var faces := FaceMask(c.blocks, n, x, y, z, block, corrected);
    FaceMaskOk(c.blocks, n, x, y, z, block, corrected);
    if faces.Err? {
      return Err(faces.fault);
    }
    if faces.value == 0 {
      return Ok(mesh);
    }
    var record := BuildRecord(c.x, c.z, x, y, z, block, faces.value);
    if block == Water {
      return Ok(Mesh(mesh.solid, mesh.water + record));
    } else {
      return Ok(Mesh(mesh.solid + record, mesh.water));
    }
  }

  /**
   * One pushed record: a world position inside the chunk's columns, six texture rows, and a
   * non-zero mask with the two low bits clear; its first row is the water row exactly in the water stream.
   */
  predicate RecordOk(r: seq<int>, water: bool, offsetX: int, offsetZ: int)
  {
    |r| == 10
    && offsetX <= r[0] < offsetX + ChunkSize && 0 <= r[1] < ChunkHeight && offsetZ <= r[2] < offsetZ + ChunkSize
    && (forall i :: 3 <= i < 9 ==> 0 <= r[i] <= 18)
    && (r[3] == 11 <==> water)
    && 0 < r[9] < 256 && r[9] % 4 == 0
  }

  /** A stream made of whole records, each RecordOk. */
  predicate Records(s: seq<int>, water: bool, offsetX: int, offsetZ: int)
    decreases |s|
  {
    if |s| == 0 then true
    else |s| >= 10 && RecordOk(s[..10], water, offsetX, offsetZ) && Records(s[10..], water, offsetX, offsetZ)
  }

  lemma {:induction false} RecordsAppend(s: seq<int>, r: seq<int>, water: bool, offsetX: int, offsetZ: int)
    requires Records(s, water, offsetX, offsetZ) && RecordOk(r, water, offsetX, offsetZ)
    ensures Records(s + r, water, offsetX, offsetZ)
    decreases |s|
  {
    if |s| == 0 {
      assert (s + r)[..10] == r && (s + r)[10..] == [];
    } else {
      RecordsAppend(s[10..], r, water, offsetX, offsetZ);
      assert (s + r)[..10] == s[..10];
      assert (s + r)[10..] == s[10..] + r;
    }
  }

  /** The record of a block that shows a face is well formed, and lands in the right stream. */
  lemma RecordIsOk(c: Chunk, x: int, y: int, z: int, block: BlockType, mask: nat)
    requires InBounds(x, y, z) && block != Air
    requires 0 < mask < 256 && mask % 4 == 0
    ensures RecordOk(Record(c.x, c.z, x, y, z, block, mask), block == Water, c.x, c.z)
  {
    var r := Record(c.x, c.z, x, y, z, block, mask);
    assert r[3] == BlockToUv(block, Front).value;
    if r[3] == 11 {
      WaterRowIsUnique(block, Front);
    }
  }

  /** Both streams are made of well-formed records. */
  predicate Streams(m: Mesh, offsetX: int, offsetZ: int)
  {
    Records(m.solid, false, offsetX, offsetZ) && Records(m.water, true, offsetX, offsetZ)
  }

  function Size(m: Mesh): nat
  {
    |m.solid| + |m.water|
  }

  /** A step keeps both streams well formed and pushes at most one record. */
  lemma StepRecords(c: Chunk, n: Neighbours, m: Mesh, e: Coord, corrected: bool)
    requires IsGrid(c.blocks) && NeighboursValid(n)
    requires MeshStep(c, n, m, e, corrected).Ok?
    ensures Streams(m, c.x, c.z) ==> Streams(MeshStep(c, n, m, e, corrected).value, c.x, c.z)
    ensures Size(MeshStep(c, n, m, e, corrected).value) <= Size(m) + 10
  {
    var (x, y, z) := e;
    var block := CellAt(c.blocks, x, y, z).value;
    if block != Air {
      var mask := MaskOf(c.blocks, n, x, y, z, block, corrected).value;
      if mask != 0 && Streams(m, c.x, c.z) {
        RecordIsOk(c, x, y, z, block, mask);
        var r := Record(c.x, c.z, x, y, z, block, mask);
        if block == Water {
          RecordsAppend(m.water, r, true, c.x, c.z);
        } else {
          RecordsAppend(m.solid, r, false, c.x, c.z);
        }
      }
    }
  }

  /**
   * Every stream `gen_mesh` returns is a sequence of well-formed records, solid blocks in the
   * first and water in the second, at most one record per index entry.
   */
  lemma MeshRecords(c: Chunk, n: Neighbours, corrected: bool)
    requires IsGrid(c.blocks) && NeighboursValid(n)
    requires MeshOf(c, n, |c.index|, corrected).Ok?
    ensures Streams(MeshOf(c, n, |c.index|, corrected).value, c.x, c.z)
    ensures Size(MeshOf(c, n, |c.index|, corrected).value) <= 10 * |c.index|
  {
    var step := StepOf(c, n, corrected);
    var inv := (m: Mesh) => Streams(m, c.x, c.z);
    forall m, e | step(m, e).Ok?
      ensures (inv(m) ==> inv(step(m, e).value)) && Size(step(m, e).value) <= Size(m) + 10
    {
      StepRecords(c, n, m, e, corrected);
    }
    FoldKeeps(step, EmptyMesh, c.index, |c.index|, inv);
    FoldGrows(step, EmptyMesh, c.index, |c.index|, Size, 10);
  }

  /** `gen_mesh` reads the grid, the index and the offsets of a chunk, never its cached mesh. */
  lemma MeshIgnoresCache(c: Chunk, n: Neighbours, corrected: bool, cached: Mesh)
    requires IsGrid(c.blocks) && NeighboursValid(n)
    ensures MeshOf(c.(mesh := cached), n, |c.index|, corrected) == MeshOf(c, n, |c.index|, corrected)
  {
    var d := c.(mesh := cached);
    forall m, e ensures StepOf(d, n, corrected)(m, e) == StepOf(c, n, corrected)(m, e) {
    }
    FoldAgree(StepOf(d, n, corrected), StepOf(c, n, corrected), EmptyMesh, c.index, |c.index|);
  }

  /** As written, a block in the top layer makes `gen_mesh` panic: the face query above it reads layer 256. */
  lemma TopLayerPanics(c: Chunk, n: Neighbours, j: nat)
    requires IsGrid(c.blocks) && NeighboursValid(n) && j < |c.index|
    requires CoordInBounds(c.index[j]) && c.index[j].1 == ChunkHeight - 1 && At(c, c.index[j]) != Air
    ensures MeshOf(c, n, |c.index|, false).Err?
  {
    MeshOk(c, n, false);
    assert !EntryOk(c, c.index[j], false);
  }

  /** With the height guard in place, `gen_mesh` succeeds exactly when every index entry lies in the chunk. */
  lemma MeshTotal(c: Chunk, n: Neighbours)
    requires IsGrid(c.blocks) && NeighboursValid(n)
    ensures MeshOf(c, n, |c.index|, true).Ok? <==> forall j :: 0 <= j < |c.index| ==> CoordInBounds(c.index[j])
  {
    MeshOk(c, n, true);
    assert forall j :: 0 <= j < |c.index| ==> (EntryOk(c, c.index[j], true) <==> CoordInBounds(c.index[j]));
  }

  /** `s` with its first entry equal to `t` removed, looking only at the first `limit` entries. */
  function RemoveFirst(s: seq<Coord>, t: Coord, limit: nat): (r: seq<Coord>)
    ensures |r| == |s| || |r| == |s| - 1
    decreases |s|
  {
    if |s| == 0 || limit == 0 then s
    else if s[0] == t then s[1..]
    else [s[0]] + RemoveFirst(s[1..], t, limit - 1)
  }

  /** When `t` first occurs at i, inside the limit, exactly that entry goes. */
  lemma {:induction false} RemoveFirstHit(s: seq<Coord>, t: Coord, limit: nat, i: nat)
    requires i < limit && i < |s| && s[i] == t
    requires forall j :: 0 <= j < i ==> s[j] != t
    ensures RemoveFirst(s, t, limit) == s[..i] + s[i + 1..]
    decreases i
  {
    if i > 0 {
      assert s[0] != t;
      RemoveFirstHit(s[1..], t, limit - 1, i - 1);
      assert s[1..][..i - 1] == s[1..i] && s[1..][i..] == s[i + 1..];
      assert [s[0]] + s[1..i] == s[..i];
    }
  }

  /** Cutting out the entry at i takes exactly one t out of the multiset of entries. */
  lemma CutOnce(s: seq<Coord>, t: Coord, i: nat)
    requires i < |s| && s[i] == t
    ensures multiset(s[..i] + s[i + 1..]) + multiset{t} == multiset(s)
  {
    assert s == s[..i] + [t] + s[i + 1..];
  }

  /** When `t` does not occur inside the limit, nothing is removed. */
  lemma {:induction false} RemoveFirstMiss(s: seq<Coord>, t: Coord, limit: nat)
    requires forall j :: 0 <= j < |s| && j < limit ==> s[j] != t
    ensures RemoveFirst(s, t, limit) == s
    decreases |s|
  {
    if |s| > 0 && limit > 0 {
      assert s[0] != t;
      RemoveFirstMiss(s[1..], t, limit - 1);
      assert [s[0]] + s[1..] == s;
    }
  }

  /**
   * `set_block`: write the cell (BlockMap::set panics out of range), then append the coordinate
   * for a block, or remove its first occurrence for Air. As written the removal loop is
   * `0..len - 1`, which skips the last entry and underflows on an empty index; `corrected`
   * scans the whole index. The cached mesh is not rebuilt.
   */
  function Updated(c: Chunk, x: nat, y: nat, z: nat, block: BlockType, corrected: bool): (r: Result<Chunk>)
    requires IsGrid(c.blocks)
    ensures r.Ok? <==> InBounds(x, y, z) && (corrected || block != Air || |c.index| > 0)
    ensures r.Err? ==> (r.fault == OutOfBounds <==> !InBounds(x, y, z))
    ensures r.Ok? ==> r.value.blocks == Set(c.blocks, x, y, z, block)
    ensures r.Ok? ==> r.value.x == c.x && r.value.z == c.z && r.value.mesh == c.mesh
    ensures r.Ok? && block != Air ==> r.value.index == c.index + [(x, y, z)]
  {
    if !InBounds(x, y, z) then Err(OutOfBounds)
    else
      var blocks := Set(c.blocks, x, y, z, block);
      if block != Air then Ok(c.(blocks := blocks, index := c.index + [(x, y, z)]))
      else if !corrected && |c.index| == 0 then Err(Overflow)
      else Ok(c.(blocks := blocks, index := RemoveFirst(c.index, (x, y, z), if corrected then |c.index| else |c.index| - 1)))
  }

  method SetBlock(c: Chunk, x: nat, y: nat, z: nat, block: BlockType, corrected: bool) returns (r: Result<Chunk>)
    requires IsGrid(c.blocks)
    ensures r == Updated(c, x, y, z, block, corrected)
  {
    if !InBounds(x, y, z) {
      return Err(OutOfBounds);
    }
    var blocks := Set(c.blocks, x, y, z, block);
    var index := c.index;
    if block == Air {
      if !corrected && |index| == 0 {
        return Err(Overflow);
      }
      index := RemoveEntry(index, (x, y, z), if corrected then |index| else |index| - 1);
    } else {
      index := index + [(x, y, z)];
    }
    return Ok(c.(blocks := blocks, index := index));
  }

  /** The removal loop of `set_block`: scan the first `limit` entries, drop the first match, stop. */
  method RemoveEntry(index: seq<Coord>, t: Coord, limit: nat) returns (r: seq<Coord>)
    requires limit <= |index|
    ensures r == RemoveFirst(index, t, limit)
  {
    var i := 0;
    while i < limit
      invariant i <= limit
      invariant forall j :: 0 <= j < i ==> index[j] != t
    {
      if index[i] == t {
        RemoveFirstHit(index, t, limit, i);
        return index[..i] + index[i + 1..];
      }
      i := i + 1;
    }
    RemoveFirstMiss(index, t, limit);
    return index;
  }

  /** A chunk whose every occupied cell appears in its index. */
  ghost predicate Indexed(c: Chunk)
    requires IsGrid(c.blocks)
  {
    Terrain.Covered(Terrain.Build(c.blocks, c.index))
  }

  /**
   * `set_block` keeps every occupied cell indexed, as written and corrected; the written cell
   * reads the new block and no other cell changes.
   */
  lemma SetBlockKeepsIndexed(c: Chunk, x: nat, y: nat, z: nat, block: BlockType, corrected: bool)
    requires IsGrid(c.blocks) && Indexed(c) && Updated(c, x, y, z, block, corrected).Ok?
    ensures Indexed(Updated(c, x, y, z, block, corrected).value)
    ensures Get(Updated(c, x, y, z, block, corrected).value.blocks, x, y, z) == block
    ensures forall x', y', z' :: InBounds(x', y', z') && (x', y', z') != (x, y, z) ==>
      Get(Updated(c, x, y, z, block, corrected).value.blocks, x', y', z') == Get(c.blocks, x', y', z')
  {
    var after := Updated(c, x, y, z, block, corrected).value;
    SetFrame(c.blocks, x, y, z, block);
    forall x', y', z' | InBounds(x', y', z') && Get(after.blocks, x', y', z') != Air
      ensures (x', y', z') in after.index
    {
      if block == Air {
        var t := (x, y, z);
        assert (x', y', z') != t;
        IndexMembership(c.index, t, if corrected then |c.index| else |c.index| - 1, (x', y', z'));
      }
    }
  }

  /** Removing one occurrence of t keeps every other coordinate. */
  lemma {:induction false} IndexMembership(s: seq<Coord>, t: Coord, limit: nat, p: Coord)
    requires p != t && p in s
    ensures p in RemoveFirst(s, t, limit)
    decreases |s|
  {
    if limit > 0 && s[0] != t && s[0] != p {
      IndexMembership(s[1..], t, limit - 1, p);
    }
  }

  /** Removing an entry adds none: every entry left was in the index before. */
  lemma {:induction false} RemoveFirstWithin(s: seq<Coord>, t: Coord, limit: nat, p: Coord)
    requires p in RemoveFirst(s, t, limit)
    ensures p in s
    decreases |s|
  {
    if |s| > 0 && limit > 0 && s[0] != t && p != s[0] {
      RemoveFirstWithin(s[1..], t, limit - 1, p);
    }
  }

  /** As written, clearing a block whose entry is the last of the index leaves that entry behind. */
  lemma LastEntryIsKept(c: Chunk, x: nat, y: nat, z: nat)
    requires IsGrid(c.blocks) && InBounds(x, y, z) && c.index == [(x, y, z)]
    ensures Updated(c, x, y, z, Air, false) == Ok(c.(blocks := Set(c.blocks, x, y, z, Air)))
    ensures Updated(c, x, y, z, Air, true) == Ok(c.(blocks := Set(c.blocks, x, y, z, Air), index := []))
  {
  }

  /** As written, clearing a cell of a chunk with an empty index computes `0 - 1` on usize and panics. */
  lemma EmptyIndexUnderflows(c: Chunk, x: nat, y: nat, z: nat)
    requires IsGrid(c.blocks) && InBounds(x, y, z) && c.index == []
    ensures Updated(c, x, y, z, Air, false) == Err(Overflow)
  {
  }

  /**
   * With the whole index scanned, clearing a cell removes exactly one occurrence of its
   * coordinate when there is one, and leaves the index alone when there is none.
   */
  lemma RemovesFirstMatch(c: Chunk, x: nat, y: nat, z: nat)
    requires IsGrid(c.blocks) && InBounds(x, y, z)
    ensures Updated(c, x, y, z, Air, true).Ok?
    ensures (x, y, z) in c.index ==>
      multiset(Updated(c, x, y, z, Air, true).value.index) + multiset{(x, y, z)} == multiset(c.index)
    ensures (x, y, z) !in c.index ==> Updated(c, x, y, z, Air, true).value.index == c.index
  {
    var t := (x, y, z);
    if t in c.index {
      var i :| 0 <= i < |c.index| && c.index[i] == t;
      FirstOccurrence(c.index, t, i);
      var f :| 0 <= f < |c.index| && c.index[f] == t && forall j :: 0 <= j < f ==> c.index[j] != t;
      RemoveFirstHit(c.index, t, |c.index|, f);
      CutOnce(c.index, t, f);
    } else {
      RemoveFirstMiss(c.index, t, |c.index|);
    }
  }

  lemma {:induction false} FirstOccurrence(s: seq<Coord>, t: Coord, i: nat)
    requires i < |s| && s[i] == t
    ensures exists f :: 0 <= f < |s| && s[f] == t && forall j :: 0 <= j < f ==> s[j] != t
    decreases i
  {
    if exists j :: 0 <= j < i && s[j] == t {
      var j :| 0 <= j < i && s[j] == t;
      FirstOccurrence(s, t, j);
    }
  }

  /** A tree position `Chunk::new` can draw: x and z from `rng * 11 + 3`, so within 3 ..= 13. */
  predicate TreeSpot(tree: Option<(nat, nat)>)
  {
    tree.Some? ==> 3 <= tree.value.0 <= 13 && 3 <= tree.value.1 <= 13
  }

  /**
   * `Chunk::new` when there is no save file, as a value: the offsets, the 256 columns filled in
   * loop order, then the tree (None when the 90% draw fails), and an empty mesh.
   */
  function Generated(cx: int, cz: int, heights: seq<nat>, snows: seq<nat>, tree: Option<(nat, nat)>): (r: Result<Chunk>)
    requires Terrain.Heightmap(heights, snows) && TreeSpot(tree)
    ensures r.Ok? ==> r.value.x == 16 * cx && r.value.z == 16 * cz && r.value.mesh == EmptyMesh
  {
    var ox :- Offset(cx);
    var oz :- Offset(cz);
    var land :- Terrain.LandTo(heights, snows, |heights|);
    Terrain.LandToWellFormed(heights, snows, |heights|);
    var b :- if tree.Some? then Terrain.Planted(land, tree.value.0, tree.value.1) else Ok(land);
    Ok(Chunk(b.blocks, b.index, ox, oz, EmptyMesh))
  }

  /** `Chunk::new` without a save file: heights, snow offsets and the tree draw stand for the noise and the random number generator. */
  method Generate(cx: int, cz: int, heights: seq<nat>, snows: seq<nat>, tree: Option<(nat, nat)>) returns (r: Result<Chunk>)
    requires Terrain.Heightmap(heights, snows) && TreeSpot(tree)
    ensures r == Generated(cx, cz, heights, snows, tree)
  {
    var ox :- Offset(cx);
    var oz :- Offset(cz);
    var b :- Terrain.FillLand(heights, snows);
    Terrain.LandToWellFormed(heights, snows, |heights|);
    if tree.Some? {
      b :- Terrain.StampTree(b, tree.value.0, tree.value.1);
    }
    return Ok(Chunk(b.blocks, b.index, ox, oz, EmptyMesh));
  }

  /** The tree fits in the chunk: when it is stamped (a tall column with a Grass surface), its highest leaf is below y = 256. */
  predicate TreeFits(heights: seq<nat>, snows: seq<nat>, tree: Option<(nat, nat)>)
    requires Terrain.Heightmap(heights, snows) && TreeSpot(tree)
  {
    tree.Some? ==>
      var i := Terrain.Column(tree.value.0, tree.value.1);
      heights[i] >= 10 && Terrain.SurfaceBlock(heights[i], snows[i]) == Ok(Grass) ==> heights[i] + 4 < ChunkHeight
  }

  /** `Chunk::new` panics exactly when an offset overflows i32, a column cannot be filled, or the tree does not fit. */
  lemma GeneratedOk(cx: int, cz: int, heights: seq<nat>, snows: seq<nat>, tree: Option<(nat, nat)>)
    requires Terrain.Heightmap(heights, snows) && TreeSpot(tree)
    ensures Generated(cx, cz, heights, snows, tree).Ok? <==>
      IsI32(cx * 16) && IsI32(cz * 16) &&
      (forall i :: 0 <= i < |heights| ==> Terrain.ColumnOk(heights[i], snows[i])) &&
      TreeFits(heights, snows, tree)
  {
    Terrain.LandToOk(heights, snows, |heights|);
    var land := Terrain.LandTo(heights, snows, |heights|);
    if land.Ok? && tree.Some? {
      Terrain.LandToWellFormed(heights, snows, |heights|);
      Terrain.LandTop(heights, snows, tree.value.0, tree.value.1);
      Terrain.PlantedOk(land.value, tree.value.0, tree.value.1);
    }
  }

  /** A generated chunk indexes every block it holds, and only coordinates inside it. */
  lemma GeneratedIndexed(cx: int, cz: int, heights: seq<nat>, snows: seq<nat>, tree: Option<(nat, nat)>)
    requires Terrain.Heightmap(heights, snows) && TreeSpot(tree) && Generated(cx, cz, heights, snows, tree).Ok?
    ensures var c := Generated(cx, cz, heights, snows, tree).value;
      IsGrid(c.blocks) && Indexed(c) && forall j :: 0 <= j < |c.index| ==> CoordInBounds(c.index[j])
  {
    var land := Terrain.LandTo(heights, snows, |heights|).value;
    Terrain.LandToCovered(heights, snows, |heights|);
    if tree.Some? {
      Terrain.PlantedCovered(land, tree.value.0, tree.value.1);
    }
  }

  /** So the corrected `gen_mesh` never panics on a generated chunk. */
  lemma GeneratedMeshes(cx: int, cz: int, heights: seq<nat>, snows: seq<nat>, tree: Option<(nat, nat)>, n: Neighbours)
    requires Terrain.Heightmap(heights, snows) && TreeSpot(tree) && Generated(cx, cz, heights, snows, tree).Ok?
    requires NeighboursValid(n)
    ensures var c := Generated(cx, cz, heights, snows, tree).value;
      IsGrid(c.blocks) && MeshOf(c, n, |c.index|, true).Ok?
  {
    GeneratedIndexed(cx, cz, heights, snows, tree);
    MeshTotal(Generated(cx, cz, heights, snows, tree).value, n);
  }

  /**
   * Outside the 3 x 3 columns around the tree (everywhere when there is none), a generated
   * chunk's column holds the column rule's blocks up to its extent and Air above.
   */
  lemma GeneratedTerrain(cx: int, cz: int, heights: seq<nat>, snows: seq<nat>, tree: Option<(nat, nat)>)
    requires Terrain.Heightmap(heights, snows) && TreeSpot(tree) && Generated(cx, cz, heights, snows, tree).Ok?
    ensures var c := Generated(cx, cz, heights, snows, tree).value;
      IsGrid(c.blocks) &&
      forall x, y, z ::
        (InBounds(x, y, z) &&
         (tree.Some? ==> x + 1 < tree.value.0 || x > tree.value.0 + 1 || z + 1 < tree.value.1 || z > tree.value.1 + 1)) ==>
          Ok(Get(c.blocks, x, y, z)) ==
            if y < Terrain.Extent(heights[Terrain.Column(x, z)])
            then Terrain.CellBlock(heights[Terrain.Column(x, z)], snows[Terrain.Column(x, z)], y)
            else Ok(Air)
  {
    Terrain.LandToState(heights, snows, |heights|);
    if tree.Some? {
      Terrain.LandToWellFormed(heights, snows, |heights|);
      Terrain.PlantedOutside(Terrain.LandTo(heights, snows, |heights|).value, tree.value.0, tree.value.1);
    }
  }

  /**
   * The multiplayer chunk's own `highest_in_column`: the grid's scan from y = 255 for a non-Air
   * cell (unlike the `GameChunk` default, which starts below 255 and skips Water).
   */
  function HighestInColumn(c: Chunk, x: nat, z: nat): (r: Result<nat>)
    requires IsGrid(c.blocks)
    ensures r.Ok? <==> x < ChunkSize && z < ChunkSize
    ensures r.Ok? ==> r.value < ChunkHeight
    ensures r.Ok? && r.value > 0 ==> Get(c.blocks, x, r.value, z) != Air
    ensures r.Ok? ==> forall y :: r.value < y < ChunkHeight ==> Get(c.blocks, x, y, z) == Air
  {
    BlockMaps.ColumnTop(c.blocks, x, z, Air)
  }

  /** The multiplayer chunk's own `highest_in_column_from_y`: the grid's scan below h for a cell that is neither Air nor Water. */
  function HighestInColumnFromY(c: Chunk, x: nat, h: nat, z: nat): (r: Result<nat>)
    requires IsGrid(c.blocks)
    ensures r.Ok? <==> h == 0 || (x < ChunkSize && z < ChunkSize && h <= ChunkHeight)
    ensures r.Ok? && r.value > 0 ==> r.value < h && Get(c.blocks, x, r.value, z) !in {Air, Water}
    ensures r.Ok? && h > 0 ==> forall y :: r.value < y < h ==> Get(c.blocks, x, y, z) in {Air, Water}
  {
    BlockMaps.SolidTopBelow(c.blocks, x, h, z, Air, Water)
  }
}
