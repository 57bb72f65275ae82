/**
 * The earliest chunk (models/chunk.rs): the six-variant blocks, the world offsets and a cached
 * mesh of textured quads. `gen_mesh` scans every cell and appends, for each exposed face of a
 * block, the 30 numbers of that face's quad moved to the block's world position; `set_block`
 * writes the grid only.
 */
module EarliestChunks {
  import opened Wrappers
  import opened Faces
  import opened Grids
  import opened EarliestBlocks
  import BlockFaces
  import BlockMaps
  import DepthTerrain
  import Terrain
  import Chunks
  import Ints

  /** The blocks `Chunk::new` writes. */
  const Blocks: DepthTerrain.Palette<BlockType> := DepthTerrain.Palette(Grass, Dirt, Stone, Log, Leaves, Air)

  datatype Chunk = Chunk(blocks: seq<BlockType>, x: int, z: int, mesh: seq<real>)

  /** `block_at`: the cell, panicking out of range. */
  function BlockAt(c: Chunk, x: nat, y: nat, z: nat): (r: Result<BlockType>)
    requires IsGrid(c.blocks)
    ensures r.Ok? <==> InBounds(x, y, z)
    ensures r.Ok? ==> r.value == Get(c.blocks, x, y, z)
  {
    if InBounds(x, y, z) then Ok(Get(c.blocks, x, y, z)) else Err(OutOfBounds)
  }

  /** `set_block`: the grid write (panicking out of range); the cached mesh is left as it was. */
  function SetBlock(c: Chunk, x: nat, y: nat, z: nat, block: BlockType): (r: Result<Chunk>)
    requires IsGrid(c.blocks)
    ensures r.Ok? <==> InBounds(x, y, z)
    ensures r.Ok? ==> r.value == c.(blocks := Set(c.blocks, x, y, z, block))
  {
    if InBounds(x, y, z) then Ok(c.(blocks := Set(c.blocks, x, y, z, block))) else Err(OutOfBounds)
  }

  /**
   * `air_at`: whether a face towards (x, y, z) shows. Never below y = 2; always outside the
   * chunk's columns and above its top; otherwise exactly when the cell is Air.
   */
  function AirAt(g: seq<BlockType>, x: int, y: int, z: int): (b: bool)
    requires IsGrid(g)
    ensures y < 2 ==> !b
    ensures y >= 2 && !InBounds(x, y, z) ==> b
    ensures y >= 2 && InBounds(x, y, z) ==> (b <==> Get(g, x, y, z) == Air)
  {
    if y < 2 then false
    else if x < 0 || x >= ChunkSize || y >= ChunkHeight || z < 0 || z >= ChunkSize then true
    else Get(g, x, y, z) == Air
  }

  /** The neighbour a face looks towards. */
  function Towards(face: Face, x: int, y: int, z: int): (int, int, int)
  {
    match face
    case Right => (x + 1, y, z)
    case Left => (x - 1, y, z)
    case Top => (x, y + 1, z)
    case Bottom => (x, y - 1, z)
    case Back => (x, y, z + 1)
    case Front => (x, y, z - 1)
  }

  /** Whether a block's face at (x, y, z) is drawn: `air_at` of the neighbour it looks towards. */
  predicate Shows(g: seq<BlockType>, x: int, y: int, z: int, face: Face)
    requires IsGrid(g)
  {
    var (nx, ny, nz) := Towards(face, x, y, z);
    AirAt(g, nx, ny, nz)
  }

  /** The order `gen_mesh` checks the faces in. */
  const FaceOrder: seq<Face> := [Right, Left, Top, Bottom, Back, Front]

  function Bit(b: bool): nat { if b then 1 else 0 }

  /** The number of faces a cell draws: none for Air, else one per neighbour `air_at` holds for. */
  function Exposed(g: seq<BlockType>, x: int, y: int, z: int): (n: nat)
    requires IsGrid(g) && InBounds(x, y, z)
    ensures n <= 6
  {
    if Get(g, x, y, z) == Air then 0
    else Bit(Shows(g, x, y, z, Right)) + Bit(Shows(g, x, y, z, Left)) + Bit(Shows(g, x, y, z, Top)) +
         Bit(Shows(g, x, y, z, Bottom)) + Bit(Shows(g, x, y, z, Back)) + Bit(Shows(g, x, y, z, Front))
  }

  /** The faces drawn by the first n cells (y < n) of column (x, z). */
  function ColumnFaces(g: seq<BlockType>, x: nat, z: nat, n: nat): nat
    requires IsGrid(g) && x < ChunkSize && z < ChunkSize && n <= ChunkHeight
  {
    if n == 0 then 0 else ColumnFaces(g, x, z, n - 1) + Exposed(g, x, n - 1, z)
  }

  /** The faces drawn by the first n columns (z < n) of slab x. */
  function SlabFaces(g: seq<BlockType>, x: nat, n: nat): nat
    requires IsGrid(g) && x < ChunkSize && n <= ChunkSize
  {
    if n == 0 then 0 else SlabFaces(g, x, n - 1) + ColumnFaces(g, x, n - 1, ChunkHeight)
  }

  /** The faces drawn by the first n slabs (x < n) of the grid. */
  function GridFaces(g: seq<BlockType>, n: nat): nat
    requires IsGrid(g) && n <= ChunkSize
  {
    if n == 0 then 0 else GridFaces(g, n - 1) + SlabFaces(g, n - 1, ChunkSize)
  }

  /** The 30 numbers of a block's face quad moved to the block's world position, for a chunk at offsets (ox, oz). */
  function FaceMesh(ox: int, oz: int, x: int, y: int, z: int, block: BlockType, face: Face): (r: seq<real>)
    requires block != Air
    ensures |r| == BlockFaces.FaceLength
  {
    BlockFaces.Moved(BlockFaces.New(block, face).value, (x + ox) as real, y as real, (z + oz) as real).vertices
  }

  /** The face's numbers when it shows, nothing otherwise. */
  function Shown(g: seq<BlockType>, ox: int, oz: int, x: int, y: int, z: int, block: BlockType, face: Face): (r: seq<real>)
    requires IsGrid(g) && block != Air
    ensures |r| == 30 * Bit(Shows(g, x, y, z, face))
  {
    if Shows(g, x, y, z, face) then FaceMesh(ox, oz, x, y, z, block, face) else []
  }

  /** What `gen_mesh` appends for one cell: its shown faces in the order Right, Left, Top, Bottom, Back, Front. */
  function CellMesh(g: seq<BlockType>, ox: int, oz: int, x: int, y: int, z: int): (r: seq<real>)
    requires IsGrid(g) && InBounds(x, y, z)
    ensures |r| == 30 * Exposed(g, x, y, z)
  {
    var block := Get(g, x, y, z);
    if block == Air then []
    else
      Shown(g, ox, oz, x, y, z, block, Right) + Shown(g, ox, oz, x, y, z, block, Left) +
      Shown(g, ox, oz, x, y, z, block, Top) + Shown(g, ox, oz, x, y, z, block, Bottom) +
      Shown(g, ox, oz, x, y, z, block, Back) + Shown(g, ox, oz, x, y, z, block, Front)
  }

  /** What the y loop appends for the first n cells (y < n) of column (x, z): 30 numbers per face drawn. */
  function ColumnMesh(g: seq<BlockType>, ox: int, oz: int, x: nat, z: nat, n: nat): (r: seq<real>)
    requires IsGrid(g) && x < ChunkSize && z < ChunkSize && n <= ChunkHeight
    ensures |r| == 30 * ColumnFaces(g, x, z, n)
  {
    if n == 0 then [] else ColumnMesh(g, ox, oz, x, z, n - 1) + CellMesh(g, ox, oz, x, n - 1, z)
  }

  /** What the z loop appends for the first n columns (z < n) of slab x: 30 numbers per face drawn. */
  function SlabMesh(g: seq<BlockType>, ox: int, oz: int, x: nat, n: nat): (r: seq<real>)
    requires IsGrid(g) && x < ChunkSize && n <= ChunkSize
    ensures |r| == 30 * SlabFaces(g, x, n)
  {
    if n == 0 then [] else SlabMesh(g, ox, oz, x, n - 1) + ColumnMesh(g, ox, oz, x, n - 1, ChunkHeight)
  }

  /** What the x loop appends for the first n slabs (x < n) of the grid: 30 numbers per face drawn. */
  function GridMesh(g: seq<BlockType>, ox: int, oz: int, n: nat): (r: seq<real>)
    requires IsGrid(g) && n <= ChunkSize
    ensures |r| == 30 * GridFaces(g, n)
  {
    if n == 0 then [] else GridMesh(g, ox, oz, n - 1) + SlabMesh(g, ox, oz, n - 1, ChunkSize)
  }

  /** The mesh `gen_mesh` builds for a chunk: every cell scanned. Only the grid and the offsets matter; the cached mesh is never read. */
  function MeshOf(c: Chunk): (r: seq<real>)
    requires IsGrid(c.blocks)
    ensures |r| == 30 * GridFaces(c.blocks, ChunkSize)
  {
    GridMesh(c.blocks, c.x, c.z, ChunkSize)
  }

  /** `BlockFace::new` and `transform`: the face's quad moved to the block's world position. */
  method MoveQuad(ox: int, oz: int, x: int, y: int, z: int, block: BlockType, face: Face) returns (r: seq<real>)
    requires block != Air
    ensures r == FaceMesh(ox, oz, x, y, z, block, face)
  {
    var quad := BlockFaces.New(block, face).value;
    var moved := BlockFaces.Transform(quad, (x + ox) as real, y as real, (z + oz) as real);
    r := moved.vertices;
  }

  /** One face of one cell: the quad appended when `air_at` holds for the neighbour it looks towards. */
  method PushFace(g: seq<BlockType>, ox: int, oz: int, vertices: seq<real>, x: int, y: int, z: int, block: BlockType, face: Face)
    returns (r: seq<real>)
    requires IsGrid(g) && block != Air
    ensures r == vertices + Shown(g, ox, oz, x, y, z, block, face)
  {
    r := vertices;
    var (nx, ny, nz) := Towards(face, x, y, z);
    assert Shows(g, x, y, z, face) == AirAt(g, nx, ny, nz);
    if AirAt(g, nx, ny, nz) {
      var quad := MoveQuad(ox, oz, x, y, z, block, face);
      r := r + quad;
    }
  }

  /** The body of the innermost loop of `gen_mesh` for one cell. */
  method PushCell(g: seq<BlockType>, ox: int, oz: int, vertices: seq<real>, x: int, y: int, z: int) returns (r: seq<real>)
    requires IsGrid(g) && InBounds(x, y, z)
    ensures r == vertices + CellMesh(g, ox, oz, x, y, z)
  {
    var block := Get(g, x, y, z);
    if block == Air {
      return vertices;
    }
    r := PushFace(g, ox, oz, vertices, x, y, z, block, Right);
    ghost var faces := Shown(g, ox, oz, x, y, z, block, Right);
    r := PushFace(g, ox, oz, r, x, y, z, block, Left);
    Snoc(vertices, faces, Shown(g, ox, oz, x, y, z, block, Left));
    faces := faces + Shown(g, ox, oz, x, y, z, block, Left);
    r := PushFace(g, ox, oz, r, x, y, z, block, Top);
    Snoc(vertices, faces, Shown(g, ox, oz, x, y, z, block, Top));
    faces := faces + Shown(g, ox, oz, x, y, z, block, Top);
    r := PushFace(g, ox, oz, r, x, y, z, block, Bottom);
    Snoc(vertices, faces, Shown(g, ox, oz, x, y, z, block, Bottom));
    faces := faces + Shown(g, ox, oz, x, y, z, block, Bottom);
    r := PushFace(g, ox, oz, r, x, y, z, block, Back);
    Snoc(vertices, faces, Shown(g, ox, oz, x, y, z, block, Back));
    faces := faces + Shown(g, ox, oz, x, y, z, block, Back);
    r := PushFace(g, ox, oz, r, x, y, z, block, Front);
    Snoc(vertices, faces, Shown(g, ox, oz, x, y, z, block, Front));
    faces := faces + Shown(g, ox, oz, x, y, z, block, Front);
    assert faces == CellMesh(g, ox, oz, x, y, z);
  }

  lemma Snoc(a: seq<real>, b: seq<real>, c: seq<real>)
    ensures a + b + c == a + (b + c)
  {
  }

  /** The y loop of `gen_mesh` over column (x, z). */
  method PushColumn(g: seq<BlockType>, ox: int, oz: int, vertices: seq<real>, x: nat, z: nat) returns (r: seq<real>)
    requires IsGrid(g) && x < ChunkSize && z < ChunkSize
    ensures r == vertices + ColumnMesh(g, ox, oz, x, z, ChunkHeight)
  {
    r := vertices;
    for y := 0 to ChunkHeight
      invariant r == vertices + ColumnMesh(g, ox, oz, x, z, y)
    {
      Snoc(vertices, ColumnMesh(g, ox, oz, x, z, y), CellMesh(g, ox, oz, x, y, z));
      r := PushCell(g, ox, oz, r, x, y, z);
    }
  }

  /** The z loop of `gen_mesh` for x. */
  method PushSlab(g: seq<BlockType>, ox: int, oz: int, vertices: seq<real>, x: nat) returns (r: seq<real>)
    requires IsGrid(g) && x < ChunkSize
    ensures r == vertices + SlabMesh(g, ox, oz, x, ChunkSize)
  {
    r := vertices;
    for z := 0 to ChunkSize
      invariant r == vertices + SlabMesh(g, ox, oz, x, z)
    {
      Snoc(vertices, SlabMesh(g, ox, oz, x, z), ColumnMesh(g, ox, oz, x, z, ChunkHeight));
      r := PushColumn(g, ox, oz, r, x, z);
    }
  }

  /** The x loop of `gen_mesh`: every cell of grid `g` scanned, for a chunk at offsets (ox, oz). */
  method PushGrid(g: seq<BlockType>, ox: int, oz: int) returns (r: seq<real>)
    requires IsGrid(g)
    ensures r == GridMesh(g, ox, oz, ChunkSize)
  {
    r := [];
    for x := 0 to ChunkSize
      invariant r == GridMesh(g, ox, oz, x)
    {
      r := PushSlab(g, ox, oz, r, x);
    }
  }

  /** `gen_mesh`: scan every cell, store the vertices as the mesh and hand back that same mesh. */
  method GenMesh(c: Chunk) returns (r: (Chunk, seq<real>))
    requires IsGrid(c.blocks)
    ensures r.0 == c.(mesh := MeshOf(c)) && r.1 == r.0.mesh
  {
    var vertices := PushGrid(c.blocks, c.x, c.z);
    var stored := c.(mesh := vertices);
    return (stored, stored.mesh);
  }

  /** A block on the bottom layer draws nothing, as `air_at` is false below y = 2 and for any y = 0 neighbour. */
  lemma BottomLayerHidden(g: seq<BlockType>, ox: int, oz: int, x: nat, z: nat)
    requires IsGrid(g) && x < ChunkSize && z < ChunkSize
    ensures Exposed(g, x, 0, z) == 0 && CellMesh(g, ox, oz, x, 0, z) == []
  {
  }

  /**
   * Each drawn face is the face's quad around the block's world position: every vertex is a
   * corner of the unit cube centred there, on the face's side, with the texture coordinates of
   * `BlockFace::new`.
   */
  lemma FaceMeshShape(ox: int, oz: int, x: int, y: int, z: int, block: BlockType, face: Face, k: nat)
    requires block != Air && k < 6
    ensures var v := FaceMesh(ox, oz, x, y, z, block, face);
      var q := BlockFaces.New(block, face).value.vertices;
      BlockFaces.Field(v, k, 0) - (x + ox) as real in {-0.5, 0.5} &&
      BlockFaces.Field(v, k, 1) - y as real in {-0.5, 0.5} &&
      BlockFaces.Field(v, k, 2) - (z + oz) as real in {-0.5, 0.5} &&
      BlockFaces.Field(v, k, BlockFaces.Axis(face)) - [(x + ox) as real, y as real, (z + oz) as real][BlockFaces.Axis(face)] == BlockFaces.Side(face) &&
      BlockFaces.Field(v, k, 3) == BlockFaces.Field(q, k, 3) && BlockFaces.Field(v, k, 4) == BlockFaces.Field(q, k, 4)
  {
    var q := BlockFaces.New(block, face).value;
    BlockFaces.NewShape(block, face);
    BlockFaces.MovedOnSide(q, face, (x + ox) as real, y as real, (z + oz) as real, k);
  }

  /**
   * `set_block` leaves the mesh stale: in a chunk of Air with an up-to-date (empty) mesh, placing
   * one block at (0, 10, 0) keeps the empty mesh, while `gen_mesh` would now draw six faces.
   */
  lemma SetBlockLeavesMeshStale(c: Chunk)
    requires c.blocks == Filled(Air) && c.mesh == MeshOf(c)
    ensures c.mesh == []
    ensures SetBlock(c, 0, 10, 0, Stone).Ok? && SetBlock(c, 0, 10, 0, Stone).value.mesh == []
    ensures |MeshOf(SetBlock(c, 0, 10, 0, Stone).value)| == 180
  {
    AirMesh(c);
    var c' := c.(blocks := Set(Filled(Air), 0, 10, 0, Stone));
    assert SetBlock(c, 0, 10, 0, Stone) == Ok(c');
    OneBlockMesh(c');
  }

  /** An all-Air chunk has an empty mesh. */
  lemma AirMesh(c: Chunk)
    requires c.blocks == Filled(Air)
    ensures MeshOf(c) == []
  {
    AirGridFaces(c.blocks, ChunkSize);
  }

  /** A chunk holding one Stone block at (0, 10, 0) draws that block's six faces. */
  lemma OneBlockMesh(c: Chunk)
    requires c.blocks == Set(Filled(Air), 0, 10, 0, Stone)
    ensures |MeshOf(c)| == 180
  {
    StoneInAir();
    OneBlockGridFaces(c.blocks, ChunkSize);
  }

  /** No cell of an all-Air grid draws a face. */
  lemma {:induction false} AirColumnFaces(g: seq<BlockType>, x: nat, z: nat, n: nat)
    requires g == Filled(Air) && x < ChunkSize && z < ChunkSize && n <= ChunkHeight
    ensures ColumnFaces(g, x, z, n) == 0
  {
    if n > 0 {
      AirColumnFaces(g, x, z, n - 1);
    }
  }

  lemma {:induction false} AirSlabFaces(g: seq<BlockType>, x: nat, n: nat)
    requires g == Filled(Air) && x < ChunkSize && n <= ChunkSize
    ensures SlabFaces(g, x, n) == 0
  {
    if n > 0 {
      AirSlabFaces(g, x, n - 1);
      AirColumnFaces(g, x, n - 1, ChunkHeight);
    }
  }

  lemma {:induction false} AirGridFaces(g: seq<BlockType>, n: nat)
    requires g == Filled(Air) && n <= ChunkSize
    ensures GridFaces(g, n) == 0
  {
    if n > 0 {
      AirGridFaces(g, n - 1);
      AirSlabFaces(g, n - 1, ChunkSize);
    }
  }

  /** A grid holding Stone at (0, 10, 0) and Air in every other cell. */
  ghost predicate OneBlock(g: seq<BlockType>)
    requires IsGrid(g)
  {
    Get(g, 0, 10, 0) == Stone &&
    forall x, y, z :: InBounds(x, y, z) && (x, y, z) != (0, 10, 0) ==> Get(g, x, y, z) == Air
  }

  /** Stone written at (0, 10, 0) of an all-Air grid gives the one-block grid. */
  lemma StoneInAir()
    ensures OneBlock(Set(Filled(Air), 0, 10, 0, Stone))
  {
    SetFrame(Filled(Air), 0, 10, 0, Stone);
  }

  /** With one Stone block at (0, 10, 0), that cell draws all six faces and no other cell of its column draws any. */
  lemma {:induction false} OneBlockColumnFaces(g: seq<BlockType>, x: nat, z: nat, n: nat)
    requires IsGrid(g) && OneBlock(g) && x < ChunkSize && z < ChunkSize && n <= ChunkHeight
    ensures ColumnFaces(g, x, z, n) == if x == 0 && z == 0 && n > 10 then 6 else 0
  {
    if n > 0 {
      OneBlockColumnFaces(g, x, z, n - 1);
    }
  }

  lemma {:induction false} OneBlockSlabFaces(g: seq<BlockType>, x: nat, n: nat)
    requires IsGrid(g) && OneBlock(g) && x < ChunkSize && n <= ChunkSize
    ensures SlabFaces(g, x, n) == if x == 0 && n > 0 then 6 else 0
  {
    if n > 0 {
      OneBlockSlabFaces(g, x, n - 1);
      OneBlockColumnFaces(g, x, n - 1, ChunkHeight);
    }
  }

  /** With one Stone block at (0, 10, 0) among Air, the grid draws exactly that block's six faces. */
  lemma {:induction false} OneBlockGridFaces(g: seq<BlockType>, n: nat)
    requires IsGrid(g) && OneBlock(g) && n <= ChunkSize
    ensures GridFaces(g, n) == if n > 0 then 6 else 0
  {
    if n > 0 {
      OneBlockGridFaces(g, n - 1);
      OneBlockSlabFaces(g, n - 1, ChunkSize);
    }
  }

  /**
   * `Chunk::new`, with the column heights for the noise and the tree's column (None when the
   * coin flip fails) for the random number generator: offsets, the fill, the tree, `gen_mesh`.
   */
  function Generated(cx: int, cz: int, heights: seq<nat>, tree: Option<(nat, nat)>): (r: Result<Chunk>)
    requires DepthTerrain.Heights(heights) && Chunks.TreeSpot(tree)
    ensures r.Ok? ==> r.value.x == 16 * cx && r.value.z == 16 * cz && IsGrid(r.value.blocks) && r.value.mesh == MeshOf(r.value)
  {
    var ox :- Chunks.Offset(cx);
    var oz :- Chunks.Offset(cz);
    var land :- DepthTerrain.LandTo(Blocks, heights, |heights|);
    DepthTerrain.LandToWellFormed(Blocks, heights, |heights|);
    var b :- if tree.Some? then DepthTerrain.Planted(Blocks, land, tree.value.0, tree.value.1) else Ok(land);
    var unmeshed := Chunk(b.blocks, ox, oz, []);
    var mesh := MeshOf(unmeshed);
    Ok(unmeshed.(mesh := mesh))
  }

  method Generate(cx: int, cz: int, heights: seq<nat>, tree: Option<(nat, nat)>) returns (r: Result<Chunk>)
    requires DepthTerrain.Heights(heights) && Chunks.TreeSpot(tree)
    ensures r == Generated(cx, cz, heights, tree)
  {
    var ox :- Chunks.Offset(cx);
    var oz :- Chunks.Offset(cz);
    var b :- DepthTerrain.FillLand(Blocks, heights);
    DepthTerrain.LandToWellFormed(Blocks, heights, |heights|);
    if tree.Some? {
      b :- DepthTerrain.Planted(Blocks, b, tree.value.0, tree.value.1);
    }
    var meshed := GenMesh(Chunk(b.blocks, ox, oz, []));
    return Ok(meshed.0);
  }

  /** `Chunk::new` panics exactly when an offset overflows i32, a column is taller than the chunk, or the tree's top leaf does not fit. */
  lemma GeneratedOk(cx: int, cz: int, heights: seq<nat>, tree: Option<(nat, nat)>)
    requires DepthTerrain.Heights(heights) && Chunks.TreeSpot(tree)
    ensures Generated(cx, cz, heights, tree).Ok? <==>
      Ints.IsI32(cx * 16) && Ints.IsI32(cz * 16) &&
      (forall i :: 0 <= i < |heights| ==> heights[i] <= ChunkHeight) &&
      (tree.Some? ==> heights[Terrain.Column(tree.value.0, tree.value.1)] <= ChunkHeight - 4)
  {
    DepthTerrain.LandToOk(Blocks, heights, |heights|);
    var land := DepthTerrain.LandTo(Blocks, heights, |heights|);
    if land.Ok? && tree.Some? {
      DepthTerrain.LandTop(Blocks, heights, tree.value.0, tree.value.1);
    }
  }

  /**
   * Outside the 3 x 3 columns around the tree (everywhere when there is none), a generated
   * chunk's column holds the depth rule's blocks below its height and Air above.
   */
  lemma GeneratedTerrain(cx: int, cz: int, heights: seq<nat>, tree: Option<(nat, nat)>)
    requires DepthTerrain.Heights(heights) && Chunks.TreeSpot(tree) && Generated(cx, cz, heights, tree).Ok?
    ensures var c := Generated(cx, cz, heights, tree).value;
      forall x, y, z ::
        (InBounds(x, y, z) &&
         (tree.Some? ==> x + 1 < tree.value.0 || x > tree.value.0 + 1 || z + 1 < tree.value.1 || z > tree.value.1 + 1)) ==>
          Get(c.blocks, x, y, z) ==
            if y < heights[Terrain.Column(x, z)] then DepthTerrain.DepthBlock(Blocks, heights[Terrain.Column(x, z)], y) else Air
  {
    DepthTerrain.LandToState(Blocks, heights, |heights|);
    if tree.Some? {
      var land := DepthTerrain.LandTo(Blocks, heights, |heights|).value;
      var (x, z) := tree.value;
      DepthTerrain.LandToWellFormed(Blocks, heights, |heights|);
      DepthTerrain.TreeShape(Blocks, land, x, BlockMaps.ColumnTop(land.blocks, x, z, Air).value, z);
    }
  }

  /**
   * With a tree at (x, z) on a column of height h, the trunk stands on the column's top block
   * (y = h - 1, or 0 for a column of height at most 1): Logs at top .. top + 3, Leaves on the
   * four sides at top + 3 and above at top + 4.
   */
  lemma GeneratedTree(cx: int, cz: int, heights: seq<nat>, x: nat, z: nat)
    requires DepthTerrain.Heights(heights) && Chunks.TreeSpot(Some((x, z))) && Generated(cx, cz, heights, Some((x, z))).Ok?
    ensures var c := Generated(cx, cz, heights, Some((x, z))).value;
      var h := heights[Terrain.Column(x, z)];
      var top := if h >= 2 then h - 1 else 0;
      top + 4 < ChunkHeight &&
      Get(c.blocks, x, top, z) == Log && Get(c.blocks, x, top + 3, z) == Log &&
      Get(c.blocks, x + 1, top + 3, z) == Leaves && Get(c.blocks, x - 1, top + 3, z) == Leaves &&
      Get(c.blocks, x, top + 3, z + 1) == Leaves && Get(c.blocks, x, top + 3, z - 1) == Leaves &&
      Get(c.blocks, x, top + 4, z) == Leaves
  {
    GeneratedBlocks(cx, cz, heights, x, z);
    var land := DepthTerrain.LandTo(Blocks, heights, |heights|).value;
    var h := heights[Terrain.Column(x, z)];
    var top := if h >= 2 then h - 1 else 0;
    DepthTerrain.LandTop(Blocks, heights, x, z);
    assert DepthTerrain.Planted(Blocks, land, x, z) == DepthTerrain.Tree(Blocks, land, x, top, z);
    DepthTerrain.TreeCells(Blocks, land, x, top, z);
  }

  /** A generated chunk with a tree holds the filled land with the tree planted on it. */
  lemma GeneratedBlocks(cx: int, cz: int, heights: seq<nat>, x: nat, z: nat)
    requires DepthTerrain.Heights(heights) && Chunks.TreeSpot(Some((x, z))) && Generated(cx, cz, heights, Some((x, z))).Ok?
    ensures DepthTerrain.LandTo(Blocks, heights, |heights|).Ok?
    ensures var land := DepthTerrain.LandTo(Blocks, heights, |heights|).value;
      DepthTerrain.WellFormed(land) && DepthTerrain.Planted(Blocks, land, x, z).Ok? &&
      Generated(cx, cz, heights, Some((x, z))).value.blocks == DepthTerrain.Planted(Blocks, land, x, z).value.blocks
  {
    DepthTerrain.LandToWellFormed(Blocks, heights, |heights|);
  }
}
