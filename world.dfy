/**
 * The current single-player world (src/core/world.rs): a `CoordMap` of chunks, created on demand
 * by `Chunk::new` (loading from disk or generating from noise, here an oracle), a cached list of
 * chunk meshes for the player's chunk, and block edits that remesh the edited chunk and at most
 * one neighbour.
 */
module Worlds {
  import opened Wrappers
  import opened Ints
  import opened Grids
  import opened Blocks
  import opened CoordMaps
  import opened Sweeps
  import opened WorldUtils
  import opened GameWorlds
  import opened ChunkStores
  import Chunks

  /** `Chunk::new(x, z, ..)`: what the world gets for a chunk it does not hold yet. */
  type Oracle = (int, int) -> Chunks.Chunk

  ghost predicate OracleSound(create: Oracle)
  {
    forall x, z :: Sound(create(x, z))
  }

  /** `get_block`: None for an absent chunk or a y outside 0..256, else the cell at the local coordinates. */
  function BlockIn(rows: Rows, wx: int, wy: int, wz: int): (r: Result<Option<BlockType>>)
    requires AllSound(rows) && IsI32(wx) && IsI32(wz)
    ensures r.Ok? <==> LocalizeCoordsToChunk(wx, wz).Ok?
    ensures r.Ok? ==> (r.value.Some? <==> Present(rows, (wx / 16, wz / 16)) && 0 <= wy < ChunkHeight)
    ensures r.Ok? && r.value.Some? ==>
      r.value.value == Get(Lookup(rows, wx / 16, wz / 16).value.blocks, wx % 16, wy, wz % 16)
  {
    var (cx, cz, lx, lz) :- LocalizeCoordsToChunk(wx, wz);
    match Lookup(rows, cx, cz)
    case None => Ok(None)
    case Some(c) =>
      if wy < 0 || wy >= ChunkHeight then Ok(None) else Ok(Some(Get(c.blocks, lx, wy, lz)))
  }

  /** The trait's `moveable` over this world's `get_block`: never inside an absent chunk or outside the height range. */
  function MoveableIn(rows: Rows, wx: int, wy: int, wz: int): (r: Result<bool>)
    requires AllSound(rows) && IsI32(wx) && IsI32(wz)
    ensures r.Ok? <==> LocalizeCoordsToChunk(wx, wz).Ok?
    ensures r.Ok? ==> (r.value <==> BlockIn(rows, wx, wy, wz).value in {Some(Air), Some(Water)})
    ensures r.Ok? && (wy < 0 || wy >= ChunkHeight || !Present(rows, (wx / 16, wz / 16))) ==> !r.value
  {
    var b :- BlockIn(rows, wx, wy, wz);
    Ok(GameWorlds.Moveable(b))
  }

  /** `get_or_insert_chunk`: create the chunk at p only when none is stored there. */
  function Ensure(rows: Rows, create: Oracle, x: int, z: int): (r: Rows)
    ensures Lookup(r, x, z).Some?
    ensures Lookup(rows, x, z).Some? ==> r == rows
    ensures Lookup(rows, x, z).None? ==> Lookup(r, x, z) == Some(create(x, z))
    ensures forall x', z' :: x' != x || z' != z ==> Lookup(r, x', z') == Lookup(rows, x', z')
  {
    if Lookup(rows, x, z).Some? then rows else Store(rows, x, z, create(x, z))
  }

  /** The five `get_or_insert_chunk` calls for one swept coordinate, in the order of `Halo`. */
  function EnsureHalo(rows: Rows, create: Oracle, x: int, z: int): Rows
  {
    Ensure(Ensure(Ensure(Ensure(Ensure(rows, create, x, z), create, x + 1, z), create, x - 1, z), create, x, z + 1), create, x, z - 1)
  }

  /** The halo pass stores exactly the missing halo chunks and keeps every stored chunk. */
  lemma EnsureHaloLookup(rows: Rows, create: Oracle, px: int, pz: int, x: int, z: int)
    ensures Lookup(EnsureHalo(rows, create, px, pz), x, z) ==
      if Present(rows, (x, z)) then Lookup(rows, x, z)
      else if (x, z) in Halo((px, pz)) then Some(create(x, z))
      else None
  {
  }

  /** The first loop of `recalculate_mesh_from_perspective`: the halo pass for each coordinate of the view, in order. */
  function Populate(rows: Rows, create: Oracle, view: seq<Pos>): Rows
    decreases |view|
  {
    if |view| == 0 then rows
    else EnsureHalo(Populate(rows, create, view[..|view| - 1]), create, view[|view| - 1].0, view[|view| - 1].1)
  }

  /** Populating one more coordinate is the halo pass on what the rest populated. */
  lemma PopulateSnoc(rows: Rows, create: Oracle, view: seq<Pos>, x: int, z: int)
    ensures Populate(rows, create, view + [(x, z)]) == EnsureHalo(Populate(rows, create, view), create, x, z)
  {
    assert (view + [(x, z)])[..|view|] == view;
  }

  /** Populating never replaces a chunk and creates exactly the halo chunks that were missing. */
  lemma {:induction false} PopulateLookup(rows: Rows, create: Oracle, view: seq<Pos>, x: int, z: int)
    ensures Lookup(Populate(rows, create, view), x, z) ==
      if Present(rows, (x, z)) then Lookup(rows, x, z)
      else if InHalo(view, (x, z)) then Some(create(x, z))
      else None
    decreases |view|
  {
    if |view| > 0 {
      var init := view[..|view| - 1];
      PopulateLookup(rows, create, init, x, z);
      EnsureHaloLookup(Populate(rows, create, init), create, view[|view| - 1].0, view[|view| - 1].1, x, z);
      InHaloSnoc(view, (x, z));
    }
  }

  /** After populating, every coordinate of the view has its chunk and all four neighbours. */
  lemma PopulateHalos(rows: Rows, create: Oracle, view: seq<Pos>)
    ensures AllHaloed(Populate(rows, create, view), view)
  {
    var after := Populate(rows, create, view);
    forall i | 0 <= i < |view|
      ensures HasHalo(after, view[i])
    {
      forall q | q in Halo(view[i])
        ensures Present(after, q)
      {
        PopulateLookup(rows, create, view, q.0, q.1);
      }
      HasHaloMembers(after, view[i]);
    }
  }

  /** Populating from sound chunks with a sound oracle keeps every chunk sound. */
  lemma PopulateSound(rows: Rows, create: Oracle, view: seq<Pos>)
    requires AllSound(rows) && OracleSound(create)
    ensures AllSound(Populate(rows, create, view))
  {
    forall x, z | Lookup(Populate(rows, create, view), x, z).Some?
      ensures Sound(Lookup(Populate(rows, create, view), x, z).value)
    {
      PopulateLookup(rows, create, view, x, z);
    }
  }

  /** `recalculate_mesh_from_perspective` over a view: populate, then the remesh pass. */
  function Recalculated(rows: Rows, create: Oracle, view: seq<Pos>): (r: (Rows, seq<Chunks.Mesh>))
    requires AllSound(rows) && OracleSound(create)
    ensures AllSound(r.0) && |r.1| == |view|
  {
    PopulateSound(rows, create, view);
    PopulateHalos(rows, create, view);
    var r := Remesh(Populate(rows, create, view), view);
    ShapeKeepsSound(Populate(rows, create, view), r.0);
    r
  }

  /**
   * After a recalculation from the player's chunk, every coordinate of the sweep and its four
   * neighbours are stored; the mesh list holds, in sweep order, each swept chunk's cached mesh
   * when its opaque part is non-empty and a freshly built one otherwise, and that is the mesh now
   * stored with the chunk; a chunk stored before is never replaced, only its mesh may change.
   */
  lemma RecalculatedView(rows: Rows, create: Oracle, pcx: int, pcz: int, r: nat)
    requires AllSound(rows) && OracleSound(create)
    ensures AllSound(Populate(rows, create, Sweep(pcx, pcz, r)))
    ensures AllHaloed(Populate(rows, create, Sweep(pcx, pcz, r)), Sweep(pcx, pcz, r))
    ensures AllHaloed(Recalculated(rows, create, Sweep(pcx, pcz, r)).0, Sweep(pcx, pcz, r))
    ensures forall i :: 0 <= i < |Sweep(pcx, pcz, r)| ==>
      Recalculated(rows, create, Sweep(pcx, pcz, r)).1[i] ==
        CachedOrFresh(Populate(rows, create, Sweep(pcx, pcz, r)), Sweep(pcx, pcz, r)[i])
    ensures forall i :: 0 <= i < |Sweep(pcx, pcz, r)| ==>
      Lookup(Recalculated(rows, create, Sweep(pcx, pcz, r)).0, Sweep(pcx, pcz, r)[i].0, Sweep(pcx, pcz, r)[i].1).value.mesh ==
        Recalculated(rows, create, Sweep(pcx, pcz, r)).1[i]
    ensures forall x, z :: Present(rows, (x, z)) ==>
      ShapeAt(Recalculated(rows, create, Sweep(pcx, pcz, r)).0, x, z) == ShapeAt(rows, x, z)
  {
    var view := Sweep(pcx, pcz, r);
    var populated := Populate(rows, create, view);
    PopulateSound(rows, create, view);
    PopulateHalos(rows, create, view);
    SweepDistinct(pcx, pcz, r);
    var after := Remesh(populated, view);
    forall i | 0 <= i < |view|
      ensures HasHalo(after.0, view[i])
      ensures after.1[i] == CachedOrFresh(populated, view[i])
      ensures Lookup(after.0, view[i].0, view[i].1).value.mesh == after.1[i]
    {
      ShapeKeepsMeshing(populated, after.0, view[i]);
      RemeshResult(populated, view, view[i].0, view[i].1);
    }
    forall x, z | Present(rows, (x, z))
      ensures ShapeAt(after.0, x, z) == ShapeAt(rows, x, z)
    {
      PopulateLookup(rows, create, view, x, z);
      assert ShapeAt(after.0, x, z) == ShapeAt(populated, x, z);
    }
  }

  /** After a successful `set_block`, this world's `get_block` reads the new block at the edited cell. */
  lemma SetBlockReadsBack(rows: Rows, wx: int, wy: int, wz: int, block: BlockType)
    requires AllSound(rows) && IsI32(wx) && IsI32(wz)
    requires SetBlockIn(rows, wx, wy, wz, block).Ok?
    ensures BlockIn(SetBlockIn(rows, wx, wy, wz, block).value, wx, wy, wz) == Ok(Some(block))
  {
    SetBlockEffect(rows, wx, wy, wz, block);
  }

  /** Whether `get_world_mesh_from_perspective` hands back the stored list without recalculating. */
  predicate ReusesMesh(cached: seq<Chunks.Mesh>, pcx: int, pcz: int, playerX: int, playerZ: int, force: bool)
  {
    !force && |cached| > 0 && pcx == TruncDiv(playerX, 16) && pcz == TruncDiv(playerZ, 16)
  }

  lemma SnocAssoc<T>(a: seq<T>, b: seq<T>, c: seq<T>)
    ensures a + (b + c) == (a + b) + c
  {
  }

  class World {
    const chunks: CoordMap<Chunks.Chunk>
    const renderDistance: nat
    /** `Chunk::new` with the world's noise and save directory, which the model does not see. */
    const create: Oracle
    var playerChunkX: int
    var playerChunkZ: int
    var mesh: seq<Chunks.Mesh>

    ghost predicate Valid()
      reads this, chunks
    {
      AllSound(chunks.rows) && OracleSound(create)
    }

    /** `new_with_seed`, without the directory it creates: no chunks, player chunk (0, 0), no meshes. */
    constructor (renderDistance: nat, create: Oracle)
      requires OracleSound(create)
      ensures Valid() && fresh(chunks)
      ensures chunks.rows == map[] && this.renderDistance == renderDistance && this.create == create
      ensures playerChunkX == 0 && playerChunkZ == 0 && mesh == []
    {
      this.chunks := new CoordMap();
      this.renderDistance := renderDistance;
      this.create := create;
      playerChunkX := 0;
      playerChunkZ := 0;
      mesh := [];
    }

    /** `get_or_insert_chunk`: the stored chunk, or a new one from `Chunk::new` stored first. */
    method GetOrInsertChunk(x: int, z: int) returns (c: Chunks.Chunk)
      requires Valid()
      modifies chunks
      ensures Valid()
      ensures chunks.rows == Ensure(old(chunks.rows), create, x, z)
      ensures Lookup(chunks.rows, x, z) == Some(c)
    {
      if chunks.Contains(x, z) {
        return chunks.Get(x, z).value;
      }
      c := create(x, z);
      chunks.Insert(x, z, c);
    }

    /** The five `get_or_insert_chunk` calls of the sweep for one visible coordinate. */
    method EnsureHaloAt(x: int, z: int)
      requires Valid()
      modifies chunks
      ensures Valid()
      ensures chunks.rows == EnsureHalo(old(chunks.rows), create, x, z)
    {
      var c := GetOrInsertChunk(x, z);
      c := GetOrInsertChunk(x + 1, z);
      c := GetOrInsertChunk(x - 1, z);
      c := GetOrInsertChunk(x, z + 1);
      c := GetOrInsertChunk(x, z - 1);
    }

    /** One step of the inner loop of the sweep: the halo pass when the coordinate is visible. */
    method SweepCellAt(pcx: int, pcz: int, xi: nat, zi: nat, view: seq<Pos>, ghost rows0: Rows) returns (view': seq<Pos>)
      requires Valid() && chunks.rows == Populate(rows0, create, view)
      modifies chunks
      ensures Valid() && chunks.rows == Populate(rows0, create, view')
      ensures view' == view + Cell(pcx, pcz, renderDistance, xi, zi)
    {
      var r := renderDistance;
      var x := xi - r + pcx;
      var z := zi - r + pcz;
      if Visible(pcx, pcz, r, x, z) {
        EnsureHaloAt(x, z);
        PopulateSnoc(rows0, create, view, x, z);
        view' := view + [(x, z)];
      } else {
        view' := view;
      }
    }

    /** The inner loop of the sweep for x index xi: the halo pass for each visible z, collecting the view. */
    method SweepRowAt(pcx: int, pcz: int, xi: nat, view0: seq<Pos>, ghost rows0: Rows) returns (view: seq<Pos>)
      requires Valid()
      requires view0 == SweepTo(pcx, pcz, renderDistance, xi) && chunks.rows == Populate(rows0, create, view0)
      modifies chunks
      ensures Valid()
      ensures view == SweepTo(pcx, pcz, renderDistance, xi + 1) && chunks.rows == Populate(rows0, create, view)
    {
      view := view0;
      for zi := 0 to 2 * renderDistance
        invariant Valid()
        invariant view == view0 + SweepRow(pcx, pcz, renderDistance, xi, zi)
        invariant chunks.rows == Populate(rows0, create, view)
      {
        view := SweepCellAt(pcx, pcz, xi, zi, view, rows0);
        SnocAssoc(view0, SweepRow(pcx, pcz, renderDistance, xi, zi), Cell(pcx, pcz, renderDistance, xi, zi));
      }
    }

    /** The first loop of the recalculation: the halo pass over the whole sweep, collecting the view. */
    method PopulateSweep(pcx: int, pcz: int) returns (view: seq<Pos>)
      requires Valid()
      modifies chunks
      ensures Valid()
      ensures view == Sweep(pcx, pcz, renderDistance) && chunks.rows == Populate(old(chunks.rows), create, view)
    {
      ghost var rows0 := chunks.rows;
      view := [];
      for xi := 0 to 2 * renderDistance
        invariant Valid()
        invariant view == SweepTo(pcx, pcz, renderDistance, xi)
        invariant chunks.rows == Populate(rows0, create, view)
      {
        view := SweepRowAt(pcx, pcz, xi, view, rows0);
      }
    }

    /**
     * `recalculate_mesh_from_perspective`: sweep the square around the player's chunk, making
     * sure each visible chunk and its four neighbours exist, then remesh the visible chunks in
     * sweep order and keep their meshes as the world mesh.
     */
    method Recalculate(pcx: int, pcz: int)
      requires Valid()
      modifies this, chunks
      ensures Valid()
      ensures (chunks.rows, mesh) == Recalculated(old(chunks.rows), create, Sweep(pcx, pcz, renderDistance))
      ensures playerChunkX == old(playerChunkX) && playerChunkZ == old(playerChunkZ)
    {
      ghost var rows0 := chunks.rows;
      var view := PopulateSweep(pcx, pcz);
      PopulateHalos(rows0, create, view);
      ghost var populated := chunks.rows;
      var meshes := RemeshView(chunks, view);
      ShapeKeepsSound(populated, chunks.rows);
      mesh := meshes;
    }

    /**
     * `get_world_mesh_from_perspective`: the player's chunk is the truncating `/ 16` of the
     * position; unless forced, a non-empty stored list for the same chunk is handed back as it is,
     * otherwise the world is recalculated from that chunk and the chunk recorded.
     */
    method GetWorldMesh(playerX: int, playerZ: int, force: bool) returns (m: seq<Chunks.Mesh>)
      requires Valid()
      modifies this, chunks
      ensures Valid() && m == mesh
      ensures ReusesMesh(old(mesh), old(playerChunkX), old(playerChunkZ), playerX, playerZ, force) ==>
        mesh == old(mesh) && chunks.rows == old(chunks.rows) &&
        playerChunkX == old(playerChunkX) && playerChunkZ == old(playerChunkZ)
      ensures !ReusesMesh(old(mesh), old(playerChunkX), old(playerChunkZ), playerX, playerZ, force) ==>
        (chunks.rows, mesh) == Recalculated(old(chunks.rows), create, Sweep(TruncDiv(playerX, 16), TruncDiv(playerZ, 16), renderDistance)) &&
        playerChunkX == TruncDiv(playerX, 16) && playerChunkZ == TruncDiv(playerZ, 16)
    {
      var pcx := TruncDiv(playerX, 16);
      var pcz := TruncDiv(playerZ, 16);
      if !force && |mesh| > 0 && playerChunkX == pcx && playerChunkZ == pcz {
        return mesh;
      }
      Recalculate(pcx, pcz);
      playerChunkX := pcx;
      playerChunkZ := pcz;
      return mesh;
    }

    /** `update_chunk_mesh`: the four neighbours and the chunk must be stored (else `unwrap` panics); rebuild its mesh. */
    method UpdateChunkMesh(x: int, z: int) returns (r: Result<()>)
      requires Valid()
      modifies chunks
      ensures Valid()
      ensures r.Ok? <==> UpdateMeshIn(old(chunks.rows), (x, z)).Ok?
      ensures r.Ok? ==> chunks.rows == UpdateMeshIn(old(chunks.rows), (x, z)).value
      ensures r.Err? ==> r.fault == UnwrapNone && chunks.rows == old(chunks.rows)
    {
      r := ChunkStores.UpdateChunkMesh(chunks, x, z);
    }

    /**
     * `set_block`: localise, edit the stored chunk, remesh it, then remesh the boundary neighbour
     * chosen by `BoundaryNeighbour`. A panic leaves the world in whatever state it had reached.
     */
    method SetBlock(wx: int, wy: int, wz: int, block: BlockType) returns (r: Result<()>)
      requires Valid() && IsI32(wx) && IsI32(wz)
      modifies chunks
      ensures Valid()
      ensures r.Ok? <==> SetBlockIn(old(chunks.rows), wx, wy, wz, block).Ok?
      ensures r.Ok? ==> chunks.rows == SetBlockIn(old(chunks.rows), wx, wy, wz, block).value
      ensures r.Err? ==> r.fault == SetBlockIn(old(chunks.rows), wx, wy, wz, block).fault
    {
      var loc := LocalizeCoordsToChunk(wx, wz);
      if loc.Err? {
        return Err(loc.fault);
      }
      var (cx, cz, lx, lz) := loc.value;
      r := EditAt(chunks, cx, cz, lx, wy, lz, block);
      if r.Err? {
        return;
      }
      r := RemeshAfterEditAt(chunks, cx, cz, lx, lz);
    }
  }
}
