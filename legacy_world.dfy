/**
 * The older world (models/core/world.rs): a `CoordMap` of the older chunks, created on demand by
 * `Chunk::new` (noise and randomness, here an oracle), and the cached list of chunk meshes seen
 * from the player's chunk. Every chunk keeps its own mesh up to date, so the recalculation only
 * collects the cached meshes of the visible chunks.
 */
module LegacyWorlds {
  import opened Wrappers
  import opened Ints
  import opened Grids
  import opened LegacyBlocks
  import opened CoordMaps
  import opened Sweeps
  import opened WorldUtils
  import LegacyChunks
  import DepthTerrain
  import Chunks
  import Worlds

  type Rows = map<int, map<int, LegacyChunks.Chunk>>

  /** `Chunk::new(x, z, simplex)`: what the world gets for a chunk it does not hold yet. */
  type Oracle = (int, int) -> LegacyChunks.Chunk

  /** What every chunk of this world satisfies: its mesh is current and its list names every block. */
  ghost predicate Sound(c: LegacyChunks.Chunk)
  {
    LegacyChunks.Fresh(c) && LegacyChunks.Indexed(c)
  }

  ghost predicate AllSound(rows: Rows)
  {
    forall x, z :: Lookup(rows, x, z).Some? ==> Sound(Lookup(rows, x, z).value)
  }

  ghost predicate OracleSound(create: Oracle)
  {
    forall x, z :: Sound(create(x, z))
  }

  /** A chunk `Chunk::new` builds is sound, so an oracle standing for it may be assumed sound. */
  lemma GeneratedSound(cx: int, cz: int, heights: seq<nat>, tree: Option<(nat, nat)>)
    requires DepthTerrain.Heights(heights) && Chunks.TreeSpot(tree)
    requires LegacyChunks.Generated(cx, cz, heights, tree).Ok?
    ensures Sound(LegacyChunks.Generated(cx, cz, heights, tree).value)
  {
    LegacyChunks.GeneratedIndexed(cx, cz, heights, tree);
  }

  /** `get_or_insert_chunk`: create the chunk at (x, z) only when none is stored there. */
  function Ensure(rows: Rows, create: Oracle, x: int, z: int): (r: Rows)
    ensures Lookup(r, x, z).Some?
    ensures Lookup(rows, x, z).Some? ==> r == rows
    ensures Lookup(rows, x, z).None? ==> Lookup(r, x, z) == Some(create(x, z))
    ensures forall x', z' :: x' != x || z' != z ==> Lookup(r, x', z') == Lookup(rows, x', z')
  {
    if Lookup(rows, x, z).Some? then rows else Store(rows, x, z, create(x, z))
  }

  /**
   * `recalculate_mesh_from_perspective` over a view, in loop order: for each coordinate make
   * sure its chunk exists, then push that chunk's cached mesh.
   */
  function Recalc(rows: Rows, create: Oracle, view: seq<Pos>): (r: (Rows, seq<seq<int>>))
    ensures |r.1| == |view|
    decreases |view|
  {
    if |view| == 0 then (rows, [])
    else
      var prior := Recalc(rows, create, view[..|view| - 1]);
      var p := view[|view| - 1];
      var after := Ensure(prior.0, create, p.0, p.1);
      (after, prior.1 + [Lookup(after, p.0, p.1).value.mesh])
  }

  lemma RecalcSnoc(rows: Rows, create: Oracle, view: seq<Pos>, x: int, z: int)
    ensures Recalc(rows, create, view + [(x, z)]) ==
      var after := Ensure(Recalc(rows, create, view).0, create, x, z);
      (after, Recalc(rows, create, view).1 + [Lookup(after, x, z).value.mesh])
  {
    assert (view + [(x, z)])[..|view|] == view;
  }

  /** The recalculation never replaces a chunk and creates exactly the chunks of the view that were missing. */
  lemma {:induction false} RecalcLookup(rows: Rows, create: Oracle, view: seq<Pos>, x: int, z: int)
    ensures Lookup(Recalc(rows, create, view).0, x, z) ==
      if Lookup(rows, x, z).Some? then Lookup(rows, x, z)
      else if (x, z) in view then Some(create(x, z))
      else None
    decreases |view|
  {
    if |view| > 0 {
      var init := view[..|view| - 1];
      RecalcLookup(rows, create, init, x, z);
      assert view == init + [view[|view| - 1]];
    }
  }

  /** The i-th mesh pushed is the mesh of the chunk stored at the i-th coordinate when the pass ends. */
  lemma {:induction false} RecalcMeshes(rows: Rows, create: Oracle, view: seq<Pos>)
    ensures forall i :: 0 <= i < |view| ==> Lookup(Recalc(rows, create, view).0, view[i].0, view[i].1).Some?
    ensures forall i :: 0 <= i < |view| ==>
      Recalc(rows, create, view).1[i] == Lookup(Recalc(rows, create, view).0, view[i].0, view[i].1).value.mesh
    decreases |view|
  {
    if |view| > 0 {
      var init := view[..|view| - 1];
      RecalcMeshes(rows, create, init);
      var prior := Recalc(rows, create, init);
      var p := view[|view| - 1];
      var after := Ensure(prior.0, create, p.0, p.1);
      forall i | 0 <= i < |init|
        ensures Lookup(after, view[i].0, view[i].1) == Lookup(prior.0, view[i].0, view[i].1)
      {
        assert view[i] == init[i];
      }
    }
  }

  /** Recalculating from sound chunks with a sound oracle keeps every chunk sound. */
  lemma RecalcSound(rows: Rows, create: Oracle, view: seq<Pos>)
    requires AllSound(rows) && OracleSound(create)
    ensures AllSound(Recalc(rows, create, view).0)
  {
    forall x, z | Lookup(Recalc(rows, create, view).0, x, z).Some?
      ensures Sound(Lookup(Recalc(rows, create, view).0, x, z).value)
    {
      RecalcLookup(rows, create, view, x, z);
    }
  }

  /**
   * After a recalculation from the player's chunk, the chunks stored are those stored before,
   * unchanged, and a new chunk for each coordinate of the sweep that had none; the mesh list holds,
   * in sweep order, the current mesh of each swept chunk.
   */
  lemma RecalculatedView(rows: Rows, create: Oracle, pcx: int, pcz: int, r: nat)
    requires AllSound(rows) && OracleSound(create)
    ensures AllSound(Recalc(rows, create, Sweep(pcx, pcz, r)).0)
    ensures forall x, z ::
      Lookup(Recalc(rows, create, Sweep(pcx, pcz, r)).0, x, z) ==
        if Lookup(rows, x, z).Some? then Lookup(rows, x, z)
        else if pcx - r <= x < pcx + r && pcz - r <= z < pcz + r && Visible(pcx, pcz, r, x, z) then Some(create(x, z))
        else None
    ensures forall i :: 0 <= i < |Sweep(pcx, pcz, r)| ==>
      var c := Lookup(Recalc(rows, create, Sweep(pcx, pcz, r)).0, Sweep(pcx, pcz, r)[i].0, Sweep(pcx, pcz, r)[i].1);
      c.Some? && IsGrid(c.value.blocks) &&
      Ok(Recalc(rows, create, Sweep(pcx, pcz, r)).1[i]) == LegacyChunks.MeshOf(c.value, |c.value.index|)
  {
    var view := Sweep(pcx, pcz, r);
    var after := Recalc(rows, create, view);
    RecalcSound(rows, create, view);
    RecalcMeshes(rows, create, view);
    forall x, z
      ensures Lookup(after.0, x, z) ==
        if Lookup(rows, x, z).Some? then Lookup(rows, x, z)
        else if pcx - r <= x < pcx + r && pcz - r <= z < pcz + r && Visible(pcx, pcz, r, x, z) then Some(create(x, z))
        else None
    {
      RecalcLookup(rows, create, view, x, z);
      SweepMembers(pcx, pcz, r, (x, z));
    }
  }

  /**
   * `get_block`: the chunk coordinates first (floor division, which cannot overflow), then None
   * for an absent chunk or a negative y; only then the local offsets (which can overflow) and
   * `block_at`, where a y above the chunk panics.
   */
  function BlockIn(rows: Rows, wx: int, wy: int, wz: int): (r: Result<Option<BlockType>>)
    requires AllSound(rows) && IsI32(wx) && IsI32(wz)
    ensures r.Ok? <==>
      (Lookup(rows, wx / 16, wz / 16).Some? && 0 <= wy ==> LocalizeCoordsToChunk(wx, wz).Ok? && wy < ChunkHeight)
    ensures r.Ok? ==> (r.value.Some? <==> Lookup(rows, wx / 16, wz / 16).Some? && 0 <= wy)
    ensures r.Ok? && r.value.Some? ==>
      r.value.value == Get(Lookup(rows, wx / 16, wz / 16).value.blocks, wx % 16, wy, wz % 16)
    ensures r.Err? && LocalizeCoordsToChunk(wx, wz).Ok? ==> r.fault == OutOfBounds
  {
    match Lookup(rows, wx / 16, wz / 16)
    case None => Ok(None)
    case Some(c) =>
      if wy < 0 then Ok(None)
      else
        var (cx, cz, lx, lz) :- LocalizeCoordsToChunk(wx, wz);
        var b :- LegacyChunks.BlockAt(c, lx, wy, lz);
        Ok(Some(b))
  }

  /**
   * `set_block`: localise, then `get_chunk_mut(..).unwrap()` (a panic for an absent chunk), then
   * the chunk's own `set_block` at `world_y as usize`, where a negative y becomes an index far
   * out of range. The chunk rebuilds its mesh; no neighbour is touched. The chunk edit is the one
   * that scans the whole list (`LegacyChunks.StaleEntryDoublesRecord` shows why).
   */
  function SetBlockIn(rows: Rows, wx: int, wy: int, wz: int, block: BlockType): (r: Result<Rows>)
    requires AllSound(rows) && IsI32(wx) && IsI32(wz)
    ensures r.Ok? ==>
      LocalizeCoordsToChunk(wx, wz).Ok? && Lookup(rows, wx / 16, wz / 16).Some? && 0 <= wy < ChunkHeight &&
      LegacyChunks.Updated(Lookup(rows, wx / 16, wz / 16).value, wx % 16, wy, wz % 16, block, true).Ok? &&
      r.value == Store(rows, wx / 16, wz / 16,
        LegacyChunks.Updated(Lookup(rows, wx / 16, wz / 16).value, wx % 16, wy, wz % 16, block, true).value)
    ensures LocalizeCoordsToChunk(wx, wz).Ok? && Lookup(rows, wx / 16, wz / 16).None? ==> r == Err(UnwrapNone)
  {
    var (cx, cz, lx, lz) :- LocalizeCoordsToChunk(wx, wz);
    match Lookup(rows, cx, cz)
    case None => Err(UnwrapNone)
    case Some(c) =>
      if wy < 0 then Err(OutOfBounds)
      else
        var updated :- LegacyChunks.Updated(c, lx, wy, lz, block, true);
        Ok(Store(rows, cx, cz, updated))
  }

  /**
   * In a sound world, `set_block` (with the chunk's list scanned to its end) succeeds exactly
   * when the coordinates localise, the chunk is stored and y is inside it; it keeps the world
   * sound, and `get_block` then reads the new block there.
   */
  lemma SetBlockEffect(rows: Rows, wx: int, wy: int, wz: int, block: BlockType)
    requires AllSound(rows) && IsI32(wx) && IsI32(wz)
    ensures SetBlockIn(rows, wx, wy, wz, block).Ok? <==>
      LocalizeCoordsToChunk(wx, wz).Ok? && Lookup(rows, wx / 16, wz / 16).Some? && 0 <= wy < ChunkHeight
    ensures SetBlockIn(rows, wx, wy, wz, block).Ok? ==>
      AllSound(SetBlockIn(rows, wx, wy, wz, block).value) &&
      BlockIn(SetBlockIn(rows, wx, wy, wz, block).value, wx, wy, wz) == Ok(Some(block))
  {
    var loc := LocalizeCoordsToChunk(wx, wz);
    if loc.Ok? && Lookup(rows, wx / 16, wz / 16).Some? {
      var (cx, cz, lx, lz) := loc.value;
      var c := Lookup(rows, cx, cz).value;
      LegacyChunks.MeshOk(c);
      if 0 <= wy {
        LegacyChunks.UpdatedOk(c, lx, wy, lz, block, true);
      }
      var r := SetBlockIn(rows, wx, wy, wz, block);
      if r.Ok? {
        LegacyChunks.SetBlockKeepsIndexed(c, lx, wy, lz, block, true);
        var after := r.value;
        forall x, z | Lookup(after, x, z).Some?
          ensures Sound(Lookup(after, x, z).value)
        {
        }
      }
    }
  }

  /**
   * `air_at` as written: the chunk is `x / 16` and the local coordinate `x % 16`, both
   * truncating, and an absent chunk answers false.
   */
  function AirAtIn(rows: Rows, x: int, y: int, z: int): (b: bool)
    requires AllSound(rows)
    ensures Lookup(rows, TruncDiv(x, 16), TruncDiv(z, 16)).None? ==> !b
  {
    match Lookup(rows, TruncDiv(x, 16), TruncDiv(z, 16))
    case None => false
    case Some(c) => LegacyChunks.AirAt(c.blocks, TruncRem(x, 16), y, TruncRem(z, 16))
  }

  /**
   * As written, a negative x (or z) is looked up in the chunk truncation picks with a negative
   * local coordinate, which the chunk's `air_at` calls outside itself: every such query from
   * y = 2 up answers Air whatever the cell holds. With chunk (-1, 0) all Stone and chunk (0, 0)
   * stored, `get_block(-1, 10, 0)` is Stone while `air_at(-1, 10, 0)` is true.
   */
  lemma NegativeCoordinateReadsAir(rows: Rows, x: int, y: int, z: int)
    requires AllSound(rows) && x < 0 && 2 <= y && x % 16 != 0
    requires Lookup(rows, TruncDiv(x, 16), TruncDiv(z, 16)).Some?
    ensures AirAtIn(rows, x, y, z)
  {
  }

  lemma AirAtMisreadsStone(rows: Rows, stone: LegacyChunks.Chunk, origin: LegacyChunks.Chunk)
    requires AllSound(rows) && IsGrid(stone.blocks) && Get(stone.blocks, 15, 10, 0) == Stone
    requires Lookup(rows, -1, 0) == Some(stone) && Lookup(rows, 0, 0) == Some(origin)
    ensures BlockIn(rows, -1, 10, 0) == Ok(Some(Stone))
    ensures AirAtIn(rows, -1, 10, 0)
    ensures !AirAtFloor(rows, -1, 10, 0)
  {
    assert LocalizeCoordsToChunk(-1, 0).Ok? by {
      assert LocalizeAxis(-1) == Ok((-1, 15));
      assert LocalizeAxis(0) == Ok((0, 0));
    }
  }

  /** `air_at` with the chunk and local coordinate found by floor division, as `get_block` finds them. */
  function AirAtFloor(rows: Rows, x: int, y: int, z: int): (b: bool)
    requires AllSound(rows)
    ensures Lookup(rows, x / 16, z / 16).None? ==> !b
  {
    match Lookup(rows, x / 16, z / 16)
    case None => false
    case Some(c) => LegacyChunks.AirAt(c.blocks, x % 16, y, z % 16)
  }

  /** With floor division, `air_at` in a stored chunk from y = 2 to the top agrees with `get_block` reading Air. */
  lemma AirAtFloorAgrees(rows: Rows, x: int, y: int, z: int)
    requires AllSound(rows) && IsI32(x) && IsI32(z) && LocalizeCoordsToChunk(x, z).Ok?
    requires 2 <= y < ChunkHeight && Lookup(rows, x / 16, z / 16).Some?
    ensures AirAtFloor(rows, x, y, z) <==> BlockIn(rows, x, y, z) == Ok(Some(Air))
  {
  }

  /**
   * For x, z >= 0 truncation and floor division agree, so `air_at` as written is the floor
   * version, and wherever `get_block` does not panic it reads Air exactly where `air_at` holds.
   */
  lemma AirAtNonNegative(rows: Rows, x: int, y: int, z: int)
    requires AllSound(rows) && IsI32(x) && IsI32(z) && 0 <= x && 0 <= z
    ensures AirAtIn(rows, x, y, z) == AirAtFloor(rows, x, y, z)
    ensures LocalizeCoordsToChunk(x, z).Ok? && 2 <= y < ChunkHeight && Lookup(rows, x / 16, z / 16).Some? ==>
      (AirAtIn(rows, x, y, z) <==> BlockIn(rows, x, y, z) == Ok(Some(Air)))
  {
    assert TruncDiv(x, 16) == x / 16 && TruncRem(x, 16) == x % 16;
    assert TruncDiv(z, 16) == z / 16 && TruncRem(z, 16) == z % 16;
    if LocalizeCoordsToChunk(x, z).Ok? && 2 <= y < ChunkHeight && Lookup(rows, x / 16, z / 16).Some? {
      AirAtFloorAgrees(rows, x, y, z);
    }
  }

  /** Whether `get_world_mesh_from_perspective` hands back the stored list without recalculating. */
  predicate ReusesMesh(cached: nat, pcx: int, pcz: int, playerX: int, playerZ: int, force: bool)
  {
    !force && cached > 0 && pcx == TruncDiv(playerX, 16) && pcz == TruncDiv(playerZ, 16)
  }

  class World {
    const chunks: CoordMap<LegacyChunks.Chunk>
    const renderDistance: nat
    /** `Chunk::new` with the world's noise, which the model does not see. */
    const create: Oracle
    var playerChunkX: int
    var playerChunkZ: int
    var mesh: seq<seq<int>>

    ghost predicate Valid()
      reads this, chunks
    {
      AllSound(chunks.rows) && OracleSound(create)
    }

    /** `new`: no chunks, player chunk (0, 0), no meshes. */
    constructor (renderDistance: nat, create: Oracle)
      requires OracleSound(create)
      ensures Valid() && fresh(chunks)
      ensures chunks.rows == map[] && this.renderDistance == renderDistance && this.create == create
      ensures playerChunkX == 0 && playerChunkZ == 0 && mesh == []
    {
      this.chunks := new CoordMap();
      this.renderDistance := renderDistance;
      this.create := create;
      playerChunkX := 0;
      playerChunkZ := 0;
      mesh := [];
    }

    /** `get_or_insert_chunk`: the stored chunk, or a new one from `Chunk::new` stored first. */
    method GetOrInsertChunk(x: int, z: int) returns (c: LegacyChunks.Chunk)
      requires Valid()
      modifies chunks
      ensures Valid()
      ensures chunks.rows == Ensure(old(chunks.rows), create, x, z)
      ensures Lookup(chunks.rows, x, z) == Some(c)
    {
      if chunks.Contains(x, z) {
        return chunks.Get(x, z).value;
      }
      c := create(x, z);
      chunks.Insert(x, z, c);
    }

    /** One step of the inner loop of the sweep: when the coordinate is visible, get or insert its chunk and push its mesh. */
    method SweepCellAt(pcx: int, pcz: int, xi: nat, zi: nat, meshes: seq<seq<int>>, ghost view: seq<Pos>, ghost rows0: Rows)
      returns (meshes': seq<seq<int>>, ghost view': seq<Pos>)
      requires Valid() && (chunks.rows, meshes) == Recalc(rows0, create, view)
      modifies chunks
      ensures Valid() && (chunks.rows, meshes') == Recalc(rows0, create, view')
      ensures view' == view + Cell(pcx, pcz, renderDistance, xi, zi)
    {
      var r := renderDistance;
      var x := xi - r + pcx;
      var z := zi - r + pcz;
      if Visible(pcx, pcz, r, x, z) {
        var c := GetOrInsertChunk(x, z);
        meshes' := meshes + [c.mesh];
        RecalcSnoc(rows0, create, view, x, z);
        view' := view + [(x, z)];
      } else {
        meshes' := meshes;
        view' := view;
      }
    }

    /** The inner loop of the sweep for x index xi. */
    method SweepRowAt(pcx: int, pcz: int, xi: nat, meshes0: seq<seq<int>>, ghost rows0: Rows) returns (meshes: seq<seq<int>>)
      requires Valid()
      requires (chunks.rows, meshes0) == Recalc(rows0, create, SweepTo(pcx, pcz, renderDistance, xi))
      modifies chunks
      ensures Valid()
      ensures (chunks.rows, meshes) == Recalc(rows0, create, SweepTo(pcx, pcz, renderDistance, xi + 1))
    {
      ghost var view0 := SweepTo(pcx, pcz, renderDistance, xi);
      ghost var view := view0;
      meshes := meshes0;
      for zi := 0 to 2 * renderDistance
        invariant Valid()
        invariant view == view0 + SweepRow(pcx, pcz, renderDistance, xi, zi)
        invariant (chunks.rows, meshes) == Recalc(rows0, create, view)
      {
        meshes, view := SweepCellAt(pcx, pcz, xi, zi, meshes, view, rows0);
        Worlds.SnocAssoc(view0, SweepRow(pcx, pcz, renderDistance, xi, zi), Cell(pcx, pcz, renderDistance, xi, zi));
      }
    }

    /** The sweep of the recalculation: get or insert each visible chunk and collect its cached mesh. */
    method CollectSweep(pcx: int, pcz: int) returns (meshes: seq<seq<int>>)
      requires Valid()
      modifies chunks
      ensures Valid()
      ensures (chunks.rows, meshes) == Recalc(old(chunks.rows), create, Sweep(pcx, pcz, renderDistance))
    {
      ghost var rows0 := chunks.rows;
      meshes := [];
      for xi := 0 to 2 * renderDistance
        invariant Valid()
        invariant (chunks.rows, meshes) == Recalc(rows0, create, SweepTo(pcx, pcz, renderDistance, xi))
      {
        meshes := SweepRowAt(pcx, pcz, xi, meshes, rows0);
      }
    }

    /** `recalculate_mesh_from_perspective`: the sweep's list of meshes becomes the world mesh. */
    method Recalculate(pcx: int, pcz: int)
      requires Valid()
      modifies this, chunks
      ensures Valid()
      ensures (chunks.rows, mesh) == Recalc(old(chunks.rows), create, Sweep(pcx, pcz, renderDistance))
      ensures playerChunkX == old(playerChunkX) && playerChunkZ == old(playerChunkZ)
    {
      var meshes := CollectSweep(pcx, pcz);
      mesh := meshes;
    }

    /**
     * `get_world_mesh_from_perspective`: the player's chunk is the truncating `/ 16` of the
     * position; unless forced, a non-empty stored list for the same chunk is handed back as it is,
     * otherwise the world is recalculated from that chunk and the chunk recorded.
     */
    method GetWorldMesh(playerX: int, playerZ: int, force: bool) returns (m: seq<seq<int>>)
      requires Valid()
      modifies this, chunks
      ensures Valid() && m == mesh
      ensures ReusesMesh(|old(mesh)|, old(playerChunkX), old(playerChunkZ), playerX, playerZ, force) ==>
        mesh == old(mesh) && chunks.rows == old(chunks.rows) &&
        playerChunkX == old(playerChunkX) && playerChunkZ == old(playerChunkZ)
      ensures !ReusesMesh(|old(mesh)|, old(playerChunkX), old(playerChunkZ), playerX, playerZ, force) ==>
        (chunks.rows, mesh) == Recalc(old(chunks.rows), create, Sweep(TruncDiv(playerX, 16), TruncDiv(playerZ, 16), renderDistance)) &&
        playerChunkX == TruncDiv(playerX, 16) && playerChunkZ == TruncDiv(playerZ, 16)
    {
      var pcx := TruncDiv(playerX, 16);
      var pcz := TruncDiv(playerZ, 16);
      if !force && |mesh| > 0 && playerChunkX == pcx && playerChunkZ == pcz {
        return mesh;
      }
      Recalculate(pcx, pcz);
      playerChunkX := pcx;
      playerChunkZ := pcz;
      return mesh;
    }

    /** `set_block`: localise, unwrap the stored chunk, edit it (remeshing it) and write it back. */
    method SetBlock(wx: int, wy: int, wz: int, block: BlockType) returns (r: Result<()>)
      requires Valid() && IsI32(wx) && IsI32(wz)
      modifies chunks
      ensures Valid()
      ensures r.Ok? <==> SetBlockIn(old(chunks.rows), wx, wy, wz, block).Ok?
      ensures r.Ok? ==> chunks.rows == SetBlockIn(old(chunks.rows), wx, wy, wz, block).value
      ensures r.Err? ==> r.fault == SetBlockIn(old(chunks.rows), wx, wy, wz, block).fault && chunks.rows == old(chunks.rows)
    {
      SetBlockEffect(chunks.rows, wx, wy, wz, block);
      var loc := LocalizeCoordsToChunk(wx, wz);
      if loc.Err? {
        return Err(loc.fault);
      }
      var (cx, cz, lx, lz) := loc.value;
      var found := chunks.Get(cx, cz);
      if found.None? {
        return Err(UnwrapNone);
      }
      if wy < 0 {
        return Err(OutOfBounds);
      }
      var updated := LegacyChunks.SetBlock(found.value, lx, wy, lz, block, true);
      if updated.Err? {
        return Err(updated.fault);
      }
      var written := chunks.WriteThrough(cx, cz, updated.value);
      return Ok(());
    }
  }
}
