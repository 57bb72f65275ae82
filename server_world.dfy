/**
 * The multiplayer world (src/models/multiplayer/server_world.rs): a `CoordMap` of chunks the
 * server sends, a fetch queue of coordinates asked for and not yet received, and the same remesh
 * and edit passes as the single-player world. The connection is modelled by the list of
 * `GetChunks` requests sent, each carrying the queue's coordinates; its `localize_coords_to_chunk`
 * is the same expression as `WorldUtils.LocalizeCoordsToChunk`.
 */
module ServerWorlds {
  import opened Wrappers
  import opened Ints
  import opened Grids
  import opened Blocks
  import opened CoordMaps
  import opened Sweeps
  import opened WorldUtils
  import opened GameWorlds
  import opened ChunkStores
  import Chunks
  import ChunkCodec
  import Worlds

  /**
   * `get_block`: None for an absent chunk or a negative y; otherwise the cell is read with no
   * upper bound on y, so a y of 256 or more goes out of range.
   */
  function BlockIn(rows: Rows, wx: int, wy: int, wz: int): (r: Result<Option<BlockType>>)
    requires AllSound(rows) && IsI32(wx) && IsI32(wz)
    ensures r.Ok? <==> LocalizeCoordsToChunk(wx, wz).Ok? && (!Present(rows, (wx / 16, wz / 16)) || wy < ChunkHeight)
    ensures r.Err? && LocalizeCoordsToChunk(wx, wz).Ok? ==> r.fault == OutOfBounds
    ensures r.Ok? ==> (r.value.Some? <==> Present(rows, (wx / 16, wz / 16)) && wy >= 0)
    ensures r.Ok? && r.value.Some? ==>
      r.value.value == Get(Lookup(rows, wx / 16, wz / 16).value.blocks, wx % 16, wy, wz % 16)
  {
    var (cx, cz, lx, lz) :- LocalizeCoordsToChunk(wx, wz);
    match Lookup(rows, cx, cz)
    case None => Ok(None)
    case Some(c) =>
      if wy < 0 then Ok(None)
      else
        var b :- Chunks.CellAt(c.blocks, lx, wy, lz);
        Ok(Some(b))
  }

  /** The trait's `moveable` over this world's `get_block`. */
  function MoveableIn(rows: Rows, wx: int, wy: int, wz: int): (r: Result<bool>)
    requires AllSound(rows) && IsI32(wx) && IsI32(wz)
    ensures r.Ok? <==> BlockIn(rows, wx, wy, wz).Ok?
    ensures r.Ok? ==> (r.value <==> BlockIn(rows, wx, wy, wz).value in {Some(Air), Some(Water)})
  {
    var b :- BlockIn(rows, wx, wy, wz);
    Ok(Moveable(b))
  }

  /** Within the height range both worlds read the same cell, or nothing. */
  lemma BlockInAgrees(rows: Rows, wx: int, wy: int, wz: int)
    requires AllSound(rows) && IsI32(wx) && IsI32(wz) && wy < ChunkHeight
    ensures BlockIn(rows, wx, wy, wz) == Worlds.BlockIn(rows, wx, wy, wz)
  {
  }

  /** What one swept coordinate adds to the fetch queue: those of its halo chunks that are not stored. */
  function Missing(rows: Rows, x: int, z: int): (r: set<Pos>)
    ensures forall q :: q in r <==> q in Halo((x, z)) && !Present(rows, q)
    ensures r == {} <==> HaloAt(rows, x, z)
  {
    HasHaloMembers(rows, (x, z));
    (if Lookup(rows, x, z).None? then {(x, z)} else {}) +
    (if Lookup(rows, x + 1, z).None? then {(x + 1, z)} else {}) +
    (if Lookup(rows, x - 1, z).None? then {(x - 1, z)} else {}) +
    (if Lookup(rows, x, z + 1).None? then {(x, z + 1)} else {}) +
    (if Lookup(rows, x, z - 1).None? then {(x, z - 1)} else {})
  }

  /** The view list of the first loop over the swept coordinates s: those whose halo is stored, in order. */
  function View(rows: Rows, s: seq<Pos>): (r: seq<Pos>)
    ensures AllHaloed(rows, r)
    decreases |s|
  {
    if |s| == 0 then []
    else
      var p := s[|s| - 1];
      View(rows, s[..|s| - 1]) + (if HaloAt(rows, p.0, p.1) then [p] else [])
  }

  /** The fetch queue the first loop builds over s: the missing halo chunks of the coordinates left out of the view. */
  function Queue(rows: Rows, s: seq<Pos>): set<Pos>
    decreases |s|
  {
    if |s| == 0 then {}
    else
      var p := s[|s| - 1];
      Queue(rows, s[..|s| - 1]) + (if HaloAt(rows, p.0, p.1) then {} else Missing(rows, p.0, p.1))
  }

  /** A coordinate enters the view exactly when it is swept and it and its four neighbours are stored. */
  lemma {:induction false} ViewMembers(rows: Rows, s: seq<Pos>, p: Pos)
    ensures p in View(rows, s) <==> p in s && HasHalo(rows, p)
    decreases |s|
  {
    if |s| > 0 {
      ViewMembers(rows, s[..|s| - 1], p);
      assert s == s[..|s| - 1] + [s[|s| - 1]];
    }
  }

  /** The view keeps the sweep's order. */
  lemma {:induction false} ViewAscending(rows: Rows, s: seq<Pos>)
    requires Ascending(s)
    ensures Ascending(View(rows, s))
    decreases |s|
  {
    if |s| > 0 {
      var init := s[..|s| - 1];
      var p := s[|s| - 1];
      var prev := View(rows, init);
      var tail: seq<Pos> := if HaloAt(rows, p.0, p.1) then [p] else [];
      ViewAscending(rows, init);
      forall i, j | 0 <= i < |prev| && 0 <= j < |tail|
        ensures Before(prev[i], tail[j])
      {
        ViewMembers(rows, init, prev[i]);
        var k :| 0 <= k < |init| && init[k] == prev[i];
      }
      Concat(prev, tail);
    }
  }

  /** The queue holds exactly the absent halo chunks of the swept coordinates, so no stored chunk is ever queued. */
  lemma {:induction false} QueueMembers(rows: Rows, s: seq<Pos>, q: Pos)
    ensures q in Queue(rows, s) <==> !Present(rows, q) && InHalo(s, q)
    decreases |s|
  {
    if |s| > 0 {
      var p := s[|s| - 1];
      QueueMembers(rows, s[..|s| - 1], q);
      InHaloSnoc(s, q);
      HasHaloMembers(rows, p);
    }
  }

  /** The first loop sends nothing to fetch exactly when every swept coordinate enters the view. */
  lemma {:induction false} QueueEmpty(rows: Rows, s: seq<Pos>)
    ensures Queue(rows, s) == {} <==> View(rows, s) == s
    decreases |s|
  {
    if |s| > 0 {
      var p := s[|s| - 1];
      QueueEmpty(rows, s[..|s| - 1]);
      ViewLength(rows, s[..|s| - 1]);
      if View(rows, s) == s {
        assert View(rows, s)[..|s| - 1] == s[..|s| - 1];
      }
    }
  }

  lemma {:induction false} ViewLength(rows: Rows, s: seq<Pos>)
    ensures |View(rows, s)| <= |s|
    decreases |s|
  {
    if |s| > 0 {
      ViewLength(rows, s[..|s| - 1]);
    }
  }

  /**
   * After a recalculation from the player's chunk, the queue holds exactly the absent halo
   * chunks of the sweep; the mesh list holds, in sweep order, the cached or fresh mesh of each
   * swept chunk whose halo is stored, and that mesh is now stored with the chunk; no other chunk
   * changes, and no chunk changes but for its mesh.
   */
  lemma Recalculated(rows: Rows, pcx: int, pcz: int, r: nat)
    requires AllSound(rows)
    ensures forall q :: q in Queue(rows, Sweep(pcx, pcz, r)) <==> !Present(rows, q) && InHalo(Sweep(pcx, pcz, r), q)
    ensures forall p :: p in View(rows, Sweep(pcx, pcz, r)) <==> p in Sweep(pcx, pcz, r) && HasHalo(rows, p)
    ensures Ascending(View(rows, Sweep(pcx, pcz, r)))
    ensures AllHaloed(Remesh(rows, View(rows, Sweep(pcx, pcz, r))).0, View(rows, Sweep(pcx, pcz, r)))
    ensures forall i :: 0 <= i < |View(rows, Sweep(pcx, pcz, r))| ==>
      Remesh(rows, View(rows, Sweep(pcx, pcz, r))).1[i] == CachedOrFresh(rows, View(rows, Sweep(pcx, pcz, r))[i])
    ensures forall i :: 0 <= i < |View(rows, Sweep(pcx, pcz, r))| ==>
      Lookup(Remesh(rows, View(rows, Sweep(pcx, pcz, r))).0, View(rows, Sweep(pcx, pcz, r))[i].0, View(rows, Sweep(pcx, pcz, r))[i].1).value.mesh ==
        Remesh(rows, View(rows, Sweep(pcx, pcz, r))).1[i]
    ensures forall x, z :: (x, z) !in View(rows, Sweep(pcx, pcz, r)) ==>
      Lookup(Remesh(rows, View(rows, Sweep(pcx, pcz, r))).0, x, z) == Lookup(rows, x, z)
  {
    var s := Sweep(pcx, pcz, r);
    var view := View(rows, s);
    forall q
      ensures q in Queue(rows, s) <==> !Present(rows, q) && InHalo(s, q)
    {
      QueueMembers(rows, s, q);
    }
    forall p
      ensures p in view <==> p in s && HasHalo(rows, p)
    {
      ViewMembers(rows, s, p);
    }
    SweepDistinct(pcx, pcz, r);
    ViewAscending(rows, s);
    var after := Remesh(rows, view);
    forall i | 0 <= i < |view|
      ensures HasHalo(after.0, view[i])
      ensures after.1[i] == CachedOrFresh(rows, view[i])
      ensures Lookup(after.0, view[i].0, view[i].1).value.mesh == after.1[i]
    {
      ShapeKeepsMeshing(rows, after.0, view[i]);
      RemeshResult(rows, view, view[i].0, view[i].1);
    }
    forall x, z | (x, z) !in view
      ensures Lookup(after.0, x, z) == Lookup(rows, x, z)
    {
      RemeshResult(rows, view, x, z);
    }
  }

  /** The view of two runs of coordinates is the view of the first followed by that of the second. */
  lemma {:induction false} ViewConcat(rows: Rows, a: seq<Pos>, b: seq<Pos>)
    ensures View(rows, a + b) == View(rows, a) + View(rows, b)
    decreases |b|
  {
    if |b| > 0 {
      var b' := b[..|b| - 1];
      assert (a + b)[..|a + b| - 1] == a + b';
      ViewConcat(rows, a, b');
    } else {
      assert a + b == a;
    }
  }

  /** The queue of two runs of coordinates is the union of their queues. */
  lemma {:induction false} QueueConcat(rows: Rows, a: seq<Pos>, b: seq<Pos>)
    ensures Queue(rows, a + b) == Queue(rows, a) + Queue(rows, b)
    decreases |b|
  {
    if |b| > 0 {
      var b' := b[..|b| - 1];
      assert (a + b)[..|a + b| - 1] == a + b';
      QueueConcat(rows, a, b');
    } else {
      assert a + b == a;
    }
  }

  /** One more z value of a row adds the view and queue of that cell. */
  lemma ScanStep(rows: Rows, pcx: int, pcz: int, r: nat, xi: nat, zi: nat, view0: seq<Pos>, queue0: set<Pos>)
    ensures view0 + View(rows, SweepRow(pcx, pcz, r, xi, zi + 1)) ==
      view0 + View(rows, SweepRow(pcx, pcz, r, xi, zi)) + View(rows, Cell(pcx, pcz, r, xi, zi))
    ensures queue0 + Queue(rows, SweepRow(pcx, pcz, r, xi, zi + 1)) ==
      queue0 + Queue(rows, SweepRow(pcx, pcz, r, xi, zi)) + Queue(rows, Cell(pcx, pcz, r, xi, zi))
  {
    ViewConcat(rows, SweepRow(pcx, pcz, r, xi, zi), Cell(pcx, pcz, r, xi, zi));
    QueueConcat(rows, SweepRow(pcx, pcz, r, xi, zi), Cell(pcx, pcz, r, xi, zi));
  }

  lemma SnocAssoc<T>(a: seq<T>, b: seq<T>, c: seq<T>)
    ensures a + (b + c) == (a + b) + c
  {
  }

  /** The store after `insert_serialized_chunk` decodes and stores a chunk; a malformed chunk panics. */
  function Received(rows: Rows, cx: int, cz: int, contents: seq<ChunkCodec.Byte>): (r: Result<Rows>)
    requires AllSound(rows)
    ensures r.Ok? <==> Chunks.From(contents, cx, cz).Ok?
    ensures r.Err? ==> r.fault == Chunks.From(contents, cx, cz).fault
    ensures r.Ok? ==> AllSound(r.value) && Lookup(r.value, cx, cz) == Some(Chunks.From(contents, cx, cz).value)
    ensures r.Ok? ==> forall x, z :: x != cx || z != cz ==> Lookup(r.value, x, z) == Lookup(rows, x, z)
  {
    var c :- Chunks.From(contents, cx, cz);
    FromSound(contents, cx, cz);
    StoreSound(rows, cx, cz, c);
    Ok(Store(rows, cx, cz, c))
  }

  /** After a successful `set_block`, this world's `get_block` reads the new block at the edited cell. */
  lemma SetBlockReadsBack(rows: Rows, wx: int, wy: int, wz: int, block: BlockType)
    requires AllSound(rows) && IsI32(wx) && IsI32(wz)
    requires SetBlockIn(rows, wx, wy, wz, block).Ok?
    ensures BlockIn(SetBlockIn(rows, wx, wy, wz, block).value, wx, wy, wz) == Ok(Some(block))
  {
    SetBlockEffect(rows, wx, wy, wz, block);
  }

  /** Whether `get_world_mesh_from_perspective` hands back the stored list: not forced and the same player chunk. */
  predicate ReusesMesh(pcx: int, pcz: int, playerX: int, playerZ: int, force: bool)
  {
    !force && pcx == TruncDiv(playerX, 16) && pcz == TruncDiv(playerZ, 16)
  }

  /** Unlike the single-player world, the multiplayer world hands back an empty list without recalculating. */
  lemma EmptyListIsReused()
    ensures ReusesMesh(0, 0, 0, 0, false)
    ensures !Worlds.ReusesMesh([], 0, 0, 0, 0, false)
  {
  }

  class ServerWorld {
    const chunks: CoordMap<Chunks.Chunk>
    const renderDistance: nat
    var playerChunkX: int
    var playerChunkZ: int
    var mesh: seq<Chunks.Mesh>
    var fetchQueue: set<Pos>
    /** The `GetChunks` requests sent to the server, oldest first, each with its coordinates. */
    ghost var sent: seq<set<Pos>>

    ghost predicate Valid()
      reads this, chunks
    {
      AllSound(chunks.rows)
    }

    /** `new`: no chunks, player chunk (0, 0), no meshes, an empty queue, nothing sent. */
    constructor (renderDistance: nat)
      ensures Valid() && fresh(chunks)
      ensures chunks.rows == map[] && this.renderDistance == renderDistance
      ensures playerChunkX == 0 && playerChunkZ == 0 && mesh == [] && fetchQueue == {} && sent == []
    {
      this.chunks := new CoordMap();
      this.renderDistance := renderDistance;
      playerChunkX := 0;
      playerChunkZ := 0;
      mesh := [];
      fetchQueue := {};
      sent := [];
    }

    /** One step of the inner loop of the first pass: extend the view, or queue the missing halo chunks. */
    method ScanCellAt(pcx: int, pcz: int, xi: nat, zi: nat, view: seq<Pos>, queue: set<Pos>)
      returns (view': seq<Pos>, queue': set<Pos>)
      ensures view' == view + View(chunks.rows, Cell(pcx, pcz, renderDistance, xi, zi))
      ensures queue' == queue + Queue(chunks.rows, Cell(pcx, pcz, renderDistance, xi, zi))
    {
      var r := renderDistance;
      var x := xi - r + pcx;
      var z := zi - r + pcz;
      view', queue' := view, queue;
      if !Visible(pcx, pcz, r, x, z) {
        return;
      }
      var here := chunks.Contains(x, z);
      var right := chunks.Contains(x + 1, z);
      var left := chunks.Contains(x - 1, z);
      var front := chunks.Contains(x, z + 1);
      var back := chunks.Contains(x, z - 1);
      assert [(x, z)][..0] == [];
      if here && right && left && front && back {
        view' := view + [(x, z)];
      } else {
        if !here {
          queue' := queue' + {(x, z)};
        }
        if !right {
          queue' := queue' + {(x + 1, z)};
        }
        if !left {
          queue' := queue' + {(x - 1, z)};
        }
        if !front {
          queue' := queue' + {(x, z + 1)};
        }
        if !back {
          queue' := queue' + {(x, z - 1)};
        }
      }
    }

    /** The inner loop of the first pass for x index xi. */
    method ScanRowAt(pcx: int, pcz: int, xi: nat, view0: seq<Pos>, queue0: set<Pos>)
      returns (view: seq<Pos>, queue: set<Pos>)
      ensures view == view0 + View(chunks.rows, SweepRow(pcx, pcz, renderDistance, xi, 2 * renderDistance))
      ensures queue == queue0 + Queue(chunks.rows, SweepRow(pcx, pcz, renderDistance, xi, 2 * renderDistance))
    {
      view, queue := view0, queue0;
      for zi := 0 to 2 * renderDistance
        invariant view == view0 + View(chunks.rows, SweepRow(pcx, pcz, renderDistance, xi, zi))
        invariant queue == queue0 + Queue(chunks.rows, SweepRow(pcx, pcz, renderDistance, xi, zi))
      {
        view, queue := ScanCellAt(pcx, pcz, xi, zi, view, queue);
        ScanStep(chunks.rows, pcx, pcz, renderDistance, xi, zi, view0, queue0);
      }
    }

    /** The first pass of the recalculation: the view list and the fetch queue over the whole sweep. */
    method ScanSweep(pcx: int, pcz: int, queue0: set<Pos>) returns (view: seq<Pos>, queue: set<Pos>)
      ensures view == View(chunks.rows, Sweep(pcx, pcz, renderDistance))
      ensures queue == queue0 + Queue(chunks.rows, Sweep(pcx, pcz, renderDistance))
    {
      view, queue := [], queue0;
      for xi := 0 to 2 * renderDistance
        invariant view == View(chunks.rows, SweepTo(pcx, pcz, renderDistance, xi))
        invariant queue == queue0 + Queue(chunks.rows, SweepTo(pcx, pcz, renderDistance, xi))
      {
        view, queue := ScanRowAt(pcx, pcz, xi, view, queue);
        ViewConcat(chunks.rows, SweepTo(pcx, pcz, renderDistance, xi), SweepRow(pcx, pcz, renderDistance, xi, 2 * renderDistance));
        QueueConcat(chunks.rows, SweepTo(pcx, pcz, renderDistance, xi), SweepRow(pcx, pcz, renderDistance, xi, 2 * renderDistance));
      }
    }

    /**
     * `recalculate_mesh_from_perspective`: empty the queue; sweep the square around the player's
     * chunk, taking a coordinate into the view when it and its four neighbours are stored and
     * queueing the missing ones otherwise; remesh the view; ask the server for the queue when it is
     * not empty; keep the meshes as the world mesh.
     */
    method Recalculate(pcx: int, pcz: int)
      requires Valid()
      modifies this, chunks
      ensures Valid()
      ensures fetchQueue == Queue(old(chunks.rows), Sweep(pcx, pcz, renderDistance))
      ensures (chunks.rows, mesh) == Remesh(old(chunks.rows), View(old(chunks.rows), Sweep(pcx, pcz, renderDistance)))
      ensures sent == old(sent) + (if fetchQueue == {} then [] else [fetchQueue])
      ensures playerChunkX == old(playerChunkX) && playerChunkZ == old(playerChunkZ)
    {
      ghost var rows0 := chunks.rows;
      fetchQueue := {};
      var view;
      view, fetchQueue := ScanSweep(pcx, pcz, fetchQueue);
      var meshes := RemeshView(chunks, view);
      ShapeKeepsSound(rows0, chunks.rows);
      if |fetchQueue| > 0 {
        sent := sent + [fetchQueue];
      }
      mesh := meshes;
    }

    /** `recalculate_mesh_from_player_perspective`: recalculate from the stored player chunk. */
    method RecalculateFromPlayer()
      requires Valid()
      modifies this, chunks
      ensures Valid()
      ensures fetchQueue == Queue(old(chunks.rows), Sweep(playerChunkX, playerChunkZ, renderDistance))
      ensures (chunks.rows, mesh) == Remesh(old(chunks.rows), View(old(chunks.rows), Sweep(playerChunkX, playerChunkZ, renderDistance)))
      ensures sent == old(sent) + (if fetchQueue == {} then [] else [fetchQueue])
      ensures playerChunkX == old(playerChunkX) && playerChunkZ == old(playerChunkZ)
    {
      Recalculate(playerChunkX, playerChunkZ);
    }

    /**
     * `get_world_mesh_from_perspective`: the player's chunk is the truncating `/ 16` of the
     * position; unless forced, the stored list for the same chunk is handed back as it is, even
     * an empty one; otherwise the world is recalculated from that chunk and the chunk recorded.
     */
    method GetWorldMesh(playerX: int, playerZ: int, force: bool) returns (m: seq<Chunks.Mesh>)
      requires Valid()
      modifies this, chunks
      ensures Valid() && m == mesh
      ensures ReusesMesh(old(playerChunkX), old(playerChunkZ), playerX, playerZ, force) ==>
        mesh == old(mesh) && chunks.rows == old(chunks.rows) && fetchQueue == old(fetchQueue) && sent == old(sent) &&
        playerChunkX == old(playerChunkX) && playerChunkZ == old(playerChunkZ)
      ensures !ReusesMesh(old(playerChunkX), old(playerChunkZ), playerX, playerZ, force) ==>
        var s := Sweep(TruncDiv(playerX, 16), TruncDiv(playerZ, 16), renderDistance);
        fetchQueue == Queue(old(chunks.rows), s) &&
        (chunks.rows, mesh) == Remesh(old(chunks.rows), View(old(chunks.rows), s)) &&
        sent == old(sent) + (if fetchQueue == {} then [] else [fetchQueue]) &&
        playerChunkX == TruncDiv(playerX, 16) && playerChunkZ == TruncDiv(playerZ, 16)
    {
      var pcx := TruncDiv(playerX, 16);
      var pcz := TruncDiv(playerZ, 16);
      if !force && playerChunkX == pcx && playerChunkZ == pcz {
        return mesh;
      }
      Recalculate(pcx, pcz);
      playerChunkX := pcx;
      playerChunkZ := pcz;
      return mesh;
    }

    /**
     * `insert_serialized_chunk`: decode the chunk (a malformed one panics), store it over any old
     * one, take its coordinate off the queue, and recalculate from the stored player chunk once
     * the queue is empty.
     */
    method InsertSerializedChunk(cx: int, cz: int, contents: seq<ChunkCodec.Byte>) returns (r: Result<()>)
      requires Valid()
      modifies this, chunks
      ensures Valid()
      ensures r.Ok? <==> Received(old(chunks.rows), cx, cz, contents).Ok?
      ensures r.Err? ==> r.fault == Received(old(chunks.rows), cx, cz, contents).fault
      ensures r.Err? ==> chunks.rows == old(chunks.rows) && fetchQueue == old(fetchQueue) && mesh == old(mesh) && sent == old(sent)
      ensures playerChunkX == old(playerChunkX) && playerChunkZ == old(playerChunkZ)
      ensures r.Ok? && old(fetchQueue) - {(cx, cz)} != {} ==>
        chunks.rows == Received(old(chunks.rows), cx, cz, contents).value &&
        fetchQueue == old(fetchQueue) - {(cx, cz)} && mesh == old(mesh) && sent == old(sent)
      ensures r.Ok? && old(fetchQueue) - {(cx, cz)} == {} ==>
        var stored := Received(old(chunks.rows), cx, cz, contents).value;
        var s := Sweep(playerChunkX, playerChunkZ, renderDistance);
        fetchQueue == Queue(stored, s) &&
        (chunks.rows, mesh) == Remesh(stored, View(stored, s)) &&
        sent == old(sent) + (if fetchQueue == {} then [] else [fetchQueue])
    {
      var c := Chunks.From(contents, cx, cz);
      if c.Err? {
        return Err(c.fault);
      }
      FromSound(contents, cx, cz);
      StoreSound(chunks.rows, cx, cz, c.value);
      chunks.Insert(cx, cz, c.value);
      fetchQueue := fetchQueue - {(cx, cz)};
      if |fetchQueue| == 0 {
        Recalculate(playerChunkX, playerChunkZ);
      }
      return Ok(());
    }

    /** `update_chunk_mesh`: the four neighbours and the chunk must be stored (else `unwrap` panics); rebuild its mesh. */
    method UpdateChunkMesh(x: int, z: int) returns (r: Result<()>)
      requires Valid()
      modifies chunks
      ensures Valid()
      ensures r.Ok? <==> UpdateMeshIn(old(chunks.rows), (x, z)).Ok?
      ensures r.Ok? ==> chunks.rows == UpdateMeshIn(old(chunks.rows), (x, z)).value
      ensures r.Err? ==> r.fault == UnwrapNone && chunks.rows == old(chunks.rows)
    {
      r := ChunkStores.UpdateChunkMesh(chunks, x, z);
    }

    /**
     * `set_block`: localise, edit the stored chunk, remesh it, then remesh the boundary neighbour
     * chosen by `BoundaryNeighbour`. A panic leaves the world in whatever state it had reached.
     */
    method SetBlock(wx: int, wy: int, wz: int, block: BlockType) returns (r: Result<()>)
      requires Valid() && IsI32(wx) && IsI32(wz)
      modifies chunks
      ensures Valid()
      ensures r.Ok? <==> SetBlockIn(old(chunks.rows), wx, wy, wz, block).Ok?
      ensures r.Ok? ==> chunks.rows == SetBlockIn(old(chunks.rows), wx, wy, wz, block).value
      ensures r.Err? ==> r.fault == SetBlockIn(old(chunks.rows), wx, wy, wz, block).fault
    {
      var loc := LocalizeCoordsToChunk(wx, wz);
      if loc.Err? {
        return Err(loc.fault);
      }
      var (cx, cz, lx, lz) := loc.value;
      r := EditAt(chunks, cx, cz, lx, wy, lz, block);
      if r.Err? {
        return;
      }
      r := RemeshAfterEditAt(chunks, cx, cz, lx, lz);
    }
  }
}
