/**
 * What the current single-player world (src/core/world.rs) and the multiplayer world
 * (models/multiplayer/server_world.rs) share about their chunk stores: the one-chunk halo a
 * chunk needs for meshing, the remesh pass over a view (reuse a cached mesh when its opaque part
 * is non-empty, else build one from the four neighbours and write it back), `update_chunk_mesh`,
 * and the one-neighbour rule after an edit.
 */
module ChunkStores {
  import opened Wrappers
  import opened Ints
  import opened Grids
  import opened Blocks
  import opened CoordMaps
  import opened Sweeps
  import opened WorldUtils
  import opened GameWorlds
  import Chunks
  import ChunkCodec

  /** A chunk `gen_mesh` and `set_block` can work on: a full grid and an index inside the chunk. */
  predicate Sound(c: Chunks.Chunk)
  {
    IsGrid(c.blocks) && forall e :: e in c.index ==> CoordInBounds(e)
  }

  /** A chunk decoded from the layered format is sound: the decoder only indexes cells inside the chunk. */
  lemma FromSound(contents: seq<ChunkCodec.Byte>, x: int, z: int)
    ensures Chunks.From(contents, x, z).Ok? ==> Sound(Chunks.From(contents, x, z).value)
  {
    ChunkCodec.DecodedInBounds(contents, 0, 0, [], Filled(Air));
  }

  ghost predicate AllSound(rows: Rows)
  {
    forall x, z :: Lookup(rows, x, z).Some? ==> Sound(Lookup(rows, x, z).value)
  }

  lemma SoundGrids(rows: Rows)
    requires AllSound(rows)
    ensures AllGrids(rows)
  {
  }

  predicate Present(rows: Rows, p: Pos)
  {
    Lookup(rows, p.0, p.1).Some?
  }

  /** A chunk and the four chunks `gen_mesh` reads beside it, in the order the worlds visit them. */
  function Halo(p: Pos): (h: seq<Pos>)
    ensures |h| == 5 && h[0] == p
  {
    [p, (p.0 + 1, p.1), (p.0 - 1, p.1), (p.0, p.1 + 1), (p.0, p.1 - 1)]
  }

  predicate HasHalo(rows: Rows, p: Pos)
  {
    HaloAt(rows, p.0, p.1)
  }

  /** The chunk at (x, z) and its four neighbours are stored. */
  predicate HaloAt(rows: Rows, x: int, z: int)
  {
    Lookup(rows, x, z).Some? && Lookup(rows, x + 1, z).Some? && Lookup(rows, x - 1, z).Some? &&
    Lookup(rows, x, z + 1).Some? && Lookup(rows, x, z - 1).Some?
  }

  lemma HasHaloMembers(rows: Rows, p: Pos)
    ensures HasHalo(rows, p) <==> forall q :: q in Halo(p) ==> Present(rows, q)
  {
    var h := Halo(p);
    assert h[1] == (p.0 + 1, p.1) && h[2] == (p.0 - 1, p.1) && h[3] == (p.0, p.1 + 1) && h[4] == (p.0, p.1 - 1);
    if HasHalo(rows, p) {
      forall q | q in h
        ensures Present(rows, q)
      {
        var i :| 0 <= i < 5 && h[i] == q;
      }
    }
    if forall q :: q in h ==> Present(rows, q) {
      assert Present(rows, h[0]) && Present(rows, h[1]) && Present(rows, h[2]) && Present(rows, h[3]) && Present(rows, h[4]);
    }
  }

  /** q is one of the halo chunks of some coordinate of the view. */
  ghost predicate InHalo(view: seq<Pos>, q: Pos)
  {
    exists i :: 0 <= i < |view| && q in Halo(view[i])
  }

  /** The halo set of a longer view adds the halo of its last coordinate. */
  lemma InHaloSnoc(view: seq<Pos>, q: Pos)
    requires |view| > 0
    ensures InHalo(view, q) <==> InHalo(view[..|view| - 1], q) || q in Halo(view[|view| - 1])
  {
    var init := view[..|view| - 1];
    if InHalo(init, q) {
      var i :| 0 <= i < |init| && q in Halo(init[i]);
      assert view[i] == init[i];
    }
    if InHalo(view, q) && q !in Halo(view[|view| - 1]) {
      var i :| 0 <= i < |view| && q in Halo(view[i]);
      assert i < |init| && init[i] == view[i];
    }
  }

  /** The grids of the right (x + 1), left (x - 1), front (z + 1) and back (z - 1) chunks. */
  function NeighboursAt(rows: Rows, p: Pos): (n: Chunks.Neighbours)
    requires AllSound(rows) && HasHalo(rows, p)
    ensures Chunks.NeighboursValid(n)
  {
    Chunks.Neighbours(
      Lookup(rows, p.0 + 1, p.1).value.blocks, Lookup(rows, p.0 - 1, p.1).value.blocks,
      Lookup(rows, p.0, p.1 + 1).value.blocks, Lookup(rows, p.0, p.1 - 1).value.blocks)
  }

  /** The mesh `gen_mesh` builds for the chunk at p; with the index inside the chunk it never panics. */
  function FreshMesh(rows: Rows, p: Pos): (m: Chunks.Mesh)
    requires AllSound(rows) && HasHalo(rows, p)
    ensures Chunks.MeshOf(Lookup(rows, p.0, p.1).value, NeighboursAt(rows, p), |Lookup(rows, p.0, p.1).value.index|, true) == Ok(m)
  {
    var c := Lookup(rows, p.0, p.1).value;
    var n := NeighboursAt(rows, p);
    Chunks.MeshTotal(c, n);
    assert forall j :: 0 <= j < |c.index| ==> c.index[j] in c.index;
    Chunks.MeshOf(c, n, |c.index|, true).value
  }

  /** The remesh pass keeps a cached mesh whose opaque part is non-empty and builds the others. */
  function CachedOrFresh(rows: Rows, p: Pos): (m: Chunks.Mesh)
    requires AllSound(rows) && HasHalo(rows, p)
    ensures |Lookup(rows, p.0, p.1).value.mesh.solid| != 0 ==> m == Lookup(rows, p.0, p.1).value.mesh
    ensures |Lookup(rows, p.0, p.1).value.mesh.solid| == 0 ==> m == FreshMesh(rows, p)
  {
    var c := Lookup(rows, p.0, p.1).value;
    if |c.mesh.solid| != 0 then c.mesh else FreshMesh(rows, p)
  }

  /** The rows with the cached mesh of the chunk at p replaced. */
  function WithMesh(rows: Rows, p: Pos, m: Chunks.Mesh): Rows
    requires Present(rows, p)
  {
    Store(rows, p.0, p.1, Lookup(rows, p.0, p.1).value.(mesh := m))
  }

  /** A stored chunk with its cached mesh forgotten: what meshing leaves alone. */
  function ShapeAt(rows: Rows, x: int, z: int): Option<Chunks.Chunk>
  {
    match Lookup(rows, x, z)
    case None => None
    case Some(c) => Some(c.(mesh := Chunks.EmptyMesh))
  }

  /** The same chunks at the same keys, up to their cached meshes. */
  ghost predicate SameShape(a: Rows, b: Rows)
  {
    forall x, z :: ShapeAt(a, x, z) == ShapeAt(b, x, z)
  }

  /** Writing a mesh back changes only that chunk's mesh. */
  lemma WithMeshShape(rows: Rows, p: Pos, m: Chunks.Mesh)
    requires Present(rows, p)
    ensures SameShape(rows, WithMesh(rows, p, m))
    ensures Lookup(WithMesh(rows, p, m), p.0, p.1) == Some(Lookup(rows, p.0, p.1).value.(mesh := m))
  {
  }

  /** Soundness ignores cached meshes. */
  lemma ShapeKeepsSound(a: Rows, b: Rows)
    requires SameShape(a, b) && AllSound(a)
    ensures AllSound(b)
  {
    forall x, z | Lookup(b, x, z).Some?
      ensures Sound(Lookup(b, x, z).value)
    {
      assert ShapeAt(a, x, z) == ShapeAt(b, x, z);
    }
  }

  /** Chunks of the same shape are meshed alike and are as sound, whatever their cached meshes. */
  lemma ShapeKeepsMeshing(a: Rows, b: Rows, p: Pos)
    requires SameShape(a, b) && AllSound(a) && HasHalo(a, p)
    ensures AllSound(b) && HasHalo(b, p)
    ensures FreshMesh(a, p) == FreshMesh(b, p)
  {
    ShapeKeepsSound(a, b);
    assert ShapeAt(a, p.0, p.1) == ShapeAt(b, p.0, p.1);
    var ca := Lookup(a, p.0, p.1).value;
    var cb := Lookup(b, p.0, p.1).value;
    assert ShapeAt(a, p.0 + 1, p.1) == ShapeAt(b, p.0 + 1, p.1);
    assert ShapeAt(a, p.0 - 1, p.1) == ShapeAt(b, p.0 - 1, p.1);
    assert ShapeAt(a, p.0, p.1 + 1) == ShapeAt(b, p.0, p.1 + 1);
    assert ShapeAt(a, p.0, p.1 - 1) == ShapeAt(b, p.0, p.1 - 1);
    assert NeighboursAt(a, p) == NeighboursAt(b, p);
    assert cb == ca.(mesh := cb.mesh);
    Chunks.MeshIgnoresCache(ca, NeighboursAt(a, p), true, cb.mesh);
  }

  predicate Distinct(view: seq<Pos>)
  {
    forall i, j :: 0 <= i < j < |view| ==> view[i] != view[j]
  }

  ghost predicate AllHaloed(rows: Rows, view: seq<Pos>)
  {
    forall i :: 0 <= i < |view| ==> HasHalo(rows, view[i])
  }

  /**
   * The remesh pass over a view, in order: each chunk gets its cached or fresh mesh, written back
   * before the next one is looked at; the list collects the meshes in view order.
   */
  function Remesh(rows: Rows, view: seq<Pos>): (r: (Rows, seq<Chunks.Mesh>))
    requires AllSound(rows) && AllHaloed(rows, view)
    ensures SameShape(rows, r.0) && |r.1| == |view|
    decreases |view|
  {
    if |view| == 0 then (rows, [])
    else
      var prev := Remesh(rows, view[..|view| - 1]);
      var p := view[|view| - 1];
      ShapeKeepsMeshing(rows, prev.0, p);
      var m := CachedOrFresh(prev.0, p);
      WithMeshShape(prev.0, p, m);
      (WithMesh(prev.0, p, m), prev.1 + [m])
  }

  /**
   * Over a view without repeats, the pass gives every view chunk its own cached-or-fresh mesh as
   * the rows stood before the pass, lists those meshes in view order, and leaves every other key alone.
   */
  lemma {:induction false} RemeshResult(rows: Rows, view: seq<Pos>, x: int, z: int)
    requires AllSound(rows) && AllHaloed(rows, view) && Distinct(view)
    ensures forall i :: 0 <= i < |view| ==> Remesh(rows, view).1[i] == CachedOrFresh(rows, view[i])
    ensures (x, z) in view ==>
      Lookup(Remesh(rows, view).0, x, z) == Some(Lookup(rows, x, z).value.(mesh := CachedOrFresh(rows, (x, z))))
    ensures (x, z) !in view ==> Lookup(Remesh(rows, view).0, x, z) == Lookup(rows, x, z)
    decreases |view|
  {
    if |view| > 0 {
      var init := view[..|view| - 1];
      var p := view[|view| - 1];
      assert AllHaloed(rows, init);
      var prev := Remesh(rows, init);
      RemeshResult(rows, init, p.0, p.1);
      assert p !in init;
      assert Lookup(prev.0, p.0, p.1) == Lookup(rows, p.0, p.1);
      ShapeKeepsMeshing(rows, prev.0, p);
      assert CachedOrFresh(prev.0, p) == CachedOrFresh(rows, p);
      RemeshResult(rows, init, x, z);
      assert (x, z) in view <==> (x, z) in init || (x, z) == p;
      forall i | 0 <= i < |view|
        ensures Remesh(rows, view).1[i] == CachedOrFresh(rows, view[i])
      {
        if i < |view| - 1 {
          assert view[i] == init[i];
        }
      }
    }
  }

  /** `update_chunk_mesh`: panics unless the chunk and its four neighbours are present, else rebuilds the chunk's mesh. */
  function UpdateMeshIn(rows: Rows, p: Pos): (r: Result<Rows>)
    requires AllSound(rows)
    ensures r.Ok? <==> HasHalo(rows, p)
    ensures r.Err? ==> r.fault == UnwrapNone
    ensures r.Ok? ==> SameShape(rows, r.value) && AllSound(r.value)
    ensures r.Ok? ==> Present(r.value, p) && Lookup(r.value, p.0, p.1).value.mesh == FreshMesh(rows, p)
    ensures r.Ok? ==> forall x, z :: (x, z) != p ==> Lookup(r.value, x, z) == Lookup(rows, x, z)
  {
    if !HasHalo(rows, p) then Err(UnwrapNone)
    else
      var m := FreshMesh(rows, p);
      WithMeshShape(rows, p, m);
      ShapeKeepsMeshing(rows, WithMesh(rows, p, m), p);
      Ok(WithMesh(rows, p, m))
  }

  /**
   * The neighbour `set_block` remeshes after the edited chunk: only the first of lx == 0, lx == 15,
   * lz == 0, lz == 15 that holds picks x - 1, x + 1, z - 1 or z + 1.
   */
  function BoundaryNeighbour(cx: int, cz: int, lx: nat, lz: nat): (r: Option<Pos>)
    ensures r.None? <==> lx != 0 && lx != ChunkSize - 1 && lz != 0 && lz != ChunkSize - 1
    ensures r.Some? ==> r.value in Halo((cx, cz))[1..]
    ensures r.Some? && (lx == 0 || lx == ChunkSize - 1) ==> r.value.1 == cz && r.value.0 == cx + (if lx == 0 then -1 else 1)
    ensures r.Some? && lx != 0 && lx != ChunkSize - 1 ==> r.value.0 == cx && r.value.1 == cz + (if lz == 0 then -1 else 1)
  {
    if lx == 0 then Some((cx - 1, cz))
    else if lx == 15 then Some((cx + 1, cz))
    else if lz == 0 then Some((cx, cz - 1))
    else if lz == 15 then Some((cx, cz + 1))
    else None
  }

  /** The edited chunk stays sound: `set_block` keeps its grid full and only adds the in-range coordinate. */
  lemma UpdatedSound(c: Chunks.Chunk, x: nat, y: nat, z: nat, block: BlockType)
    requires Sound(c) && Chunks.Updated(c, x, y, z, block, true).Ok?
    ensures Sound(Chunks.Updated(c, x, y, z, block, true).value)
  {
    var d := Chunks.Updated(c, x, y, z, block, true).value;
    forall e | e in d.index
      ensures CoordInBounds(e)
    {
      if block == Air {
        Chunks.RemoveFirstWithin(c.index, (x, y, z), |c.index|, e);
      }
    }
  }

  lemma StoreSound(rows: Rows, x: int, z: int, c: Chunks.Chunk)
    requires AllSound(rows) && Sound(c)
    ensures AllSound(Store(rows, x, z, c))
  {
  }

  /** Equal shapes store chunks at the same keys, so a halo is present in both or in neither. */
  lemma ShapeKeepsHalo(a: Rows, b: Rows, p: Pos)
    requires SameShape(a, b)
    ensures HasHalo(a, p) <==> HasHalo(b, p)
  {
    assert ShapeAt(a, p.0, p.1) == ShapeAt(b, p.0, p.1);
    assert ShapeAt(a, p.0 + 1, p.1) == ShapeAt(b, p.0 + 1, p.1);
    assert ShapeAt(a, p.0 - 1, p.1) == ShapeAt(b, p.0 - 1, p.1);
    assert ShapeAt(a, p.0, p.1 + 1) == ShapeAt(b, p.0, p.1 + 1);
    assert ShapeAt(a, p.0, p.1 - 1) == ShapeAt(b, p.0, p.1 - 1);
  }

  /** The same keys are stored, whatever the chunks. */
  ghost predicate SamePresence(a: Rows, b: Rows)
  {
    forall x, z :: Present(a, (x, z)) <==> Present(b, (x, z))
  }

  lemma PresenceKeepsHalo(a: Rows, b: Rows, p: Pos)
    requires SamePresence(a, b)
    ensures HasHalo(a, p) <==> HasHalo(b, p)
  {
    assert Present(a, p) <==> Present(b, p);
    assert Present(a, (p.0 + 1, p.1)) <==> Present(b, (p.0 + 1, p.1));
    assert Present(a, (p.0 - 1, p.1)) <==> Present(b, (p.0 - 1, p.1));
    assert Present(a, (p.0, p.1 + 1)) <==> Present(b, (p.0, p.1 + 1));
    assert Present(a, (p.0, p.1 - 1)) <==> Present(b, (p.0, p.1 - 1));
  }

  /**
   * The edit of `set_block`: the stored chunk (`unwrap` panics when absent) gets its own
   * `set_block` at the local coordinates, a negative y being a huge usize and so out of range;
   * the chunk's index scan is taken over the whole index.
   */
  function EditIn(rows: Rows, cx: int, cz: int, lx: nat, y: int, lz: nat, block: BlockType): (r: Result<Rows>)
    requires AllSound(rows)
    ensures r.Ok? <==> Present(rows, (cx, cz)) && InBounds(lx, y, lz)
    ensures r.Err? ==> (r.fault == UnwrapNone <==> !Present(rows, (cx, cz)))
    ensures r.Ok? ==> AllSound(r.value) && SamePresence(rows, r.value)
    ensures r.Ok? ==> Get(Lookup(r.value, cx, cz).value.blocks, lx, y, lz) == block
    ensures r.Ok? ==> forall x', y', z' :: InBounds(x', y', z') && (x', y', z') != (lx, y, lz) ==>
      Get(Lookup(r.value, cx, cz).value.blocks, x', y', z') == Get(Lookup(rows, cx, cz).value.blocks, x', y', z')
    ensures r.Ok? ==> forall x, z :: (x, z) != (cx, cz) ==> Lookup(r.value, x, z) == Lookup(rows, x, z)
  {
    if !Present(rows, (cx, cz)) then Err(UnwrapNone)
    else if y < 0 then Err(OutOfBounds)
    else
      var c := Lookup(rows, cx, cz).value;
      var edited :- Chunks.Updated(c, lx, y, lz, block, true);
      UpdatedSound(c, lx, y, lz, block);
      StoreSound(rows, cx, cz, edited);
      SetFrame(c.blocks, lx, y, lz, block);
      Ok(Store(rows, cx, cz, edited))
  }

  /** The remeshing of `set_block`: the edited chunk, then the boundary neighbour if there is one. */
  function RemeshAfterEdit(rows: Rows, cx: int, cz: int, lx: nat, lz: nat): (r: Result<Rows>)
    requires AllSound(rows)
    ensures r.Ok? <==> (HasHalo(rows, (cx, cz)) &&
      (BoundaryNeighbour(cx, cz, lx, lz).None? || HasHalo(rows, BoundaryNeighbour(cx, cz, lx, lz).value)))
    ensures r.Err? ==> r.fault == UnwrapNone
    ensures r.Ok? ==> SameShape(rows, r.value) && AllSound(r.value)
    ensures r.Ok? ==> forall x, z :: (x, z) != (cx, cz) && BoundaryNeighbour(cx, cz, lx, lz) != Some((x, z)) ==>
      Lookup(r.value, x, z) == Lookup(rows, x, z)
    ensures r.Ok? ==> Present(r.value, (cx, cz)) && Lookup(r.value, cx, cz).value.mesh == FreshMesh(rows, (cx, cz))
    ensures r.Ok? && BoundaryNeighbour(cx, cz, lx, lz).Some? ==>
      var q := BoundaryNeighbour(cx, cz, lx, lz).value;
      HasHalo(rows, q) && Present(r.value, q) && Lookup(r.value, q.0, q.1).value.mesh == FreshMesh(rows, q)
  {
    var meshed :- UpdateMeshIn(rows, (cx, cz));
    match BoundaryNeighbour(cx, cz, lx, lz)
    case None => Ok(meshed)
    case Some(q) =>
      ShapeKeepsHalo(rows, meshed, q);
      if HasHalo(rows, q) then
        ShapeKeepsMeshing(rows, meshed, q);
        UpdateMeshIn(meshed, q)
      else
        UpdateMeshIn(meshed, q)
  }

  /** `set_block`: localise, edit the chunk, remesh it and its boundary neighbour. */
  function SetBlockIn(rows: Rows, wx: int, wy: int, wz: int, block: BlockType): (r: Result<Rows>)
    requires AllSound(rows) && IsI32(wx) && IsI32(wz)
    ensures r.Ok? ==> AllSound(r.value)
  {
    var (cx, cz, lx, lz) :- LocalizeCoordsToChunk(wx, wz);
    var edited :- EditIn(rows, cx, cz, lx, wy, lz, block);
    RemeshAfterEdit(edited, cx, cz, lx, lz)
  }

  /** The edit and the remeshing together succeed exactly when the cell is in range and every needed halo is stored. */
  lemma EditThenRemeshOk(rows: Rows, cx: int, cz: int, lx: nat, y: int, lz: nat, block: BlockType)
    requires AllSound(rows)
    ensures (EditIn(rows, cx, cz, lx, y, lz, block).Ok? &&
             RemeshAfterEdit(EditIn(rows, cx, cz, lx, y, lz, block).value, cx, cz, lx, lz).Ok?) <==>
      (InBounds(lx, y, lz) && HasHalo(rows, (cx, cz)) &&
       (BoundaryNeighbour(cx, cz, lx, lz).None? || HasHalo(rows, BoundaryNeighbour(cx, cz, lx, lz).value)))
  {
    if EditIn(rows, cx, cz, lx, y, lz, block).Ok? {
      var edited := EditIn(rows, cx, cz, lx, y, lz, block).value;
      PresenceKeepsHalo(rows, edited, (cx, cz));
      var q := BoundaryNeighbour(cx, cz, lx, lz);
      if q.Some? {
        PresenceKeepsHalo(rows, edited, q.value);
      }
    }
  }

  /**
   * An edit succeeds exactly when the coordinates localise, y lies in 0..256, the chunk and its
   * four neighbours are stored, and so are the boundary neighbour's if there is one.
   */
  lemma SetBlockOk(rows: Rows, wx: int, wy: int, wz: int, block: BlockType)
    requires AllSound(rows) && IsI32(wx) && IsI32(wz)
    ensures SetBlockIn(rows, wx, wy, wz, block).Ok? <==>
      LocalizeCoordsToChunk(wx, wz).Ok? && 0 <= wy < ChunkHeight && HasHalo(rows, (wx / 16, wz / 16)) &&
      (BoundaryNeighbour(wx / 16, wz / 16, wx % 16, wz % 16).None? ||
       HasHalo(rows, BoundaryNeighbour(wx / 16, wz / 16, wx % 16, wz % 16).value))
  {
    if LocalizeCoordsToChunk(wx, wz).Ok? {
      var (cx, cz, lx, lz) := LocalizeCoordsToChunk(wx, wz).value;
      EditThenRemeshOk(rows, cx, cz, lx, wy, lz, block);
    }
  }

  /**
   * After a successful edit, the edited cell reads the new block and every other cell of the
   * world reads as before; no other chunk changes but for its mesh, only the edited chunk and
   * the boundary neighbour get new meshes, and those meshes are what `gen_mesh` builds from the
   * world as it now stands.
   */
  lemma SetBlockEffect(rows: Rows, wx: int, wy: int, wz: int, block: BlockType)
    requires AllSound(rows) && IsI32(wx) && IsI32(wz)
    requires SetBlockIn(rows, wx, wy, wz, block).Ok?
    ensures Present(SetBlockIn(rows, wx, wy, wz, block).value, (wx / 16, wz / 16)) && 0 <= wy < ChunkHeight
    ensures Get(Lookup(SetBlockIn(rows, wx, wy, wz, block).value, wx / 16, wz / 16).value.blocks, wx % 16, wy, wz % 16) == block
    ensures forall x, z :: (x, z) != (wx / 16, wz / 16) ==>
      ShapeAt(SetBlockIn(rows, wx, wy, wz, block).value, x, z) == ShapeAt(rows, x, z)
    ensures forall x, z :: (x, z) != (wx / 16, wz / 16) && BoundaryNeighbour(wx / 16, wz / 16, wx % 16, wz % 16) != Some((x, z)) ==>
      Lookup(SetBlockIn(rows, wx, wy, wz, block).value, x, z) == Lookup(rows, x, z)
    ensures forall x', y', z' :: InBounds(x', y', z') && (x', y', z') != (wx % 16, wy, wz % 16) ==>
      Get(Lookup(SetBlockIn(rows, wx, wy, wz, block).value, wx / 16, wz / 16).value.blocks, x', y', z') ==
      Get(Lookup(rows, wx / 16, wz / 16).value.blocks, x', y', z')
    ensures AllSound(SetBlockIn(rows, wx, wy, wz, block).value)
    ensures HasHalo(SetBlockIn(rows, wx, wy, wz, block).value, (wx / 16, wz / 16))
    ensures Lookup(SetBlockIn(rows, wx, wy, wz, block).value, wx / 16, wz / 16).value.mesh ==
      FreshMesh(SetBlockIn(rows, wx, wy, wz, block).value, (wx / 16, wz / 16))
    ensures BoundaryNeighbour(wx / 16, wz / 16, wx % 16, wz % 16).Some? ==>
      var q := BoundaryNeighbour(wx / 16, wz / 16, wx % 16, wz % 16).value;
      HasHalo(SetBlockIn(rows, wx, wy, wz, block).value, q) &&
      Lookup(SetBlockIn(rows, wx, wy, wz, block).value, q.0, q.1).value.mesh == FreshMesh(SetBlockIn(rows, wx, wy, wz, block).value, q)
  {
    var (cx, cz, lx, lz) := LocalizeCoordsToChunk(wx, wz).value;
    var edited := EditIn(rows, cx, cz, lx, wy, lz, block).value;
    var after := SetBlockIn(rows, wx, wy, wz, block).value;
    assert ShapeAt(after, cx, cz) == ShapeAt(edited, cx, cz);
    forall x, z | (x, z) != (cx, cz)
      ensures ShapeAt(after, x, z) == ShapeAt(rows, x, z)
    {
      assert ShapeAt(after, x, z) == ShapeAt(edited, x, z);
    }
    ShapeKeepsMeshing(edited, after, (cx, cz));
    var b := BoundaryNeighbour(cx, cz, lx, lz);
    if b.Some? {
      ShapeKeepsMeshing(edited, after, b.value);
    }
  }

  /** The remesh pass over one more coordinate of the view: the next step on what the prefix left. */
  lemma RemeshPrefix(rows: Rows, view: seq<Pos>, i: nat)
    requires AllSound(rows) && AllHaloed(rows, view) && i < |view|
    ensures AllHaloed(rows, view[..i]) && AllHaloed(rows, view[..i + 1])
    ensures AllSound(Remesh(rows, view[..i]).0) && HasHalo(Remesh(rows, view[..i]).0, view[i])
    ensures Remesh(rows, view[..i + 1]) ==
      (WithMesh(Remesh(rows, view[..i]).0, view[i], CachedOrFresh(Remesh(rows, view[..i]).0, view[i])),
       Remesh(rows, view[..i]).1 + [CachedOrFresh(Remesh(rows, view[..i]).0, view[i])])
  {
    assert view[..i + 1][..i] == view[..i];
    ShapeKeepsMeshing(rows, Remesh(rows, view[..i]).0, view[i]);
  }

  /** One step of the second loop of the recalculation: reuse or build the mesh and write it back. */
  method RemeshAt(store: CoordMap<Chunks.Chunk>, p: Pos) returns (m: Chunks.Mesh)
    requires AllSound(store.rows) && HasHalo(store.rows, p)
    modifies store
    ensures m == CachedOrFresh(old(store.rows), p)
    ensures store.rows == WithMesh(old(store.rows), p, m)
  {
    var c := store.Get(p.0, p.1).value;
    if |c.mesh.solid| != 0 {
      m := c.mesh;
    } else {
      var right := store.Get(p.0 + 1, p.1).value;
      var left := store.Get(p.0 - 1, p.1).value;
      var front := store.Get(p.0, p.1 + 1).value;
      var back := store.Get(p.0, p.1 - 1).value;
      var n := Chunks.Neighbours(right.blocks, left.blocks, front.blocks, back.blocks);
      assert n == NeighboursAt(store.rows, p);
      ghost var built0 := FreshMesh(store.rows, p);
      var built := Chunks.GenMesh(c, n, true);
      m := built.value;
    }
    var written := store.WriteThrough(p.0, p.1, c.(mesh := m));
  }

  /** The second loop of the recalculation: remesh the view in order, collecting the meshes. */
  method RemeshView(store: CoordMap<Chunks.Chunk>, view: seq<Pos>) returns (meshes: seq<Chunks.Mesh>)
    requires AllSound(store.rows) && AllHaloed(store.rows, view)
    modifies store
    ensures (store.rows, meshes) == Remesh(old(store.rows), view)
  {
    ghost var rows0 := store.rows;
    meshes := [];
    for i := 0 to |view|
      invariant AllHaloed(rows0, view[..i])
      invariant (store.rows, meshes) == Remesh(rows0, view[..i])
    {
      RemeshPrefix(rows0, view, i);
      var m := RemeshAt(store, view[i]);
      meshes := meshes + [m];
    }
    assert view[..|view|] == view;
  }

  /** `update_chunk_mesh`: the four neighbours and the chunk must be stored (else `unwrap` panics); rebuild its mesh. */
  method UpdateChunkMesh(store: CoordMap<Chunks.Chunk>, x: int, z: int) returns (r: Result<()>)
    requires AllSound(store.rows)
    modifies store
    ensures AllSound(store.rows)
    ensures r.Ok? <==> UpdateMeshIn(old(store.rows), (x, z)).Ok?
    ensures r.Ok? ==> store.rows == UpdateMeshIn(old(store.rows), (x, z)).value
    ensures r.Err? ==> r.fault == UnwrapNone && store.rows == old(store.rows)
  {
    var right := store.Get(x + 1, z);
    var left := store.Get(x - 1, z);
    var front := store.Get(x, z + 1);
    var back := store.Get(x, z - 1);
    var chunk := store.Get(x, z);
    if right.None? || left.None? || front.None? || back.None? || chunk.None? {
      return Err(UnwrapNone);
    }
    var n := Chunks.Neighbours(right.value.blocks, left.value.blocks, front.value.blocks, back.value.blocks);
    assert n == NeighboursAt(store.rows, (x, z));
    ghost var built0 := FreshMesh(store.rows, (x, z));
    var built := Chunks.GenMesh(chunk.value, n, true);
    var written := store.WriteThrough(x, z, chunk.value.(mesh := built.value));
    return Ok(());
  }

  /** The edit of `set_block`: the stored chunk's own `set_block`, written back. */
  method EditAt(store: CoordMap<Chunks.Chunk>, cx: int, cz: int, lx: nat, y: int, lz: nat, block: BlockType) returns (r: Result<()>)
    requires AllSound(store.rows)
    modifies store
    ensures AllSound(store.rows)
    ensures r.Ok? <==> EditIn(old(store.rows), cx, cz, lx, y, lz, block).Ok?
    ensures r.Ok? ==> store.rows == EditIn(old(store.rows), cx, cz, lx, y, lz, block).value
    ensures r.Err? ==> r.fault == EditIn(old(store.rows), cx, cz, lx, y, lz, block).fault
  {
    var found := store.Get(cx, cz);
    if found.None? {
      return Err(UnwrapNone);
    }
    if y < 0 {
      return Err(OutOfBounds);
    }
    var updated := Chunks.SetBlock(found.value, lx, y, lz, block, true);
    if updated.Err? {
      return Err(updated.fault);
    }
    UpdatedSound(found.value, lx, y, lz, block);
    var written := store.WriteThrough(cx, cz, updated.value);
    return Ok(());
  }

  /** The remeshing of `set_block`: the edited chunk, then its boundary neighbour if there is one. */
  method RemeshAfterEditAt(store: CoordMap<Chunks.Chunk>, cx: int, cz: int, lx: nat, lz: nat) returns (r: Result<()>)
    requires AllSound(store.rows)
    modifies store
    ensures AllSound(store.rows)
    ensures r.Ok? <==> RemeshAfterEdit(old(store.rows), cx, cz, lx, lz).Ok?
    ensures r.Ok? ==> store.rows == RemeshAfterEdit(old(store.rows), cx, cz, lx, lz).value
    ensures r.Err? ==> r.fault == UnwrapNone
  {
    ghost var edited := store.rows;
    r := UpdateChunkMesh(store, cx, cz);
    if r.Err? {
      return;
    }
    var q := BoundaryNeighbour(cx, cz, lx, lz);
    if q.Some? {
      ShapeKeepsHalo(edited, store.rows, q.value);
      r := UpdateChunkMesh(store, q.value.0, q.value.1);
    }
  }
}
