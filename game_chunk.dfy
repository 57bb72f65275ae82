/**
 * The default methods of the `GameChunk` trait (models/traits/game_chunk.rs), over a chunk's
 * grid. Both chunks of the engine take these defaults and only supply `get_blocks`.
 */
module GameChunks {
  import opened Wrappers
  import opened Grids
  import opened Blocks
  import opened BlockMaps

  /** `highest_in_column_from_y`: the grid's `highest_in_column_from_y` scan from h. */
  function HighestInColumnFromY(g: seq<BlockType>, x: nat, h: nat, z: nat): (r: Result<nat>)
    requires IsGrid(g)
    ensures r.Ok? <==> h == 0 || (x < ChunkSize && z < ChunkSize && h <= ChunkHeight)
    ensures r.Ok? && r.value > 0 ==> r.value < h && Get(g, x, r.value, z) !in {Air, Water}
    ensures r.Ok? && h > 0 ==> forall y :: r.value < y < h ==> Get(g, x, y, z) in {Air, Water}
  {
    SolidTopBelow(g, x, h, z, Air, Water)
  }

  /** `highest_in_column`: the scan from y = 255, so it never answers 255 and looks past Water. */
  function HighestInColumn(g: seq<BlockType>, x: nat, z: nat): (r: Result<nat>)
    requires IsGrid(g)
    ensures r.Ok? <==> x < ChunkSize && z < ChunkSize
    ensures r.Ok? ==> r.value < ChunkHeight - 1
  {
    HighestInColumnFromY(g, x, ChunkHeight - 1, z)
  }

  /** The default answers 0 exactly when no cell below y = 255 holds a block other than Air or Water. */
  lemma HighestIsZero(g: seq<BlockType>, x: nat, z: nat)
    requires IsGrid(g) && x < ChunkSize && z < ChunkSize
    ensures HighestInColumn(g, x, z) == Ok(0) <==> forall y :: 0 < y < ChunkHeight - 1 ==> Get(g, x, y, z) in {Air, Water}
  {
    var r := HighestInColumn(g, x, z).value;
    assert r > 0 ==> Get(g, x, r, z) !in {Air, Water};
  }

  /**
   * The default differs from the grid's own `highest_in_column`, which scans from 255 and stops
   * at Water: a Water cell over Stone shows it.
   */
  lemma DefaultSkipsWater()
    ensures HighestInColumn(Set(Set(Filled(Air), 0, 1, 0, Stone), 0, 2, 0, Water), 0, 0) == Ok(1)
    ensures ColumnTop(Set(Set(Filled(Air), 0, 1, 0, Stone), 0, 2, 0, Water), 0, 0, Air) == Ok(2)
  {
    var g := Set(Set(Filled(Air), 0, 1, 0, Stone), 0, 2, 0, Water);
    SetFrame(Set(Filled(Air), 0, 1, 0, Stone), 0, 2, 0, Water);
    SetFrame(Filled(Air), 0, 1, 0, Stone);
    assert Get(g, 0, 2, 0) == Water && Get(g, 0, 1, 0) == Stone;
    ScanStopsAt(g, 0, 0, ChunkHeight - 1, Air, 2);
    SolidStopsAt(g, 0, 0, ChunkHeight - 1, Air, Water, 1);
  }
}
