/**
 * The default methods of the `GameWorld` trait (src/traits/game_world.rs), over the chunk store
 * of a world and the answer of that world's own `get_block`.
 */
module GameWorlds {
  import opened Wrappers
  import opened Ints
  import opened Grids
  import opened Blocks
  import opened CoordMaps
  import opened WorldUtils
  import Chunks
  import GameChunks

  /** The contents of a world's `CoordMap<Chunk>`. */
  type Rows = map<int, map<int, Chunks.Chunk>>

  /** Every stored chunk holds a full grid. */
  ghost predicate AllGrids(rows: Rows)
  {
    forall x, z :: Lookup(rows, x, z).Some? ==> IsGrid(Lookup(rows, x, z).value.blocks)
  }

  /** `moveable`, given what the world's `get_block` answered: a player may stand in Air or Water, and nowhere in an absent chunk. */
  function Moveable(block: Option<BlockType>): (b: bool)
    ensures block.None? ==> !b
    ensures b <==> block.Some? && block.value in {Air, Water}
  {
    match block
    case Some(k) => k == Air || k == Water
    case None => false
  }

  /** `highest_in_column`: None for an absent chunk, else the chunk's default scan at the local column. */
  function HighestInColumn(rows: Rows, wx: int, wz: int): (r: Result<Option<nat>>)
    requires AllGrids(rows) && IsI32(wx) && IsI32(wz)
    ensures r.Ok? <==> LocalizeCoordsToChunk(wx, wz).Ok?
    ensures r.Ok? ==> (r.value.None? <==> Lookup(rows, wx / 16, wz / 16).None?)
    ensures r.Ok? && r.value.Some? ==>
      Ok(r.value.value) == GameChunks.HighestInColumn(Lookup(rows, wx / 16, wz / 16).value.blocks, wx % 16, wz % 16)
  {
    var (cx, cz, lx, lz) :- LocalizeCoordsToChunk(wx, wz);
    match Lookup(rows, cx, cz)
    case None => Ok(None)
    case Some(c) =>
      Ok(Some(GameChunks.HighestInColumn(c.blocks, lx, lz).value))
  }

  /**
   * `highest_in_column_from_y`: as `highest_in_column`, with `world_y as usize` as the scan height.
   * A negative y becomes a huge usize: y = -1 overflows in `height + 1`, any other negative y
   * makes the first read go out of range.
   */
  function HighestInColumnFromY(rows: Rows, wx: int, wy: int, wz: int): (r: Result<Option<nat>>)
    requires AllGrids(rows) && IsI32(wx) && IsI32(wy) && IsI32(wz)
    ensures r.Ok? ==> LocalizeCoordsToChunk(wx, wz).Ok?
    ensures r.Ok? ==> (r.value.None? <==> Lookup(rows, wx / 16, wz / 16).None?)
    ensures r.Ok? && r.value.Some? ==>
      (wy >= 0 && Ok(r.value.value) == GameChunks.HighestInColumnFromY(Lookup(rows, wx / 16, wz / 16).value.blocks, wx % 16, wy, wz % 16))
  {
    var (cx, cz, lx, lz) :- LocalizeCoordsToChunk(wx, wz);
    match Lookup(rows, cx, cz)
    case None => Ok(None)
    case Some(c) =>
      if wy == -1 then Err(Overflow)
      else if wy < 0 then Err(OutOfBounds)
      else
        var h :- GameChunks.HighestInColumnFromY(c.blocks, lx, wy, lz);
        Ok(Some(h))
  }

  /** The scan height must be a valid y: inside a present chunk it succeeds exactly for 0 <= y <= 256. */
  lemma FromYNeedsHeight(rows: Rows, wx: int, wy: int, wz: int)
    requires AllGrids(rows) && IsI32(wx) && IsI32(wy) && IsI32(wz)
    requires LocalizeCoordsToChunk(wx, wz).Ok? && Lookup(rows, wx / 16, wz / 16).Some?
    ensures HighestInColumnFromY(rows, wx, wy, wz).Ok? <==> 0 <= wy <= ChunkHeight
  {
  }
}
