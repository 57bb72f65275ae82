/**
 * The dense voxel grid of one chunk (models/core/block_map.rs): a fixed 16 x 256 x 16 array,
 * a bounds-checked `set`, and two downward column scans.
 */
module BlockMaps {
  import opened Wrappers
  import opened Grids
  import opened Blocks

  /**
   * The `highest_in_column` scan from y down to 1: the greatest y' in 1..y whose cell is not
   * `air`, else 0. The cell at y = 0 is never looked at.
   */
  function ScanNonAir<B(==)>(g: seq<B>, x: nat, z: nat, y: nat, air: B): (r: nat)
    requires IsGrid(g) && x < ChunkSize && z < ChunkSize && y < ChunkHeight
    ensures r <= y
    ensures r > 0 ==> Get(g, x, r, z) != air
    ensures forall y' :: r < y' <= y ==> Get(g, x, y', z) == air
    decreases y
  {
    if y == 0 then 0
    else if Get(g, x, y, z) != air then y
    else ScanNonAir(g, x, z, y - 1, air)
  }

  /** A column whose cell e is not air, with air above it up to y, is scanned from y down to e. */
  lemma ScanStopsAt<B>(g: seq<B>, x: nat, z: nat, y: nat, air: B, e: nat)
    requires IsGrid(g) && x < ChunkSize && z < ChunkSize && e <= y < ChunkHeight
    requires Get(g, x, e, z) != air
    requires forall y' :: e < y' <= y ==> Get(g, x, y', z) == air
    ensures ScanNonAir(g, x, z, y, air) == e
  {
  }

  /**
   * The `highest_in_column_from_y` scan from h - 1 down to 0: the greatest y < h whose cell is
   * neither `air` nor `water`, else 0.
   */
  function ScanSolid<B(==)>(g: seq<B>, x: nat, z: nat, h: nat, air: B, water: B): (r: nat)
    requires IsGrid(g) && x < ChunkSize && z < ChunkSize && h <= ChunkHeight
    ensures h > 0 ==> r < h
    ensures h == 0 ==> r == 0
    ensures r > 0 ==> Get(g, x, r, z) != air && Get(g, x, r, z) != water
    ensures forall y' :: r < y' < h ==> Get(g, x, y', z) in {air, water}
    decreases h
  {
    if h == 0 then 0
    else if Get(g, x, h - 1, z) != air && Get(g, x, h - 1, z) != water then h - 1
    else ScanSolid(g, x, z, h - 1, air, water)
  }

  /** A column whose cell e holds a block other than air and water, with only air and water between e and h, is scanned from h down to e. */
  lemma SolidStopsAt<B>(g: seq<B>, x: nat, z: nat, h: nat, air: B, water: B, e: nat)
    requires IsGrid(g) && x < ChunkSize && z < ChunkSize && e < h <= ChunkHeight
    requires Get(g, x, e, z) != air && Get(g, x, e, z) != water
    requires forall y' :: e < y' < h ==> Get(g, x, y', z) == air || Get(g, x, y', z) == water
    ensures ScanSolid(g, x, z, h, air, water) == e
  {
  }

  /** `highest_in_column` as a value: the scan from y = 255, panicking when x or z is out of range. */
  function ColumnTop<B(==)>(g: seq<B>, x: nat, z: nat, air: B): (r: Result<nat>)
    requires IsGrid(g)
    ensures r.Ok? <==> x < ChunkSize && z < ChunkSize
  {
    if x < ChunkSize && z < ChunkSize then Ok(ScanNonAir(g, x, z, ChunkHeight - 1, air))
    else Err(OutOfBounds)
  }

  /**
   * `highest_in_column_from_y` as a value. With h = 0 the loop never runs and the answer is 0
   * whatever x and z are; otherwise its first read panics when x, z or h - 1 is out of range.
   */
  function SolidTopBelow<B(==)>(g: seq<B>, x: nat, h: nat, z: nat, air: B, water: B): (r: Result<nat>)
    requires IsGrid(g)
    ensures r.Ok? <==> h == 0 || (x < ChunkSize && z < ChunkSize && h <= ChunkHeight)
    ensures h == 0 ==> r == Ok(0)
  {
    if h == 0 then Ok(0)
    else if x < ChunkSize && z < ChunkSize && h <= ChunkHeight then Ok(ScanSolid(g, x, z, h, air, water))
    else Err(OutOfBounds)
  }

  /** The two scans are different questions: a column whose only block sits at y = 255 shows it. */
  lemma ScansDiffer()
    ensures ColumnTop(Set(Filled(Air), 0, 255, 0, Stone), 0, 0, Air) == Ok(255)
    ensures SolidTopBelow(Set(Filled(Air), 0, 255, 0, Stone), 0, 255, 0, Air, Water) == Ok(0)
  {
  }

  class BlockMap {
    var cells: array<BlockType>

    ghost predicate Valid()
      reads this
    {
      cells.Length == Volume
    }

    /** The grid the array holds. */
    function Contents(): (g: seq<BlockType>)
      reads this, cells
      requires Valid()
      ensures IsGrid(g)
    {
      cells[..]
    }

    /** `BlockMap::new`: every cell is Air. */
    constructor ()
      ensures Valid() && fresh(cells)
      ensures Contents() == Filled(Air)
    {
      cells := new BlockType[Volume](_ => Air);
    }

    /** `get`: the cell, or a panic when an index is out of range. */
    function Get(x: nat, y: nat, z: nat): (r: Result<BlockType>)
      reads this, cells
      requires Valid()
      ensures r.Ok? <==> InBounds(x, y, z)
      ensures r.Err? ==> r.fault == OutOfBounds
      ensures r.Ok? ==> r.value == Grids.Get(Contents(), x, y, z)
    {
      if InBounds(x, y, z) then Ok(cells[Index(x, y, z)]) else Err(OutOfBounds)
    }

    /** `set`: panics on any coordinate out of range (it never clamps or wraps); otherwise writes one cell. */
    method Set(x: nat, y: nat, z: nat, block: BlockType) returns (outcome: Result<()>)
      requires Valid()
      modifies cells
      ensures Valid()
      ensures outcome.Ok? <==> InBounds(x, y, z)
      ensures outcome.Err? ==> outcome.fault == OutOfBounds
      ensures Contents() == if InBounds(x, y, z) then Grids.Set(old(Contents()), x, y, z, block) else old(Contents())
    {
      if x >= ChunkSize || y >= ChunkHeight || z >= ChunkSize {
        return Err(OutOfBounds);
      }
      cells[Index(x, y, z)] := block;
      outcome := Ok(());
    }

    /** `highest_in_column`: counts y from 255 down to 1 and returns the first non-Air cell's y, else 0. */
    method HighestInColumn(x: nat, z: nat) returns (r: Result<nat>)
      requires Valid()
      ensures r == ColumnTop(Contents(), x, z, Air)
    {
      var i := 1;
      while i < ChunkHeight
        invariant 1 <= i <= ChunkHeight
        invariant i > 1 ==> x < ChunkSize && z < ChunkSize
        invariant i > 1 ==> ColumnTop(Contents(), x, z, Air) == Ok(ScanNonAir(Contents(), x, z, ChunkHeight - i, Air))
      {
        var y := ChunkHeight - i;
        var block :- Get(x, y, z);
        if block != Air {
          return Ok(y);
        }
        i := i + 1;
      }
      return Ok(0);
    }

    /** `highest_in_column_from_y`: counts y from h - 1 down to 0 and returns the first cell that is neither Air nor Water, else 0. */
    method HighestInColumnFromY(x: nat, h: nat, z: nat) returns (r: Result<nat>)
      requires Valid()
      ensures r == SolidTopBelow(Contents(), x, h, z, Air, Water)
    {
      var i := 1;
      while i < h + 1
        invariant 1 <= i <= h + 1
        invariant i > 1 ==> x < ChunkSize && z < ChunkSize && h <= ChunkHeight
        invariant i > 1 ==> SolidTopBelow(Contents(), x, h, z, Air, Water) == Ok(ScanSolid(Contents(), x, z, h - i + 1, Air, Water))
      {
        var y := h - i;
        var block :- Get(x, y, z);
        if block != Air && block != Water {
          return Ok(y);
        }
        i := i + 1;
      }
      return Ok(0);
    }
  }
}
