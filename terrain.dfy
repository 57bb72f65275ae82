/**
 * The deterministic part of chunk generation in src/core/chunk.rs: the column fill rule for a
 * given height and snow offset, the tree stamp at a given column, and `add_block`, through
 * which every generation write goes. Noise and the random number generator are not modelled:
 * heights, snow offsets and the tree's position are inputs.
 */
module Terrain {
  import opened Wrappers
  import opened Grids
  import opened Blocks
  import opened Folds
  import BlockMaps

  /** The grid and the occupied-block index while a chunk is being built. */
  datatype Build = Build(blocks: seq<BlockType>, index: seq<Coord>)

  predicate WellFormed(b: Build)
  {
    IsGrid(b.blocks) && forall k :: 0 <= k < |b.index| ==> CoordInBounds(b.index[k])
  }

  /** Every cell that is not Air appears in the index. */
  ghost predicate Covered(b: Build)
    requires IsGrid(b.blocks)
  {
    forall x, y, z :: InBounds(x, y, z) && Get(b.blocks, x, y, z) != Air ==> (x, y, z) in b.index
  }

  /** `add_block`: sets the cell (panicking out of range), then appends its coordinate. */
  function AddBlock(b: Build, x: nat, y: nat, z: nat, block: BlockType): (r: Result<Build>)
    requires WellFormed(b)
    ensures r.Ok? <==> InBounds(x, y, z)
    ensures r.Err? ==> r.fault == OutOfBounds
    ensures r.Ok? ==> WellFormed(r.value) && r.value.blocks == Set(b.blocks, x, y, z, block)
    ensures r.Ok? ==> r.value.index == b.index + [(x, y, z)]
  {
    if !InBounds(x, y, z) then Err(OutOfBounds)
    else Ok(Build(Set(b.blocks, x, y, z, block), b.index + [(x, y, z)]))
  }

  /** `add_block` keeps every occupied cell indexed, whatever it writes. */
  lemma AddBlockCovered(b: Build, x: nat, y: nat, z: nat, block: BlockType)
    requires WellFormed(b) && Covered(b) && AddBlock(b, x, y, z, block).Ok?
    ensures Covered(AddBlock(b, x, y, z, block).value)
  {
    SetFrame(b.blocks, x, y, z, block);
  }

  /** The surface block of a column of height at least 10; `30 - snow` underflows when snow > 30. */
  function SurfaceBlock(height: nat, snow: nat): (r: Result<BlockType>)
    ensures r.Err? <==> height <= 30 + snow && snow > 30
    ensures r.Ok? ==> r.value in {Snow, Stone, Sand, Grass}
    ensures r == Ok(Snow) <==> height > 30 + snow
    ensures r == Ok(Grass) ==> height != 10 && height <= 30 - snow
  {
    if height > 30 + snow then Ok(Snow)
    else if snow > 30 then Err(Overflow)
    else if height > 30 - snow then Ok(Stone)
    else if height == 10 then Ok(Sand)
    else Ok(Grass)
  }

  /** How many cells of a column the fill writes, from y = 0 up. */
  function Extent(height: nat): nat
  {
    if height < 10 then 9 else height
  }

  /** The block the fill writes at height y of a column (only meaningful for y < Extent(height)). */
  function CellBlock(height: nat, snow: nat, y: nat): (r: Result<BlockType>)
    requires height >= 1
    ensures r.Err? ==> height >= 10 && y == height - 1
    ensures height < 10 ==> r == Ok(if y < height - 1 then Sand else Water)
    ensures height >= 10 && y + 3 <= height - 1 ==> r == Ok(Stone)
    ensures height >= 10 && height - 3 < y < height - 1 ==> r == Ok(if height > 20 then Stone else Dirt)
    ensures height >= 10 && y == height - 1 ==> r == SurfaceBlock(height, snow)
    ensures r.Ok? ==> r.value != Air
  {
    if height < 10 then Ok(if y < height - 1 then Sand else Water)
    else if y == height - 1 then SurfaceBlock(height, snow)
    else if y > height - 3 then Ok(if height > 20 then Stone else Dirt)
    else Ok(Stone)
  }

  /** Whether filling a column panics: never for a short column; for a tall one, above 256 or on the snow underflow. */
  predicate ColumnOk(height: nat, snow: nat)
  {
    height < 10 || (height <= ChunkHeight && SurfaceBlock(height, snow).Ok?)
  }

  /** The coordinates a column fill appends, bottom up. */
  function ColumnEntries(x: nat, z: nat, n: nat): (e: seq<Coord>)
    ensures |e| == n && forall y :: 0 <= y < n ==> e[y] == (x, y, z)
  {
    seq(n, y requires 0 <= y < n => (x, y, z))
  }

  /** The first n steps of a column fill: each computes the cell's block, then calls `add_block`. */
  function FillTo(b: Build, x: nat, z: nat, height: nat, snow: nat, n: nat): (r: Result<Build>)
    requires WellFormed(b) && height >= 1
    ensures r.Ok? ==> WellFormed(r.value)
    decreases n
  {
    if n == 0 then Ok(b)
    else
      var before :- FillTo(b, x, z, height, snow, n - 1);
      var block :- CellBlock(height, snow, n - 1);
      AddBlock(before, x, n - 1, z, block)
  }

  /** The fill panics exactly when a cell's block cannot be computed or a cell is above the chunk. */
  lemma {:induction false} FillToOk(b: Build, x: nat, z: nat, height: nat, snow: nat, n: nat)
    requires WellFormed(b) && height >= 1 && x < ChunkSize && z < ChunkSize
    ensures FillTo(b, x, z, height, snow, n).Ok? <==>
      n <= ChunkHeight && forall y :: 0 <= y < n ==> CellBlock(height, snow, y).Ok?
    decreases n
  {
    if n > 0 {
      FillToOk(b, x, z, height, snow, n - 1);
    }
  }

  /** After n successful steps the column's lowest n cells hold their blocks, and the index grew by their coordinates. */
  lemma {:induction false} FillToState(b: Build, x: nat, z: nat, height: nat, snow: nat, n: nat)
    requires WellFormed(b) && height >= 1 && FillTo(b, x, z, height, snow, n).Ok?
    ensures var after := FillTo(b, x, z, height, snow, n).value;
      after.index == b.index + ColumnEntries(x, z, n) &&
      forall x', y', z' :: InBounds(x', y', z') ==>
          if x' == x && z' == z && y' < n then CellBlock(height, snow, y') == Ok(Get(after.blocks, x', y', z'))
          else Get(after.blocks, x', y', z') == Get(b.blocks, x', y', z')
    decreases n
  {
    if n > 0 {
      FillToState(b, x, z, height, snow, n - 1);
      var before := FillTo(b, x, z, height, snow, n - 1).value;
      var block := CellBlock(height, snow, n - 1).value;
      SetFrame(before.blocks, x, n - 1, z, block);
      assert ColumnEntries(x, z, n) == ColumnEntries(x, z, n - 1) + [(x, n - 1, z)];
    }
  }

  /** The fill keeps every occupied cell indexed. */
  lemma {:induction false} FillToCovered(b: Build, x: nat, z: nat, height: nat, snow: nat, n: nat)
    requires WellFormed(b) && Covered(b) && height >= 1 && FillTo(b, x, z, height, snow, n).Ok?
    ensures Covered(FillTo(b, x, z, height, snow, n).value)
    decreases n
  {
    if n > 0 {
      FillToCovered(b, x, z, height, snow, n - 1);
      var before := FillTo(b, x, z, height, snow, n - 1).value;
      AddBlockCovered(before, x, n - 1, z, CellBlock(height, snow, n - 1).value);
    }
  }

  /** Once a step of the fill panics, the whole fill ends with that panic. */
  lemma {:induction false} FillFails(b: Build, x: nat, z: nat, height: nat, snow: nat, n: nat, m: nat)
    requires WellFormed(b) && height >= 1 && n <= m && FillTo(b, x, z, height, snow, n).Err?
    ensures FillTo(b, x, z, height, snow, m) == FillTo(b, x, z, height, snow, n)
    decreases m - n
  {
    if n < m {
      FillFails(b, x, z, height, snow, n + 1, m);
    }
  }

  /** A whole column fill panics exactly when `ColumnOk` fails. */
  lemma ColumnFillOk(b: Build, x: nat, z: nat, height: nat, snow: nat)
    requires WellFormed(b) && height >= 1 && x < ChunkSize && z < ChunkSize
    ensures FillTo(b, x, z, height, snow, Extent(height)).Ok? <==> ColumnOk(height, snow)
  {
    FillToOk(b, x, z, height, snow, Extent(height));
    if height >= 10 && height <= ChunkHeight {
      assert CellBlock(height, snow, height - 1) == SurfaceBlock(height, snow);
    }
  }

  /**
   * One column of `Chunk::new`: `height` is the noise height plus one, so at least 1. Short
   * columns (height < 10) fill y = 0..8 with Sand below height - 1 and Water from there up; tall
   * columns fill y = 0..height-1 by `CellBlock`.
   */
  method FillColumn(b: Build, x: nat, z: nat, height: nat, snow: nat) returns (r: Result<Build>)
    requires WellFormed(b) && height >= 1
    ensures r == FillTo(b, x, z, height, snow, Extent(height))
  {
    var cur := b;
    if height < 10 {
      for y := 0 to 9
        invariant FillTo(b, x, z, height, snow, y) == Ok(cur)
      {
        var block := if y < height - 1 then Sand else Water;
        var next := AddBlock(cur, x, y, z, block);
        if next.Err? {
          FillFails(b, x, z, height, snow, y + 1, 9);
          return next;
        }
        cur := next.value;
      }
    } else {
      for y := 0 to height
        invariant FillTo(b, x, z, height, snow, y) == Ok(cur)
      {
        var block;
        if y == height - 1 {
          var surface := SurfaceBlock(height, snow);
          if surface.Err? {
            FillFails(b, x, z, height, snow, y + 1, height);
            return Err(surface.fault);
          }
          block := surface.value;
        } else if y > height - 3 {
          block := if height > 20 then Stone else Dirt;
        } else {
          block := Stone;
        }
        var next := AddBlock(cur, x, y, z, block);
        if next.Err? {
          FillFails(b, x, z, height, snow, y + 1, height);
          return next;
        }
        cur := next.value;
      }
    }
    return Ok(cur);
  }

  /** Heights and snow offsets of the 256 columns, column (x, z) at x * 16 + z; every height is at least 1. */
  predicate Heightmap(heights: seq<nat>, snows: seq<nat>)
  {
    |heights| == ChunkSize * ChunkSize && |snows| == ChunkSize * ChunkSize &&
    forall i :: 0 <= i < |heights| ==> heights[i] >= 1
  }

  function Column(x: nat, z: nat): (i: nat)
    requires x < ChunkSize && z < ChunkSize
    ensures i < ChunkSize * ChunkSize
  {
    x * ChunkSize + z
  }

  /** Column (x, z) is the (x * 16 + z)-th column the nested loops of `Chunk::new` fill. */
  lemma ColumnOf(i: nat, cx: nat, cz: nat)
    requires cx < ChunkSize && cz < ChunkSize
    ensures Column(cx, cz) == i <==> i < ChunkSize * ChunkSize && cx == i / ChunkSize && cz == i % ChunkSize
  {
  }

  /** The column numbers in fill order. */
  function Columns(): (s: seq<nat>)
    ensures |s| == ChunkSize * ChunkSize && forall i :: 0 <= i < |s| ==> s[i] == i
  {
    seq(ChunkSize * ChunkSize, i requires 0 <= i => i)
  }

  /**
   * The body of the nested loops of `Chunk::new` for the i-th column: fill column (i / 16, i % 16).
   * The loops only reach it with a well-formed build and i < 256; anything else reads as a panic.
   */
  function ColumnStep(heights: seq<nat>, snows: seq<nat>): (step: (Build, nat) -> Result<Build>)
    requires Heightmap(heights, snows)
  {
    (b: Build, i: nat) =>
      if WellFormed(b) && i < |heights| then
        FillTo(b, i / ChunkSize, i % ChunkSize, heights[i], snows[i], Extent(heights[i]))
      else Err(OutOfBounds)
  }

  /** The nested loops of `Chunk::new` up to their n-th column: columns 0 .. n - 1 filled in order onto an all-Air grid. */
  function LandTo(heights: seq<nat>, snows: seq<nat>, n: nat): (r: Result<Build>)
    requires Heightmap(heights, snows) && n <= ChunkSize * ChunkSize
  {
    Fold(ColumnStep(heights, snows), Build(Filled(Air), []), Columns(), n)
  }

  /** Every build the land fill reaches is well formed. */
  lemma LandToWellFormed(heights: seq<nat>, snows: seq<nat>, n: nat)
    requires Heightmap(heights, snows) && n <= ChunkSize * ChunkSize
    ensures LandTo(heights, snows, n).Ok? ==> WellFormed(LandTo(heights, snows, n).value)
  {
    var step := ColumnStep(heights, snows);
    FoldKeeps(step, Build(Filled(Air), []), Columns(), n, WellFormed);
  }

  /** One more column: the fill of column (n / 16, n % 16) onto the land so far, unless that already panicked. */
  lemma LandNext(heights: seq<nat>, snows: seq<nat>, n: nat)
    requires Heightmap(heights, snows) && n < ChunkSize * ChunkSize
    ensures LandTo(heights, snows, n).Err? ==> LandTo(heights, snows, n + 1) == LandTo(heights, snows, n)
    ensures LandTo(heights, snows, n).Ok? ==>
      WellFormed(LandTo(heights, snows, n).value) &&
      LandTo(heights, snows, n + 1) ==
        FillTo(LandTo(heights, snows, n).value, n / ChunkSize, n % ChunkSize, heights[n], snows[n], Extent(heights[n]))
  {
    LandToWellFormed(heights, snows, n);
    FoldNext(ColumnStep(heights, snows), Build(Filled(Air), []), Columns(), n);
  }

  /** Once a column panics, the whole land fill ends with that panic. */
  lemma LandFails(heights: seq<nat>, snows: seq<nat>, n: nat, m: nat)
    requires Heightmap(heights, snows) && n <= m <= ChunkSize * ChunkSize && LandTo(heights, snows, n).Err?
    ensures LandTo(heights, snows, m) == LandTo(heights, snows, n)
  {
    FoldFails(ColumnStep(heights, snows), Build(Filled(Air), []), Columns(), n, m);
  }

  /** One pass of the inner loop of `Chunk::new`: the 16 columns of row x, in z order. */
  method FillRow(heights: seq<nat>, snows: seq<nat>, x: nat, b: Build) returns (r: Result<Build>)
    requires Heightmap(heights, snows) && x < ChunkSize && LandTo(heights, snows, x * ChunkSize) == Ok(b)
    ensures r == LandTo(heights, snows, (x + 1) * ChunkSize)
  {
    var cur := b;
    for z := 0 to ChunkSize
      invariant LandTo(heights, snows, x * ChunkSize + z) == Ok(cur)
    {
      var i := Column(x, z);
      ColumnOf(i, x, z);
      LandNext(heights, snows, i);
      var next := FillColumn(cur, x, z, heights[i], snows[i]);
      if next.Err? {
        LandFails(heights, snows, i + 1, (x + 1) * ChunkSize);
        return next;
      }
      cur := next.value;
    }
    return Ok(cur);
  }

  /** The land fill of `Chunk::new`: every column, x outer and z inner, stopping at the first that panics. */
  method FillLand(heights: seq<nat>, snows: seq<nat>) returns (r: Result<Build>)
    requires Heightmap(heights, snows)
    ensures r == LandTo(heights, snows, |heights|)
  {
    var b := Build(Filled(Air), []);
    for x := 0 to ChunkSize
      invariant LandTo(heights, snows, x * ChunkSize) == Ok(b)
    {
      var next := FillRow(heights, snows, x, b);
      if next.Err? {
        LandFails(heights, snows, (x + 1) * ChunkSize, |heights|);
        return next;
      }
      b := next.value;
    }
    return Ok(b);
  }

  /** The land fill panics exactly when one of its columns fails `ColumnOk`. */
  lemma LandToOk(heights: seq<nat>, snows: seq<nat>, n: nat)
    requires Heightmap(heights, snows) && n <= ChunkSize * ChunkSize
    ensures LandTo(heights, snows, n).Ok? <==> forall i :: 0 <= i < n ==> ColumnOk(heights[i], snows[i])
  {
    var step := ColumnStep(heights, snows);
    var ok := (i: nat) => i < |heights| && ColumnOk(heights[i], snows[i]);
    forall b: Build, i: nat | WellFormed(b)
      ensures step(b, i).Ok? <==> ok(i)
    {
      if i < |heights| {
        ColumnFillOk(b, i / ChunkSize, i % ChunkSize, heights[i], snows[i]);
      }
    }
    var cols := Columns();
    FoldOk(step, Build(Filled(Air), []), cols, n, WellFormed, ok);
    assert forall j :: 0 <= j < n ==> (ok(cols[j]) <==> ColumnOk(heights[j], snows[j]));
  }

  /** The land fill's grid: each filled column holds the column rule's blocks up to its extent, everything else is Air. */
  lemma {:induction false} LandToState(heights: seq<nat>, snows: seq<nat>, n: nat)
    requires Heightmap(heights, snows) && n <= ChunkSize * ChunkSize && LandTo(heights, snows, n).Ok?
    ensures var land := LandTo(heights, snows, n).value;
      IsGrid(land.blocks) &&
      forall cx, y, cz :: InBounds(cx, y, cz) ==>
        Ok(Get(land.blocks, cx, y, cz)) ==
          if Column(cx, cz) < n && y < Extent(heights[Column(cx, cz)])
          then CellBlock(heights[Column(cx, cz)], snows[Column(cx, cz)], y)
          else Ok(Air)
    decreases n
  {
    LandToWellFormed(heights, snows, n);
    if n == 0 {
      var g: seq<BlockType> := Filled(Air);
      forall cx, y, cz | InBounds(cx, y, cz)
        ensures Get(g, cx, y, cz) == Air
      {
      }
    } else {
      var step := ColumnStep(heights, snows);
      FoldNext(step, Build(Filled(Air), []), Columns(), n - 1);
      LandToState(heights, snows, n - 1);
      var before := LandTo(heights, snows, n - 1).value;
      var x, z := (n - 1) / ChunkSize, (n - 1) % ChunkSize;
      LandToWellFormed(heights, snows, n - 1);
      FillToState(before, x, z, heights[n - 1], snows[n - 1], Extent(heights[n - 1]));
      forall cx, cz | 0 <= cx < ChunkSize && 0 <= cz < ChunkSize
        ensures Column(cx, cz) == n - 1 <==> cx == x && cz == z
      {
        ColumnOf(n - 1, cx, cz);
      }
    }
  }

  /** The land fill indexes every block it places. */
  lemma LandToCovered(heights: seq<nat>, snows: seq<nat>, n: nat)
    requires Heightmap(heights, snows) && n <= ChunkSize * ChunkSize && LandTo(heights, snows, n).Ok?
    ensures WellFormed(LandTo(heights, snows, n).value) && Covered(LandTo(heights, snows, n).value)
  {
    var step := ColumnStep(heights, snows);
    var g: seq<BlockType> := Filled(Air);
    forall cx, y, cz | InBounds(cx, y, cz)
      ensures Get(g, cx, y, cz) == Air
    {
    }
    forall b: Build, i: nat | WellFormed(b) && Covered(b) && step(b, i).Ok?
      ensures WellFormed(step(b, i).value) && Covered(step(b, i).value)
    {
      FillToCovered(b, i / ChunkSize, i % ChunkSize, heights[i], snows[i], Extent(heights[i]));
    }
    FoldKeeps(step, Build(g, []), Columns(), n, (b: Build) => WellFormed(b) && Covered(b));
  }

  /** On the filled land, column (x, z) holds a block at y = Extent(height) - 1 and Air above it. */
  lemma LandColumn(heights: seq<nat>, snows: seq<nat>, x: nat, z: nat)
    requires Heightmap(heights, snows) && LandTo(heights, snows, |heights|).Ok? && x < ChunkSize && z < ChunkSize
    ensures var land := LandTo(heights, snows, |heights|).value;
      var i := Column(x, z);
      var e := Extent(heights[i]);
      IsGrid(land.blocks) && e <= ChunkHeight &&
      Ok(Get(land.blocks, x, e - 1, z)) == CellBlock(heights[i], snows[i], e - 1) &&
      forall y :: e <= y < ChunkHeight ==> Get(land.blocks, x, y, z) == Air
  {
    var i := Column(x, z);
    LandToOk(heights, snows, |heights|);
    LandToState(heights, snows, |heights|);
    assert ColumnOk(heights[i], snows[i]);
  }

  /**
   * On the filled land, the scan for the top of column (x, z) finds the column's highest filled
   * cell, y = Extent(height) - 1, and the tree is stamped there exactly when that column is tall
   * and its surface is Grass (a short column's top is Water).
   */
  lemma LandTop(heights: seq<nat>, snows: seq<nat>, x: nat, z: nat)
    requires Heightmap(heights, snows) && LandTo(heights, snows, |heights|).Ok? && x < ChunkSize && z < ChunkSize
    ensures var land := LandTo(heights, snows, |heights|).value;
      var i := Column(x, z);
      var top := BlockMaps.ScanNonAir(land.blocks, x, z, ChunkHeight - 1, Air);
      top == Extent(heights[i]) - 1 &&
      (Get(land.blocks, x, top, z) !in {Water, Stone, Sand, Snow} <==>
         heights[i] >= 10 && SurfaceBlock(heights[i], snows[i]) == Ok(Grass))
  {
    var land := LandTo(heights, snows, |heights|).value;
    var i := Column(x, z);
    var e := Extent(heights[i]);
    LandColumn(heights, snows, x, z);
    BlockMaps.ScanStopsAt(land.blocks, x, z, ChunkHeight - 1, Air, e - 1);
  }

  /** One `add_block` call of the tree stamp. */
  datatype Write = Write(x: nat, y: nat, z: nat, block: BlockType)

  function At(w: Write): Coord
  {
    (w.x, w.y, w.z)
  }

  /**
   * Write number j of the tree stamp: logs at top+1..top+3 of (x, z) (j < 3); the 3 x 3 leaf
   * layer at top+3, write 3 + 3 * ix + iz at (x + 1 - ix, z + 1 - iz) (j < 12), which overwrites
   * the third log; a plus of five leaves at top+4 (j < 17) and one leaf at top+5.
   */
  function TreeWrite(x: nat, top: nat, z: nat, j: nat): Write
    requires x >= 1 && z >= 1
  {
    if j < 3 then Write(x, top + j + 1, z, Log)
    else if j < 12 then
      var ix := if j < 6 then 0 else if j < 9 then 1 else 2;
      Write(x + 1 - ix, top + 3, z + 1 - (j - 3 - 3 * ix), Leaves)
    else if j == 12 then Write(x, top + 4, z, Leaves)
    else if j == 13 then Write(x + 1, top + 4, z, Leaves)
    else if j == 14 then Write(x - 1, top + 4, z, Leaves)
    else if j == 15 then Write(x, top + 4, z + 1, Leaves)
    else if j == 16 then Write(x, top + 4, z - 1, Leaves)
    else Write(x, top + 5, z, Leaves)
  }

  const TreeLength := 18

  /** The first k of the tree's `add_block` calls; the first one out of range panics. */
  function TreeTo(b: Build, x: nat, top: nat, z: nat, k: nat): (r: Result<Build>)
    requires WellFormed(b) && x >= 1 && z >= 1
    ensures r.Ok? ==> WellFormed(r.value)
    ensures r.Err? ==> r.fault == OutOfBounds
    decreases k
  {
    if k == 0 then Ok(b)
    else
      var before :- TreeTo(b, x, top, z, k - 1);
      var w := TreeWrite(x, top, z, k - 1);
      AddBlock(before, w.x, w.y, w.z, w.block)
  }

  /** Every tree write stays within one column of (x, z) and between top + 1 and top + 5. */
  lemma TreeFootprint(x: nat, top: nat, z: nat, j: nat)
    requires x >= 1 && z >= 1
    ensures var w := TreeWrite(x, top, z, j);
      x - 1 <= w.x <= x + 1 && z - 1 <= w.z <= z + 1 && top + 1 <= w.y <= top + 5
  {
  }

  /** Once the stamp panics, the rest of it changes nothing: the whole stamp panics. */
  lemma {:induction false} TreeFails(b: Build, x: nat, top: nat, z: nat, k: nat)
    requires WellFormed(b) && x >= 1 && z >= 1 && k <= TreeLength && TreeTo(b, x, top, z, k).Err?
    ensures TreeTo(b, x, top, z, TreeLength) == Err(OutOfBounds)
    decreases TreeLength - k
  {
    if k < TreeLength {
      TreeFails(b, x, top, z, k + 1);
    }
  }

  /** The first k writes succeed exactly when they all fall inside the chunk. */
  lemma {:induction false} TreeToOk(b: Build, x: nat, top: nat, z: nat, k: nat)
    requires WellFormed(b) && x >= 1 && z >= 1
    ensures TreeTo(b, x, top, z, k).Ok? <==>
      forall j :: 0 <= j < k ==> CoordInBounds(At(TreeWrite(x, top, z, j)))
    decreases k
  {
    if k > 0 {
      TreeToOk(b, x, top, z, k - 1);
      var w := TreeWrite(x, top, z, k - 1);
      var before := TreeTo(b, x, top, z, k - 1);
      if before.Ok? {
        assert TreeTo(b, x, top, z, k) == AddBlock(before.value, w.x, w.y, w.z, w.block);
      }
    }
  }

  /** Away from the chunk's edges the tree panics exactly when its highest leaf, at top + 5, is above the chunk. */
  lemma TreeOk(b: Build, x: nat, top: nat, z: nat)
    requires WellFormed(b) && 1 <= x < ChunkSize - 1 && 1 <= z < ChunkSize - 1
    ensures TreeTo(b, x, top, z, TreeLength).Ok? <==> top + 5 < ChunkHeight
  {
    TreeToOk(b, x, top, z, TreeLength);
    if top + 5 < ChunkHeight {
      forall j | 0 <= j < TreeLength
        ensures CoordInBounds(At(TreeWrite(x, top, z, j)))
      {
        TreeFootprint(x, top, z, j);
      }
    } else {
      assert !CoordInBounds(At(TreeWrite(x, top, z, 17)));
    }
  }

  /** The block the first k tree writes leave in one cell: the last write to it wins. */
  function LastTreeWrite(x: nat, top: nat, z: nat, k: nat, cx: nat, cy: nat, cz: nat): (r: Option<BlockType>)
    requires x >= 1 && z >= 1
    decreases k
  {
    if k == 0 then None
    else
      var w := TreeWrite(x, top, z, k - 1);
      if At(w) == (cx, cy, cz) then Some(w.block)
      else LastTreeWrite(x, top, z, k - 1, cx, cy, cz)
  }

  /** A cell no tree write touches keeps its block. */
  lemma {:induction false} LastTreeWriteNone(x: nat, top: nat, z: nat, k: nat, cx: nat, cy: nat, cz: nat)
    requires x >= 1 && z >= 1
    requires forall j :: 0 <= j < k ==> At(TreeWrite(x, top, z, j)) != (cx, cy, cz)
    ensures LastTreeWrite(x, top, z, k, cx, cy, cz) == None
    decreases k
  {
    if k > 0 {
      LastTreeWriteNone(x, top, z, k - 1, cx, cy, cz);
    }
  }

  /** After a successful stamp each cell holds its last tree write, or its old block if none touched it. */
  lemma {:induction false} TreeCell(b: Build, x: nat, top: nat, z: nat, k: nat, cx: nat, cy: nat, cz: nat)
    requires WellFormed(b) && x >= 1 && z >= 1 && InBounds(cx, cy, cz) && TreeTo(b, x, top, z, k).Ok?
    ensures Get(TreeTo(b, x, top, z, k).value.blocks, cx, cy, cz) ==
      match LastTreeWrite(x, top, z, k, cx, cy, cz) case Some(block) => block case None => Get(b.blocks, cx, cy, cz)
    decreases k
  {
    if k > 0 {
      TreeCell(b, x, top, z, k - 1, cx, cy, cz);
      var before := TreeTo(b, x, top, z, k - 1).value;
      var w := TreeWrite(x, top, z, k - 1);
      if At(w) != (cx, cy, cz) {
        SetOther(before.blocks, w.x, w.y, w.z, w.block, cx, cy, cz);
      }
    }
  }

  /** The stamp keeps every occupied cell indexed, and appends exactly one coordinate per write. */
  lemma {:induction false} TreeIndex(b: Build, x: nat, top: nat, z: nat, k: nat)
    requires WellFormed(b) && x >= 1 && z >= 1 && TreeTo(b, x, top, z, k).Ok?
    ensures |TreeTo(b, x, top, z, k).value.index| == |b.index| + k
    ensures Covered(b) ==> Covered(TreeTo(b, x, top, z, k).value)
    decreases k
  {
    if k > 0 {
      TreeIndex(b, x, top, z, k - 1);
      var before := TreeTo(b, x, top, z, k - 1).value;
      var w := TreeWrite(x, top, z, k - 1);
      if Covered(b) {
        AddBlockCovered(before, w.x, w.y, w.z, w.block);
      }
    }
  }

  /** When write j is the last of the first k to touch a cell, it decides the cell. */
  lemma {:induction false} LastTreeWriteAt(x: nat, top: nat, z: nat, k: nat, j: nat, cx: nat, cy: nat, cz: nat)
    requires x >= 1 && z >= 1 && j < k
    requires At(TreeWrite(x, top, z, j)) == (cx, cy, cz)
    requires forall i :: j < i < k ==> At(TreeWrite(x, top, z, i)) != (cx, cy, cz)
    ensures LastTreeWrite(x, top, z, k, cx, cy, cz) == Some(TreeWrite(x, top, z, j).block)
    decreases k
  {
    if j < k - 1 {
      LastTreeWriteAt(x, top, z, k - 1, j, cx, cy, cz);
    }
  }

  /**
   * The last write to (x, top + dy, z), which `TreeCell` puts in the grid: a log for dy = 1 and 2,
   * a leaf for dy = 3 to 5, because the leaf layer overwrites the third log.
   */
  lemma TreeColumn(x: nat, top: nat, z: nat, dy: nat)
    requires x >= 1 && z >= 1 && 1 <= dy <= 5
    ensures LastTreeWrite(x, top, z, TreeLength, x, top + dy, z) == Some(if dy <= 2 then Log else Leaves)
  {
    var j := if dy <= 2 then dy - 1 else if dy == 3 then 7 else if dy == 4 then 12 else 17;
    LastTreeWriteAt(x, top, z, TreeLength, j, x, top + dy, z);
  }

  /** The stamp changes no cell outside columns x - 1..x + 1, z - 1..z + 1 and heights top + 1..top + 5. */
  lemma TreeOutside(b: Build, x: nat, top: nat, z: nat, cx: nat, cy: nat, cz: nat)
    requires WellFormed(b) && x >= 1 && z >= 1 && TreeTo(b, x, top, z, TreeLength).Ok? && InBounds(cx, cy, cz)
    requires cx + 1 < x || cx > x + 1 || cz + 1 < z || cz > z + 1 || cy <= top || cy > top + 5
    ensures Get(TreeTo(b, x, top, z, TreeLength).value.blocks, cx, cy, cz) == Get(b.blocks, cx, cy, cz)
  {
    forall j | 0 <= j < TreeLength
      ensures At(TreeWrite(x, top, z, j)) != (cx, cy, cz)
    {
      TreeFootprint(x, top, z, j);
    }
    LastTreeWriteNone(x, top, z, TreeLength, cx, cy, cz);
    TreeCell(b, x, top, z, TreeLength, cx, cy, cz);
  }

  /** One `add_block` call of the stamp: write number k, after the first k have succeeded. */
  method TreeStep(b: Build, x: nat, top: nat, z: nat, ghost k: nat, cur: Build, w: Write) returns (r: Result<Build>)
    requires WellFormed(b) && x >= 1 && z >= 1 && k < TreeLength
    requires TreeTo(b, x, top, z, k) == Ok(cur) && TreeWrite(x, top, z, k) == w
    ensures r.Ok? ==> TreeTo(b, x, top, z, k + 1) == r
    ensures r.Err? ==> r == Err(OutOfBounds) && TreeTo(b, x, top, z, TreeLength) == r
  {
    r := AddBlock(cur, w.x, w.y, w.z, w.block);
    if r.Err? {
      TreeFails(b, x, top, z, k + 1);
    }
  }

  /**
   * The tree of `Chunk::new` at column (x, z) as a value: the stamp over the column's top, found
   * by the BlockMap scan, unless that top is Water, Stone, Sand or Snow.
   */
  function Planted(b: Build, x: nat, z: nat): (r: Result<Build>)
    requires WellFormed(b) && 3 <= x <= 13 && 3 <= z <= 13
    ensures r.Ok? ==> WellFormed(r.value)
    ensures r.Err? ==> r.fault == OutOfBounds
  {
    var top := BlockMaps.ScanNonAir(b.blocks, x, z, ChunkHeight - 1, Air);
    if Get(b.blocks, x, top, z) in {Water, Stone, Sand, Snow} then Ok(b)
    else TreeTo(b, x, top, z, TreeLength)
  }

  /** The tree panics exactly when it is stamped and its highest leaf, top + 5, is above the chunk. */
  lemma PlantedOk(b: Build, x: nat, z: nat)
    requires WellFormed(b) && 3 <= x <= 13 && 3 <= z <= 13
    ensures var top := BlockMaps.ScanNonAir(b.blocks, x, z, ChunkHeight - 1, Air);
      Planted(b, x, z).Ok? <==> Get(b.blocks, x, top, z) in {Water, Stone, Sand, Snow} || top + 5 < ChunkHeight
  {
    var top := BlockMaps.ScanNonAir(b.blocks, x, z, ChunkHeight - 1, Air);
    TreeOk(b, x, top, z);
  }

  /** The tree changes nothing outside the 3 x 3 columns around it. */
  lemma PlantedOutside(b: Build, x: nat, z: nat)
    requires WellFormed(b) && 3 <= x <= 13 && 3 <= z <= 13 && Planted(b, x, z).Ok?
    ensures forall cx, cy, cz :: InBounds(cx, cy, cz) && (cx + 1 < x || cx > x + 1 || cz + 1 < z || cz > z + 1) ==>
      Get(Planted(b, x, z).value.blocks, cx, cy, cz) == Get(b.blocks, cx, cy, cz)
  {
    var top := BlockMaps.ScanNonAir(b.blocks, x, z, ChunkHeight - 1, Air);
    if Get(b.blocks, x, top, z) !in {Water, Stone, Sand, Snow} {
      forall cx, cy, cz | InBounds(cx, cy, cz) && (cx + 1 < x || cx > x + 1 || cz + 1 < z || cz > z + 1)
        ensures Get(TreeTo(b, x, top, z, TreeLength).value.blocks, cx, cy, cz) == Get(b.blocks, cx, cy, cz)
      {
        TreeOutside(b, x, top, z, cx, cy, cz);
      }
    }
  }

  /** The tree indexes every leaf and log it places. */
  lemma PlantedCovered(b: Build, x: nat, z: nat)
    requires WellFormed(b) && Covered(b) && 3 <= x <= 13 && 3 <= z <= 13 && Planted(b, x, z).Ok?
    ensures Covered(Planted(b, x, z).value)
  {
    var top := BlockMaps.ScanNonAir(b.blocks, x, z, ChunkHeight - 1, Air);
    if Get(b.blocks, x, top, z) !in {Water, Stone, Sand, Snow} {
      TreeIndex(b, x, top, z, TreeLength);
    }
  }

  /**
   * The tree stamp of `Chunk::new` at column (x, z), for 3 <= x, z <= 13: it finds the column's
   * top with the BlockMap scan and stamps the tree unless the top is Water, Stone, Sand or Snow.
   */
  method StampTree(b: Build, x: nat, z: nat) returns (r: Result<Build>)
    requires WellFormed(b) && 3 <= x <= 13 && 3 <= z <= 13
    ensures r == Planted(b, x, z)
  {
    var top := BlockMaps.ScanNonAir(b.blocks, x, z, ChunkHeight - 1, Air);
    var block := Get(b.blocks, x, top, z);
    if block == Water || block == Stone || block == Sand || block == Snow {
      return Ok(b);
    }
    var trunk :- StampTrunk(b, x, top, z);
    var layer :- StampLeafLayer(b, x, top, z, trunk);
    r := StampCrown(b, x, top, z, layer);
  }

  /** The trunk: Log at top+1, top+2 and top+3 (writes 0 to 2). */
  method StampTrunk(b: Build, x: nat, top: nat, z: nat) returns (r: Result<Build>)
    requires WellFormed(b) && x >= 1 && z >= 1
    ensures r.Ok? ==> TreeTo(b, x, top, z, 3) == r
    ensures r.Err? ==> r == Err(OutOfBounds) && TreeTo(b, x, top, z, TreeLength).Err?
  {
    var cur := b;
    for i := 1 to 4
      invariant TreeTo(b, x, top, z, i - 1) == Ok(cur)
    {
      cur :- TreeStep(b, x, top, z, i - 1, cur, Write(x, top + i, z, Log));
    }
    return Ok(cur);
  }

  /** The leaf layer: for ix in 0..3, a row of three leaves at top+3 (writes 3 to 11). */
  method StampLeafLayer(b: Build, x: nat, top: nat, z: nat, cur: Build) returns (r: Result<Build>)
    requires WellFormed(b) && x >= 1 && z >= 1 && TreeTo(b, x, top, z, 3) == Ok(cur)
    ensures r.Ok? ==> TreeTo(b, x, top, z, 12) == r
    ensures r.Err? ==> r == Err(OutOfBounds) && TreeTo(b, x, top, z, TreeLength).Err?
  {
    var next := cur;
    for ix := 0 to 3
      invariant TreeTo(b, x, top, z, 3 + 3 * ix) == Ok(next)
    {
      next :- StampLeafRow(b, x, top, z, ix, next);
    }
    return Ok(next);
  }

  /** Write 3 + 3 * ix + iz of the stamp is the leaf layer's (ix, iz) leaf. */
  lemma LeafWrite(x: nat, top: nat, z: nat, ix: nat, iz: nat)
    requires x >= 1 && z >= 1 && ix < 3 && iz < 3
    ensures TreeWrite(x, top, z, 3 + 3 * ix + iz) == Write(x + 1 - ix, top + 3, z + 1 - iz, Leaves)
  {
  }

  /** One row of the leaf layer: for iz in 0..3, a leaf at (x + 1 - ix, top + 3, z + 1 - iz). */
  method StampLeafRow(b: Build, x: nat, top: nat, z: nat, ix: nat, cur: Build) returns (r: Result<Build>)
    requires WellFormed(b) && x >= 1 && z >= 1 && ix < 3 && TreeTo(b, x, top, z, 3 + 3 * ix) == Ok(cur)
    ensures r.Ok? ==> TreeTo(b, x, top, z, 6 + 3 * ix) == r
    ensures r.Err? ==> r == Err(OutOfBounds) && TreeTo(b, x, top, z, TreeLength).Err?
  {
    var next := cur;
    for iz := 0 to 3
      invariant TreeTo(b, x, top, z, 3 + 3 * ix + iz) == Ok(next)
    {
      LeafWrite(x, top, z, ix, iz);
      next :- TreeStep(b, x, top, z, 3 + 3 * ix + iz, next, Write(x + 1 - ix, top + 3, z + 1 - iz, Leaves));
    }
    return Ok(next);
  }

  /**
   * The second layer, five leaves in a plus at top+4, then the highest leaf at top+5 (writes 12
   * to 17): six straight-line calls, taken here from the write list.
   */
  method StampCrown(b: Build, x: nat, top: nat, z: nat, cur: Build) returns (r: Result<Build>)
    requires WellFormed(b) && x >= 1 && z >= 1 && TreeTo(b, x, top, z, 12) == Ok(cur)
    ensures r.Ok? ==> TreeTo(b, x, top, z, TreeLength) == r
    ensures r.Err? ==> r == Err(OutOfBounds) && TreeTo(b, x, top, z, TreeLength).Err?
  {
    var next := cur;
    for j := 12 to TreeLength
      invariant TreeTo(b, x, top, z, j) == Ok(next)
    {
      next :- TreeStep(b, x, top, z, j, next, TreeWrite(x, top, z, j));
    }
    return Ok(next);
  }
}
