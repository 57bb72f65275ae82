/**
 * The deterministic part of chunk generation in the two older chunks (models/core/chunk.rs and
 * models/chunk.rs), which share it line for line: each column is filled from y = 0 up to its
 * height by the distance to the top (1 Grass, 2 or 3 Dirt, otherwise Stone), then a tree may be
 * stamped on the highest block of one column. The two chunks use different block enums, so the
 * blocks come from a palette. Noise and the random number generator are not modelled: heights
 * and the tree's column are inputs.
 */
module DepthTerrain {
  import opened Wrappers
  import opened Grids
  import opened Folds
  import BlockMaps
  import Terrain

  /** The blocks generation writes, and the one a new grid is full of. */
  datatype Palette<B> = Palette(grass: B, dirt: B, stone: B, log: B, leaves: B, air: B)

  /** The grid and the list of written coordinates while a chunk is being built. */
  datatype Build<B> = Build(blocks: seq<B>, index: seq<Coord>)

  predicate WellFormed<B>(b: Build<B>)
  {
    IsGrid(b.blocks) && forall k :: 0 <= k < |b.index| ==> CoordInBounds(b.index[k])
  }

  /** Every cell that is not Air appears in the list. */
  ghost predicate Covered<B>(b: Build<B>, air: B)
    requires IsGrid(b.blocks)
  {
    forall x, y, z :: InBounds(x, y, z) && Get(b.blocks, x, y, z) != air ==> (x, y, z) in b.index
  }

  /** One write of generation: `blocks.set` (panicking out of range), then the coordinate pushed. */
  function Put<B>(b: Build<B>, x: nat, y: nat, z: nat, block: B): (r: Result<Build<B>>)
    requires WellFormed(b)
    ensures r.Ok? <==> InBounds(x, y, z)
    ensures r.Err? ==> r.fault == OutOfBounds
    ensures r.Ok? ==> WellFormed(r.value) && r.value.blocks == Set(b.blocks, x, y, z, block)
    ensures r.Ok? ==> r.value.index == b.index + [(x, y, z)]
  {
    if !InBounds(x, y, z) then Err(OutOfBounds)
    else Ok(Build(Set(b.blocks, x, y, z, block), b.index + [(x, y, z)]))
  }

  /** A write keeps every non-Air cell listed, whatever it writes. */
  lemma PutCovered<B>(b: Build<B>, x: nat, y: nat, z: nat, block: B, air: B)
    requires WellFormed(b) && Covered(b, air) && Put(b, x, y, z, block).Ok?
    ensures Covered(Put(b, x, y, z, block).value, air)
  {
    SetFrame(b.blocks, x, y, z, block);
  }

  /** The cell a write leaves at (cx, cy, cz): the written block there, the old cell elsewhere. */
  lemma GetSet<B>(g: seq<B>, x: nat, y: nat, z: nat, block: B, cx: nat, cy: nat, cz: nat)
    requires IsGrid(g) && InBounds(x, y, z) && InBounds(cx, cy, cz)
    ensures Get(Set(g, x, y, z, block), cx, cy, cz) == if (cx, cy, cz) == (x, y, z) then block else Get(g, cx, cy, cz)
  {
    if (cx, cy, cz) != (x, y, z) {
      SetOther(g, x, y, z, block, cx, cy, cz);
    }
  }

  /** The block at height y of a column of the given height, by its distance to the top. */
  function DepthBlock<B>(p: Palette<B>, height: nat, y: nat): (r: B)
    requires y < height
  {
    match height - y
    case 1 => p.grass
    case 2 | 3 => p.dirt
    case _ => p.stone
  }

  /** The rule in full: the top cell of a column is Grass, the two below it Dirt, everything lower Stone. */
  lemma DepthRule<B>(p: Palette<B>, height: nat, y: nat)
    requires y < height
    ensures y == height - 1 ==> DepthBlock(p, height, y) == p.grass
    ensures height - 3 <= y < height - 1 ==> DepthBlock(p, height, y) == p.dirt
    ensures y < height - 3 ==> DepthBlock(p, height, y) == p.stone
  {
  }

  /** The first n writes of a column fill, bottom up. */
  function FillTo<B>(p: Palette<B>, b: Build<B>, x: nat, z: nat, height: nat, n: nat): (r: Result<Build<B>>)
    requires WellFormed(b) && n <= height
    ensures r.Ok? ==> WellFormed(r.value)
    decreases n
  {
    if n == 0 then Ok(b)
    else
      var before :- FillTo(p, b, x, z, height, n - 1);
      Put(before, x, n - 1, z, DepthBlock(p, height, n - 1))
  }

  /** A column fill panics exactly when it reaches past the top of the chunk. */
  lemma {:induction false} FillToOk<B>(p: Palette<B>, b: Build<B>, x: nat, z: nat, height: nat, n: nat)
    requires WellFormed(b) && n <= height && x < ChunkSize && z < ChunkSize
    ensures FillTo(p, b, x, z, height, n).Ok? <==> n <= ChunkHeight
    decreases n
  {
    if n > 0 {
      FillToOk(p, b, x, z, height, n - 1);
    }
  }

  /** After n writes the column's lowest n cells hold the rule's blocks, and the list grew by their coordinates. */
  lemma {:induction false} FillToState<B>(p: Palette<B>, b: Build<B>, x: nat, z: nat, height: nat, n: nat)
    requires WellFormed(b) && n <= height && FillTo(p, b, x, z, height, n).Ok?
    ensures var after := FillTo(p, b, x, z, height, n).value;
      after.index == b.index + Terrain.ColumnEntries(x, z, n) &&
      forall x', y', z' :: InBounds(x', y', z') ==>
        Get(after.blocks, x', y', z') ==
          if x' == x && z' == z && y' < n then DepthBlock(p, height, y') else Get(b.blocks, x', y', z')
    decreases n
  {
    if n > 0 {
      FillToState(p, b, x, z, height, n - 1);
      var before := FillTo(p, b, x, z, height, n - 1).value;
      SetFrame(before.blocks, x, n - 1, z, DepthBlock(p, height, n - 1));
      assert Terrain.ColumnEntries(x, z, n) == Terrain.ColumnEntries(x, z, n - 1) + [(x, n - 1, z)];
    }
  }

  /** A column fill keeps every non-Air cell listed. */
  lemma {:induction false} FillToCovered<B>(p: Palette<B>, b: Build<B>, x: nat, z: nat, height: nat, n: nat)
    requires WellFormed(b) && Covered(b, p.air) && n <= height && FillTo(p, b, x, z, height, n).Ok?
    ensures Covered(FillTo(p, b, x, z, height, n).value, p.air)
    decreases n
  {
    if n > 0 {
      FillToCovered(p, b, x, z, height, n - 1);
      PutCovered(FillTo(p, b, x, z, height, n - 1).value, x, n - 1, z, DepthBlock(p, height, n - 1), p.air);
    }
  }

  /** Once a write of the fill panics, the whole fill ends with that panic. */
  lemma {:induction false} FillFails<B>(p: Palette<B>, b: Build<B>, x: nat, z: nat, height: nat, n: nat, m: nat)
    requires WellFormed(b) && n <= m <= height && FillTo(p, b, x, z, height, n).Err?
    ensures FillTo(p, b, x, z, height, m) == FillTo(p, b, x, z, height, n)
    decreases m - n
  {
    if n < m {
      FillFails(p, b, x, z, height, n + 1, m);
    }
  }

  /** The innermost loop of `Chunk::new`: y from 0 to the column's height, writing the rule's block. */
  method FillColumn<B>(p: Palette<B>, b: Build<B>, x: nat, z: nat, height: nat) returns (r: Result<Build<B>>)
    requires WellFormed(b)
    ensures r == FillTo(p, b, x, z, height, height)
  {
    var cur := b;
    for y := 0 to height
      invariant FillTo(p, b, x, z, height, y) == Ok(cur)
    {
      var distance := height - y;
      var block := if distance == 1 then p.grass else if distance == 2 || distance == 3 then p.dirt else p.stone;
      var next := Put(cur, x, y, z, block);
      if next.Err? {
        FillFails(p, b, x, z, height, y + 1, height);
        return next;
      }
      cur := next.value;
    }
    return Ok(cur);
  }

  /** The heights of the 256 columns, column (x, z) at x * 16 + z. */
  predicate Heights(heights: seq<nat>)
  {
    |heights| == ChunkSize * ChunkSize
  }

  /** The body of the two outer loops for the i-th column; they only reach it with a well-formed build and i < 256. */
  function ColumnStep<B>(p: Palette<B>, heights: seq<nat>): (step: (Build<B>, nat) -> Result<Build<B>>)
    requires Heights(heights)
  {
    (b: Build<B>, i: nat) =>
      if WellFormed(b) && i < |heights| then
        FillTo(p, b, i / ChunkSize, i % ChunkSize, heights[i], heights[i])
      else Err(OutOfBounds)
  }

  /** The fill up to its n-th column: columns 0 .. n - 1 in order, onto an all-Air grid. */
  function LandTo<B>(p: Palette<B>, heights: seq<nat>, n: nat): (r: Result<Build<B>>)
    requires Heights(heights) && n <= ChunkSize * ChunkSize
  {
    Fold(ColumnStep(p, heights), Build(Filled(p.air), []), Terrain.Columns(), n)
  }

  lemma LandToWellFormed<B>(p: Palette<B>, heights: seq<nat>, n: nat)
    requires Heights(heights) && n <= ChunkSize * ChunkSize
    ensures LandTo(p, heights, n).Ok? ==> WellFormed(LandTo(p, heights, n).value)
  {
    FoldKeeps(ColumnStep(p, heights), Build(Filled(p.air), []), Terrain.Columns(), n, (b: Build<B>) => WellFormed(b));
  }

  lemma LandNext<B>(p: Palette<B>, heights: seq<nat>, n: nat)
    requires Heights(heights) && n < ChunkSize * ChunkSize
    ensures LandTo(p, heights, n).Err? ==> LandTo(p, heights, n + 1) == LandTo(p, heights, n)
    ensures LandTo(p, heights, n).Ok? ==>
      WellFormed(LandTo(p, heights, n).value) &&
      LandTo(p, heights, n + 1) == FillTo(p, LandTo(p, heights, n).value, n / ChunkSize, n % ChunkSize, heights[n], heights[n])
  {
    LandToWellFormed(p, heights, n);
    FoldNext(ColumnStep(p, heights), Build(Filled(p.air), []), Terrain.Columns(), n);
  }

  lemma LandFails<B>(p: Palette<B>, heights: seq<nat>, n: nat, m: nat)
    requires Heights(heights) && n <= m <= ChunkSize * ChunkSize && LandTo(p, heights, n).Err?
    ensures LandTo(p, heights, m) == LandTo(p, heights, n)
  {
    FoldFails(ColumnStep(p, heights), Build(Filled(p.air), []), Terrain.Columns(), n, m);
  }

  /** One pass of the middle loop: the 16 columns of row x, in z order. */
  method FillRow<B>(p: Palette<B>, heights: seq<nat>, x: nat, b: Build<B>) returns (r: Result<Build<B>>)
    requires Heights(heights) && x < ChunkSize && LandTo(p, heights, x * ChunkSize) == Ok(b)
    ensures r == LandTo(p, heights, (x + 1) * ChunkSize)
  {
    var cur := b;
    for z := 0 to ChunkSize
      invariant LandTo(p, heights, x * ChunkSize + z) == Ok(cur)
    {
      var i := Terrain.Column(x, z);
      Terrain.ColumnOf(i, x, z);
      LandNext(p, heights, i);
      var next := FillColumn(p, cur, x, z, heights[i]);
      if next.Err? {
        LandFails(p, heights, i + 1, (x + 1) * ChunkSize);
        return next;
      }
      cur := next.value;
    }
    return Ok(cur);
  }

  /** The fill loops of `Chunk::new`: every column, x outer and z inner, stopping at the first that panics. */
  method FillLand<B>(p: Palette<B>, heights: seq<nat>) returns (r: Result<Build<B>>)
    requires Heights(heights)
    ensures r == LandTo(p, heights, |heights|)
  {
    var b := Build(Filled(p.air), []);
    for x := 0 to ChunkSize
      invariant LandTo(p, heights, x * ChunkSize) == Ok(b)
    {
      var next := FillRow(p, heights, x, b);
      if next.Err? {
        LandFails(p, heights, (x + 1) * ChunkSize, |heights|);
        return next;
      }
      b := next.value;
    }
    return Ok(b);
  }

  /** The fill panics exactly when some column is taller than the chunk. */
  lemma LandToOk<B>(p: Palette<B>, heights: seq<nat>, n: nat)
    requires Heights(heights) && n <= ChunkSize * ChunkSize
    ensures LandTo(p, heights, n).Ok? <==> forall i :: 0 <= i < n ==> heights[i] <= ChunkHeight
  {
    var step := ColumnStep(p, heights);
    var ok := (i: nat) => i < |heights| && heights[i] <= ChunkHeight;
    forall b: Build<B>, i: nat | WellFormed(b)
      ensures step(b, i).Ok? <==> ok(i)
    {
      if i < |heights| {
        FillToOk(p, b, i / ChunkSize, i % ChunkSize, heights[i], heights[i]);
      }
    }
    var cols := Terrain.Columns();
    FoldOk(step, Build(Filled(p.air), []), cols, n, (b: Build<B>) => WellFormed(b), ok);
    assert forall j :: 0 <= j < n ==> (ok(cols[j]) <==> heights[j] <= ChunkHeight);
  }

  /** The filled grid: each filled column holds the rule's blocks below its height, everything else is Air. */
  lemma {:induction false} LandToState<B>(p: Palette<B>, heights: seq<nat>, n: nat)
    requires Heights(heights) && n <= ChunkSize * ChunkSize && LandTo(p, heights, n).Ok?
    ensures var land := LandTo(p, heights, n).value;
      IsGrid(land.blocks) &&
      forall cx, y, cz :: InBounds(cx, y, cz) ==>
        Get(land.blocks, cx, y, cz) ==
          if Terrain.Column(cx, cz) < n && y < heights[Terrain.Column(cx, cz)]
          then DepthBlock(p, heights[Terrain.Column(cx, cz)], y)
          else p.air
    decreases n
  {
    LandToWellFormed(p, heights, n);
    if n > 0 {
      FoldNext(ColumnStep(p, heights), Build(Filled(p.air), []), Terrain.Columns(), n - 1);
      LandToState(p, heights, n - 1);
      var before := LandTo(p, heights, n - 1).value;
      var x, z := (n - 1) / ChunkSize, (n - 1) % ChunkSize;
      LandToWellFormed(p, heights, n - 1);
      FillToState(p, before, x, z, heights[n - 1], heights[n - 1]);
      forall cx, cz | 0 <= cx < ChunkSize && 0 <= cz < ChunkSize
        ensures Terrain.Column(cx, cz) == n - 1 <==> cx == x && cz == z
      {
        Terrain.ColumnOf(n - 1, cx, cz);
      }
    }
  }

  /** The fill lists every block it places. */
  lemma LandToCovered<B>(p: Palette<B>, heights: seq<nat>, n: nat)
    requires Heights(heights) && n <= ChunkSize * ChunkSize && LandTo(p, heights, n).Ok?
    ensures WellFormed(LandTo(p, heights, n).value) && Covered(LandTo(p, heights, n).value, p.air)
  {
    var step := ColumnStep(p, heights);
    forall b: Build<B>, i: nat | WellFormed(b) && Covered(b, p.air) && step(b, i).Ok?
      ensures WellFormed(step(b, i).value) && Covered(step(b, i).value, p.air)
    {
      FillToCovered(p, b, i / ChunkSize, i % ChunkSize, heights[i], heights[i]);
    }
    FoldKeeps(step, Build(Filled(p.air), []), Terrain.Columns(), n, (b: Build<B>) => WellFormed(b) && Covered(b, p.air));
  }

  /** A tree column `Chunk::new` can draw: `(rng * 11) as usize + 3`, so within 3 ..= 13. */
  predicate TreeSpot(x: nat, z: nat)
  {
    3 <= x <= 13 && 3 <= z <= 13
  }

  /**
   * The tree: `highest_in_column` gives the top, then four Logs at top .. top + 3 (the first
   * replaces the top block), four Leaves around the trunk at top + 3 and one on top at top + 4,
   * each write through `Put`.
   */
  function Planted<B(==)>(p: Palette<B>, b: Build<B>, x: nat, z: nat): (r: Result<Build<B>>)
    requires WellFormed(b) && TreeSpot(x, z)
    ensures r.Ok? ==> WellFormed(r.value)
    ensures r.Err? ==> r.fault == OutOfBounds
  {
    Tree(p, b, x, BlockMaps.ColumnTop(b.blocks, x, z, p.air).value, z)
  }

  /** The nine writes of the tree on a trunk whose foot is at `top`. */
  function Tree<B>(p: Palette<B>, b: Build<B>, x: nat, top: nat, z: nat): (r: Result<Build<B>>)
    requires WellFormed(b) && TreeSpot(x, z)
    ensures r.Ok? <==> top + 4 < ChunkHeight
    ensures r.Ok? ==> WellFormed(r.value)
    ensures r.Err? ==> r.fault == OutOfBounds
  {
    var trunk :- Trunk(p, b, x, top, z);
    Crown(p, trunk, x, top, z)
  }

  /** The four Log writes of the tree. */
  function Trunk<B>(p: Palette<B>, b: Build<B>, x: nat, top: nat, z: nat): (r: Result<Build<B>>)
    requires WellFormed(b)
    ensures r.Ok? <==> x < ChunkSize && z < ChunkSize && top + 3 < ChunkHeight
    ensures r.Ok? ==> WellFormed(r.value)
    ensures r.Err? ==> r.fault == OutOfBounds
  {
    var b1 :- Put(b, x, top, z, p.log);
    var b2 :- Put(b1, x, top + 1, z, p.log);
    var b3 :- Put(b2, x, top + 2, z, p.log);
    Put(b3, x, top + 3, z, p.log)
  }

  /** The five Leaves writes of the tree; once the first of the four at top + 3 is in range, so are the other three. */
  function Crown<B>(p: Palette<B>, b: Build<B>, x: nat, top: nat, z: nat): (r: Result<Build<B>>)
    requires WellFormed(b) && 1 <= x < ChunkSize - 1 && 1 <= z < ChunkSize - 1
    ensures r.Ok? <==> top + 4 < ChunkHeight
    ensures r.Ok? ==> WellFormed(r.value)
    ensures r.Err? ==> r.fault == OutOfBounds
  {
    if top + 3 >= ChunkHeight then Err(OutOfBounds)
    else
      var b5 := Put(b, x + 1, top + 3, z, p.leaves).value;
      var b6 := Put(b5, x - 1, top + 3, z, p.leaves).value;
      var b7 := Put(b6, x, top + 3, z + 1, p.leaves).value;
      var b8 := Put(b7, x, top + 3, z - 1, p.leaves).value;
      Put(b8, x, top + 4, z, p.leaves)
  }

  /** A trunk cell: (x, z) between top and top + 3. */
  predicate InTrunk(x: nat, top: nat, z: nat, cx: nat, cy: nat, cz: nat)
  {
    cx == x && cz == z && top <= cy <= top + 3
  }

  /** A leaf cell: the four cells around (x, top + 3, z), and (x, top + 4, z). */
  predicate InCrown(x: nat, top: nat, z: nat, cx: nat, cy: nat, cz: nat)
  {
    (cy == top + 3 && (((cx == x + 1 || cx + 1 == x) && cz == z) || (cx == x && (cz == z + 1 || cz + 1 == z))))
    || (cx == x && cz == z && cy == top + 4)
  }

  lemma TrunkShape<B>(p: Palette<B>, b: Build<B>, x: nat, top: nat, z: nat)
    requires WellFormed(b) && Trunk(p, b, x, top, z).Ok?
    ensures var after := Trunk(p, b, x, top, z).value;
      after.index == b.index + [(x, top, z), (x, top + 1, z), (x, top + 2, z), (x, top + 3, z)] &&
      forall cx, cy, cz :: InBounds(cx, cy, cz) ==>
        Get(after.blocks, cx, cy, cz) == if InTrunk(x, top, z, cx, cy, cz) then p.log else Get(b.blocks, cx, cy, cz)
  {
    var b1 := Put(b, x, top, z, p.log).value;
    var b2 := Put(b1, x, top + 1, z, p.log).value;
    var b3 := Put(b2, x, top + 2, z, p.log).value;
    forall cx, cy, cz | InBounds(cx, cy, cz)
      ensures Get(Trunk(p, b, x, top, z).value.blocks, cx, cy, cz) ==
        if InTrunk(x, top, z, cx, cy, cz) then p.log else Get(b.blocks, cx, cy, cz)
    {
      GetSet(b.blocks, x, top, z, p.log, cx, cy, cz);
      GetSet(b1.blocks, x, top + 1, z, p.log, cx, cy, cz);
      GetSet(b2.blocks, x, top + 2, z, p.log, cx, cy, cz);
      GetSet(b3.blocks, x, top + 3, z, p.log, cx, cy, cz);
    }
  }

  lemma CrownShape<B>(p: Palette<B>, b: Build<B>, x: nat, top: nat, z: nat)
    requires WellFormed(b) && 1 <= x < ChunkSize - 1 && 1 <= z < ChunkSize - 1 && Crown(p, b, x, top, z).Ok?
    ensures var after := Crown(p, b, x, top, z).value;
      after.index == b.index + [(x + 1, top + 3, z), (x - 1, top + 3, z), (x, top + 3, z + 1), (x, top + 3, z - 1), (x, top + 4, z)] &&
      forall cx, cy, cz :: InBounds(cx, cy, cz) ==>
        Get(after.blocks, cx, cy, cz) == if InCrown(x, top, z, cx, cy, cz) then p.leaves else Get(b.blocks, cx, cy, cz)
  {
    var b5 := Put(b, x + 1, top + 3, z, p.leaves).value;
    var b6 := Put(b5, x - 1, top + 3, z, p.leaves).value;
    var b7 := Put(b6, x, top + 3, z + 1, p.leaves).value;
    var b8 := Put(b7, x, top + 3, z - 1, p.leaves).value;
    forall cx, cy, cz | InBounds(cx, cy, cz)
      ensures Get(Crown(p, b, x, top, z).value.blocks, cx, cy, cz) ==
        if InCrown(x, top, z, cx, cy, cz) then p.leaves else Get(b.blocks, cx, cy, cz)
    {
      GetSet(b.blocks, x + 1, top + 3, z, p.leaves, cx, cy, cz);
      GetSet(b5.blocks, x - 1, top + 3, z, p.leaves, cx, cy, cz);
      GetSet(b6.blocks, x, top + 3, z + 1, p.leaves, cx, cy, cz);
      GetSet(b7.blocks, x, top + 3, z - 1, p.leaves, cx, cy, cz);
      GetSet(b8.blocks, x, top + 4, z, p.leaves, cx, cy, cz);
    }
  }

  /**
   * After the tree, the trunk cells hold Logs and the leaf cells Leaves (the leaf at top + 3
   * sits beside the trunk, which keeps its fourth Log), every other cell is as it was, and the
   * list grew by the nine coordinates in write order.
   */
  lemma TreeShape<B>(p: Palette<B>, b: Build<B>, x: nat, top: nat, z: nat)
    requires WellFormed(b) && TreeSpot(x, z) && Tree(p, b, x, top, z).Ok?
    ensures var after := Tree(p, b, x, top, z).value;
      after.index == b.index + [(x, top, z), (x, top + 1, z), (x, top + 2, z), (x, top + 3, z),
        (x + 1, top + 3, z), (x - 1, top + 3, z), (x, top + 3, z + 1), (x, top + 3, z - 1), (x, top + 4, z)] &&
      forall cx, cy, cz :: InBounds(cx, cy, cz) ==>
        Get(after.blocks, cx, cy, cz) ==
          if InTrunk(x, top, z, cx, cy, cz) then p.log
          else if InCrown(x, top, z, cx, cy, cz) then p.leaves
          else Get(b.blocks, cx, cy, cz)
  {
    var trunk := Trunk(p, b, x, top, z).value;
    var after := Crown(p, trunk, x, top, z).value;
    TrunkShape(p, b, x, top, z);
    CrownShape(p, trunk, x, top, z);
    forall cx, cy, cz | InBounds(cx, cy, cz)
      ensures Get(after.blocks, cx, cy, cz) ==
        if InTrunk(x, top, z, cx, cy, cz) then p.log
        else if InCrown(x, top, z, cx, cy, cz) then p.leaves
        else Get(b.blocks, cx, cy, cz)
    {
      assert InCrown(x, top, z, cx, cy, cz) ==> !InTrunk(x, top, z, cx, cy, cz);
    }
  }

  /** The nine cells of a tree whose trunk stands at `top`: Logs from top to top + 3, Leaves around and above. */
  lemma TreeCells<B>(p: Palette<B>, b: Build<B>, x: nat, top: nat, z: nat)
    requires WellFormed(b) && TreeSpot(x, z) && Tree(p, b, x, top, z).Ok?
    ensures var g := Tree(p, b, x, top, z).value.blocks;
      top + 4 < ChunkHeight && IsGrid(g) &&
      Get(g, x, top, z) == p.log && Get(g, x, top + 1, z) == p.log && Get(g, x, top + 2, z) == p.log &&
      Get(g, x, top + 3, z) == p.log &&
      Get(g, x + 1, top + 3, z) == p.leaves && Get(g, x - 1, top + 3, z) == p.leaves &&
      Get(g, x, top + 3, z + 1) == p.leaves && Get(g, x, top + 3, z - 1) == p.leaves &&
      Get(g, x, top + 4, z) == p.leaves
  {
    TreeShape(p, b, x, top, z);
    var g := Tree(p, b, x, top, z).value.blocks;
    assert InTrunk(x, top, z, x, top + 3, z);
    assert InCrown(x, top, z, x - 1, top + 3, z) && InCrown(x, top, z, x, top + 3, z - 1);
  }

  /** Every write appends its coordinate, so a build that lists its non-Air cells still does after the tree. */
  lemma TreeCovered<B>(p: Palette<B>, b: Build<B>, x: nat, top: nat, z: nat, air: B)
    requires WellFormed(b) && Covered(b, air) && TreeSpot(x, z) && Tree(p, b, x, top, z).Ok?
    ensures Covered(Tree(p, b, x, top, z).value, air)
  {
    var trunk := Trunk(p, b, x, top, z).value;
    var after := Crown(p, trunk, x, top, z).value;
    TrunkShape(p, b, x, top, z);
    forall cx, cy, cz | InBounds(cx, cy, cz) && Get(trunk.blocks, cx, cy, cz) != air
      ensures (cx, cy, cz) in trunk.index
    {
      if !InTrunk(x, top, z, cx, cy, cz) {
        assert (cx, cy, cz) in b.index;
      }
    }
    CrownShape(p, trunk, x, top, z);
    forall cx, cy, cz | InBounds(cx, cy, cz) && Get(after.blocks, cx, cy, cz) != air
      ensures (cx, cy, cz) in after.index
    {
      if !InCrown(x, top, z, cx, cy, cz) {
        assert (cx, cy, cz) in trunk.index;
      }
    }
  }

  /**
   * On the filled land, `highest_in_column` finds the column's top block at height - 1 (for a
   * column of height at most 1 it answers 0, as y = 0 is never inspected); so the tree, whose top
   * leaf is four above that, fits exactly when the column is at most 252 high.
   */
  lemma LandTop<B>(p: Palette<B>, heights: seq<nat>, x: nat, z: nat)
    requires Heights(heights) && LandTo(p, heights, |heights|).Ok? && TreeSpot(x, z)
    requires p.grass != p.air
    ensures var land := LandTo(p, heights, |heights|).value;
      var h := heights[Terrain.Column(x, z)];
      IsGrid(land.blocks) &&
      h <= ChunkHeight && BlockMaps.ColumnTop(land.blocks, x, z, p.air) == Ok(if h >= 2 then h - 1 else 0)
  {
    var land := LandTo(p, heights, |heights|).value;
    var i := Terrain.Column(x, z);
    var h := heights[i];
    LandToOk(p, heights, |heights|);
    LandToState(p, heights, |heights|);
    LandToWellFormed(p, heights, |heights|);
    assert h <= ChunkHeight;
    if h >= 2 {
      assert Get(land.blocks, x, h - 1, z) == p.grass;
      BlockMaps.ScanStopsAt(land.blocks, x, z, ChunkHeight - 1, p.air, h - 1);
    }
  }
}
