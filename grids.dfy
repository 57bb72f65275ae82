/**
 * The cells of one chunk as a value: 16 x 256 x 16 cells stored like the Rust array
 * `map[x][z][y]`, so the cell (x, y, z) is number (x * 16 + z) * 256 + y.
 * Generic in the block type, because each generation of the engine has its own enum.
 */
module Grids {

  const ChunkSize := 16
  const ChunkHeight := 256
  const Volume := ChunkSize * ChunkSize * ChunkHeight

  /** A local coordinate `(x, y, z)`, as the `(usize, usize, usize)` of the occupied index. */
  type Coord = (nat, nat, nat)

  predicate InBounds(x: int, y: int, z: int) {
    0 <= x < ChunkSize && 0 <= y < ChunkHeight && 0 <= z < ChunkSize
  }

  predicate CoordInBounds(c: Coord) {
    InBounds(c.0, c.1, c.2)
  }

  predicate IsGrid<B>(g: seq<B>) {
    |g| == Volume
  }

  function Index(x: int, y: int, z: int): (n: nat)
    requires InBounds(x, y, z)
    ensures n < Volume
  {
    (x * ChunkSize + z) * ChunkHeight + y
  }

  /** Each cell has its own slot. */
  lemma IndexInjective(x: int, y: int, z: int, x': int, y': int, z': int)
    requires InBounds(x, y, z) && InBounds(x', y', z')
    requires Index(x, y, z) == Index(x', y', z')
    ensures x == x' && y == y' && z == z'
  {
    assert y == Index(x, y, z) % 256 && y' == Index(x', y', z') % 256;
    assert x * 16 + z == Index(x, y, z) / 256 && x' * 16 + z' == Index(x', y', z') / 256;
  }

  /** A grid with every cell holding `b` (`BlockMap::new` with `b` = Air). */
  function Filled<B>(b: B): (g: seq<B>)
    ensures IsGrid(g)
    ensures forall i :: 0 <= i < |g| ==> g[i] == b
  {
    seq(Volume, _ => b)
  }

  function Get<B>(g: seq<B>, x: int, y: int, z: int): B
    requires IsGrid(g) && InBounds(x, y, z)
  {
    g[Index(x, y, z)]
  }

  /** The grid with cell (x, y, z) replaced by `b`: that cell reads `b` (`SetOther`: no other cell changes). */
  function Set<B>(g: seq<B>, x: int, y: int, z: int, b: B): (g': seq<B>)
    requires IsGrid(g) && InBounds(x, y, z)
    ensures IsGrid(g')
    ensures Get(g', x, y, z) == b
  {
    g[Index(x, y, z) := b]
  }

  /** Writing one cell leaves every other cell as it was. */
  lemma SetOther<B>(g: seq<B>, x: int, y: int, z: int, b: B, x': int, y': int, z': int)
    requires IsGrid(g) && InBounds(x, y, z) && InBounds(x', y', z') && (x', y', z') != (x, y, z)
    ensures Get(Set(g, x, y, z, b), x', y', z') == Get(g, x', y', z')
  {
    if Index(x', y', z') == Index(x, y, z) {
      IndexInjective(x', y', z', x, y, z);
    }
  }

  /** `SetOther` for every other cell at once. */
  lemma SetFrame<B>(g: seq<B>, x: int, y: int, z: int, b: B)
    requires IsGrid(g) && InBounds(x, y, z)
    ensures forall x', y', z' :: InBounds(x', y', z') && (x', y', z') != (x, y, z) ==>
      Get(Set(g, x, y, z, b), x', y', z') == Get(g, x', y', z')
  {
    forall x', y', z' | InBounds(x', y', z') && (x', y', z') != (x, y, z)
      ensures Get(Set(g, x, y, z, b), x', y', z') == Get(g, x', y', z')
    {
      SetOther(g, x, y, z, b, x', y', z');
    }
  }
}
