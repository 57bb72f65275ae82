/**
 * The layered chunk format (src/utils/chunk_utils.rs; the same format in
 * src/models/utils/chunk_utils.rs). Each occupied layer is the sentinel 127, a two-byte
 * height header (flag, y mod 127) and the layer's 256 block codes, x outer and z inner.
 */
module ChunkCodec {
  import opened Wrappers
  import opened Grids
  import opened Blocks
  import opened BlockMaps

  type Byte = b: int | 0 <= b < 256

  const Sentinel: Byte := 127
  const LayerLength := 259

  predicate Distinct<T(==)>(s: seq<T>) {
    forall i, j :: 0 <= i < j < |s| ==> s[i] != s[j]
  }

  /**
   * The height flag of a layer header for the height byte y8. As written it is 1 when y8 > 127;
   * `corrected` selects the flag y8 / 127 that the mod-127 remainder needs.
   */
  function Flag(y8: nat, corrected: bool): (f: Byte)
    requires y8 < 256
    ensures f <= 2
    ensures !corrected ==> f <= 1
  {
    if corrected then y8 / 127 else if y8 > 127 then 1 else 0
  }

  function Header(y8: nat, corrected: bool): (h: seq<Byte>)
    requires y8 < 256
    ensures |h| == 3 && h[0] == Sentinel && h[1] <= 2 && h[2] < 127
  {
    [Sentinel, Flag(y8, corrected), y8 % 127]
  }

  /** The height the decoder computes from a header: flag * 127 + remainder. */
  function DecodedY(y8: nat, corrected: bool): (y: nat)
    requires y8 < 256
    ensures y < 256
  {
    Flag(y8, corrected) * 127 + y8 % 127
  }

  /** As written, the header recovers every height except 127, 254 and 255. */
  lemma HeaderCorners(y8: nat)
    requires y8 < 256
    ensures DecodedY(y8, false) == y8 <==> y8 != 127 && y8 < 254
    ensures DecodedY(127, false) == 0 && DecodedY(254, false) == 127 && DecodedY(255, false) == 128
  {
  }

  /** The corrected flag recovers every height. */
  lemma CorrectedHeaderRecovers(y8: nat)
    requires y8 < 256
    ensures DecodedY(y8, true) == y8
  {
  }

  /** The layer's blocks in emission order: cell k is (k / 16, y8, k % 16). */
  function LayerBlocks(g: seq<BlockType>, y8: nat): (cells: seq<BlockType>)
    requires IsGrid(g) && y8 < 256
    ensures |cells| == 256
    ensures forall x, z :: 0 <= x < 16 && 0 <= z < 16 ==> cells[16 * x + z] == Get(g, x, y8, z)
  {
    seq(256, k requires 0 <= k < 256 => Get(g, k / 16, y8, k % 16))
  }

  function Codes(cells: seq<BlockType>): (s: seq<Byte>)
    ensures |s| == |cells|
    ensures forall k :: 0 <= k < |s| ==> s[k] == Code(cells[k])
  {
    seq(|cells|, k requires 0 <= k < |cells| => Code(cells[k]) as Byte)
  }

  /** One layer as `to_serialized` writes it; the height is cast to u8 first. */
  function LayerBytes(g: seq<BlockType>, y: nat, corrected: bool): (s: seq<Byte>)
    requires IsGrid(g)
    ensures |s| == LayerLength
    ensures s[..3] == Header(y % 256, corrected)
    ensures forall x, z :: 0 <= x < 16 && 0 <= z < 16 ==> s[3 + 16 * x + z] == Code(Get(g, x, y % 256, z))
  {
    Header(y % 256, corrected) + Codes(LayerBlocks(g, y % 256))
  }

  /** The layers of `order`, one after another. */
  function EncodeLayers(g: seq<BlockType>, order: seq<nat>, corrected: bool): (s: seq<Byte>)
    requires IsGrid(g)
    ensures |s| == LayerLength * |order|
    ensures forall k :: 0 <= k < |s| ==> s[k] < 128
  {
    if order == [] then []
    else LayerBytes(g, order[0], corrected) + EncodeLayers(g, order[1..], corrected)
  }

  lemma {:induction false} EncodeLayersSnoc(g: seq<BlockType>, order: seq<nat>, y: nat, corrected: bool)
    requires IsGrid(g)
    ensures EncodeLayers(g, order + [y], corrected) == EncodeLayers(g, order, corrected) + LayerBytes(g, y, corrected)
    decreases |order|
  {
    if order == [] {
      assert [] + [y] == [y];
    } else {
      assert (order + [y])[1..] == order[1..] + [y];
      EncodeLayersSnoc(g, order[1..], y, corrected);
    }
  }

  /** The heights `to_serialized` collects from the index. */
  function LayerYs(index: seq<Coord>): set<nat>
  {
    set k | 0 <= k < |index| :: index[k].1
  }

  /** The first loop of `to_serialized`: the height of every entry of the index, gathered into a set. */
  method CollectHeights(index: seq<Coord>) returns (layerYs: set<nat>)
    ensures layerYs == LayerYs(index)
  {
    layerYs := {};
    for k := 0 to |index|
      invariant layerYs == LayerYs(index[..k])
    {
      assert index[..k + 1] == index[..k] + [index[k]];
      assert LayerYs(index[..k + 1]) == LayerYs(index[..k]) + {index[k].1};
      layerYs := layerYs + {index[k].1};
    }
    assert index[..|index|] == index;
  }

  /** One pass of the second loop of `to_serialized`: layer y's header and codes appended after the layers of `order`. */
  method AppendLayer(blocks: BlockMap, s: seq<Byte>, ghost order: seq<nat>, y: nat) returns (s': seq<Byte>)
    requires blocks.Valid() && s == EncodeLayers(blocks.Contents(), order, false)
    ensures s' == EncodeLayers(blocks.Contents(), order + [y], false)
  {
    var y8 := y % 256;
    var cells := WriteLayer(blocks, y8);
    var header := [Sentinel, if y8 > 127 then 1 else 0, y8 % 127];
    assert header == Header(y8, false);
    s' := s + (header + cells);
    EncodeLayersSnoc(blocks.Contents(), order, y, false);
  }

  /**
   * `to_serialized`: collects the distinct heights of the index into a set, then writes one
   * layer per height in the set's iteration order, which is not specified; the ghost `order`
   * records the one taken.
   */
  method ToSerialized(index: seq<Coord>, blocks: BlockMap) returns (s: seq<Byte>, ghost order: seq<nat>)
    requires blocks.Valid()
    ensures Distinct(order)
    ensures forall y :: y in order <==> y in LayerYs(index)
    ensures s == EncodeLayers(blocks.Contents(), order, false)
    ensures |s| == LayerLength * |LayerYs(index)|
  {
    var layerYs := CollectHeights(index);
    s := [];
    order := [];
    var remaining := layerYs;
    while remaining != {}
      invariant remaining <= layerYs
      invariant forall y :: y in order <==> y in layerYs && y !in remaining
      invariant Distinct(order)
      invariant |order| + |remaining| == |layerYs|
      invariant s == EncodeLayers(blocks.Contents(), order, false)
      decreases |remaining|
    {
      var y :| y in remaining;
      s := AppendLayer(blocks, s, order, y);
      order := order + [y];
      remaining := remaining - {y};
    }
  }

  /** The code of cell (x, z) of a layer sits at position 16 * x + z. */
  lemma LayerCode(g: seq<BlockType>, y8: nat, x: nat, z: nat)
    requires IsGrid(g) && y8 < 256 && x < 16 && z < 16
    ensures 16 * x + z < 256 && Codes(LayerBlocks(g, y8))[16 * x + z] == Code(Get(g, x, y8, z))
  {
  }

  /** The inner loop of `to_serialized` for row x of a layer: its 16 codes, z ascending. */
  method WriteRow(blocks: BlockMap, y8: nat, x: nat, cells: seq<Byte>) returns (r: seq<Byte>)
    requires blocks.Valid() && y8 < 256 && x < 16
    requires cells == Codes(LayerBlocks(blocks.Contents(), y8))[..16 * x]
    ensures r == Codes(LayerBlocks(blocks.Contents(), y8))[..16 * x + 16]
  {
    ghost var expected := Codes(LayerBlocks(blocks.Contents(), y8));
    r := cells;
    for z := 0 to 16
      invariant r == expected[..16 * x + z]
    {
      var block := blocks.Get(x, y8, z);
      LayerCode(blocks.Contents(), y8, x, z);
      assert expected[..16 * x + z + 1] == expected[..16 * x + z] + [expected[16 * x + z]];
      r := r + [Code(block.value) as Byte];
    }
  }

  /** The 256 codes of one layer, x outer and z inner, as the two nested loops of `to_serialized` push them. */
  method WriteLayer(blocks: BlockMap, y8: nat) returns (cells: seq<Byte>)
    requires blocks.Valid() && y8 < 256
    ensures cells == Codes(LayerBlocks(blocks.Contents(), y8))
  {
    ghost var expected := Codes(LayerBlocks(blocks.Contents(), y8));
    cells := [];
    for x := 0 to 16
      invariant cells == expected[..16 * x]
    {
      cells := WriteRow(blocks, y8, x, cells);
    }
    assert expected[..256] == expected;
  }

  /** What `from_serialized` returns: the index of decoded cells and the grid. */
  datatype Decoded = Decoded(index: seq<Coord>, blocks: seq<BlockType>)

  /**
   * The decoder's loop from a given state: `rest` is the unread input, `y` the current height,
   * `iter` the cell count since the last header. Each panic of the source is an `Err`: a header
   * cut short reads past the end, the u8 header arithmetic overflows, a code of 16 or more
   * fails the unwrap, and a 257th cell in a layer is written at x = 16.
   */
  function Dec(rest: seq<Byte>, y: nat, iter: nat, index: seq<Coord>, g: seq<BlockType>): (r: Result<Decoded>)
    requires IsGrid(g) && y < 256
    ensures r.Ok? ==> IsGrid(r.value.blocks)
    decreases |rest|
  {
    if rest == [] then Ok(Decoded(index, g))
    else if rest[0] == Sentinel then
      if |rest| < 2 then Err(OutOfBounds)
      else if (rest[1] as int) * 127 > 255 then Err(Overflow)
      else if |rest| < 3 then Err(OutOfBounds)
      else if (rest[1] as int) * 127 + rest[2] > 255 then Err(Overflow)
      else Dec(rest[3..], (rest[1] as int) * 127 + rest[2], 0, index, g)
    else
      match IndexToBlock(rest[0])
      case None => Err(UnwrapNone)
      case Some(b) =>
        if iter / 16 >= ChunkSize then Err(OutOfBounds)
        else Dec(rest[1..], y, iter + 1, index + [(iter / 16, y, iter % 16)], Set(g, iter / 16, y, iter % 16, b))
  }

  /** Every index entry the decoder adds lies inside the chunk. */
  lemma {:induction false} DecodedInBounds(rest: seq<Byte>, y: nat, iter: nat, index: seq<Coord>, g: seq<BlockType>)
    requires IsGrid(g) && y < 256
    requires forall e :: e in index ==> CoordInBounds(e)
    ensures Dec(rest, y, iter, index, g).Ok? ==> forall e :: e in Dec(rest, y, iter, index, g).value.index ==> CoordInBounds(e)
    decreases |rest|
  {
    if rest == [] {
    } else if rest[0] == Sentinel {
      if |rest| >= 3 && (rest[1] as int) * 127 + rest[2] <= 255 {
        DecodedInBounds(rest[3..], (rest[1] as int) * 127 + rest[2], 0, index, g);
      }
    } else if IndexToBlock(rest[0]).Some? && iter / 16 < ChunkSize {
      var b := IndexToBlock(rest[0]).value;
      DecodedInBounds(rest[1..], y, iter + 1, index + [(iter / 16, y, iter % 16)], Set(g, iter / 16, y, iter % 16, b));
    }
  }

  /** `from_serialized` on a whole input, starting from an empty index and an all-Air grid. */
  function Decode(bytes: seq<Byte>): Result<Decoded>
  {
    Dec(bytes, 0, 0, [], Filled(Air))
  }

  /** `from_serialized`: the counter loop over the bytes, writing each cell into a fresh BlockMap. */
  method FromSerialized(bytes: seq<Byte>) returns (r: Result<(seq<Coord>, BlockMap)>)
    ensures r.Ok? <==> Decode(bytes).Ok?
    ensures r.Ok? ==> fresh(r.value.1) && r.value.1.Valid()
    ensures r.Ok? ==> Decoded(r.value.0, r.value.1.Contents()) == Decode(bytes).value
  {
    var blocksInMesh: seq<Coord> := [];
    var blocks := new BlockMap();
    var i := 0;
    var y: nat := 0;
    var iterInLayer: nat := 0;
    while i < |bytes|
      invariant 0 <= i <= |bytes|
      invariant fresh(blocks) && fresh(blocks.cells) && blocks.Valid()
      invariant y < 256
      invariant Decode(bytes) == Dec(bytes[i..], y, iterInLayer, blocksInMesh, blocks.Contents())
      decreases |bytes| - i
    {
      var byte := bytes[i];
      if byte == Sentinel {
        if i + 1 >= |bytes| {
          return Err(OutOfBounds);
        }
        if (bytes[i + 1] as int) * 127 > 255 {
          return Err(Overflow);
        }
        if i + 2 >= |bytes| {
          return Err(OutOfBounds);
        }
        if (bytes[i + 1] as int) * 127 + bytes[i + 2] > 255 {
          return Err(Overflow);
        }
        assert bytes[i..][3..] == bytes[i + 3..];
        y := (bytes[i + 1] as int) * 127 + bytes[i + 2];
        iterInLayer := 0;
        i := i + 2;
      } else {
        var x := iterInLayer / 16;
        var z := iterInLayer % 16;
        blocksInMesh := blocksInMesh + [(x, y, z)];
        var block := IndexToBlock(byte);
        if block.None? {
          return Err(UnwrapNone);
        }
        var outcome := blocks.Set(x, y, z, block.value);
        if outcome.Err? {
          return Err(outcome.fault);
        }
        assert bytes[i..][1..] == bytes[i + 1..];
        iterInLayer := iterInLayer + 1;
      }
      i := i + 1;
    }
    assert bytes[i..] == [];
    return Ok((blocksInMesh, blocks));
  }

  /** The index entries the decoder pushes for one layer at height y: all 256, Air included. */
  function LayerEntries(y: nat): (e: seq<Coord>)
    ensures |e| == 256
    ensures forall k :: 0 <= k < 256 ==> e[k] == (k / 16, y, k % 16)
  {
    seq(256, k requires 0 <= k < 256 => (k / 16, y, k % 16))
  }

  /** Writing cells k..255 of a layer in emission order. */
  function PaintFrom(g: seq<BlockType>, y: nat, cells: seq<BlockType>, k: nat): (r: seq<BlockType>)
    requires IsGrid(g) && y < 256 && |cells| == 256 && k <= 256
    ensures IsGrid(r)
    ensures forall x, y', z :: InBounds(x, y', z) ==>
      Get(r, x, y', z) == if y' == y && 16 * x + z >= k then cells[16 * x + z] else Get(g, x, y', z)
    decreases 256 - k
  {
    if k == 256 then g
    else PaintFrom(Set(g, k / 16, y, k % 16, cells[k]), y, cells, k + 1)
  }

  /** The grid after decoding the layers of `order` on top of g. */
  function Painted(g: seq<BlockType>, g0: seq<BlockType>, order: seq<nat>, corrected: bool): (r: seq<BlockType>)
    requires IsGrid(g) && IsGrid(g0)
    ensures IsGrid(r)
    decreases |order|
  {
    if order == [] then g
    else
      var y8 := order[0] % 256;
      Painted(PaintFrom(g, DecodedY(y8, corrected), LayerBlocks(g0, y8), 0), g0, order[1..], corrected)
  }

  /** The index after decoding the layers of `order`. */
  function EntriesOf(order: seq<nat>, corrected: bool): (e: seq<Coord>)
    ensures |e| == 256 * |order|
  {
    if order == [] then [] else LayerEntries(DecodedY(order[0] % 256, corrected)) + EntriesOf(order[1..], corrected)
  }

  lemma {:induction false} DecodeCells(g0: seq<BlockType>, y8: nat, k: nat, rest: seq<Byte>, y: nat, index: seq<Coord>, g: seq<BlockType>)
    requires IsGrid(g0) && IsGrid(g) && y8 < 256 && y < 256 && k <= 256
    ensures Dec(Codes(LayerBlocks(g0, y8))[k..] + rest, y, k, index, g)
         == Dec(rest, y, 256, index + LayerEntries(y)[k..], PaintFrom(g, y, LayerBlocks(g0, y8), k))
    decreases 256 - k
  {
    var cells := LayerBlocks(g0, y8);
    var codes := Codes(cells);
    if k == 256 {
      assert codes[k..] + rest == rest;
      assert index + LayerEntries(y)[k..] == index;
    } else {
      var input := codes[k..] + rest;
      assert input[0] == Code(cells[k]);
      IndexOfCode(cells[k]);
      assert input[1..] == codes[k + 1..] + rest;
      var index' := index + [(k / 16, y, k % 16)];
      assert index' + LayerEntries(y)[k + 1..] == index + LayerEntries(y)[k..];
      DecodeCells(g0, y8, k + 1, rest, y, index', Set(g, k / 16, y, k % 16, cells[k]));
    }
  }

  /** A header sets the height to the value it decodes to and restarts the cell count. */
  lemma DecodeHeader(y8: nat, corrected: bool, more: seq<Byte>, y: nat, iter: nat, index: seq<Coord>, g: seq<BlockType>)
    requires IsGrid(g) && y8 < 256 && y < 256
    ensures Dec(Header(y8, corrected) + more, y, iter, index, g) == Dec(more, DecodedY(y8, corrected), 0, index, g)
  {
    var input := Header(y8, corrected) + more;
    assert input[0] == Sentinel && input[1] == Flag(y8, corrected) && input[2] == y8 % 127;
    assert input[3..] == more;
  }

  lemma EncodeLayersCons(g0: seq<BlockType>, order: seq<nat>, corrected: bool)
    requires IsGrid(g0) && order != []
    ensures EncodeLayers(g0, order, corrected)
         == Header(order[0] % 256, corrected) + (Codes(LayerBlocks(g0, order[0] % 256)) + EncodeLayers(g0, order[1..], corrected))
  {
  }

  lemma EntriesOfCons(order: seq<nat>, corrected: bool, index: seq<Coord>)
    requires order != []
    ensures index + LayerEntries(DecodedY(order[0] % 256, corrected)) + EntriesOf(order[1..], corrected)
         == index + EntriesOf(order, corrected)
  {
  }

  /** Decoding the encoded layers of `order` from any state gives the entries and grid above. */
  lemma {:induction false} DecodeLayers(g0: seq<BlockType>, order: seq<nat>, corrected: bool, y: nat, iter: nat, index: seq<Coord>, g: seq<BlockType>)
    requires IsGrid(g0) && IsGrid(g) && y < 256
    ensures Dec(EncodeLayers(g0, order, corrected), y, iter, index, g)
         == Ok(Decoded(index + EntriesOf(order, corrected), Painted(g, g0, order, corrected)))
    decreases |order|
  {
    if order == [] {
      assert index + [] == index;
    } else {
      var y8 := order[0] % 256;
      var dy := DecodedY(y8, corrected);
      var codes := Codes(LayerBlocks(g0, y8));
      var tail := EncodeLayers(g0, order[1..], corrected);
      EncodeLayersCons(g0, order, corrected);
      DecodeHeader(y8, corrected, codes + tail, y, iter, index, g);
      assert codes[0..] == codes;
      DecodeCells(g0, y8, 0, tail, dy, index, g);
      var g1 := PaintFrom(g, dy, LayerBlocks(g0, y8), 0);
      assert LayerEntries(dy)[0..] == LayerEntries(dy);
      DecodeLayers(g0, order[1..], corrected, dy, 256, index + LayerEntries(dy), g1);
      EntriesOfCons(order, corrected, index);
      PaintedStep(g, g0, order, corrected);
    }
  }

  lemma SmallMod(n: nat)
    requires n < 256
    ensures n % 256 == n
  {
  }

  lemma PaintedStep(g: seq<BlockType>, g0: seq<BlockType>, order: seq<nat>, corrected: bool)
    requires IsGrid(g) && IsGrid(g0) && order != []
    ensures Painted(g, g0, order, corrected)
         == Painted(PaintFrom(g, DecodedY(order[0] % 256, corrected), LayerBlocks(g0, order[0] % 256), 0), g0, order[1..], corrected)
  {
  }

  /** One whole layer written at height dy from layer y8 of g0. */
  lemma PaintLayerCell(g: seq<BlockType>, g0: seq<BlockType>, y8: nat, dy: nat, x: nat, y: nat, z: nat)
    requires IsGrid(g) && IsGrid(g0) && y8 < 256 && dy < 256 && InBounds(x, y, z)
    ensures Get(PaintFrom(g, dy, LayerBlocks(g0, y8), 0), x, y, z) == if dy == y then Get(g0, x, y8, z) else Get(g, x, y, z)
  {
  }

  /**
   * A cell of the decoded grid at height y: when src is the only layer of `order` whose header
   * decodes to y, the cell is src's cell; when no layer decodes to y it is untouched.
   */
  lemma {:induction false} PaintedCell(g: seq<BlockType>, g0: seq<BlockType>, order: seq<nat>, corrected: bool, x: nat, y: nat, z: nat, src: nat)
    requires IsGrid(g) && IsGrid(g0) && InBounds(x, y, z) && src < 256
    requires forall j :: 0 <= j < |order| && DecodedY(order[j] % 256, corrected) == y ==> order[j] == src
    ensures Get(Painted(g, g0, order, corrected), x, y, z)
         == if src in order && DecodedY(src, corrected) == y then Get(g0, x, src, z) else Get(g, x, y, z)
    decreases |order|
  {
    if order != [] {
      var y8 := order[0] % 256;
      var rest := order[1..];
      var dy := DecodedY(y8, corrected);
      var g1 := PaintFrom(g, dy, LayerBlocks(g0, y8), 0);
      forall j | 0 <= j < |rest| && DecodedY(rest[j] % 256, corrected) == y
        ensures rest[j] == src
      {
        assert rest[j] == order[j + 1];
      }
      PaintedCell(g1, g0, rest, corrected, x, y, z, src);
      PaintedStep(g, g0, order, corrected);
      PaintLayerCell(g, g0, y8, dy, x, y, z);
      assert src in order <==> order[0] == src || src in rest;
      var lhs := Get(Painted(g, g0, order, corrected), x, y, z);
      assert lhs == Get(Painted(g1, g0, rest, corrected), x, y, z);
      if dy == y {
        assert order[0] == src;
        SmallMod(src);
        assert Get(g1, x, y, z) == Get(g0, x, src, z);
        assert src in order && DecodedY(src, corrected) == y;
        assert lhs == Get(g0, x, src, z);
      } else {
        assert Get(g1, x, y, z) == Get(g, x, y, z);
        if src in order && DecodedY(src, corrected) == y {
          SmallMod(src);
          assert order[0] != src;
        }
      }
    }
  }

  /** Decoding the layers of `order` from a fresh state gives their entries and the layers painted onto an all-Air grid. */
  lemma DecodeEncoded(g0: seq<BlockType>, order: seq<nat>, corrected: bool)
    requires IsGrid(g0)
    ensures Decode(EncodeLayers(g0, order, corrected)) == Ok(Decoded(EntriesOf(order, corrected), Painted(Filled(Air), g0, order, corrected)))
  {
    DecodeLayers(g0, order, corrected, 0, 0, [], Filled(Air));
    assert [] + EntriesOf(order, corrected) == EntriesOf(order, corrected);
  }

  /**
   * Decoding what the serializer wrote restores every cell of every layer whose height the
   * header recovers and no other layer's header also decodes to; the layer order is immaterial.
   * The index holds 256 entries per layer, Air cells included.
   */
  lemma RoundTrip(g0: seq<BlockType>, order: seq<nat>, corrected: bool, x: nat, y: nat, z: nat)
    requires IsGrid(g0) && InBounds(x, y, z)
    requires forall j :: 0 <= j < |order| ==> order[j] < 256
    requires y in order && DecodedY(y, corrected) == y
    requires forall j :: 0 <= j < |order| && DecodedY(order[j], corrected) == y ==> order[j] == y
    ensures Decode(EncodeLayers(g0, order, corrected)).Ok?
    ensures Decode(EncodeLayers(g0, order, corrected)).value.index == EntriesOf(order, corrected)
    ensures Get(Decode(EncodeLayers(g0, order, corrected)).value.blocks, x, y, z) == Get(g0, x, y, z)
  {
    DecodeEncoded(g0, order, corrected);
    forall j | 0 <= j < |order| && DecodedY(order[j] % 256, corrected) == y
      ensures order[j] == y
    {
      SmallMod(order[j]);
    }
    PaintedCell(Filled(Air), g0, order, corrected, x, y, z, y);
  }

  /** With the corrected flag every layer comes back, and every other layer stays Air. */
  lemma CorrectedRoundTrip(g0: seq<BlockType>, order: seq<nat>, x: nat, y: nat, z: nat)
    requires IsGrid(g0) && InBounds(x, y, z)
    requires forall j :: 0 <= j < |order| ==> order[j] < 256
    ensures Decode(EncodeLayers(g0, order, true)).Ok?
    ensures Get(Decode(EncodeLayers(g0, order, true)).value.blocks, x, y, z) == if y in order then Get(g0, x, y, z) else Air
  {
    DecodeEncoded(g0, order, true);
    forall j | 0 <= j < |order| && DecodedY(order[j] % 256, true) == y
      ensures order[j] == y
    {
      SmallMod(order[j]);
      CorrectedHeaderRecovers(order[j]);
    }
    if y in order {
      CorrectedHeaderRecovers(y);
    }
    PaintedCell(Filled(Air), g0, order, true, x, y, z, y);
  }

  /** A cell at a height no layer of `order` decodes to is left as it was. */
  lemma {:induction false} UnpaintedCell(g: seq<BlockType>, g0: seq<BlockType>, order: seq<nat>, corrected: bool, x: nat, y: nat, z: nat)
    requires IsGrid(g) && IsGrid(g0) && InBounds(x, y, z)
    requires forall j :: 0 <= j < |order| ==> DecodedY(order[j] % 256, corrected) != y
    ensures Get(Painted(g, g0, order, corrected), x, y, z) == Get(g, x, y, z)
    decreases |order|
  {
    if order != [] {
      var y8 := order[0] % 256;
      var g1 := PaintFrom(g, DecodedY(y8, corrected), LayerBlocks(g0, y8), 0);
      assert forall j :: 0 <= j < |order| - 1 ==> order[1..][j] == order[j + 1];
      UnpaintedCell(g1, g0, order[1..], corrected, x, y, z);
      PaintedStep(g, g0, order, corrected);
      PaintLayerCell(g, g0, y8, DecodedY(y8, corrected), x, y, z);
    }
  }

  /** A height no layer header decodes to comes back as Air, whatever the chunk held there. */
  lemma UnclaimedLayerIsAir(g0: seq<BlockType>, order: seq<nat>, corrected: bool, x: nat, y: nat, z: nat)
    requires IsGrid(g0) && InBounds(x, y, z)
    requires forall j :: 0 <= j < |order| ==> order[j] < 256 && DecodedY(order[j], corrected) != y
    ensures Decode(EncodeLayers(g0, order, corrected)).Ok?
    ensures Get(Decode(EncodeLayers(g0, order, corrected)).value.blocks, x, y, z) == Air
  {
    DecodeEncoded(g0, order, corrected);
    forall j | 0 <= j < |order|
      ensures DecodedY(order[j] % 256, corrected) != y
    {
      SmallMod(order[j]);
    }
    UnpaintedCell(Filled(Air), g0, order, corrected, x, y, z);
  }

  /** As written, a block at height 127 (alone in its layer) comes back as Air. */
  lemma LayerAt127IsLost(g0: seq<BlockType>)
    requires IsGrid(g0) && Get(g0, 0, 127, 0) == Stone
    ensures Decode(EncodeLayers(g0, [127], false)).Ok?
    ensures Get(Decode(EncodeLayers(g0, [127], false)).value.blocks, 0, 127, 0) == Air
  {
    HeaderCorners(127);
    UnclaimedLayerIsAir(g0, [127], false, 0, 127, 0);
  }

  /** An empty input decodes to an empty index and an all-Air grid. */
  lemma DecodeEmpty()
    ensures Decode([]) == Ok(Decoded([], Filled(Air)))
  {
  }

  /** A code of 16 or more fails the unwrap. */
  lemma DecodeRejectsUnknownCode(b: Byte, rest: seq<Byte>)
    requires 16 <= b && b != Sentinel
    ensures Decode([b] + rest) == Err(UnwrapNone)
  {
  }

  /** The four chars `original_serialize` pushes for one entry: x, y, z cast to u8, then the code. */
  function Record(x: nat, y: nat, z: nat, b: BlockType): seq<Byte>
  {
    [x % 256, y % 256, z % 256, Code(b)]
  }

  /**
   * `original_serialize`: the entries of the index in order; reading a cell out of range panics.
   * The result counts chars, each a code point below 256. In the `String`'s UTF-8 a y of 128
   * or more takes two bytes, so its `len()` can exceed four per entry.
   */
  function OriginalChars(index: seq<Coord>, g: seq<BlockType>): (r: Result<seq<Byte>>)
    requires IsGrid(g)
    ensures r.Ok? <==> forall k :: 0 <= k < |index| ==> CoordInBounds(index[k])
    ensures r.Err? ==> r.fault == OutOfBounds
    ensures r.Ok? ==> |r.value| == 4 * |index|
    ensures r.Ok? ==> forall k :: 0 <= k < |index| ==>
      r.value[4 * k..4 * k + 4] == Record(index[k].0, index[k].1, index[k].2, Get(g, index[k].0, index[k].1, index[k].2))
  {
    if index == [] then Ok([])
    else
      var last := index[|index| - 1];
      var front :- OriginalChars(index[..|index| - 1], g);
      if !CoordInBounds(last) then Err(OutOfBounds)
      else
        var s := front + Record(last.0, last.1, last.2, Get(g, last.0, last.1, last.2));
        assert forall k :: 0 <= k < |index| - 1 ==> s[4 * k..4 * k + 4] == front[4 * k..4 * k + 4];
        Ok(s)
  }

  method OriginalSerialize(index: seq<Coord>, blocks: BlockMap) returns (r: Result<seq<Byte>>)
    requires blocks.Valid()
    ensures r == OriginalChars(index, blocks.Contents())
  {
    var result: seq<Byte> := [];
    for k := 0 to |index|
      invariant OriginalChars(index[..k], blocks.Contents()) == Ok(result)
    {
      var (x, y, z) := index[k];
      var block :- blocks.Get(x, y, z);
      assert index[..k + 1][..k] == index[..k];
      result := result + Record(x, y, z, block);
    }
    assert index[..|index|] == index;
    return Ok(result);
  }
}
