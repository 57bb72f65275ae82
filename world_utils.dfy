/**
 * Splitting a world coordinate into a chunk coordinate and an offset inside the chunk
 * (models/utils/world_utils.rs), with Rust's truncating `/` and `%` on i32 and the
 * debug-build overflow panic written out.
 */
module WorldUtils {
  import opened Wrappers
  import opened Ints

  /**
   * One axis of `localize_coords_to_chunk`: the chunk is found by biasing negative values by one
   * before the truncating division and then stepping one chunk down; the offset is
   * `(|chunk| * 16 + w) % 16` made non-negative. Only `|chunk| * 16` and the following sum can
   * leave the i32 range.
   */
  function LocalizeAxis(w: int): (r: Result<(int, nat)>)
    requires IsI32(w)
  {
    var biased := w + (if w < 0 then 1 else 0);
    var c := TruncDiv(biased, 16) - (if w < 0 then 1 else 0);
    var scaled := Abs(c) * 16;
    if !IsI32(scaled) then Err(Overflow)
    else
      var sum := scaled + w;
      if !IsI32(sum) then Err(Overflow)
      else Ok((c, Abs(TruncRem(sum, 16))))
  }

  /** The chunk is the floor of w / 16 and the offset the remainder, so they rebuild w. */
  lemma LocalizeAxisIsFloorDivision(w: int)
    requires IsI32(w)
    ensures LocalizeAxis(w).Ok? ==> LocalizeAxis(w).value == (w / 16, w % 16)
    ensures LocalizeAxis(w).Ok? ==> LocalizeAxis(w).value.0 * 16 + LocalizeAxis(w).value.1 == w
    ensures LocalizeAxis(w).Ok? ==> LocalizeAxis(w).value.1 < 16
  {
    var c := TruncDiv(w + (if w < 0 then 1 else 0), 16) - (if w < 0 then 1 else 0);
    if w < 0 {
      var n := -w - 1;
      assert TruncDiv(w + 1, 16) == -(n / 16);
      assert c == -(n / 16) - 1;
      assert c == w / 16 by {
        assert n == (n / 16) * 16 + n % 16;
        assert w == -(n / 16) * 16 - n % 16 - 1;
        assert w == c * 16 + (15 - n % 16);
      }
      var sum := Abs(c) * 16 + w;
      assert sum == w - 16 * c;
      assert 0 <= sum < 16;
      assert TruncRem(sum, 16) == sum;
    } else {
      assert c == w / 16;
      var sum := Abs(c) * 16 + w;
      assert sum == 16 * c + w;
      assert sum % 16 == w % 16 by {
        assert sum == 16 * (2 * c) + w % 16;
      }
    }
  }

  /**
   * Exactly when the panic happens: below -2^31 + 16 the chunk's magnitude times 16 is 2^31, and
   * on the positive side 16 * (w / 16) + w passes 2^31 - 1 (from about 2^30 upwards).
   */
  lemma LocalizeAxisOverflow(w: int)
    requires IsI32(w)
    ensures LocalizeAxis(w).Err? <==> w < I32Min + 16 || 16 * (w / 16) + w > I32Max
    ensures I32Min + 16 <= w < 0x4000_0000 ==> LocalizeAxis(w).Ok?
  {
    var c := TruncDiv(w + (if w < 0 then 1 else 0), 16) - (if w < 0 then 1 else 0);
    if w < 0 {
      var n := -w - 1;
      assert c == -(n / 16) - 1;
      assert c * 16 <= w < c * 16 + 16 by {
        assert n == (n / 16) * 16 + n % 16;
      }
      assert w / 16 == c;
      assert (Abs(c) * 16 > I32Max) <==> w < I32Min + 16;
    } else {
      assert c == w / 16;
    }
  }

  /** Worked values: -1 is the last column of chunk -1, -16 its first, 15 the last of chunk 0. */
  lemma LocalizeAxisExamples()
    ensures LocalizeAxis(-1) == Ok((-1, 15))
    ensures LocalizeAxis(-16) == Ok((-1, 0))
    ensures LocalizeAxis(-17) == Ok((-2, 15))
    ensures LocalizeAxis(15) == Ok((0, 15))
    ensures LocalizeAxis(16) == Ok((1, 0))
    ensures LocalizeAxis(I32Min) == Err(Overflow)
  {
  }

  /** `localize_coords_to_chunk`: (chunk x, chunk z, local x, local z), each axis on its own. */
  function LocalizeCoordsToChunk(worldX: int, worldZ: int): (r: Result<(int, int, nat, nat)>)
    requires IsI32(worldX) && IsI32(worldZ)
    ensures r.Ok? <==> LocalizeAxis(worldX).Ok? && LocalizeAxis(worldZ).Ok?
    ensures r.Ok? ==> r.value == (worldX / 16, worldZ / 16, worldX % 16, worldZ % 16)
  {
    LocalizeAxisIsFloorDivision(worldX);
    LocalizeAxisIsFloorDivision(worldZ);
    var (cx, lx) :- LocalizeAxis(worldX);
    var (cz, lz) :- LocalizeAxis(worldZ);
    Ok((cx, cz, lx, lz))
  }
}
