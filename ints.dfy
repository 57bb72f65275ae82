/** Rust's 32-bit signed integers and their truncating division, as used throughout the engine. */
module Ints {
  const I32Min: int := -0x8000_0000
  const I32Max: int := 0x7fff_ffff

  predicate IsI32(n: int) { I32Min <= n <= I32Max }

  function Abs(n: int): (r: nat)
    ensures r == n || r == -n
  {
    if n < 0 then -n else n
  }

  /** Rust's `/` on integers: rounds toward zero. */
  function TruncDiv(a: int, d: int): (q: int)
    requires d > 0
    ensures Abs(q) * d <= Abs(a) < (Abs(q) + 1) * d
    ensures a >= 0 ==> q >= 0
    ensures a <= 0 ==> q <= 0
  {
    if a >= 0 then a / d else -((-a) / d)
  }

  /** Rust's `%` on integers: takes the sign of the dividend. */
  function TruncRem(a: int, d: int): (r: int)
    requires d > 0
    ensures a == TruncDiv(a, d) * d + r
    ensures Abs(r) < d
    ensures a >= 0 ==> r >= 0
    ensures a <= 0 ==> r <= 0
  {
    if a >= 0 then a % d else -((-a) % d)
  }
}
