/**
 * The run-length pair of src/models/utils/chunk_utils.rs. A run of 2 to 63 equal bytes is
 * written as a marker byte `count | 64` followed by the byte; any other byte is copied. The
 * decoder reads a byte whose top two bits are 01 as such a marker.
 */
module RunLength {
  import opened Wrappers
  import opened ChunkCodec

  const MaxRun := 63

  /** The marker byte for a run of `count`: the count with bit 6 set. */
  function Marker(count: nat): Byte
    requires count <= MaxRun
  {
    count + 64
  }

  /** The encoder's flagged count, `count | (1 << 6)`, computed on an 8-bit value. */
  method FlagCount(count: nat) returns (m: Byte)
    requires count <= MaxRun
    ensures m == Marker(count)
  {
    SixthBit(count);
    m := ((count as bv8) | 64) as int;
  }

  /** Below 64 the sixth bit is clear, so setting it adds 64. */
  lemma SixthBit(count: nat)
    requires count < 64
    ensures ((count as bv8) | 64) as int == count + 64
  {
  }

  /** The decoder's test `(byte >> 6) == 1`. */
  predicate IsMarker(b: Byte)
  {
    (b as bv8) >> 6 == 1
  }

  lemma IsMarkerRange(b: Byte)
    ensures IsMarker(b) <==> 64 <= b < 128
  {
  }

  /** The length of the run that starts s: equal bytes, capped at 63. */
  function Run(s: seq<Byte>): (n: nat)
    requires s != []
    ensures 1 <= n <= MaxRun && n <= |s|
    decreases |s|
  {
    if |s| > 1 && s[1] == s[0] then
      var m := Run(s[1..]);
      if m < MaxRun then m + 1 else MaxRun
    else 1
  }

  /** The run is made of equal bytes, and ends before the cap only where the next byte differs. */
  lemma {:induction false} RunIsRun(s: seq<Byte>)
    requires s != []
    ensures forall k :: 0 <= k < Run(s) ==> s[k] == s[0]
    ensures Run(s) < MaxRun && Run(s) < |s| ==> s[Run(s)] != s[0]
    decreases |s|
  {
    if |s| > 1 && s[1] == s[0] {
      var t := s[1..];
      RunIsRun(t);
      assert forall k :: 0 <= k < |t| ==> t[k] == s[k + 1];
    }
  }

  /** What `run_length_encode` writes for s. */
  function Encoding(s: seq<Byte>): (e: seq<Byte>)
    ensures |e| <= |s|
    decreases |s|
  {
    if s == [] then []
    else
      var n := Run(s);
      (if n > 1 then [Marker(n)] else []) + [s[0]] + Encoding(s[n..])
  }

  /** What `run_length_decode` reads from e; a marker with nothing after it reads past the end. */
  function Decoding(e: seq<Byte>): (r: Result<seq<Byte>>)
    decreases |e|
  {
    if e == [] then Ok([])
    else if IsMarker(e[0]) then
      var count := e[0] - 64;
      if count > 0 && |e| < 2 then Err(OutOfBounds)
      else
        var rest :- Decoding(if |e| < 2 then [] else e[2..]);
        Ok(seq(count, _ requires |e| >= 2 => e[1]) + rest)
    else
      var rest :- Decoding(e[1..]);
      Ok([e[0]] + rest)
  }

  function Repeat(b: Byte, n: nat): (r: seq<Byte>)
    ensures |r| == n && forall k :: 0 <= k < n ==> r[k] == b
  {
    seq(n, _ => b)
  }

  /** One pass of the encoder: the run at the front, then the rest. */
  lemma EncodingCons(t: seq<Byte>)
    requires t != []
    ensures Encoding(t) == (if Run(t) > 1 then [Marker(Run(t))] else []) + [t[0]] + Encoding(t[Run(t)..])
  {
  }

  lemma Associative(a: seq<Byte>, b: seq<Byte>, c: seq<Byte>)
    ensures a + b + c == a + (b + c)
  {
  }

  /** The run at position i of s, measured in place as the encoder's inner loop does. */
  function RunAt(s: seq<Byte>, i: nat): (n: nat)
    requires i < |s|
    ensures 1 <= n <= MaxRun && i + n <= |s|
    decreases |s| - i
  {
    if i + 1 < |s| && s[i + 1] == s[i] then
      var m := RunAt(s, i + 1);
      if m < MaxRun then m + 1 else MaxRun
    else 1
  }

  /** The run at i is made of copies of s[i], and ends before the cap only where the next byte differs. */
  lemma {:induction false} RunAtFacts(s: seq<Byte>, i: nat)
    requires i < |s|
    ensures forall k :: i <= k < i + RunAt(s, i) ==> s[k] == s[i]
    ensures RunAt(s, i) < MaxRun && i + RunAt(s, i) < |s| ==> s[i + RunAt(s, i)] != s[i]
    decreases |s| - i
  {
    if i + 1 < |s| && s[i + 1] == s[i] {
      RunAtFacts(s, i + 1);
    }
  }

  /** Measured in place or on the suffix, the run at i is the same. */
  lemma {:induction false} RunAtIsRun(s: seq<Byte>, i: nat)
    requires i < |s|
    ensures RunAt(s, i) == Run(s[i..])
    decreases |s| - i
  {
    if i + 1 < |s| && s[i + 1] == s[i] {
      RunAtIsRun(s, i + 1);
      assert s[i..][1..] == s[i + 1..];
    }
  }

  /** What the encoder writes for s from position i on, each run measured in place. */
  function EncodeFrom(s: seq<Byte>, i: nat): (e: seq<Byte>)
    requires i <= |s|
    decreases |s| - i
  {
    if i == |s| then []
    else
      var n := RunAt(s, i);
      (if n > 1 then [Marker(n)] else []) + [s[i]] + EncodeFrom(s, i + n)
  }

  /** Encoding in place from i is the encoding of the suffix from i. */
  lemma {:induction false} EncodeFromIsEncoding(s: seq<Byte>, i: nat)
    requires i <= |s|
    ensures EncodeFrom(s, i) == Encoding(s[i..])
    decreases |s| - i
  {
    if i < |s| {
      var n := RunAt(s, i);
      EncodeFromIsEncoding(s, i + n);
      assert EncodeFrom(s, i + n) == Encoding(s[i + n..]);
      EncodeFromRun(s, i, n);
    } else {
      assert s[i..] == [];
    }
  }

  /** If the encodings agree after the run at i, they agree from i. */
  lemma EncodeFromRun(s: seq<Byte>, i: nat, n: nat)
    requires i < |s| && n == RunAt(s, i) && EncodeFrom(s, i + n) == Encoding(s[i + n..])
    ensures EncodeFrom(s, i) == Encoding(s[i..])
  {
    var head := if n > 1 then [Marker(n)] else [];
    EncodeFromStep(s, i, n, head);
    RunAtIsRun(s, i);
    SuffixOfSuffix(s, i, n);
    EncodingStep(s[i..], n, head, s[i], s[i + n..]);
    SameTail(EncodeFrom(s, i), Encoding(s[i..]), head + [s[i]], EncodeFrom(s, i + n), Encoding(s[i + n..]));
  }

  lemma EncodeFromStep(s: seq<Byte>, i: nat, n: nat, head: seq<Byte>)
    requires i < |s| && n == RunAt(s, i) && head == if n > 1 then [Marker(n)] else []
    ensures EncodeFrom(s, i) == head + [s[i]] + EncodeFrom(s, i + n)
  {
  }

  /** Two sequences made of one prefix and equal tails are equal. */
  lemma SameTail(x: seq<Byte>, y: seq<Byte>, prefix: seq<Byte>, u: seq<Byte>, v: seq<Byte>)
    requires x == prefix + u && y == prefix + v && u == v
    ensures x == y
  {
  }

  lemma SuffixOfSuffix(s: seq<Byte>, i: nat, n: nat)
    requires i + n <= |s|
    ensures s[i..][n..] == s[i + n..]
  {
  }

  /** One pass of the encoder on t, whose first run, of n copies of b, leaves rest. */
  lemma EncodingStep(t: seq<Byte>, n: nat, head: seq<Byte>, b: Byte, rest: seq<Byte>)
    requires t != [] && b == t[0] && n == Run(t) && rest == t[n..]
    requires head == if n > 1 then [Marker(n)] else []
    ensures Encoding(t) == head + [b] + Encoding(rest)
  {
    EncodingCons(t);
  }

  /** `run_length_encode`: the outer loop emits one run per pass; the inner loop measures it. */
  method RunLengthEncode(s: seq<Byte>) returns (result: seq<Byte>)
    ensures result == Encoding(s)
  {
    result := [];
    var length := |s|;
    var i := 0;
    while i < length
      invariant 0 <= i <= length
      invariant result + EncodeFrom(s, i) == EncodeFrom(s, 0)
    {
      result, i := EncodePass(s, result, i);
    }
    EncodeFromIsEncoding(s, 0);
    assert s[0..] == s;
  }

  /** One pass of the outer loop of `run_length_encode`: measure the run at i, then write it. */
  method EncodePass(s: seq<Byte>, result: seq<Byte>, i: nat) returns (result': seq<Byte>, i': nat)
    requires i < |s| && result + EncodeFrom(s, i) == EncodeFrom(s, 0)
    ensures i < i' <= |s| && result' + EncodeFrom(s, i') == EncodeFrom(s, 0)
  {
    var last, count := MeasureRun(s, i);
    var flagged := FlagCount(count);
    var piece := (if count > 1 then [flagged] else []) + [s[last]];
    assert EncodeFrom(s, i) == piece + EncodeFrom(s, last + 1);
    Associative(result, piece, EncodeFrom(s, last + 1));
    result' := result + piece;
    i' := last + 1;
  }

  /** The inner loop of `run_length_encode`: from `start`, step over equal bytes while the run is shorter than 63. */
  method MeasureRun(s: seq<Byte>, start: nat) returns (i: nat, count: nat)
    requires start < |s|
    ensures count == RunAt(s, start) && i == start + count - 1 && s[i] == s[start]
  {
    RunAtFacts(s, start);
    i, count := start, 1;
    while i < |s| - 1 && s[i] == s[i + 1] && count < MaxRun
      invariant start <= i < |s|
      invariant count == i - start + 1 && count <= RunAt(s, start)
      invariant forall k :: start <= k <= i ==> s[k] == s[start]
    {
      count := count + 1;
      i := i + 1;
    }
  }

  /** The input from position i on; the decoder may step past the end by one. */
  function From(e: seq<Byte>, i: nat): seq<Byte>
  {
    if i >= |e| then [] else e[i..]
  }

  /** `prefix` followed by a decoding's output, or its error. */
  function Prepend(prefix: seq<Byte>, r: Result<seq<Byte>>): Result<seq<Byte>>
  {
    match r
    case Ok(rest) => Ok(prefix + rest)
    case Err(f) => Err(f)
  }

  lemma PrependEmpty(r: Result<seq<Byte>>)
    ensures Prepend([], r) == r
  {
    if r.Ok? {
      assert [] + r.value == r.value;
    }
  }

  lemma PrependTwice(a: seq<Byte>, b: seq<Byte>, r: Result<seq<Byte>>)
    ensures Prepend(a, Prepend(b, r)) == Prepend(a + b, r)
  {
    if r.Ok? {
      assert a + (b + r.value) == a + b + r.value;
    }
  }

  /** `run_length_decode`: one marker pair or one copied byte per pass. */
  method RunLengthDecode(e: seq<Byte>) returns (r: Result<seq<Byte>>)
    ensures r == Decoding(e)
  {
    var result: seq<Byte> := [];
    var i := 0;
    assert From(e, 0) == e;
    PrependEmpty(Decoding(e));
    while i < |e|
      invariant Decoding(e) == Prepend(result, Decoding(From(e, i)))
      decreases |e| - i
    {
      var byte := e[i];
      assert From(e, i)[0] == byte;
      if IsMarker(byte) {
        IsMarkerRange(byte);
        var count := byte - 64;
        ghost var before := result;
        ghost var next := if i + 1 < |e| then e[i + 1] else 0;
        for k := 0 to count
          invariant k > 0 ==> i + 1 < |e|
          invariant result == before + Repeat(next, k)
        {
          if i + 1 >= |e| {
            return Err(OutOfBounds);
          }
          result := result + [e[i + 1]];
        }
        MarkerStep(From(e, i), next);
        assert From(e, i + 2) == if |From(e, i)| < 2 then [] else From(e, i)[2..];
        PrependTwice(before, Repeat(next, count), Decoding(From(e, i + 2)));
        i := i + 2;
      } else {
        CopyStep(From(e, i));
        assert From(e, i)[1..] == From(e, i + 1);
        PrependTwice(result, [byte], Decoding(From(e, i + 1)));
        result := result + [byte];
        i := i + 1;
      }
    }
    assert From(e, i) == [];
    assert result + [] == result;
    return Ok(result);
  }

  /** Decoding a marker pair: the run of the byte after the marker, then the rest. */
  lemma MarkerStep(s: seq<Byte>, next: Byte)
    requires s != [] && IsMarker(s[0])
    requires s[0] > 64 ==> |s| >= 2 && s[1] == next
    ensures Decoding(s) == Prepend(Repeat(next, s[0] - 64), Decoding(if |s| < 2 then [] else s[2..]))
  {
    IsMarkerRange(s[0]);
    assert seq(s[0] - 64, _ requires |s| >= 2 => s[1]) == Repeat(next, s[0] - 64);
  }

  /** Decoding a copied byte: the byte, then the rest. */
  lemma CopyStep(s: seq<Byte>)
    requires s != [] && !IsMarker(s[0])
    ensures Decoding(s) == Prepend([s[0]], Decoding(s[1..]))
  {
  }

  lemma DecodeRun(n: nat, b: Byte, rest: seq<Byte>)
    requires 2 <= n <= MaxRun && Decoding(rest).Ok?
    ensures Decoding([Marker(n)] + [b] + rest) == Ok(Repeat(b, n) + Decoding(rest).value)
  {
    var e := [Marker(n)] + [b] + rest;
    IsMarkerRange(e[0]);
    assert e[2..] == rest;
    assert seq(e[0] - 64, _ requires |e| >= 2 => e[1]) == Repeat(b, n);
  }

  lemma DecodeCopy(b: Byte, rest: seq<Byte>)
    requires b < 64 && Decoding(rest).Ok?
    ensures Decoding([b] + rest) == Ok([b] + Decoding(rest).value)
  {
    var e := [b] + rest;
    IsMarkerRange(b);
    assert e[1..] == rest;
  }

  /** A sequence is its first run followed by the rest. */
  lemma RunSplit(s: seq<Byte>)
    requires s != []
    ensures Repeat(s[0], Run(s)) + s[Run(s)..] == s
  {
    RunIsRun(s);
  }

  /** A run of n copies of b written as marker and byte, before the encoding of what follows it, decodes to the whole. */
  lemma RunBack(n: nat, b: Byte, tail: seq<Byte>, rest: seq<Byte>, s: seq<Byte>)
    requires 2 <= n <= MaxRun && Decoding(rest) == Ok(tail) && Repeat(b, n) + tail == s
    ensures Decoding([Marker(n)] + [b] + rest) == Ok(s)
  {
    DecodeRun(n, b, rest);
  }

  /** A single byte below 64 copied before the encoding of what follows it decodes to the whole. */
  lemma CopyBack(b: Byte, tail: seq<Byte>, rest: seq<Byte>, s: seq<Byte>)
    requires b < 64 && Decoding(rest) == Ok(tail) && Repeat(b, 1) + tail == s
    ensures Decoding([b] + rest) == Ok(s)
  {
    DecodeCopy(b, rest);
    assert Repeat(b, 1) == [b];
  }

  /** One step of the round trip: the first run decodes back, given that the rest does. */
  lemma RoundTripStep(s: seq<Byte>)
    requires s != [] && s[0] < 64
    requires Decoding(Encoding(s[Run(s)..])) == Ok(s[Run(s)..])
    ensures Decoding(Encoding(s)) == Ok(s)
  {
    var n := Run(s);
    var tail := s[n..];
    var rest := Encoding(tail);
    EncodingCons(s);
    RunSplit(s);
    if n > 1 {
      RunBack(n, s[0], tail, rest, s);
    } else {
      CopyBack(s[0], tail, rest, s);
    }
  }

  /** Decoding undoes encoding whenever every byte is below 64, so no copied byte looks like a marker. */
  lemma {:induction false} RoundTrip(s: seq<Byte>)
    requires forall k :: 0 <= k < |s| ==> s[k] < 64
    ensures Decoding(Encoding(s)) == Ok(s)
    decreases |s|
  {
    if s != [] {
      var tail := s[Run(s)..];
      assert forall k :: 0 <= k < |tail| ==> tail[k] == s[Run(s) + k];
      RoundTrip(tail);
      RoundTripStep(s);
    }
  }

  /** Every marker the encoder writes lies in 66..127: a run of at least 2 and at most 63. */
  lemma MarkerRange(count: nat)
    requires 2 <= count <= MaxRun
    ensures 66 <= Marker(count) <= 127 && IsMarker(Marker(count))
  {
    IsMarkerRange(Marker(count));
  }

  /** Seven-bit input gives seven-bit output: markers are at most 127 and other bytes are copied. */
  lemma {:induction false} EncodingStaysSevenBit(s: seq<Byte>)
    requires forall k :: 0 <= k < |s| ==> s[k] < 128
    ensures forall k :: 0 <= k < |Encoding(s)| ==> Encoding(s)[k] < 128
    decreases |s|
  {
    if s != [] {
      var n := Run(s);
      var tail := s[n..];
      assert forall k :: 0 <= k < |tail| ==> tail[k] == s[n + k];
      EncodingStaysSevenBit(tail);
      EncodingCons(s);
    }
  }

  /** The unit test's string "122333" encodes as "1B2C3". */
  lemma EncodesTestString()
    ensures Encoding([49, 50, 50, 51, 51, 51]) == [49, 66, 50, 67, 51]
  {
    var s: seq<Byte> := [49, 50, 50, 51, 51, 51];
    assert Run(s) == 1;
    assert s[1..] == [50, 50, 51, 51, 51];
    assert Run(s[1..]) == 2;
    assert s[1..][2..] == [51, 51, 51];
    assert Run([51, 51, 51]) == 3;
  }

  /** A lone byte in 64..127 is copied by the encoder but read back as a marker with no byte after it. */
  lemma HighByteIsMisread()
    ensures Encoding([65]) == [65]
    ensures Decoding([65]) == Err(OutOfBounds)
  {
    assert Run([65]) == 1;
    IsMarkerRange(65);
  }
}
