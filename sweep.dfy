/**
 * The render-distance sweep shared by the three worlds (src/core/world.rs,
 * models/multiplayer/server_world.rs, models/core/world.rs): x runs over
 * `0..render_distance * 2` shifted to `pcx - r ..= pcx + r - 1`, z likewise inside it, and a
 * coordinate is kept when its distance from the player's chunk is at most r. The float `sqrt`
 * test `sqrt(dx^2 + dz^2) > r` is written as `dx^2 + dz^2 > r^2`.
 */
module Sweeps {
  type Pos = (int, int)

  /** The distance test: kept when dx^2 + dz^2 <= r^2. */
  predicate Visible(pcx: int, pcz: int, r: nat, x: int, z: int)
  {
    (pcx - x) * (pcx - x) + (pcz - z) * (pcz - z) <= r * r
  }

  /** What the sweep keeps at x index xi and z index zi: the coordinate when it is visible. */
  function Cell(pcx: int, pcz: int, r: nat, xi: nat, zi: nat): seq<Pos>
  {
    var x := xi - r + pcx;
    var z := zi - r + pcz;
    if Visible(pcx, pcz, r, x, z) then [(x, z)] else []
  }

  /** What the inner loop keeps for the x index xi after its first n values of z. */
  function SweepRow(pcx: int, pcz: int, r: nat, xi: nat, n: nat): seq<Pos>
  {
    if n == 0 then [] else SweepRow(pcx, pcz, r, xi, n - 1) + Cell(pcx, pcz, r, xi, n - 1)
  }

  /** What the sweep keeps after its first n values of x. */
  function SweepTo(pcx: int, pcz: int, r: nat, n: nat): seq<Pos>
  {
    if n == 0 then [] else SweepTo(pcx, pcz, r, n - 1) + SweepRow(pcx, pcz, r, n - 1, 2 * r)
  }

  /** The whole sweep, in loop order. */
  function Sweep(pcx: int, pcz: int, r: nat): seq<Pos>
  {
    SweepTo(pcx, pcz, r, 2 * r)
  }

  /** Row xi of the sweep holds the visible coordinates with that x and one of the first n values of z. */
  lemma {:induction false} SweepRowMembers(pcx: int, pcz: int, r: nat, xi: nat, n: nat, p: Pos)
    ensures p in SweepRow(pcx, pcz, r, xi, n) <==>
      p.0 == xi - r + pcx && -(r as int) <= p.1 - pcz < n as int - r && Visible(pcx, pcz, r, p.0, p.1)
    decreases n
  {
    if n > 0 {
      SweepRowMembers(pcx, pcz, r, xi, n - 1, p);
    }
  }

  /** The first n rows of the sweep hold the visible coordinates of the square's first n columns. */
  lemma {:induction false} SweepToMembers(pcx: int, pcz: int, r: nat, n: nat, p: Pos)
    ensures p in SweepTo(pcx, pcz, r, n) <==>
      -(r as int) <= p.0 - pcx < n as int - r && -(r as int) <= p.1 - pcz < r && Visible(pcx, pcz, r, p.0, p.1)
    decreases n
  {
    if n > 0 {
      SweepToMembers(pcx, pcz, r, n - 1, p);
      SweepRowMembers(pcx, pcz, r, n - 1, 2 * r, p);
    }
  }

  /** The sweep holds exactly the coordinates of the square `pcx - r ..= pcx + r - 1` by `pcz - r ..= pcz + r - 1` that pass the distance test. */
  lemma SweepMembers(pcx: int, pcz: int, r: nat, p: Pos)
    ensures p in Sweep(pcx, pcz, r) <==>
      pcx - r <= p.0 < pcx + r && pcz - r <= p.1 < pcz + r && Visible(pcx, pcz, r, p.0, p.1)
  {
    SweepToMembers(pcx, pcz, r, 2 * r, p);
  }

  /** Loop order: x first, then z. */
  predicate Before(a: Pos, b: Pos)
  {
    a.0 < b.0 || (a.0 == b.0 && a.1 < b.1)
  }

  predicate Ascending(s: seq<Pos>)
  {
    forall i, j :: 0 <= i < j < |s| ==> Before(s[i], s[j])
  }

  /** Two ascending runs, the first wholly before the second, make one. */
  lemma Concat(a: seq<Pos>, b: seq<Pos>)
    requires Ascending(a) && Ascending(b)
    requires forall i, j :: 0 <= i < |a| && 0 <= j < |b| ==> Before(a[i], b[j])
    ensures Ascending(a + b)
  {
    var s := a + b;
    forall i, j | 0 <= i < j < |s|
      ensures Before(s[i], s[j])
    {
      if j < |a| {
        assert s[i] == a[i] && s[j] == a[j];
      } else if i >= |a| {
        assert s[i] == b[i - |a|] && s[j] == b[j - |a|];
      } else {
        assert s[i] == a[i] && s[j] == b[j - |a|];
      }
    }
  }

  lemma {:induction false} SweepRowAscending(pcx: int, pcz: int, r: nat, xi: nat, n: nat)
    ensures Ascending(SweepRow(pcx, pcz, r, xi, n))
    decreases n
  {
    if n > 0 {
      var prev := SweepRow(pcx, pcz, r, xi, n - 1);
      SweepRowAscending(pcx, pcz, r, xi, n - 1);
      var tail := Cell(pcx, pcz, r, xi, n - 1);
      forall i, j | 0 <= i < |prev| && 0 <= j < |tail|
        ensures Before(prev[i], tail[j])
      {
        SweepRowMembers(pcx, pcz, r, xi, n - 1, prev[i]);
      }
      Concat(prev, tail);
    }
  }

  lemma {:induction false} SweepToAscending(pcx: int, pcz: int, r: nat, n: nat)
    ensures Ascending(SweepTo(pcx, pcz, r, n))
    decreases n
  {
    if n > 0 {
      var prev := SweepTo(pcx, pcz, r, n - 1);
      var row := SweepRow(pcx, pcz, r, n - 1, 2 * r);
      SweepToAscending(pcx, pcz, r, n - 1);
      SweepRowAscending(pcx, pcz, r, n - 1, 2 * r);
      forall i, j | 0 <= i < |prev| && 0 <= j < |row|
        ensures Before(prev[i], row[j])
      {
        SweepToMembers(pcx, pcz, r, n - 1, prev[i]);
        SweepRowMembers(pcx, pcz, r, n - 1, 2 * r, row[j]);
      }
      Concat(prev, row);
    }
  }

  /** The sweep visits coordinates in loop order, so no coordinate twice. */
  lemma SweepDistinct(pcx: int, pcz: int, r: nat)
    ensures Ascending(Sweep(pcx, pcz, r))
    ensures forall i, j :: 0 <= i < j < |Sweep(pcx, pcz, r)| ==> Sweep(pcx, pcz, r)[i] != Sweep(pcx, pcz, r)[j]
  {
    SweepToAscending(pcx, pcz, r, 2 * r);
  }
}
