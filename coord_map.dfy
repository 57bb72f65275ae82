/**
 * The two-level hash map from chunk coordinates to values (models/core/coord_map.rs, and its
 * duplicate models/coord_map.rs, which looks keys up the same way): an outer map keyed by x
 * whose values are inner maps keyed by z. Hash-map iteration order plays no part.
 */
module CoordMaps {
  import opened Wrappers

  /** The entry at (x, z): None when there is no inner map for x or it has no key z. */
  function Lookup<T>(rows: map<int, map<int, T>>, x: int, z: int): Option<T>
  {
    if x in rows && z in rows[x] then Some(rows[x][z]) else None
  }

  /** The rows after storing `value` at (x, z), creating an empty inner map for x first when there is none. */
  function Store<T>(rows: map<int, map<int, T>>, x: int, z: int, value: T): (r: map<int, map<int, T>>)
    ensures Lookup(r, x, z) == Some(value)
    ensures forall x', z' :: x' != x || z' != z ==> Lookup(r, x', z') == Lookup(rows, x', z')
  {
    var inner := if x in rows then rows[x] else map[];
    rows[x := inner[z := value]]
  }

  /** Storing twice at one key keeps only the second value. */
  lemma StoreOverwrites<T>(rows: map<int, map<int, T>>, x: int, z: int, v: T, w: T)
    ensures Store(Store(rows, x, z, v), x, z, w) == Store(rows, x, z, w)
  {
    assert Store(Store(rows, x, z, v), x, z, w)[x] == Store(rows, x, z, w)[x];
  }

  /** Storing at two different keys gives the same rows in either order. */
  lemma StoreCommutes<T>(rows: map<int, map<int, T>>, x: int, z: int, v: T, x': int, z': int, w: T)
    requires (x, z) != (x', z')
    ensures Store(Store(rows, x, z, v), x', z', w) == Store(Store(rows, x', z', w), x, z, v)
  {
    if x == x' {
      assert Store(Store(rows, x, z, v), x', z', w)[x] == Store(Store(rows, x', z', w), x, z, v)[x];
    }
  }

  class CoordMap<T> {
    var rows: map<int, map<int, T>>

    /** `new`: an empty outer map, so no key is present. */
    constructor ()
      ensures rows == map[]
      ensures forall x, z :: Get(x, z) == None
    {
      rows := map[];
    }

    /** `get`: None when no inner map exists for x, else the inner map's entry for z. */
    function Get(x: int, z: int): (r: Option<T>)
      reads this
      ensures r == Lookup(rows, x, z)
    {
      if x !in rows then None
      else if z in rows[x] then Some(rows[x][z])
      else None
    }

    /** `contains`: whether a value is stored at (x, z). */
    function Contains(x: int, z: int): (b: bool)
      reads this
      ensures b <==> Get(x, z).Some?
    {
      x in rows && z in rows[x]
    }

    /** `insert`: starts from an empty inner map for x when none exists, then stores or replaces the value at z. */
    method Insert(x: int, z: int, value: T)
      modifies this
      ensures rows == Store(old(rows), x, z, value)
      ensures Get(x, z) == Some(value) && Contains(x, z)
      ensures forall x', z' :: (x', z') != (x, z) ==> Get(x', z') == old(Get(x', z'))
    {
      var inner := if x in rows then rows[x] else map[];
      rows := rows[x := inner[z := value]];
    }

    /**
     * `get_mut` followed by a write through the reference it returns: None (and no change) when
     * the outer or the inner key is missing, otherwise the entry at (x, z) becomes `value`.
     */
    method WriteThrough(x: int, z: int, value: T) returns (found: bool)
      modifies this
      ensures found <==> old(Contains(x, z))
      ensures found ==> rows == Store(old(rows), x, z, value)
      ensures !found ==> rows == old(rows)
    {
      if x !in rows {
        return false;
      }
      if z !in rows[x] {
        return false;
      }
      rows := rows[x := rows[x][z := value]];
      return true;
    }
  }
}
