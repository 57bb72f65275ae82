/**
 * A left fold of a step that may panic over a prefix of a sequence, and what follows about it
 * from facts about one step. `gen_mesh` walks the occupied-block index this way.
 */
module Folds {
  import opened Wrappers

  /** The first k elements of s fed through step from init; the first panic ends the walk. */
  function Fold<S, T>(step: (S, T) -> Result<S>, init: S, s: seq<T>, k: nat): (r: Result<S>)
    requires k <= |s|
    decreases k
  {
    if k == 0 then Ok(init)
    else
      var a :- Fold(step, init, s, k - 1);
      step(a, s[k - 1])
  }

  /** One more element: the step applied to the fold so far, unless that already panicked. */
  lemma FoldNext<S, T>(step: (S, T) -> Result<S>, init: S, s: seq<T>, k: nat)
    requires k < |s|
    ensures Fold(step, init, s, k).Err? ==> Fold(step, init, s, k + 1) == Fold(step, init, s, k)
    ensures Fold(step, init, s, k).Ok? ==> Fold(step, init, s, k + 1) == step(Fold(step, init, s, k).value, s[k])
  {
  }

  /** A panic is final: every longer walk ends in the same panic. */
  lemma {:induction false} FoldFails<S, T>(step: (S, T) -> Result<S>, init: S, s: seq<T>, k: nat, m: nat)
    requires k <= m <= |s| && Fold(step, init, s, k).Err?
    ensures Fold(step, init, s, m) == Fold(step, init, s, k)
    decreases m - k
  {
    if k < m {
      FoldFails(step, init, s, k, m - 1);
    }
  }

  /**
   * When, from every state inv holds of, each step panics exactly on the elements ok rejects and
   * otherwise keeps inv, a walk from a state inv holds of panics exactly when one of them is reached.
   */
  lemma {:induction false} FoldOk<S, T>(step: (S, T) -> Result<S>, init: S, s: seq<T>, k: nat, inv: S -> bool, ok: T -> bool)
    requires k <= |s| && inv(init)
    requires forall a, e :: inv(a) ==> (step(a, e).Ok? <==> ok(e))
    requires forall a, e :: inv(a) && step(a, e).Ok? ==> inv(step(a, e).value)
    ensures Fold(step, init, s, k).Ok? <==> forall j :: 0 <= j < k ==> ok(s[j])
    ensures Fold(step, init, s, k).Ok? ==> inv(Fold(step, init, s, k).value)
    decreases k
  {
    if k > 0 {
      FoldOk(step, init, s, k - 1, inv, ok);
      FoldNext(step, init, s, k - 1);
    }
  }

  /** A property that init has and every successful step keeps holds of the result. */
  lemma {:induction false} FoldKeeps<S, T>(step: (S, T) -> Result<S>, init: S, s: seq<T>, k: nat, inv: S -> bool)
    requires k <= |s| && inv(init)
    requires forall a, e :: inv(a) && step(a, e).Ok? ==> inv(step(a, e).value)
    ensures Fold(step, init, s, k).Ok? ==> inv(Fold(step, init, s, k).value)
    decreases k
  {
    if k > 0 {
      FoldKeeps(step, init, s, k - 1, inv);
      FoldNext(step, init, s, k - 1);
    }
  }

  /** When no successful step grows size by more than d, k steps grow it by at most d * k. */
  lemma {:induction false} FoldGrows<S, T>(step: (S, T) -> Result<S>, init: S, s: seq<T>, k: nat, size: S -> nat, d: nat)
    requires k <= |s|
    requires forall a, e :: step(a, e).Ok? ==> size(step(a, e).value) <= size(a) + d
    ensures Fold(step, init, s, k).Ok? ==> size(Fold(step, init, s, k).value) <= size(init) + d * k
    decreases k
  {
    if k > 0 {
      FoldGrows(step, init, s, k - 1, size, d);
      FoldNext(step, init, s, k - 1);
      assert d * k == d * (k - 1) + d;
    }
  }

  /** Two steps that agree everywhere walk every sequence alike. */
  lemma {:induction false} FoldAgree<S, T>(f: (S, T) -> Result<S>, g: (S, T) -> Result<S>, init: S, s: seq<T>, k: nat)
    requires k <= |s|
    requires forall a, e :: f(a, e) == g(a, e)
    ensures Fold(f, init, s, k) == Fold(g, init, s, k)
    decreases k
  {
    if k > 0 {
      FoldAgree(f, g, init, s, k - 1);
    }
  }
}
