/** Concatenating one piece of text per element, as the message builders do with `+=` in a loop. */
module Texts {
  /** The pieces `f(xs[0]) + f(xs[1]) + ...`, oldest first. */
  function ConcatMap<T>(xs: seq<T>, f: T -> string): string
  {
    if xs == [] then "" else ConcatMap(xs[..|xs| - 1], f) + f(xs[|xs| - 1])
  }

  lemma {:induction false} ConcatMapAppend<T>(a: seq<T>, b: seq<T>, f: T -> string)
    ensures ConcatMap(a + b, f) == ConcatMap(a, f) + ConcatMap(b, f)
  {
    if b == [] {
      assert a + b == a;
    } else {
      var n := |b| - 1;
      assert (a + b)[..|a + b| - 1] == a + b[..n];
      ConcatMapAppend(a, b[..n], f);
    }
  }

  /** The piece of the k-th element stands between the pieces of those before and after it. */
  lemma {:induction false} ConcatMapAt<T>(xs: seq<T>, k: nat, f: T -> string)
    requires k < |xs|
    ensures ConcatMap(xs, f) == ConcatMap(xs[..k], f) + f(xs[k]) + ConcatMap(xs[k + 1..], f)
  {
    var n := |xs| - 1;
    var init := xs[..n];
    if k == n {
      assert init == xs[..k] && xs[k + 1..] == [];
    } else {
      ConcatMapAt(init, k, f);
      assert init[..k] == xs[..k] && init[k] == xs[k];
      var tail := xs[k + 1..];
      assert init[k + 1..] == tail[..|tail| - 1] && tail[|tail| - 1] == xs[n];
      AppendAssoc(ConcatMap(xs[..k], f) + f(xs[k]), ConcatMap(init[k + 1..], f), f(xs[n]));
    }
  }

  /** One more element adds its piece at the end. */
  lemma ConcatMapSnoc<T>(xs: seq<T>, k: nat, f: T -> string)
    requires k < |xs|
    ensures ConcatMap(xs[..k + 1], f) == ConcatMap(xs[..k], f) + f(xs[k])
  {
    assert xs[..k + 1][..k] == xs[..k];
  }

  /** Concatenation of texts is associative. */
  lemma AppendAssoc(x: string, y: string, z: string)
    ensures x + (y + z) == x + y + z
  {
  }
}
