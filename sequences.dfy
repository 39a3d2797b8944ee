/** Sequence functions shared by the group updates. */
module Sequences {
  /**
   * Each element of `xs` replaced by the run `f(x, p)`, in order, and the
   * runs joined (built from the back, as the group updates are).
   */
  function FlatMap<T, P, U>(xs: seq<T>, f: (T, P) -> seq<U>, p: P): seq<U>
    decreases |xs|
  {
    if xs == [] then [] else FlatMap(xs[..|xs| - 1], f, p) + f(xs[|xs| - 1], p)
  }

  /** FlatMap of a concatenation is the concatenation of the FlatMaps. */
  lemma {:induction false} FlatMapAppend<T, P, U>(s: seq<T>, t: seq<T>, f: (T, P) -> seq<U>, p: P)
    ensures FlatMap(s + t, f, p) == FlatMap(s, f, p) + FlatMap(t, f, p)
    decreases |t|
  {
    if t == [] {
      assert s + t == s;
    } else {
      var st := s + t;
      FlatMapAppend(s, t[..|t| - 1], f, p);
      assert st[..|st| - 1] == s + t[..|t| - 1];
      assert st[|st| - 1] == t[|t| - 1];
    }
  }
}
