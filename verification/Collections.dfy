/** Small vocabulary shared by the other modules. */
module Collections {

  datatype Option<+T> = None | Some(value: T)

  /** The larger of two numbers. */
  function Max(a: int, b: int): int {
    if a < b then b else a
  }

  /** A set that shrinks to a subset does not gain elements. */
  lemma SubsetSize<T>(a: set<T>, b: set<T>)
    requires a <= b
    ensures |a| <= |b|
  {
    assert b == a + (b - a);
  }

  /** Every element of `a` is in one of two sets, so `a` is no larger than both together. */
  lemma UnionSize<T>(a: set<T>, b: set<T>, c: set<T>)
    requires a <= b + c
    ensures |a| <= |b| + |c|
  {
    SubsetSize(a, b + c);
    assert b + c == b + (c - b);
    SubsetSize(c - b, c);
  }

  /** The sequence lists the set, each element once. */
  ghost predicate Enumerates<T(!new)>(xs: seq<T>, s: set<T>) {
    && |xs| == |s|
    && (forall x :: x in s <==> x in xs)
    && (forall i, j :: 0 <= i < j < |xs| ==> xs[i] != xs[j])
  }

  lemma EnumeratesMore<T(!new)>(xs: seq<T>, s: set<T>, x: T)
    requires Enumerates(xs, s) && x !in s
    ensures Enumerates(xs + [x], s + {x})
  {
  }
}
