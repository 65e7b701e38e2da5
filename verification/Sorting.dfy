/** sort.Strings and sort.Slice: what matters about them is that the result is a
    sorted permutation, and that over a total order there is only one. */
module Sorting {
  import opened Text

  ghost predicate TotalOrder<T(!new)>(leq: (T, T) -> bool) {
    && (forall a, b :: leq(a, b) || leq(b, a))
    && (forall a, b :: leq(a, b) && leq(b, a) ==> a == b)
    && (forall a, b, c :: leq(a, b) && leq(b, c) ==> leq(a, c))
  }

  ghost predicate Sorted<T>(xs: seq<T>, leq: (T, T) -> bool) {
    forall i, j :: 0 <= i < j < |xs| ==> leq(xs[i], xs[j])
  }

  function Insert<T>(x: T, xs: seq<T>, leq: (T, T) -> bool): seq<T> {
    if xs == [] then [x]
    else if leq(x, xs[0]) then [x] + xs
    else [xs[0]] + Insert(x, xs[1..], leq)
  }

  function Sort<T>(xs: seq<T>, leq: (T, T) -> bool): seq<T> {
    if xs == [] then [] else Insert(xs[0], Sort(xs[1..], leq), leq)
  }

  lemma {:induction false} InsertAdds<T(!new)>(x: T, xs: seq<T>, leq: (T, T) -> bool)
    ensures multiset(Insert(x, xs, leq)) == multiset{x} + multiset(xs)
  {
    if xs != [] {
      assert xs == [xs[0]] + xs[1..];
      if !leq(x, xs[0]) { InsertAdds(x, xs[1..], leq); }
    }
  }

  lemma SortedCons<T(!new)>(x: T, xs: seq<T>, leq: (T, T) -> bool)
    requires Sorted(xs, leq) && forall y :: y in multiset(xs) ==> leq(x, y)
    ensures Sorted([x] + xs, leq)
  {
    assert forall i :: 0 <= i < |xs| ==> xs[i] in multiset(xs);
  }

  lemma {:induction false} InsertSorts<T(!new)>(x: T, xs: seq<T>, leq: (T, T) -> bool)
    requires TotalOrder(leq) && Sorted(xs, leq)
    ensures Sorted(Insert(x, xs, leq), leq)
    ensures multiset(Insert(x, xs, leq)) == multiset{x} + multiset(xs)
  {
    InsertAdds(x, xs, leq);
    if xs != [] && !leq(x, xs[0]) {
      InsertSorts(x, xs[1..], leq);
      forall y | y in multiset(Insert(x, xs[1..], leq)) ensures leq(xs[0], y) {
        assert y == x || y in multiset(xs[1..]);
        assert y == x || exists i :: 1 <= i < |xs| && xs[i] == y;
      }
      SortedCons(xs[0], Insert(x, xs[1..], leq), leq);
    } else if xs != [] {
      assert forall y :: y in multiset(xs) ==> leq(x, y) by {
        assert forall i :: 0 <= i < |xs| ==> leq(xs[0], xs[i]);
      }
      SortedCons(x, xs, leq);
    }
  }

  lemma {:induction false} SortSorts<T(!new)>(xs: seq<T>, leq: (T, T) -> bool)
    requires TotalOrder(leq)
    ensures Sorted(Sort(xs, leq), leq)
    ensures multiset(Sort(xs, leq)) == multiset(xs)
  {
    if xs != [] {
      SortSorts(xs[1..], leq);
      InsertSorts(xs[0], Sort(xs[1..], leq), leq);
      assert xs == [xs[0]] + xs[1..];
    }
  }

  lemma {:induction false} SortedUnique<T(!new)>(xs: seq<T>, ys: seq<T>, leq: (T, T) -> bool)
    requires TotalOrder(leq)
    requires Sorted(xs, leq) && Sorted(ys, leq)
    requires multiset(xs) == multiset(ys)
    ensures xs == ys
  {
    assert |multiset(xs)| == |xs| && |multiset(ys)| == |ys|;
    if xs != [] {
      assert xs[0] in multiset(xs);
      assert ys[0] in multiset(ys);
      assert xs[0] in ys && ys[0] in xs;
      assert leq(xs[0], ys[0]) && leq(ys[0], xs[0]);
      assert xs == [xs[0]] + xs[1..] && ys == [ys[0]] + ys[1..];
      assert multiset(xs[1..]) == multiset(xs) - multiset{xs[0]};
      assert multiset(ys[1..]) == multiset(ys) - multiset{ys[0]};
      SortedUnique(xs[1..], ys[1..], leq);
    }
  }

  /** Whatever order the elements arrive in, sorting ends at the same list. */
  lemma SortCanonical<T(!new)>(xs: seq<T>, ys: seq<T>, leq: (T, T) -> bool)
    requires TotalOrder(leq) && multiset(xs) == multiset(ys)
    ensures Sort(xs, leq) == Sort(ys, leq)
  {
    SortSorts(xs, leq);
    SortSorts(ys, leq);
    SortedUnique(Sort(xs, leq), Sort(ys, leq), leq);
  }

  function SortStrings(xs: seq<string>): seq<string> {
    Sort(xs, Leq)
  }

  lemma StringOrder()
    ensures TotalOrder(Leq)
  {
    forall a, b ensures Leq(a, b) || Leq(b, a) { LeqTotal(a, b); }
    forall a, b | Leq(a, b) && Leq(b, a) ensures a == b { LeqAntisymmetric(a, b); }
    forall a, b, c | Leq(a, b) && Leq(b, c) ensures Leq(a, c) { LeqTransitive(a, b, c); }
  }
}
