/** Going through a Go map: every entry once, in an order the program cannot choose. */
module Visiting {

  type Field = (string, seq<string>)

  ghost predicate Reached(es: seq<Field>, k: string) {
    exists i :: 0 <= i < |es| && es[i].0 == k
  }

  lemma ReachedConcat(es: seq<Field>, fs: seq<Field>, k: string)
    ensures Reached(es + fs, k) <==> Reached(es, k) || Reached(fs, k)
  {
    if Reached(es, k) {
      var i :| 0 <= i < |es| && es[i].0 == k;
      assert (es + fs)[i].0 == k;
    }
    if Reached(fs, k) {
      var i :| 0 <= i < |fs| && fs[i].0 == k;
      assert (es + fs)[|es| + i].0 == k;
    }
  }

  lemma ReachedOne(e: Field)
    ensures Reached([e], e.0)
  {
    assert [e][0].0 == e.0;
  }

  // One complete visit of a map, in some order.
  ghost predicate Visits(m: map<string, seq<string>>, es: seq<Field>) {
    && (forall i :: 0 <= i < |es| ==> es[i].0 in m && es[i].1 == m[es[i].0])
    && (forall k :: k in m ==> Reached(es, k))
    && (forall i, j :: 0 <= i < j < |es| ==> es[i].0 != es[j].0)
  }

  ghost function Visit(m: map<string, seq<string>>): (es: seq<Field>)
    ensures Visits(m, es)
  {
    if m.Keys == {} then [] else
      var k :| k in m.Keys;
      var es := Visit(m - {k});
      assert Visits(m, [(k, m[k])] + es) by { VisitMore(m, k, es); }
      [(k, m[k])] + es
  }

  lemma DistinctNames(k: string, v: seq<string>, es: seq<Field>)
    requires forall i :: 0 <= i < |es| ==> es[i].0 != k
    requires forall i, j :: 0 <= i < j < |es| ==> es[i].0 != es[j].0
    ensures var fs := [(k, v)] + es; forall i, j :: 0 <= i < j < |fs| ==> fs[i].0 != fs[j].0
  {
    var fs := [(k, v)] + es;
    forall i, j | 0 <= i < j < |fs| ensures fs[i].0 != fs[j].0 {
      assert fs[j] == es[j - 1];
      if i > 0 { assert fs[i] == es[i - 1]; }
    }
  }

  lemma VisitMore(m: map<string, seq<string>>, k: string, es: seq<Field>)
    requires k in m && Visits(m - {k}, es)
    ensures Visits(m, [(k, m[k])] + es)
  {
    var fs := [(k, m[k])] + es;
    DistinctNames(k, m[k], es);
    ReachedOne((k, m[k]));
    forall x | x in m ensures Reached(fs, x) {
      ReachedConcat([(k, m[k])], es, x);
      assert x != k ==> x in m - {k};
    }
    hide Reached;
    forall i | 0 <= i < |fs| ensures fs[i].0 in m && fs[i].1 == m[fs[i].0] {
      assert i > 0 ==> fs[i] == es[i - 1];
    }
  }

  lemma VisitSnoc(m: map<string, seq<string>>, k: string, v: seq<string>, es: seq<Field>)
    requires Visits(m, es) && k !in m
    ensures Visits(m[k := v], es + [(k, v)])
  {
    var n, fs := m[k := v], es + [(k, v)];
    assert fs[|es|].0 == k && forall i :: 0 <= i < |es| ==> fs[i] == es[i];
    ReachedOne((k, v));
    forall x | x in n ensures Reached(fs, x) {
      ReachedConcat(es, [(k, v)], x);
    }
    hide Reached;
  }

  lemma {:induction false} DistinctCount<T>(xs: seq<T>, x: T)
    requires forall i, j :: 0 <= i < j < |xs| ==> xs[i] != xs[j]
    ensures multiset(xs)[x] == if x in xs then 1 else 0
  {
    if xs != [] {
      assert xs == [xs[0]] + xs[1..];
      DistinctCount(xs[1..], x);
    }
  }

  lemma VisitFinds(m: map<string, seq<string>>, es: seq<Field>, e: Field)
    requires Visits(m, es)
    ensures e in es <==> e.0 in m && e.1 == m[e.0]
  {
    if e.0 in m && e.1 == m[e.0] {
      assert Reached(es, e.0);
      var i :| 0 <= i < |es| && es[i].0 == e.0;
      assert es[i] == e;
    }
  }

  /** Two visits are the same entries in another order. */
  lemma VisitsPermute(m: map<string, seq<string>>, es: seq<Field>, fs: seq<Field>)
    requires Visits(m, es) && Visits(m, fs)
    ensures multiset(es) == multiset(fs)
  {
    forall e ensures multiset(es)[e] == multiset(fs)[e] {
      DistinctCount(es, e);
      DistinctCount(fs, e);
      VisitFinds(m, es, e);
      VisitFinds(m, fs, e);
    }
  }

  // ---- Collecting from a list ----

  function Gather<A, B>(xs: seq<A>, f: A -> seq<B>): seq<B> {
    if xs == [] then [] else f(xs[0]) + Gather(xs[1..], f)
  }

  lemma {:induction false} GatherConcat<A, B>(xs: seq<A>, ys: seq<A>, f: A -> seq<B>)
    ensures Gather(xs + ys, f) == Gather(xs, f) + Gather(ys, f)
  {
    if xs == [] {
      assert xs + ys == ys;
    } else {
      assert (xs + ys)[1..] == xs[1..] + ys;
      GatherConcat(xs[1..], ys, f);
    }
  }

  lemma GatherOne<A, B>(x: A, f: A -> seq<B>)
    ensures Gather([x], f) == f(x)
  {
    assert [x][1..] == [];
  }

  lemma GatherMiddle<A, B>(xs: seq<A>, a: seq<A>, x: A, b: seq<A>, f: A -> seq<B>)
    requires xs == a + ([x] + b)
    ensures multiset(Gather(xs, f)) == multiset(f(x)) + multiset(Gather(a + b, f))
  {
    GatherConcat(a, [x] + b, f);
    GatherConcat([x], b, f);
    GatherConcat(a, b, f);
    GatherOne(x, f);
    hide Gather;
  }

  lemma Pluck<A>(xs: seq<A>, x: A) returns (a: seq<A>, b: seq<A>)
    requires x in multiset(xs)
    ensures xs == a + ([x] + b) && multiset(a + b) == multiset(xs) - multiset{x}
  {
    var i :| 0 <= i < |xs| && xs[i] == x;
    a, b := xs[..i], xs[i + 1..];
    assert xs == a + ([x] + b);
    assert multiset(xs) == multiset(a) + (multiset{x} + multiset(b));
  }

  lemma RestOf<A>(xs: seq<A>)
    requires xs != []
    ensures xs[0] in multiset(xs) && multiset(xs[1..]) == multiset(xs) - multiset{xs[0]}
  {
    assert xs == [xs[0]] + xs[1..];
  }

  lemma SameEmptiness<A>(xs: seq<A>, ys: seq<A>)
    requires multiset(xs) == multiset(ys)
    ensures xs == [] <==> ys == []
  {
    assert |multiset(xs)| == |xs| && |multiset(ys)| == |ys|;
  }

  /** Collecting from a permuted list collects the same things. */
  lemma {:induction false} GatherPermute<A, B>(xs: seq<A>, ys: seq<A>, f: A -> seq<B>)
    requires multiset(xs) == multiset(ys)
    ensures multiset(Gather(xs, f)) == multiset(Gather(ys, f))
    decreases |xs|
  {
    SameEmptiness(xs, ys);
    if xs != [] {
      RestOf(xs);
      var a, b := Pluck(ys, xs[0]);
      GatherPermute(xs[1..], a + b, f);
      GatherMiddle(ys, a, xs[0], b, f);
    }
  }
}
