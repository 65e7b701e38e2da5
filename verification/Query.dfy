/** The canonical resource part of a string to sign: query pairs go through two Go maps,
    are decoded once more, and are then sorted by name and by value. */
module Query {
  import opened Options
  import opened Text
  import opened Sorting
  import opened Visiting

  type Pair = (string, string)

  // The map of value lists a run of pairs builds by appending.
  function Grouped(ps: seq<Pair>): map<string, seq<string>> {
    if ps == [] then map[] else
      var p, m := ps[|ps| - 1], Grouped(ps[..|ps| - 1]);
      m[p.0 := At(m, p.0) + [p.1]]
  }

  // A missing key reads as the empty list.
  function At(m: map<string, seq<string>>, k: string): seq<string> {
    if k in m then m[k] else []
  }

  // url.QueryUnescape, falling back to the text itself.
  function Decoded(unescape: string -> Option<string>, s: string): string {
    match unescape(s)
    case Some(t) => t
    case None => s
  }

  function DecodedPair(unescape: string -> Option<string>, p: Pair): Pair {
    (ToLower(Decoded(unescape, p.0)), Decoded(unescape, p.1))
  }

  // The pairs one entry of the parsed query yields.
  function PairsOf(unescape: string -> Option<string>, e: Field): seq<Pair> {
    seq(|e.1|, i requires 0 <= i < |e.1| => DecodedPair(unescape, (e.0, e.1[i])))
  }

  function Pairs(unescape: string -> Option<string>, es: seq<Field>): seq<Pair> {
    Gather(es, (e: Field) => PairsOf(unescape, e))
  }

  function Keys(es: seq<Field>): seq<string> {
    seq(|es|, i requires 0 <= i < |es| => es[i].0)
  }

  function WrittenParams(names: seq<string>, m: map<string, seq<string>>): string {
    if names == [] then "" else
      "\n" + names[0] + ":" + Join(SortStrings(At(m, names[0])), ",") + WrittenParams(names[1..], m)
  }

  // The text for a map of value lists.
  ghost function ParamText(m: map<string, seq<string>>): string {
    WrittenParams(SortStrings(Keys(Visit(m))), m)
  }

  // The query part for the pairs of a raw query, in the order they were parsed.
  ghost function QueryText(unescape: string -> Option<string>, raw: seq<Pair>): string {
    ParamText(Grouped(Pairs(unescape, Visit(Grouped(raw)))))
  }

  // buildCanonicalizedResource on a parsed query.
  ghost function Resource(unescape: string -> Option<string>, account: string, path: string, raw: seq<Pair>): string {
    "/" + account + (if path == "" then "/" else path) + QueryText(unescape, raw)
  }

  // ---- Grouping ----

  function ValuesOf(k: string): Pair -> seq<string> {
    (p: Pair) => if p.0 == k then [p.1] else []
  }

  lemma {:induction false} GroupedAt(ps: seq<Pair>, k: string)
    ensures At(Grouped(ps), k) == Gather(ps, ValuesOf(k))
    ensures k in Grouped(ps) <==> Gather(ps, ValuesOf(k)) != []
  {
    if ps != [] {
      var init, p := ps[..|ps| - 1], ps[|ps| - 1];
      GroupedAt(init, k);
      assert ps == init + [p];
      GatherConcat(init, [p], ValuesOf(k));
      GatherOne(p, ValuesOf(k));
      hide Gather;
    }
  }

  // What a name maps to depends, up to order, on which pairs there are.
  lemma GroupedPermute(ps: seq<Pair>, qs: seq<Pair>, k: string)
    requires multiset(ps) == multiset(qs)
    ensures k in Grouped(ps) <==> k in Grouped(qs)
    ensures multiset(At(Grouped(ps), k)) == multiset(At(Grouped(qs), k))
  {
    GroupedAt(ps, k);
    GroupedAt(qs, k);
    GatherPermute(ps, qs, ValuesOf(k));
    var a, b := Gather(ps, ValuesOf(k)), Gather(qs, ValuesOf(k));
    assert |multiset(a)| == |a| && |multiset(b)| == |b|;
  }

  // ---- Writing ----

  lemma KeysOfVisit(m: map<string, seq<string>>, es: seq<Field>, k: string)
    requires Visits(m, es)
    ensures multiset(Keys(es))[k] == if k in m then 1 else 0
  {
    var ks := Keys(es);
    forall i, j | 0 <= i < j < |ks| ensures ks[i] != ks[j] {
      assert es[i].0 != es[j].0;
    }
    DistinctCount(ks, k);
    if k in m {
      assert Reached(es, k);
      var i :| 0 <= i < |es| && es[i].0 == k;
      assert ks[i] == k;
    }
  }

  lemma SameNames(m: map<string, seq<string>>, es: seq<Field>, n: map<string, seq<string>>, fs: seq<Field>)
    requires m.Keys == n.Keys && Visits(m, es) && Visits(n, fs)
    ensures SortStrings(Keys(es)) == SortStrings(Keys(fs))
  {
    forall k ensures multiset(Keys(es))[k] == multiset(Keys(fs))[k] {
      KeysOfVisit(m, es, k);
      KeysOfVisit(n, fs, k);
      assert k in m <==> k in n by { assert k in m.Keys <==> k in n.Keys; }
    }
    StringOrder();
    SortCanonical(Keys(es), Keys(fs), Leq);
  }

  lemma {:induction false} WrittenSame(names: seq<string>, m: map<string, seq<string>>, n: map<string, seq<string>>)
    requires forall k :: SortStrings(At(m, k)) == SortStrings(At(n, k))
    ensures WrittenParams(names, m) == WrittenParams(names, n)
  {
    if names != [] {
      WrittenSame(names[1..], m, n);
    }
  }

  /** The same decoded pairs in any order, grouped by a map in any way, give one text. */
  lemma PairOrderIgnored(ps: seq<Pair>, qs: seq<Pair>)
    requires multiset(ps) == multiset(qs)
    ensures ParamText(Grouped(ps)) == ParamText(Grouped(qs))
  {
    var m, n := Grouped(ps), Grouped(qs);
    StringOrder();
    forall k ensures SortStrings(At(m, k)) == SortStrings(At(n, k)) && (k in m <==> k in n) {
      GroupedPermute(ps, qs, k);
      SortCanonical(At(m, k), At(n, k), Leq);
    }
    hide Grouped, At, Leq;
    SameNames(m, Visit(m), n, Visit(n));
    WrittenSame(SortStrings(Keys(Visit(m))), m, n);
  }

  // ---- From the raw pairs ----

  lemma PairsPermute(unescape: string -> Option<string>, es: seq<Field>, fs: seq<Field>)
    requires multiset(es) == multiset(fs)
    ensures multiset(Pairs(unescape, es)) == multiset(Pairs(unescape, fs))
  {
    GatherPermute(es, fs, (e: Field) => PairsOf(unescape, e));
  }

  lemma PairsAnyVisit(unescape: string -> Option<string>, m: map<string, seq<string>>, es: seq<Field>, fs: seq<Field>)
    requires Visits(m, es) && Visits(m, fs)
    ensures multiset(Pairs(unescape, es)) == multiset(Pairs(unescape, fs))
  {
    VisitsPermute(m, es, fs);
    PairsPermute(unescape, es, fs);
  }

  lemma PairsCons(unescape: string -> Option<string>, e: Field, rest: seq<Field>)
    ensures Pairs(unescape, [e] + rest) == PairsOf(unescape, e) + Pairs(unescape, rest)
  {
    assert ([e] + rest)[1..] == rest;
  }

  lemma PairsOfSnoc(unescape: string -> Option<string>, k: string, vs: seq<string>, v: string)
    ensures PairsOf(unescape, (k, vs + [v])) == PairsOf(unescape, (k, vs)) + [DecodedPair(unescape, (k, v))]
  {
  }

  // Visiting a map key first: its values, then the rest.
  lemma PairsSplit(unescape: string -> Option<string>, m: map<string, seq<string>>, k: string, rest: seq<Field>)
    requires Visits(m - {k}, rest)
    ensures multiset(Pairs(unescape, Visit(m))) == multiset(PairsOf(unescape, (k, At(m, k)))) + multiset(Pairs(unescape, rest))
  {
    if k in m {
      VisitMore(m, k, rest);
      PairsAnyVisit(unescape, m, Visit(m), [(k, m[k])] + rest);
      PairsCons(unescape, (k, m[k]), rest);
    } else {
      assert m - {k} == m;
      PairsAnyVisit(unescape, m, Visit(m), rest);
      assert PairsOf(unescape, (k, At(m, k))) == [];
    }
  }

  lemma PairsAppend(unescape: string -> Option<string>, m: map<string, seq<string>>, k: string, v: string)
    ensures multiset(Pairs(unescape, Visit(m[k := At(m, k) + [v]])))
         == multiset(Pairs(unescape, Visit(m))) + multiset{DecodedPair(unescape, (k, v))}
  {
    var n := m[k := At(m, k) + [v]];
    var rest := Visit(m - {k});
    assert n - {k} == m - {k} && At(n, k) == At(m, k) + [v];
    hide Pairs, PairsOf, DecodedPair, At;
    PairsSplit(unescape, m, k, rest);
    PairsSplit(unescape, n, k, rest);
    PairsOfSnoc(unescape, k, At(m, k), v);
  }

  lemma GatherSnoc(raw: seq<Pair>, f: Pair -> seq<Pair>)
    requires raw != []
    ensures var n := |raw| - 1;
      multiset(Gather(raw, f)) == multiset(Gather(raw[..n], f)) + multiset(f(raw[n]))
  {
    var n := |raw| - 1;
    assert raw == raw[..n] + [raw[n]];
    GatherConcat(raw[..n], [raw[n]], f);
    GatherOne(raw[n], f);
    hide Gather;
  }

  // Grouping and visiting lose nothing and repeat nothing.
  lemma {:induction false} GroupingKeepsPairs(unescape: string -> Option<string>, raw: seq<Pair>)
    ensures multiset(Pairs(unescape, Visit(Grouped(raw)))) == multiset(Gather(raw, (p: Pair) => [DecodedPair(unescape, p)]))
  {
    if raw == [] {
      assert Visit(map[]) == [];
    } else {
      var init, p := raw[..|raw| - 1], raw[|raw| - 1];
      assert Grouped(raw) == Grouped(init)[p.0 := At(Grouped(init), p.0) + [p.1]];
      hide Pairs, Gather, DecodedPair, Grouped, Visits, At;
      GroupingKeepsPairs(unescape, init);
      PairsAppend(unescape, Grouped(init), p.0, p.1);
      GatherSnoc(raw, (q: Pair) => [DecodedPair(unescape, q)]);
    }
  }

  lemma NoPairsNoText(unescape: string -> Option<string>)
    ensures QueryText(unescape, []) == ""
  {
    assert Grouped([]) == map[];
    assert Visit(map[]) == [];
    assert Pairs(unescape, []) == [];
    assert SortStrings(Keys([])) == [];
  }

  /** The query part depends only on which pairs the query has, not on their order. */
  lemma QueryOrderIgnored(unescape: string -> Option<string>, raw: seq<Pair>, other: seq<Pair>)
    requires multiset(raw) == multiset(other)
    ensures QueryText(unescape, raw) == QueryText(unescape, other)
  {
    GroupingKeepsPairs(unescape, raw);
    GroupingKeepsPairs(unescape, other);
    GatherPermute(raw, other, (p: Pair) => [DecodedPair(unescape, p)]);
    PairOrderIgnored(Pairs(unescape, Visit(Grouped(raw))), Pairs(unescape, Visit(Grouped(other))));
  }

  // ---- The loops ----

  lemma GroupedSnoc(ps: seq<Pair>, p: Pair)
    ensures Grouped(ps + [p]) == Grouped(ps)[p.0 := At(Grouped(ps), p.0) + [p.1]]
  {
    assert (ps + [p])[..|ps|] == ps;
  }

  lemma AppendOne(unescape: string -> Option<string>, name: string, values: seq<string>, i: nat, done: seq<Pair>)
    requires i < |values|
    ensures var m := Grouped(done + PairsOf(unescape, (name, values[..i])));
      var p := DecodedPair(unescape, (name, values[i]));
      Grouped(done + PairsOf(unescape, (name, values[..i + 1]))) == m[p.0 := At(m, p.0) + [p.1]]
  {
    var before := done + PairsOf(unescape, (name, values[..i]));
    var p := DecodedPair(unescape, (name, values[i]));
    assert values[..i + 1] == values[..i] + [values[i]];
    PairsOfSnoc(unescape, name, values[..i], values[i]);
    assert done + PairsOf(unescape, (name, values[..i + 1])) == before + [p];
    hide PairsOf, Grouped, DecodedPair, At;
    GroupedSnoc(before, p);
  }

  // The inner loop of the grouping.
  method AppendValues(unescape: string -> Option<string>, params: map<string, seq<string>>, name: string,
                      values: seq<string>, ghost done: seq<Pair>) returns (grown: map<string, seq<string>>)
    requires params == Grouped(done)
    ensures grown == Grouped(done + PairsOf(unescape, (name, values)))
  {
    var lower := ToLower(Decoded(unescape, name));
    grown := params;
    assert done + PairsOf(unescape, (name, values[..0])) == done;
    for i := 0 to |values|
      invariant grown == Grouped(done + PairsOf(unescape, (name, values[..i])))
    {
      AppendOne(unescape, name, values, i, done);
      grown := grown[lower := At(grown, lower) + [Decoded(unescape, values[i])]];
    }
    assert values[..|values|] == values;
  }

  method GroupDecoded(unescape: string -> Option<string>, parsed: map<string, seq<string>>)
    returns (params: map<string, seq<string>>)
    ensures exists es :: Visits(parsed, es) && params == Grouped(Pairs(unescape, es))
  {
    params := map[];
    ghost var seen: seq<Field> := [];
    var todo := parsed.Keys;
    while todo != {}
      invariant todo <= parsed.Keys
      invariant Visits(map k | k in parsed && k !in todo :: parsed[k], seen)
      invariant params == Grouped(Pairs(unescape, seen))
    {
      var name :| name in todo;
      ghost var past := map k | k in parsed && k !in todo :: parsed[k];
      todo := todo - {name};
      VisitSnoc(past, name, parsed[name], seen);
      assert (map k | k in parsed && k !in todo :: parsed[k]) == past[name := parsed[name]];
      GatherConcat(seen, [(name, parsed[name])], (e: Field) => PairsOf(unescape, e));
      GatherOne((name, parsed[name]), (e: Field) => PairsOf(unescape, e));
      params := AppendValues(unescape, params, name, parsed[name], Pairs(unescape, seen));
      seen := seen + [(name, parsed[name])];
    }
    assert (map k | k in parsed && k !in todo :: parsed[k]) == parsed;
  }

  lemma WrittenStep(names: seq<string>, m: map<string, seq<string>>, i: nat, text: string)
    requires i < |names|
    ensures var line := "\n" + names[i] + ":" + Join(SortStrings(At(m, names[i])), ",");
            text + WrittenParams(names[i..], m) == (text + line) + WrittenParams(names[i + 1..], m)
  {
    assert names[i..][1..] == names[i + 1..];
    var line, rest := "\n" + names[i] + ":" + Join(SortStrings(At(m, names[i])), ","), WrittenParams(names[i + 1..], m);
    assert WrittenParams(names[i..], m) == line + rest;
    hide WrittenParams, Join, SortStrings, At;
    assert text + (line + rest) == (text + line) + rest;
  }

  method WriteParams(names: seq<string>, m: map<string, seq<string>>) returns (text: string)
    ensures text == WrittenParams(names, m)
  {
    text := "";
    assert names[0..] == names && names[|names|..] == [];
    for i := 0 to |names|
      invariant text + WrittenParams(names[i..], m) == WrittenParams(names, m)
    {
      WrittenStep(names, m, i, text);
      hide WrittenParams, Join, SortStrings, At;
      text := text + ("\n" + names[i] + ":" + Join(SortStrings(At(m, names[i])), ","));
    }
    assert text + "" == text;
  }

  method NamesOf(m: map<string, seq<string>>) returns (names: seq<string>)
    ensures exists es :: Visits(m, es) && names == Keys(es)
  {
    names := [];
    ghost var seen: seq<Field> := [];
    var todo := m.Keys;
    while todo != {}
      invariant todo <= m.Keys && names == Keys(seen)
      invariant Visits(map k | k in m && k !in todo :: m[k], seen)
    {
      var name :| name in todo;
      ghost var past := map k | k in m && k !in todo :: m[k];
      todo := todo - {name};
      VisitSnoc(past, name, m[name], seen);
      assert (map k | k in m && k !in todo :: m[k]) == past[name := m[name]];
      names := names + [name];
      seen := seen + [(name, m[name])];
    }
    assert (map k | k in m && k !in todo :: m[k]) == m;
  }

  /** buildCanonicalizedResource, with ParseQuery's map for the raw pairs: whichever way
      the two maps are walked, the text is the one the pairs determine. */
  method BuildResource(unescape: string -> Option<string>, account: string, path: string, raw: seq<Pair>)
    returns (text: string)
    ensures text == Resource(unescape, account, path, raw)
  {
    var parsed := Grouped(raw);
    var params := GroupDecoded(unescape, parsed);
    ghost var es :| Visits(parsed, es) && params == Grouped(Pairs(unescape, es));
    PairsAnyVisit(unescape, parsed, es, Visit(parsed));
    PairOrderIgnored(Pairs(unescape, es), Pairs(unescape, Visit(parsed)));
    var names := NamesOf(params);
    ghost var fs :| Visits(params, fs) && names == Keys(fs);
    SameNames(params, fs, params, Visit(params));
    var query := WriteParams(SortStrings(names), params);
    text := "/" + account + (if path == "" then "/" else path) + query;
  }
}
