/** What the string to sign tells: where no line feed or separator hides in a part, two
    requests sign to the same string only if every part of them is the same. */
module SignedText {
  import opened Options
  import opened Text
  import opened Sorting
  import opened Visiting
  import opened Whitespace
  import opened Base64
  import opened Canonical
  import opened Query
  import opened SharedKey

  // One line of text.
  predicate Flat(s: string) {
    '\n' !in s
  }

  // ---- Values of x-ms- headers ----

  lemma {:induction false} PassFlat(s: string)
    ensures Flat(Pass(s).0)
  {
    if s != "" { PassFlat(s[..|s| - 1]); }
  }

  lemma {:induction false} StartFlat(s: string)
    requires Flat(s)
    ensures Flat(TrimStart(s))
  {
    if s != "" && Space(s[0]) { StartFlat(s[1..]); }
  }

  // Collapsing removes every line feed.
  lemma CollapseFlat(s: string)
    ensures Flat(Collapse(s))
  {
    PassFlat(s);
    StartFlat(Pass(s).0);
    hide Pass, TrimStart;
  }

  lemma LowerKeeps(s: string)
    ensures Flat(ToLower(s)) <==> Flat(s)
    ensures ':' in ToLower(s) <==> ':' in s
  {
    var t := ToLower(s);
    assert |t| == |s| && forall i :: 0 <= i < |s| ==> t[i] == LowerChar(s[i]);
    if c :| c in s && (c == ':' || c == '\n') {
      var i :| 0 <= i < |s| && s[i] == c;
      assert t[i] == c;
    }
    if ':' in s { var i :| 0 <= i < |s| && s[i] == ':'; assert t[i] == ':'; }
    if '\n' in s { var i :| 0 <= i < |s| && s[i] == '\n'; assert t[i] == '\n'; }
  }

  // ---- Lines ----

  predicate FlatLine(l: Line) {
    Flat(l.0) && Flat(l.1) && ':' !in l.0
  }

  predicate FlatLines(ls: seq<Line>) {
    forall i :: 0 <= i < |ls| ==> FlatLine(ls[i]) && HasPrefix(ls[i].0, "x-ms-")
  }

  function LineTexts(ls: seq<Line>): seq<string> {
    seq(|ls|, i requires 0 <= i < |ls| => ls[i].0 + ":" + ls[i].1)
  }

  lemma FlatConcat(a: string, b: string)
    ensures Flat(a + b) <==> Flat(a) && Flat(b)
  {
  }

  // A line and what follows it.
  lemma OneMore(line: string, rest: string)
    requires Flat(line)
    ensures Split((line + "\n") + rest, '\n') == [line] + Split(rest, '\n')
  {
    assert (line + "\n") + rest == line + ['\n'] + rest;
    SplitConcat(line, '\n', rest);
    SplitAtom(line, '\n');
  }

  lemma {:induction false} WrittenSplits(ls: seq<Line>, rest: string)
    requires FlatLines(ls)
    ensures Split(Written(ls) + rest, '\n') == LineTexts(ls) + Split(rest, '\n')
  {
    hide Split;
    if ls == [] {
      assert Written(ls) + rest == rest;
    } else {
      var line := ls[0].0 + ":" + ls[0].1;
      WrittenSplits(ls[1..], rest);
      assert LineTexts(ls) == [line] + LineTexts(ls[1..]);
      WrittenCons(ls);
      hide Written, LineTexts;
      Regroup(line + "\n", Written(ls[1..]), rest);
      FlatConcat(ls[0].0, ":");
      FlatConcat(ls[0].0 + ":", ls[0].1);
      OneMore(line, Written(ls[1..]) + rest);
    }
  }

  lemma {:induction false} FieldsSplit(fields: seq<string>, rest: string)
    requires forall i :: 0 <= i < |fields| ==> Flat(fields[i])
    ensures Split(FieldLines(fields) + rest, '\n') == fields + Split(rest, '\n')
  {
    hide Split;
    if fields == [] {
      assert FieldLines(fields) + rest == rest;
    } else {
      FieldsSplit(fields[1..], rest);
      assert fields == [fields[0]] + fields[1..];
      assert FieldLines(fields) == (fields[0] + "\n") + FieldLines(fields[1..]);
      hide FieldLines;
      Regroup(fields[0] + "\n", FieldLines(fields[1..]), rest);
      OneMore(fields[0], FieldLines(fields[1..]) + rest);
    }
  }

  // ---- The parts of the text ----

  function Assembled(verb: string, fields: seq<string>, ls: seq<Line>, resource: string): string {
    verb + "\n" + FieldLines(fields) + Written(ls) + resource
  }

  predicate FlatParts(verb: string, fields: seq<string>, ls: seq<Line>, resource: string) {
    && Flat(verb) && (forall i :: 0 <= i < |fields| ==> Flat(fields[i])) && FlatLines(ls)
    && resource != "" && resource[0] == '/'
  }

  lemma AssembledSplits(verb: string, fields: seq<string>, ls: seq<Line>, resource: string)
    requires FlatParts(verb, fields, ls, resource)
    ensures Split(Assembled(verb, fields, ls, resource), '\n') == [verb] + (fields + (LineTexts(ls) + Split(resource, '\n')))
  {
    hide Split, FieldLines, Written, LineTexts;
    var f, w := FieldLines(fields), Written(ls);
    WrittenSplits(ls, resource);
    FieldsSplit(fields, w + resource);
    OneMore(verb, f + (w + resource));
    assert (verb + "\n") + (f + (w + resource)) == verb + "\n" + f + w + resource;
  }

  lemma FirstPiece(s: string)
    requires s != "" && s[0] == '/'
    ensures var first := Split(s, '\n')[0]; first != "" && first[0] == '/'
  {
  }

  // Pieces that begin with 'x' end where one begins with '/'.
  lemma HeadsEnd(a: seq<string>, b: seq<string>, x: seq<string>, y: seq<string>)
    requires a + x == b + y && x != [] && y != []
    requires forall i :: 0 <= i < |a| ==> a[i] != "" && a[i][0] == 'x'
    requires forall i :: 0 <= i < |b| ==> b[i] != "" && b[i][0] == 'x'
    requires x[0] != "" && x[0][0] == '/' && y[0] != "" && y[0][0] == '/'
    ensures a == b && x == y
  {
    var s := a + x;
    assert s[|a|] == x[0] && s[|b|] == (b + y)[|b|] == y[0];
    assert forall i :: 0 <= i < |a| ==> s[i] == a[i];
    assert forall i :: 0 <= i < |b| ==> s[i] == (b + y)[i] == b[i];
    assert (a + x)[..|a|] == a && (b + y)[..|b|] == b;
    assert (a + x)[|a|..] == x && (b + y)[|b|..] == y;
  }

  lemma ColonDivides(a: string, b: string, x: string, y: string)
    requires ':' !in a && ':' !in b && a + ":" + x == b + ":" + y
    ensures a == b && x == y
  {
    SplitConcat(a, ':', x);
    SplitConcat(b, ':', y);
    SplitAtom(a, ':');
    SplitAtom(b, ':');
    assert Split(a + [':'] + x, ':')[0] == a;
    assert Split(b + [':'] + y, ':')[0] == b;
    assert (a + ":" + x)[|a| + 1..] == x && (b + ":" + y)[|b| + 1..] == y;
  }

  lemma LineTextsTell(ls: seq<Line>, ms: seq<Line>)
    requires FlatLines(ls) && FlatLines(ms) && LineTexts(ls) == LineTexts(ms)
    ensures ls == ms
  {
    assert |LineTexts(ls)| == |ls| && |LineTexts(ms)| == |ms|;
    forall i | 0 <= i < |ls| ensures ls[i] == ms[i] {
      assert LineTexts(ls)[i] == LineTexts(ms)[i];
      ColonDivides(ls[i].0, ms[i].0, ls[i].1, ms[i].1);
    }
  }

  lemma LinesBeginWithX(ls: seq<Line>)
    requires FlatLines(ls)
    ensures forall i :: 0 <= i < |LineTexts(ls)| ==> LineTexts(ls)[i] != "" && LineTexts(ls)[i][0] == 'x'
  {
    forall i | 0 <= i < |ls| ensures LineTexts(ls)[i] != "" && LineTexts(ls)[i][0] == 'x' {
      assert ls[i].0[..5] == "x-ms-";
      assert ls[i].0[0] == "x-ms-"[0];
    }
  }

  /** The parts can be read off the text. */
  lemma PartsTell(v: string, f: seq<string>, ls: seq<Line>, r: string, v': string, f': seq<string>, ls': seq<Line>, r': string)
    requires FlatParts(v, f, ls, r) && FlatParts(v', f', ls', r') && |f| == |f'|
    requires Assembled(v, f, ls, r) == Assembled(v', f', ls', r')
    ensures v == v' && f == f' && ls == ls' && r == r'
  {
    AssembledSplits(v, f, ls, r);
    AssembledSplits(v', f', ls', r');
    var a, b, x, y := LineTexts(ls), LineTexts(ls'), Split(r, '\n'), Split(r', '\n');
    FirstPiece(r);
    FirstPiece(r');
    LinesBeginWithX(ls);
    LinesBeginWithX(ls');
    JoinSplit(r, '\n');
    JoinSplit(r', '\n');
    hide Split, LineTexts, Assembled, Join, FlatLines;
    Unstack(v, f, a + x, v', f', b + y);
    HeadsEnd(a, b, x, y);
    LineTextsTell(ls, ls');
  }

  lemma Unstack(v: string, f: seq<string>, x: seq<string>, v': string, f': seq<string>, x': seq<string>)
    requires [v] + (f + x) == [v'] + (f' + x') && |f| == |f'|
    ensures v == v' && f == f' && x == x'
  {
    var t, t' := [v] + (f + x), [v'] + (f' + x');
    assert t[0] == v && t'[0] == v' && t[1..] == f + x && t'[1..] == f' + x';
    assert (f + x)[..|f|] == f && (f' + x')[..|f'|] == f';
    assert (f + x)[|f|..] == x && (f' + x')[|f'|..] == x';
  }

  // ---- x-ms- headers ----

  predicate Xms(name: string) {
    HasPrefix(ToLower(name), "x-ms-")
  }

  // What net/http lets through as the name of a header: no separator in it.
  ghost predicate PlainNames(h: Header) {
    forall name :: name in h && Xms(name) ==> Flat(name) && ':' !in name
  }

  // The x-ms- headers of h that read, in lower case and with white space collapsed, as line.
  ghost function Senders(h: Header, line: Line): set<string> {
    set name | name in h && Xms(name) && line == (ToLower(name), Collapse(Join(h[name], ",")))
  }

  lemma {:induction false} SendersCount(h: Header, line: Line)
    ensures XmsLines(h)[line] == |Senders(h, line)|
    decreases |h|
  {
    if h.Keys == {} {
      assert h == map[] && Visit(h) == [] && Senders(h, line) == {};
    } else {
      var k :| k in h.Keys;
      var rest, e := h - {k}, (k, h[k]);
      assert |rest.Keys| < |h.Keys| by { assert rest.Keys == h.Keys - {k}; }
      SendersCount(rest, line);
      VisitMore(h, k, Visit(rest));
      VisitsPermute(h, Visit(h), [e] + Visit(rest));
      GatherPermute(Visit(h), [e] + Visit(rest), LinesOf);
      assert ([e] + Visit(rest))[1..] == Visit(rest);
      assert Gather([e] + Visit(rest), LinesOf) == LinesOf(e) + Gather(Visit(rest), LinesOf);
      SendersMore(h, k, line);
      hide Gather, Senders;
    }
  }

  lemma SendersMore(h: Header, k: string, line: Line)
    requires k in h
    ensures |Senders(h, line)| == |Senders(h - {k}, line)| + multiset(LinesOf((k, h[k])))[line]
  {
    hide Collapse, ToLower, HasPrefix, Join;
    var own := if Xms(k) && line == (ToLower(k), Collapse(Join(h[k], ","))) then {k} else {};
    assert Senders(h, line) == Senders(h - {k}, line) + own;
    assert k !in Senders(h - {k}, line);
    assert multiset(LinesOf((k, h[k])))[line] == |own|;
    hide Senders;
  }

  lemma {:induction false} GatheredFlat(es: seq<Field>)
    requires forall i :: 0 <= i < |es| && Xms(es[i].0) ==> Flat(es[i].0) && ':' !in es[i].0
    ensures FlatLines(Gather(es, LinesOf))
  {
    if es != [] {
      GatheredFlat(es[1..]);
      LowerKeeps(es[0].0);
      CollapseFlat(Join(es[0].1, ","));
      hide Collapse, ToLower, Join;
    }
  }

  lemma SortedFlat(ls: seq<Line>)
    requires FlatLines(ls)
    ensures FlatLines(Sort(ls, LineLeq)) && multiset(Sort(ls, LineLeq)) == multiset(ls)
  {
    LineOrder();
    SortSorts(ls, LineLeq);
    var sorted := Sort(ls, LineLeq);
    hide LineLeq, TotalOrder, FlatLine, HasPrefix, Sort;
    forall i | 0 <= i < |sorted| ensures FlatLine(sorted[i]) && HasPrefix(sorted[i].0, "x-ms-") {
      assert sorted[i] in multiset(sorted);
      assert sorted[i] in ls;
    }
  }

  // The lines of a header map, as they are written.
  ghost function SortedLines(h: Header): seq<Line> {
    Sort(Gather(Visit(h), LinesOf), LineLeq)
  }

  lemma HeaderLines(h: Header)
    requires PlainNames(h)
    ensures HeadersOf(h) == Written(SortedLines(h)) && FlatLines(SortedLines(h)) && multiset(SortedLines(h)) == XmsLines(h)
  {
    GatheredFlat(Visit(h));
    SortedFlat(Gather(Visit(h), LinesOf));
    hide Written, FlatLines, Sort, Gather;
  }

  // ---- The query ----

  // The pairs of a query as they are meant: decoded once more where that works, names in lower case.
  ghost function Meant(unescape: string -> Option<string>, p: Pair): Pair {
    var name, value := unescape(p.0), unescape(p.1);
    (ToLower(if name.Some? then name.value else p.0), if value.Some? then value.value else p.1)
  }

  ghost function MeantPairs(unescape: string -> Option<string>, raw: seq<Pair>): seq<Pair> {
    seq(|raw|, i requires 0 <= i < |raw| => Meant(unescape, raw[i]))
  }

  // No separator of the text in a name or a value.
  predicate PlainPair(p: Pair) {
    Flat(p.0) && ':' !in p.0 && Flat(p.1) && ',' !in p.1
  }

  ghost predicate PlainPairs(ps: seq<Pair>) {
    forall i :: 0 <= i < |ps| ==> PlainPair(ps[i])
  }

  lemma {:induction false} MeantIsGathered(unescape: string -> Option<string>, raw: seq<Pair>)
    ensures MeantPairs(unescape, raw) == Gather(raw, (p: Pair) => [DecodedPair(unescape, p)])
  {
    if raw != [] {
      MeantIsGathered(unescape, raw[1..]);
      assert MeantPairs(unescape, raw) == [Meant(unescape, raw[0])] + MeantPairs(unescape, raw[1..]);
      assert Meant(unescape, raw[0]) == DecodedPair(unescape, raw[0]);
      hide MeantPairs, Meant, DecodedPair;
    }
  }

  // The text depends on the pairs as they are meant, in any order.
  lemma QueryIsMeant(unescape: string -> Option<string>, raw: seq<Pair>)
    ensures QueryText(unescape, raw) == ParamText(Grouped(MeantPairs(unescape, raw)))
  {
    MeantIsGathered(unescape, raw);
    GroupingKeepsPairs(unescape, raw);
    hide ParamText, Grouped, MeantPairs, Pairs;
    PairOrderIgnored(Pairs(unescape, Visit(Grouped(raw))), MeantPairs(unescape, raw));
  }

  function ParamLine(m: map<string, seq<string>>, name: string): string {
    name + ":" + Join(SortStrings(At(m, name)), ",")
  }

  function ParamLines(names: seq<string>, m: map<string, seq<string>>): seq<string> {
    seq(|names|, i requires 0 <= i < |names| => ParamLine(m, names[i]))
  }

  lemma ParamsCons(names: seq<string>, m: map<string, seq<string>>)
    requires names != []
    ensures WrittenParams(names, m) == "\n" + ParamLine(m, names[0]) + WrittenParams(names[1..], m)
    ensures ParamLines(names, m) == [ParamLine(m, names[0])] + ParamLines(names[1..], m)
  {
    assert "\n" + names[0] + ":" + Join(SortStrings(At(m, names[0])), ",") == "\n" + ParamLine(m, names[0]);
    hide Join, SortStrings, At;
  }

  lemma {:induction false} ParamsSplit(head: string, names: seq<string>, m: map<string, seq<string>>)
    requires Flat(head) && forall i :: 0 <= i < |names| ==> Flat(ParamLine(m, names[i]))
    ensures Split(head + WrittenParams(names, m), '\n') == [head] + ParamLines(names, m)
    decreases |names|
  {
    if names == [] {
      assert head + WrittenParams(names, m) == head;
      SplitAtom(head, '\n');
    } else {
      var line, rest := ParamLine(m, names[0]), WrittenParams(names[1..], m);
      ParamsSplit(line, names[1..], m);
      ParamsCons(names, m);
      hide Split, ParamLine, ParamLines, WrittenParams;
      assert head + ("\n" + line + rest) == (head + "\n") + (line + rest);
      OneMore(head, line + rest);
    }
  }

  lemma {:induction false} JoinFlat(xs: seq<string>)
    requires forall i :: 0 <= i < |xs| ==> Flat(xs[i])
    ensures Flat(Join(xs, ","))
  {
    if |xs| > 1 { JoinFlat(xs[1..]); }
  }

  lemma {:induction false} ValueCount(ps: seq<Pair>, k: string, v: string)
    ensures multiset(Gather(ps, ValuesOf(k)))[v] == multiset(ps)[(k, v)]
  {
    if ps != [] {
      ValueCount(ps[1..], k, v);
      RestOf(ps);
      assert Gather(ps, ValuesOf(k)) == (if ps[0].0 == k then [ps[0].1] else []) + Gather(ps[1..], ValuesOf(k));
      hide Gather;
    }
  }

  predicate PlainValues(vs: seq<string>) {
    forall i :: 0 <= i < |vs| ==> Flat(vs[i]) && ',' !in vs[i]
  }

  lemma {:induction false} GatheredValues(ps: seq<Pair>, k: string)
    requires PlainPairs(ps)
    ensures PlainValues(Gather(ps, ValuesOf(k)))
    ensures Gather(ps, ValuesOf(k)) != [] ==> Flat(k) && ':' !in k
  {
    if ps != [] {
      assert PlainPair(ps[0]) && PlainPairs(ps[1..]);
      GatheredValues(ps[1..], k);
    }
  }

  lemma SortedValues(vs: seq<string>)
    requires PlainValues(vs)
    ensures var s := SortStrings(vs); PlainValues(s) && multiset(s) == multiset(vs) && (s == [] <==> vs == [])
  {
    StringOrder();
    SortSorts(vs, Leq);
    var s := SortStrings(vs);
    SameEmptiness(s, vs);
    hide SortStrings, Leq, Flat;
    forall i | 0 <= i < |s| ensures Flat(s[i]) && ',' !in s[i] {
      assert s[i] in multiset(s);
      assert s[i] in vs;
    }
  }

  // What is written for a name of plain pairs.
  lemma NameWritten(ps: seq<Pair>, k: string)
    requires PlainPairs(ps)
    ensures var m := Grouped(ps);
      && (k in m <==> At(m, k) != []) && PlainValues(SortStrings(At(m, k)))
      && multiset(SortStrings(At(m, k))) == multiset(At(m, k))
      && (k in m ==> Flat(k) && ':' !in k && Flat(ParamLine(m, k)) && SortStrings(At(m, k)) != [])
  {
    GroupedAt(ps, k);
    GatheredValues(ps, k);
    SortedValues(At(Grouped(ps), k));
    JoinFlat(SortStrings(At(Grouped(ps), k)));
    hide Grouped, Gather, SortStrings, Join;
    FlatConcat(k, ":");
    FlatConcat(k + ":", Join(SortStrings(At(Grouped(ps), k)), ","));
  }

  ghost function SortedNames(m: map<string, seq<string>>): seq<string> {
    SortStrings(Query.Keys(Visit(m)))
  }

  lemma SortedNamesAre(m: map<string, seq<string>>, k: string)
    ensures k in SortedNames(m) <==> k in m
  {
    var ks := Query.Keys(Visit(m));
    KeysOfVisit(m, Visit(m), k);
    StringOrder();
    SortSorts(ks, Leq);
    assert k in SortedNames(m) <==> k in multiset(SortedNames(m));
    hide Query.Keys, Leq;
  }

  // Two lists of values written the same have the same values.
  lemma ValuesTell(vs: seq<string>, us: seq<string>)
    requires PlainValues(vs) && PlainValues(us) && vs != [] && us != [] && Join(vs, ",") == Join(us, ",")
    ensures vs == us
  {
    SplitJoin(vs, ',');
    SplitJoin(us, ',');
  }

  lemma LineTells(ps: seq<Pair>, qs: seq<Pair>, k: string, l: string)
    requires PlainPairs(ps) && PlainPairs(qs) && k in Grouped(ps) && l in Grouped(qs)
    requires ParamLine(Grouped(ps), k) == ParamLine(Grouped(qs), l)
    ensures k == l && multiset(At(Grouped(ps), k)) == multiset(At(Grouped(qs), k))
  {
    NameWritten(ps, k);
    NameWritten(qs, l);
    var vs, us := SortStrings(At(Grouped(ps), k)), SortStrings(At(Grouped(qs), l));
    hide Grouped, At, SortStrings, PlainValues;
    ColonDivides(k, l, Join(vs, ","), Join(us, ","));
    ValuesTell(vs, us);
  }

  lemma LinesTell(ps: seq<Pair>, qs: seq<Pair>, k: string)
    requires PlainPairs(ps) && PlainPairs(qs)
    requires ParamLines(SortedNames(Grouped(ps)), Grouped(ps)) == ParamLines(SortedNames(Grouped(qs)), Grouped(qs))
    ensures k in Grouped(ps) ==> k in Grouped(qs) && multiset(At(Grouped(ps), k)) == multiset(At(Grouped(qs), k))
  {
    var m, n := Grouped(ps), Grouped(qs);
    var a, b := SortedNames(m), SortedNames(n);
    SortedNamesAre(m, k);
    if k in m {
      var i :| 0 <= i < |a| && a[i] == k;
      assert |ParamLines(a, m)| == |a| && |ParamLines(b, n)| == |b|;
      assert ParamLines(a, m)[i] == ParamLine(m, a[i]) && ParamLines(b, n)[i] == ParamLine(n, b[i]);
      SortedNamesAre(n, b[i]);
      hide Grouped, SortedNames, ParamLine, ParamLines, At, PlainPairs;
      LineTells(ps, qs, k, b[i]);
    }
  }

  /** With no separator in a name or value the query's text tells its pairs. */
  lemma PairsTell(head: string, head': string, ps: seq<Pair>, qs: seq<Pair>)
    requires Flat(head) && Flat(head') && PlainPairs(ps) && PlainPairs(qs)
    requires head + ParamText(Grouped(ps)) == head' + ParamText(Grouped(qs))
    ensures head == head' && multiset(ps) == multiset(qs)
  {
    var m, n := Grouped(ps), Grouped(qs);
    forall i | 0 <= i < |SortedNames(m)| ensures Flat(ParamLine(m, SortedNames(m)[i])) {
      SortedNamesAre(m, SortedNames(m)[i]);
      NameWritten(ps, SortedNames(m)[i]);
    }
    forall i | 0 <= i < |SortedNames(n)| ensures Flat(ParamLine(n, SortedNames(n)[i])) {
      SortedNamesAre(n, SortedNames(n)[i]);
      NameWritten(qs, SortedNames(n)[i]);
    }
    hide Grouped, ParamLine, ParamLines, WrittenParams, Split, PlainPairs, At;
    ParamsSplit(head, SortedNames(m), m);
    ParamsSplit(head', SortedNames(n), n);
    assert ([head] + ParamLines(SortedNames(m), m))[1..] == ParamLines(SortedNames(m), m);
    assert ([head'] + ParamLines(SortedNames(n), n))[1..] == ParamLines(SortedNames(n), n);
    assert ([head] + ParamLines(SortedNames(m), m))[0] == head && ([head'] + ParamLines(SortedNames(n), n))[0] == head';
    hide SortedNames, Visit;
    CountsTell(ps, qs);
  }

  lemma CountsTell(ps: seq<Pair>, qs: seq<Pair>)
    requires PlainPairs(ps) && PlainPairs(qs)
    requires ParamLines(SortedNames(Grouped(ps)), Grouped(ps)) == ParamLines(SortedNames(Grouped(qs)), Grouped(qs))
    ensures multiset(ps) == multiset(qs)
  {
    forall p: Pair ensures multiset(ps)[p] == multiset(qs)[p] {
      LinesTell(ps, qs, p.0);
      LinesTell(qs, ps, p.0);
      ValueCount(ps, p.0, p.1);
      ValueCount(qs, p.0, p.1);
      GroupedAt(ps, p.0);
      GroupedAt(qs, p.0);
      hide Grouped, Gather, SortedNames, ParamLines, PlainPairs;
    }
  }

  // ---- Whole requests ----

  // The date that is signed: none where X-Ms-Date takes its place.
  function SignedDate(h: Header): string {
    if Get(h, "X-Ms-Date") == "" then Get(h, "Date") else ""
  }

  // The length that is signed: none for an empty body.
  function SignedLength(h: Header): string {
    if Get(h, "Content-Length") == "0" then "" else Get(h, "Content-Length")
  }

  predicate SameIn(h: Header, g: Header, name: string) {
    Get(h, name) == Get(g, name)
  }

  ghost predicate SameStandard(h: Header, g: Header, lite: bool) {
    && SameIn(h, g, "Content-Md5") && SameIn(h, g, "Content-Type") && SignedDate(h) == SignedDate(g)
    && (lite || (&& SameIn(h, g, "Content-Encoding") && SameIn(h, g, "Content-Language") && SignedLength(h) == SignedLength(g)
                 && SameIn(h, g, "If-Modified-Since") && SameIn(h, g, "If-Match") && SameIn(h, g, "If-None-Match")
                 && SameIn(h, g, "If-Unmodified-Since") && SameIn(h, g, "Range")))
  }

  lemma FieldsTell(h: Header, g: Header, lite: bool)
    ensures Fields(h, lite) == Fields(g, lite) <==> SameStandard(h, g, lite)
  {
    hide Get;
    var a, b := Fields(h, lite), Fields(g, lite);
    if lite {
      assert a == b <==> a[0] == b[0] && a[1] == b[1] && a[2] == b[2];
    } else {
      assert a == b <==> (a[0] == b[0] && a[1] == b[1] && a[2] == b[2] && a[3] == b[3] && a[4] == b[4] && a[5] == b[5]
                          && a[6] == b[6] && a[7] == b[7] && a[8] == b[8] && a[9] == b[9] && a[10] == b[10]);
    }
  }

  // The pairs of a request's query, as they are meant.
  ghost function MeantOf(lib: Library, r: Req): seq<Pair> {
    if RawPairs(lib, r.raw).Some? then MeantPairs(lib.unescape, RawPairs(lib, r.raw).value) else []
  }

  // What net/http and net/url let through, and no separator in a decoded query.
  ghost predicate PlainRequest(lib: Library, r: Req) {
    && Flat(r.verb) && Flat(r.path) && PlainNames(r.headers)
    && (forall n :: n in r.headers && r.headers[n] != [] ==> Flat(r.headers[n][0]))
    && RawPairs(lib, r.raw).Some? && PlainPairs(MeantOf(lib, r))
  }

  // The same in everything the signature is about.
  ghost predicate Alike(lib: Library, r: Req, s: Req, lite: bool) {
    && ToUpper(r.verb) == ToUpper(s.verb)
    && SameStandard(r.headers, s.headers, lite)
    && (forall line :: |Senders(r.headers, line)| == |Senders(s.headers, line)|)
    && (if r.path == "" then "/" else r.path) == (if s.path == "" then "/" else s.path)
    && RawPairs(lib, r.raw).Some? && RawPairs(lib, s.raw).Some?
    && multiset(MeantOf(lib, r)) == multiset(MeantOf(lib, s))
  }

  lemma UpperFlat(s: string)
    requires Flat(s)
    ensures Flat(ToUpper(s))
  {
    var t := ToUpper(s);
    assert |t| == |s| && forall i :: 0 <= i < |s| ==> t[i] == UpperChar(s[i]);
  }

  lemma GetFlat(h: Header, name: string)
    requires forall n :: n in h && h[n] != [] ==> Flat(h[n][0])
    ensures Flat(Get(h, name))
  {
  }

  lemma FieldsFlat(h: Header, lite: bool)
    requires forall n :: n in h && h[n] != [] ==> Flat(h[n][0])
    ensures forall i :: 0 <= i < |Fields(h, lite)| ==> Flat(Fields(h, lite)[i])
    ensures |Fields(h, lite)| == if lite then 3 else 11
  {
    forall n ensures Flat(Get(h, n)) { GetFlat(h, n); }
    assert Flat("");
    hide Get, Flat;
  }

  function ResourceHead(account: string, path: string): string {
    "/" + account + (if path == "" then "/" else path)
  }

  lemma ResourceOf(lib: Library, r: Req, account: string)
    requires RawPairs(lib, r.raw).Some?
    ensures ResourcePart(lib, r, account) == Some(ResourceHead(account, r.path) + ParamText(Grouped(MeantOf(lib, r))))
  {
    ResourceIs(lib, r, account);
    QueryIsMeant(lib.unescape, RawPairs(lib, r.raw).value);
    hide MeantPairs, ParamText, Grouped, RawPairs, ResourcePart;
  }

  // The text of a request, taken apart.
  lemma TextOf(lib: Library, r: Req, account: string, lite: bool)
    requires RawPairs(lib, r.raw).Some? && PlainNames(r.headers)
    ensures var resource := ResourceHead(account, r.path) + ParamText(Grouped(MeantOf(lib, r)));
      StringToSign(lib, r, account, lite) == Some(Assembled(ToUpper(r.verb), Fields(r.headers, lite), SortedLines(r.headers), resource))
  {
    HeaderLines(r.headers);
    ResourceOf(lib, r, account);
    hide ToUpper, Fields, FieldLines, Written, SortedLines, HeadersOf, MeantOf, ParamText, Grouped, RawPairs, PlainNames, FlatLines,
      ResourcePart, ResourceHead, XmsLines;
  }

  lemma PartsFlat(lib: Library, r: Req, account: string, lite: bool)
    requires PlainRequest(lib, r)
    ensures var resource := ResourceHead(account, r.path) + ParamText(Grouped(MeantOf(lib, r)));
      FlatParts(ToUpper(r.verb), Fields(r.headers, lite), SortedLines(r.headers), resource)
  {
    UpperFlat(r.verb);
    FieldsFlat(r.headers, lite);
    HeaderLines(r.headers);
    hide ToUpper, Fields, SortedLines, HeadersOf, MeantOf, ParamText, Grouped, RawPairs, PlainNames, FlatLines, XmsLines, Written;
    var head, text := ResourceHead(account, r.path), ParamText(Grouped(MeantOf(lib, r)));
    assert (head + text)[0] == '/';
  }

  lemma XmsSame(h: Header, g: Header)
    ensures XmsLines(h) == XmsLines(g) <==> forall line :: |Senders(h, line)| == |Senders(g, line)|
  {
    forall line ensures XmsLines(h)[line] == |Senders(h, line)| && XmsLines(g)[line] == |Senders(g, line)| {
      SendersCount(h, line);
      SendersCount(g, line);
    }
    hide XmsLines, Senders;
  }

  lemma SameLinesIff(h: Header, g: Header)
    requires PlainNames(h) && PlainNames(g)
    ensures SortedLines(h) == SortedLines(g) <==> forall line :: |Senders(h, line)| == |Senders(g, line)|
  {
    XmsSame(h, g);
    HeaderLines(h);
    HeaderLines(g);
    LineOrder();
    hide Senders, PlainNames, LineLeq, TotalOrder, HeadersOf;
    if XmsLines(h) == XmsLines(g) {
      SortCanonical(Gather(Visit(h), LinesOf), Gather(Visit(g), LinesOf), LineLeq);
    }
  }

  /** Two requests have the same string to sign if and only if they are alike in verb, signed
      standard headers, path, x-ms- headers with their values, and query pairs. */
  lemma SameTextIff(lib: Library, r: Req, s: Req, account: string, lite: bool)
    requires PlainRequest(lib, r) && PlainRequest(lib, s) && Flat(account)
    ensures StringToSign(lib, r, account, lite) == StringToSign(lib, s, account, lite) <==> Alike(lib, r, s, lite)
  {
    TextOf(lib, r, account, lite);
    TextOf(lib, s, account, lite);
    PartsFlat(lib, r, account, lite);
    PartsFlat(lib, s, account, lite);
    SameLinesIff(r.headers, s.headers);
    FieldsTell(r.headers, s.headers, lite);
    FieldsFlat(r.headers, lite);
    FieldsFlat(s.headers, lite);
    var ps, qs := MeantOf(lib, r), MeantOf(lib, s);
    var head, head' := ResourceHead(account, r.path), ResourceHead(account, s.path);
    HeadsFlat(account, r.path);
    HeadsFlat(account, s.path);
    HeadsTell(account, r.path, s.path);
    assert PlainPairs(ps) && PlainPairs(qs);
    hide *;
    if StringToSign(lib, r, account, lite) == StringToSign(lib, s, account, lite) {
      PartsTell(ToUpper(r.verb), Fields(r.headers, lite), SortedLines(r.headers), head + ParamText(Grouped(ps)),
                ToUpper(s.verb), Fields(s.headers, lite), SortedLines(s.headers), head' + ParamText(Grouped(qs)));
      PairsTell(head, head', ps, qs);
      AlikeIs(lib, r, s, lite);
    }
    if Alike(lib, r, s, lite) {
      AlikeIs(lib, r, s, lite);
      PairOrderIgnored(ps, qs);
    }
  }

  lemma AlikeIs(lib: Library, r: Req, s: Req, lite: bool)
    requires RawPairs(lib, r.raw).Some? && RawPairs(lib, s.raw).Some?
    ensures Alike(lib, r, s, lite) <==>
      && ToUpper(r.verb) == ToUpper(s.verb) && SameStandard(r.headers, s.headers, lite)
      && (forall line :: |Senders(r.headers, line)| == |Senders(s.headers, line)|)
      && (if r.path == "" then "/" else r.path) == (if s.path == "" then "/" else s.path)
      && multiset(MeantOf(lib, r)) == multiset(MeantOf(lib, s))
  {
  }

  lemma HeadsFlat(account: string, path: string)
    requires Flat(account) && Flat(path)
    ensures Flat(ResourceHead(account, path))
  {
    FlatConcat("/", account);
    FlatConcat("/" + account, if path == "" then "/" else path);
  }

  lemma HeadsTell(account: string, p: string, q: string)
    ensures ResourceHead(account, p) == ResourceHead(account, q) <==> (if p == "" then "/" else p) == (if q == "" then "/" else q)
  {
    assert ResourceHead(account, p)[1 + |account|..] == if p == "" then "/" else p;
    assert ResourceHead(account, q)[1 + |account|..] == if q == "" then "/" else q;
  }

  // ---- What follows for signatures ----

  /** A request that carries the signature made for another is accepted, where the HMAC does
      not collide, if and only if it is like that one and the signing key is known: changing
      the verb, a signed header, an x-ms- value, the path or a query pair is noticed. */
  lemma AcceptedIffAlike(lib: Library, r: Req, changed: Req, account: string, key: seq<Byte>, lite: bool,
                         key1: seq<Byte>, key2: seq<Byte>)
    requires Hmac(lib) && account != "" && Flat(account) && PlainRequest(lib, r) && PlainRequest(lib, changed)
    requires NoCollision(lib, key, StringToSign(lib, r, account, lite).value, key1, StringToSign(lib, changed, account, lite).value)
    requires NoCollision(lib, key, StringToSign(lib, r, account, lite).value, key2, StringToSign(lib, changed, account, lite).value)
    requires Get(changed.headers, "Authorization") == Get(Signed(lib, r, account, key, lite).headers, "Authorization")
    ensures Verifies(lib, changed, account, key1, key2) <==> Alike(lib, changed, r, lite) && key in {key1, key2}
  {
    TextOf(lib, r, account, lite);
    TextOf(lib, changed, account, lite);
    hide *;
    TamperingShows(lib, r, changed, account, key, lite, key1, key2);
    SameTextIff(lib, changed, r, account, lite);
  }

  /** In particular another value of an x-ms- header is: it differs after joining and
      collapsing white space. */
  lemma XmsValueCounts(lib: Library, r: Req, name: string, vals: seq<string>, lite: bool)
    requires name in r.headers && Xms(name) && Collapse(Join(vals, ",")) != Collapse(Join(r.headers[name], ","))
    ensures !Alike(lib, r.(headers := r.headers[name := vals]), r, lite)
  {
    var h, g := r.headers, r.headers[name := vals];
    hide Collapse, Join, ToLower, HasPrefix, Get;
    var line := (ToLower(name), Collapse(Join(h[name], ",")));
    assert Senders(g, line) == Senders(h, line) - {name};
    assert name in Senders(h, line);
    assert |Senders(g, line)| < |Senders(h, line)|;
    hide Senders;
  }

  // A header that is there once, in whatever case, gives this line.
  lemma OneHeader(name: string, vals: seq<string>)
    ensures HeadersOf(map[name := vals]) == if Xms(name) then ToLower(name) + ":" + Collapse(Join(vals, ",")) + "\n" else ""
  {
    var h, e := map[name := vals], (name, vals);
    assert [e][0] == e && Reached([e], name) && Visits(h, [e]);
    HeadersOfAnyVisit(h, [e]);
    GatherOne(e, LinesOf);
    var ls := Gather([e], LinesOf);
    if Xms(name) {
      assert ls == [(ToLower(name), Collapse(Join(vals, ",")))] && ls[1..] == [];
      assert Sort(ls, LineLeq) == Insert(ls[0], Sort(ls[1..], LineLeq), LineLeq) == ls;
      WrittenCons(ls);
      assert Written([]) == "";
    }
    hide Collapse, Join, ToLower, HasPrefix;
  }

  /** The x-ms- lines are written in the order of their names, and of their values where names
      are the same; query names and the values of each are written in order too. */
  lemma Ascending(h: Header, ps: seq<Pair>, i: nat, j: nat, name: string)
    ensures var ls := SortedLines(h);
      i < j < |ls| ==> (if ls[i].0 == ls[j].0 then Leq(ls[i].1, ls[j].1) else Leq(ls[i].0, ls[j].0))
    ensures var names := SortedNames(Grouped(ps)); i < j < |names| ==> Leq(names[i], names[j])
    ensures var vs := SortStrings(At(Grouped(ps), name)); i < j < |vs| ==> Leq(vs[i], vs[j])
  {
    LineOrder();
    StringOrder();
    SortSorts(Gather(Visit(h), LinesOf), LineLeq);
    SortSorts(Query.Keys(Visit(Grouped(ps))), Leq);
    SortSorts(At(Grouped(ps), name), Leq);
    hide Leq, Gather, Grouped, At, Sort, TotalOrder;
  }

  /** The lines of the text, in order: the verb, the scheme's fields, the x-ms- headers in
      sorted order, and the resource, a line for the path and one for each query name. */
  lemma Layout(lib: Library, r: Req, account: string, lite: bool)
    requires PlainRequest(lib, r) && Flat(account)
    ensures var h, m := r.headers, Grouped(MeantOf(lib, r));
      StringToSign(lib, r, account, lite).Some?
      && Split(StringToSign(lib, r, account, lite).value, '\n')
           == [ToUpper(r.verb)]
              + ((if lite then [Get(h, "Content-Md5"), Get(h, "Content-Type"), SignedDate(h)]
                  else [Get(h, "Content-Encoding"), Get(h, "Content-Language"), SignedLength(h), Get(h, "Content-Md5"),
                        Get(h, "Content-Type"), SignedDate(h), Get(h, "If-Modified-Since"), Get(h, "If-Match"),
                        Get(h, "If-None-Match"), Get(h, "If-Unmodified-Since"), Get(h, "Range")])
                 + (LineTexts(SortedLines(h)) + ([ResourceHead(account, r.path)] + ParamLines(SortedNames(m), m))))
  {
    var h, ps := r.headers, MeantOf(lib, r);
    var m, head := Grouped(ps), ResourceHead(account, r.path);
    TextOf(lib, r, account, lite);
    PartsFlat(lib, r, account, lite);
    AssembledSplits(ToUpper(r.verb), Fields(h, lite), SortedLines(h), head + ParamText(m));
    HeadsFlat(account, r.path);
    ParamTextSplits(head, ps);
    hide StringToSign, Get, ToUpper, SortedLines, LineTexts, ParamLines, SortedNames, Grouped, MeantOf, Split, Assembled, ParamText, ResourceHead;
  }

  lemma ParamTextSplits(head: string, ps: seq<Pair>)
    requires Flat(head) && PlainPairs(ps)
    ensures var m := Grouped(ps); Split(head + ParamText(m), '\n') == [head] + ParamLines(SortedNames(m), m)
  {
    var m := Grouped(ps);
    forall i | 0 <= i < |SortedNames(m)| ensures Flat(ParamLine(m, SortedNames(m)[i])) {
      SortedNamesAre(m, SortedNames(m)[i]);
      NameWritten(ps, SortedNames(m)[i]);
    }
    hide Grouped, ParamLine, ParamLines, WrittenParams, Split, PlainPairs, At;
    ParamsSplit(head, SortedNames(m), m);
  }

  // The first value of a header counts, and none counts as the empty text.
  lemma GetIsFirst(h: Header, name: string, value: string, rest: seq<string>)
    ensures Get(h[name := [value] + rest], name) == value
    ensures Get(h - {name}, name) == "" && Get(h[name := []], name) == ""
  {
  }

  // Upper case: the same letters, none of them small.
  lemma ToUpperIs(s: string)
    ensures EqualFold(ToUpper(s), s) && forall c :: c in ToUpper(s) ==> !('a' <= c <= 'z')
  {
    EqualFoldIff(ToUpper(s), s);
    assert |ToUpper(s)| == |s| && forall i :: 0 <= i < |s| ==> ToUpper(s)[i] == UpperChar(s[i]);
  }

  // ---- What is accepted at all ----

  lemma {:induction false} LastColonIs(s: string)
    ensures var i := LastIndex(s, ':');
      if ':' in s then 0 <= i < |s| && s[i] == ':' && ':' !in s[i + 1..] else i == -1
  {
    if s != "" && s[|s| - 1] != ':' {
      LastColonIs(s[..|s| - 1]);
      assert s == s[..|s| - 1] + [s[|s| - 1]];
      if ':' in s {
        var i := LastIndex(s, ':');
        assert s[i + 1..] == s[..|s| - 1][i + 1..] + [s[|s| - 1]];
      }
    }
  }

  // sig is the HMAC of the request's own string under one of the keys.
  ghost predicate OwnMac(lib: Library, r: Req, account: string, key1: seq<Byte>, key2: seq<Byte>, sig: seq<Byte>, lite: bool) {
    && StringToSign(lib, r, account, lite).Some?
    && (|| sig == lib.mac(key1, StringToSign(lib, r, account, lite).value)
        || sig == lib.mac(key2, StringToSign(lib, r, account, lite).value))
  }

  // The credential is the account, a colon, and this text for the signature.
  ghost predicate Coded(cred: string, account: string, coded: string) {
    coded != "" && ':' !in coded && cred == account + ":" + coded
  }

  lemma SchemeIff(lib: Library, r: Req, account: string, cred: string, key1: seq<Byte>, key2: seq<Byte>, lite: bool)
    ensures VerifyScheme(lib, r, account, cred, key1, key2, lite) <==>
      account != ""
      && exists coded :: Coded(cred, account, coded) && Decode(coded).Some?
           && OwnMac(lib, r, account, key1, key2, Decode(coded).value, lite)
  {
    var i := LastIndex(cred, ':');
    LastIndexIn(cred, ':');
    LastColonIs(cred);
    hide StringToSign, Decode, LastIndex;
    if VerifyScheme(lib, r, account, cred, key1, key2, lite) {
      var coded := cred[i + 1..];
      assert cred == account + ":" + coded;
      assert Coded(cred, account, coded) && OwnMac(lib, r, account, key1, key2, Decode(coded).value, lite);
    }
    if coded :| Coded(cred, account, coded) && Decode(coded).Some? && OwnMac(lib, r, account, key1, key2, Decode(coded).value, lite) {
      LastColon(account, coded);
      assert cred[..|account|] == account && cred[|account| + 1..] == coded;
    }
  }

  // The header names the scheme and carries this credential.
  ghost predicate Presents(authz: string, cred: string, lite: bool) {
    authz == (if lite then "SharedKeyLite " else "SharedKey ") + cred
  }

  // This text is base64 of such a signature, without a colon.
  ghost predicate Genuine(lib: Library, r: Req, account: string, key1: seq<Byte>, key2: seq<Byte>, coded: string, lite: bool) {
    coded != "" && ':' !in coded && Decode(coded).Some? && OwnMac(lib, r, account, key1, key2, Decode(coded).value, lite)
  }

  /** A request is accepted if and only if its Authorization header presents, under one of the
      schemes, the account asked for and the HMAC of its own string to sign under a key. */
  lemma VerifiesIff(lib: Library, r: Req, account: string, key1: seq<Byte>, key2: seq<Byte>)
    ensures Verifies(lib, r, account, key1, key2) <==>
      account != ""
      && exists lite, coded ::
           Presents(Get(r.headers, "Authorization"), account + ":" + coded, lite) && Genuine(lib, r, account, key1, key2, coded, lite)
  {
    var authz := Get(r.headers, "Authorization");
    hide StringToSign, Decode, LastIndex, Get, VerifyScheme, OwnMac;
    forall lite, cred | Presents(authz, cred, lite)
      ensures Verifies(lib, r, account, key1, key2) <==> VerifyScheme(lib, r, account, cred, key1, key2, lite)
    {
      SchemeNames(authz, cred, lite);
    }
    if Verifies(lib, r, account, key1, key2) {
      var lite := !HasPrefix(authz, "SharedKey ");
      var cred := authz[if lite then 14 else 10..];
      assert authz == authz[..if lite then 14 else 10] + cred;
      assert |"SharedKey "| == 10 && |"SharedKeyLite "| == 14;
      assert Presents(authz, cred, lite) && VerifyScheme(lib, r, account, cred, key1, key2, lite);
      SchemeIff(lib, r, account, cred, key1, key2, lite);
      var coded :| Coded(cred, account, coded) && Decode(coded).Some? && OwnMac(lib, r, account, key1, key2, Decode(coded).value, lite);
      assert Presents(authz, account + ":" + coded, lite) && Genuine(lib, r, account, key1, key2, coded, lite);
    }
    if lite, coded :| Presents(authz, account + ":" + coded, lite) && Genuine(lib, r, account, key1, key2, coded, lite) && account != "" {
      assert Coded(account + ":" + coded, account, coded);
      SchemeIff(lib, r, account, account + ":" + coded, key1, key2, lite);
    }
  }

  lemma SchemeNames(authz: string, cred: string, lite: bool)
    requires Presents(authz, cred, lite)
    ensures (HasPrefix(authz, "SharedKey ") <==> !lite) && (HasPrefix(authz, "SharedKeyLite ") <==> lite)
    ensures authz[if lite then 14 else 10..] == cred
    ensures |authz| >= 10 && |"SharedKey "| == 10 && |"SharedKeyLite "| == 14
  {
    if lite {
      assert authz[9] == 'L' && authz[..10][9] == 'L' && authz[..14] == "SharedKeyLite ";
    } else {
      assert authz[9] == ' ' && authz[..10] == "SharedKey ";
      if |authz| >= 14 { assert authz[..14][9] == ' '; }
    }
  }
}
