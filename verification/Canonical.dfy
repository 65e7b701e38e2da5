/** The canonical header part of a string to sign. Go visits the header map in any
    order; sorting makes the result a function of what the map holds. */
module Canonical {
  import opened Text
  import opened Sorting
  import opened Visiting
  import opened Whitespace

  type Header = map<string, seq<string>>

  type Line = (string, string)

  predicate LineLeq(a: Line, b: Line) {
    if a.0 != b.0 then Leq(a.0, b.0) else Leq(a.1, b.1)
  }

  lemma LineOrder()
    ensures TotalOrder(LineLeq)
  {
    StringOrder();
    assert TotalOrder(Leq);
    hide Leq;
  }

  // The lines one header entry contributes: its x-ms- form, or none.
  function LinesOf(e: Field): seq<Line> {
    var name := ToLower(e.0);
    if HasPrefix(name, "x-ms-") then [(name, Collapse(Join(e.1, ",")))] else []
  }

  function Written(lines: seq<Line>): string {
    if lines == [] then "" else lines[0].0 + ":" + lines[0].1 + "\n" + Written(lines[1..])
  }

  function CanonicalHeaders(es: seq<Field>): string {
    Written(Sort(Gather(es, LinesOf), LineLeq))
  }

  /** The text depends only on the multiset of x-ms- lines: not on the order in which the
      header entries are visited, nor on any other header. */
  lemma HeadersCanonical(es: seq<Field>, fs: seq<Field>)
    requires multiset(Gather(es, LinesOf)) == multiset(Gather(fs, LinesOf))
    ensures CanonicalHeaders(es) == CanonicalHeaders(fs)
  {
    LineOrder();
    SortCanonical(Gather(es, LinesOf), Gather(fs, LinesOf), LineLeq);
  }

  // The x-ms- lines of a header map.
  ghost function XmsLines(h: Header): multiset<Line> {
    multiset(Gather(Visit(h), LinesOf))
  }

  // The text for a header map.
  ghost function HeadersOf(h: Header): string {
    CanonicalHeaders(Visit(h))
  }

  lemma HeadersOfAnyVisit(h: Header, es: seq<Field>)
    requires Visits(h, es)
    ensures CanonicalHeaders(es) == HeadersOf(h)
  {
    VisitsPermute(h, es, Visit(h));
    GatherPermute(es, Visit(h), LinesOf);
    HeadersCanonical(es, Visit(h));
  }

  // An entry that is not an x-ms- header adds nothing to the text.
  lemma PlainEntry(h: Header, name: string, rest: seq<Field>)
    requires name in h && Visits(h - {name}, rest) && !HasPrefix(ToLower(name), "x-ms-")
    ensures HeadersOf(h) == CanonicalHeaders(rest)
  {
    var e := (name, h[name]);
    assert LinesOf(e) == [] && ([e] + rest)[1..] == rest;
    assert Gather([e] + rest, LinesOf) == Gather(rest, LinesOf);
    hide LinesOf, Gather;
    VisitMore(h, name, rest);
    HeadersOfAnyVisit(h, [e] + rest);
  }

  /** Headers other than x-ms- ones do not show. */
  lemma OtherHeadersIgnored(h: Header, name: string, vals: seq<string>)
    requires !HasPrefix(ToLower(name), "x-ms-")
    ensures HeadersOf(h[name := vals]) == HeadersOf(h)
  {
    hide Visits, HasPrefix, ToLower, CanonicalHeaders;
    var rest := Visit(h - {name});
    assert h[name := vals] - {name} == h - {name};
    PlainEntry(h[name := vals], name, rest);
    if name in h {
      PlainEntry(h, name, rest);
    } else {
      assert h - {name} == h;
      HeadersOfAnyVisit(h, rest);
    }
  }

  // buildCanonicalizedHeaders
  method BuildHeaders(h: Header) returns (text: string)
    ensures text == HeadersOf(h)
  {
    var lines: seq<Line> := [];
    ghost var seen: seq<Field> := [];
    var todo := h.Keys;
    while todo != {}
      invariant todo <= h.Keys && lines == Gather(seen, LinesOf)
      invariant Visits(map k | k in h && k !in todo :: h[k], seen)
    {
      var name :| name in todo;
      ghost var past := map k | k in h && k !in todo :: h[k];
      todo := todo - {name};
      GatherConcat(seen, [(name, h[name])], LinesOf);
      GatherOne((name, h[name]), LinesOf);
      VisitSnoc(past, name, h[name], seen);
      assert (map k | k in h && k !in todo :: h[k]) == past[name := h[name]];
      var lower := ToLower(name);
      if HasPrefix(lower, "x-ms-") { lines := lines + [(lower, Collapse(Join(h[name], ",")))]; }
      seen := seen + [(name, h[name])];
    }
    assert (map k | k in h && k !in todo :: h[k]) == h;
    HeadersOfAnyVisit(h, seen);
    var sorted := Sort(lines, LineLeq);
    text := WriteLines(sorted);
  }

  method WriteLines(lines: seq<Line>) returns (text: string)
    ensures text == Written(lines)
  {
    text := "";
    for i := 0 to |lines|
      invariant text + Written(lines[i..]) == Written(lines)
    {
      var line := lines[i].0 + ":" + lines[i].1 + "\n";
      WrittenCons(lines[i..]);
      assert lines[i..][1..] == lines[i + 1..];
      Regroup(text, line, Written(lines[i + 1..]));
      text := text + line;
    }
    assert text + "" == text;
  }

  lemma WrittenCons(lines: seq<Line>)
    requires lines != []
    ensures Written(lines) == (lines[0].0 + ":" + lines[0].1 + "\n") + Written(lines[1..])
  {
  }
}
