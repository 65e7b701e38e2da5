/** Strings as the Go code uses them: splitting on a separator byte, joining,
    prefix tests, and the bytewise order behind sort.Strings. */
module Text {

  predicate HasPrefix(s: string, p: string) {
    |p| <= |s| && s[..|p|] == p
  }

  // strings.Split with a one-character separator.
  function Split(s: string, sep: char): (r: seq<string>)
    ensures |r| > 0
  {
    if s == "" then [""]
    else
      var rest := Split(s[1..], sep);
      if s[0] == sep then [""] + rest else [[s[0]] + rest[0]] + rest[1..]
  }

  // strings.Join.
  function Join(xs: seq<string>, sep: string): string {
    if |xs| == 0 then ""
    else if |xs| == 1 then xs[0]
    else xs[0] + sep + Join(xs[1..], sep)
  }

  predicate ProperPrefix<T(==)>(p: seq<T>, s: seq<T>) {
    |p| < |s| && s[..|p|] == p
  }

  // ---- Split and Join undo each other ----

  lemma {:induction false} SplitPieces(s: string, sep: char)
    ensures forall x :: x in Split(s, sep) ==> sep !in x
  {
    if s != "" {
      SplitPieces(s[1..], sep);
      assert Split(s[1..], sep)[0] in Split(s[1..], sep);
    }
  }

  lemma {:induction false} JoinSplit(s: string, sep: char)
    ensures Join(Split(s, sep), [sep]) == s
  {
    if s != "" {
      var rest := Split(s[1..], sep);
      JoinSplit(s[1..], sep);
      if s[0] == sep {
        assert ([""] + rest)[1..] == rest;
      } else {
        assert ([[s[0]] + rest[0]] + rest[1..])[1..] == rest[1..];
      }
    }
  }

  lemma {:induction false} SplitAtom(s: string, sep: char)
    requires sep !in s
    ensures Split(s, sep) == [s]
  {
    if s != "" {
      SplitAtom(s[1..], sep);
      assert [s[0]] + s[1..] == s;
    }
  }

  lemma {:induction false} SplitConcat(a: string, sep: char, b: string)
    ensures Split(a + [sep] + b, sep) == Split(a, sep) + Split(b, sep)
  {
    if a == "" {
      assert a + [sep] + b == [sep] + b;
      assert ([sep] + b)[1..] == b;
    } else {
      var s := a + [sep] + b;
      assert s[1..] == a[1..] + [sep] + b;
      SplitConcat(a[1..], sep, b);
    }
  }

  lemma {:induction false} SplitJoin(xs: seq<string>, sep: char)
    requires |xs| > 0
    requires forall x :: x in xs ==> sep !in x
    ensures Split(Join(xs, [sep]), sep) == xs
  {
    SplitAtom(xs[0], sep);
    if |xs| > 1 {
      SplitJoin(xs[1..], sep);
      SplitConcat(xs[0], sep, Join(xs[1..], [sep]));
      assert [xs[0]] + xs[1..] == xs;
    } else {
      assert xs == [xs[0]];
    }
  }

  lemma {:induction false} JoinConcat(xs: seq<string>, ys: seq<string>, sep: string)
    requires |xs| > 0 && |ys| > 0
    ensures Join(xs + ys, sep) == Join(xs, sep) + sep + Join(ys, sep)
  {
    var zs := xs + ys;
    assert zs[1..] == xs[1..] + ys;
    if |xs| > 1 {
      JoinConcat(xs[1..], ys, sep);
    }
  }

  /** A prefix scan for p + sep on the flat string selects exactly the keys whose
      list of pieces properly extends the list of pieces of p: no key is caught
      half way through a piece. */
  lemma PrefixScan(key: string, p: string, sep: char)
    ensures HasPrefix(key, p + [sep]) <==> ProperPrefix(Split(p, sep), Split(key, sep))
  {
    var ps, ks := Split(p, sep), Split(key, sep);
    if HasPrefix(key, p + [sep]) {
      var rest := key[|p| + 1..];
      assert key == p + [sep] + rest;
      SplitConcat(p, sep, rest);
    }
    if ProperPrefix(ps, ks) {
      var ys := ks[|ps|..];
      assert ks == ps + ys;
      JoinConcat(ps, ys, [sep]);
      JoinSplit(p, sep);
      JoinSplit(key, sep);
      assert key == (p + [sep]) + Join(ys, [sep]);
    }
  }

  // ---- Go's string order ----

  // Byte order of UTF-8 strings, which is code-point order of their characters.
  predicate Leq(a: string, b: string) {
    if a == "" then true
    else if b == "" then false
    else if a[0] != b[0] then a[0] < b[0]
    else Leq(a[1..], b[1..])
  }

  lemma {:induction false} LeqTotal(a: string, b: string)
    ensures Leq(a, b) || Leq(b, a)
  {
    if a != "" && b != "" { LeqTotal(a[1..], b[1..]); }
  }

  lemma {:induction false} LeqAntisymmetric(a: string, b: string)
    requires Leq(a, b) && Leq(b, a)
    ensures a == b
  {
    if a != "" && b != "" {
      LeqAntisymmetric(a[1..], b[1..]);
      assert a == [a[0]] + a[1..] && b == [b[0]] + b[1..];
    }
  }

  lemma {:induction false} LeqTransitive(a: string, b: string, c: string)
    requires Leq(a, b) && Leq(b, c)
    ensures Leq(a, c)
  {
    if a != "" && b != "" && c != "" && a[0] == b[0] == c[0] {
      LeqTransitive(a[1..], b[1..], c[1..]);
    }
  }

  // A common prefix does not change the order.
  lemma {:induction false} LeqSamePrefix(p: string, a: string, b: string)
    ensures Leq(p + a, p + b) <==> Leq(a, b)
  {
    if p == "" {
      assert p + a == a && p + b == b;
    } else {
      assert (p + a)[1..] == p[1..] + a && (p + b)[1..] == p[1..] + b;
      LeqSamePrefix(p[1..], a, b);
    }
  }

  // ---- Case and trimming ----

  // strings.ToLower on ASCII letters.
  function LowerChar(c: char): char {
    if 'A' <= c <= 'Z' then c + 32 as char else c
  }

  function ToLower(s: string): string {
    seq(|s|, i requires 0 <= i < |s| => LowerChar(s[i]))
  }

  // strings.EqualFold on ASCII letters.
  predicate EqualFold(a: string, b: string) {
    ToLower(a) == ToLower(b)
  }

  // The same letter in the other case.
  predicate OtherCase(c: char, d: char) {
    ('a' <= c <= 'z' && d as int == c as int - 32) || ('a' <= d <= 'z' && c as int == d as int - 32)
  }

  /** Two strings fold to the same exactly when they differ in the case of letters at most. */
  lemma EqualFoldIff(a: string, b: string)
    ensures EqualFold(a, b) <==> |a| == |b| && forall i :: 0 <= i < |a| ==> a[i] == b[i] || OtherCase(a[i], b[i])
  {
    if EqualFold(a, b) {
      assert |ToLower(a)| == |a| && |ToLower(b)| == |b|;
      forall i | 0 <= i < |a| ensures a[i] == b[i] || OtherCase(a[i], b[i]) {
        assert ToLower(a)[i] == ToLower(b)[i];
      }
    }
  }

  function TrimLeft(s: string, cut: char): string {
    if s != "" && s[0] == cut then TrimLeft(s[1..], cut) else s
  }

  function TrimRight(s: string, cut: char): string {
    if s != "" && s[|s| - 1] == cut then TrimRight(s[..|s| - 1], cut) else s
  }

  // strings.Trim with a one-character cutset.
  function Trim(s: string, cut: char): string {
    TrimRight(TrimLeft(s, cut), cut)
  }

  /** What is left when a character is trimmed: the text between two runs of it that neither
      begins nor ends with it. */
  lemma {:induction false} TrimIs(s: string, cut: char) returns (before: string, after: string)
    ensures s == before + Trim(s, cut) + after
    ensures forall c :: c in before || c in after ==> c == cut
    ensures Trim(s, cut) != "" ==> Trim(s, cut)[0] != cut && Trim(s, cut)[|Trim(s, cut)| - 1] != cut
  {
    before := TrimLeftIs(s, cut);
    after := TrimRightIs(TrimLeft(s, cut), cut);
  }

  lemma {:induction false} TrimLeftIs(s: string, cut: char) returns (before: string)
    ensures s == before + TrimLeft(s, cut) && forall c :: c in before ==> c == cut
    ensures TrimLeft(s, cut) != "" ==> TrimLeft(s, cut)[0] != cut
  {
    before := "";
    if s != "" && s[0] == cut {
      var rest := TrimLeftIs(s[1..], cut);
      before := [cut] + rest;
    }
  }

  lemma {:induction false} TrimRightIs(s: string, cut: char) returns (after: string)
    ensures s == TrimRight(s, cut) + after && forall c :: c in after ==> c == cut
    ensures TrimRight(s, cut) != "" ==> TrimRight(s, cut)[|TrimRight(s, cut)| - 1] != cut
    decreases |s|
  {
    after := "";
    if s != "" && s[|s| - 1] == cut {
      var rest := TrimRightIs(s[..|s| - 1], cut);
      after := rest + [cut];
    }
  }
}
