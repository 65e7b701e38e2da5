/** collapseSpace: runs of blanks in a header value become single spaces. */
module Whitespace {
  import opened Text

  // The four characters the loop of collapseSpace looks for.
  predicate Blank(c: char) {
    c == ' ' || c == '\t' || c == '\n' || c == '\r'
  }

  // unicode.IsSpace, which strings.TrimSpace goes by.
  predicate Space(c: char) {
    || '\t' <= c <= '\r' || c == ' ' || c == '\U{85}' || c == '\U{A0}' || c == '\U{1680}'
    || '\U{2000}' <= c <= '\U{200A}' || c == '\U{2028}' || c == '\U{2029}' || c == '\U{202F}' || c == '\U{205F}' || c == '\U{3000}'
  }

  function TrimStart(s: string): (r: string)
    ensures r == "" || !Space(r[0])
  {
    if s != "" && Space(s[0]) then TrimStart(s[1..]) else s
  }

  function TrimEnd(s: string): (r: string)
    ensures r <= s && (r == "" || !Space(r[|r| - 1]))
  {
    if s != "" && Space(s[|s| - 1]) then TrimEnd(s[..|s| - 1]) else s
  }

  // strings.TrimSpace
  function TrimSpace(s: string): string {
    TrimEnd(TrimStart(s))
  }

  // What the loop has written after s, and its flag.
  function Pass(s: string): (string, bool) {
    if s == "" then ("", false)
    else
      var (out, space) := Pass(s[..|s| - 1]);
      var c := s[|s| - 1];
      if Blank(c) then (if !space && out != "" then (out + " ", true) else (out, space))
      else (out + [c], false)
  }

  function Collapse(s: string): string {
    TrimSpace(Pass(s).0)
  }

  method CollapseSpace(s: string) returns (r: string)
    ensures r == Collapse(s)
  {
    var out, space := "", false;
    for i := 0 to |s|
      invariant (out, space) == Pass(s[..i])
    {
      assert s[..i + 1][..i] == s[..i];
      if Blank(s[i]) {
        if !space && out != "" {
          out := out + " ";
          space := true;
        }
      } else {
        space := false;
        out := out + [s[i]];
      }
    }
    assert s[..|s|] == s;
    r := TrimSpace(out);
  }

  // ---- Words ----

  // Cut at every blank.
  function Cut(s: string): (r: seq<string>)
    ensures |r| > 0
  {
    if s == "" then [""]
    else
      var rest := Cut(s[1..]);
      if Blank(s[0]) then [""] + rest else [[s[0]] + rest[0]] + rest[1..]
  }

  function NonEmpty(xs: seq<string>): seq<string> {
    if xs == [] then [] else (if xs[0] == "" then [] else [xs[0]]) + NonEmpty(xs[1..])
  }

  function Words(s: string): seq<string> {
    NonEmpty(Cut(s))
  }

  // The last piece gains a character, or a new empty piece starts.
  function Gain(r: seq<string>, c: char): seq<string>
    requires |r| > 0
  {
    var n := |r| - 1;
    if Blank(c) then r + [""] else r[..n] + [r[n] + [c]]
  }

  lemma GainFront(x: string, rest: seq<string>, c: char)
    requires |rest| > 0
    ensures Gain([x] + rest, c) == [x] + Gain(rest, c)
  {
    assert ([x] + rest)[..|rest|] == [x] + rest[..|rest| - 1];
  }

  lemma GainFirst(h: char, rest: seq<string>, c: char)
    requires |rest| > 0
    ensures var g := Gain(rest, c); Gain([[h] + rest[0]] + rest[1..], c) == [[h] + g[0]] + g[1..]
  {
    var g, n := Gain(rest, c), |rest| - 1;
    if n == 0 {
      assert [h] + (rest[0] + [c]) == ([h] + rest[0]) + [c];
    } else {
      GainFront([h] + rest[0], rest[1..], c);
      GainFront(rest[0], rest[1..], c);
      assert rest == [rest[0]] + rest[1..];
    }
  }

  lemma {:induction false} CutSnoc(s: string, c: char)
    ensures Cut(s + [c]) == Gain(Cut(s), c)
  {
    if s == "" {
      assert s + [c] == [c] && [c][1..] == "" && [c] + "" == [c] && "" + [c] == [c];
    } else {
      assert (s + [c])[1..] == s[1..] + [c];
      CutSnoc(s[1..], c);
      GainFront("", Cut(s[1..]), c);
      GainFirst(s[0], Cut(s[1..]), c);
      hide Gain, Blank;
    }
  }

  lemma {:induction false} NonEmptyConcat(xs: seq<string>, ys: seq<string>)
    ensures NonEmpty(xs + ys) == NonEmpty(xs) + NonEmpty(ys)
  {
    if xs == [] {
      assert xs + ys == ys;
    } else {
      assert (xs + ys)[1..] == xs[1..] + ys;
      NonEmptyConcat(xs[1..], ys);
    }
  }

  // The last piece is empty exactly at the start and after a blank.
  lemma {:induction false} LastPiece(s: string)
    ensures Cut(s)[|Cut(s)| - 1] == "" <==> s == "" || Blank(s[|s| - 1])
  {
    if s != "" {
      var n := |s| - 1;
      CutSnoc(s[..n], s[n]);
      assert s == s[..n] + [s[n]];
    }
  }

  lemma WordsSnocBlank(s: string, c: char)
    requires Blank(c)
    ensures Words(s + [c]) == Words(s)
  {
    CutSnoc(s, c);
    NonEmptyConcat(Cut(s), [""]);
    NonEmptyOne("");
    hide Cut, Blank, NonEmpty;
    assert Words(s) + [] == Words(s);
  }

  lemma WordsSnocLetter(s: string, c: char)
    requires !Blank(c)
    ensures var ws := Words(s);
            if s == "" || Blank(s[|s| - 1]) then Words(s + [c]) == ws + [[c]]
            else |ws| > 0 && Words(s + [c]) == ws[..|ws| - 1] + [ws[|ws| - 1] + [c]]
  {
    var r, n := Cut(s), |Cut(s)| - 1;
    var init, last := r[..n], r[n];
    CutSnoc(s, c);
    LastPiece(s);
    assert r == init + [last];
    NonEmptyConcat(init, [last]);
    NonEmptyOne(last);
    NonEmptyConcat(init, [last + [c]]);
    NonEmptyOne(last + [c]);
    hide Cut, Blank, NonEmpty;
    if last != "" {
      assert (NonEmpty(init) + [last])[..|NonEmpty(init)|] == NonEmpty(init);
    } else {
      assert [c] == last + [c] && NonEmpty(init) + [] == NonEmpty(init);
    }
  }

  lemma NonEmptyOne(x: string)
    ensures NonEmpty([x]) == if x == "" then [] else [x]
  {
    assert [x][1..] == [];
  }

  lemma {:induction false} JoinSnoc(ws: seq<string>, w: string)
    ensures Join(ws + [w], " ") == if ws == [] then w else Join(ws, " ") + " " + w
  {
    if ws == [] {
      assert ws + [w] == [w];
    } else {
      JoinConcat(ws, [w], " ");
    }
  }

  lemma WordsAreWords(s: string)
    ensures Words(s) == [] <==> Join(Words(s), " ") == ""
  {
    NonEmptyPart(Cut(s));
    if Words(s) != [] { assert Words(s)[0] in Words(s); }
    hide Words;
  }

  // The loop keeps the words so far, and one space after them if a blank came last.
  lemma {:induction false} PassKeepsWords(s: string)
    ensures var ws := Words(s); var open := s != "" && Blank(s[|s| - 1]) && ws != [];
            Pass(s) == (Join(ws, " ") + (if open then " " else ""), open)
  {
    if s != "" {
      var n := |s| - 1;
      var t, c := s[..n], s[n];
      PassKeepsWords(t);
      if Blank(c) { WordsSnocBlank(t, c); } else { WordsSnocLetter(t, c); }
      WordsAreWords(t);
      assert s == t + [c];
      var ws := Words(t);
      hide Words, Blank, Join;
      assert Join(ws, " ") + "" == Join(ws, " ") && Join(Words(s), " ") + "" == Join(Words(s), " ");
      if !Blank(c) {
        if t != "" && !Blank(t[|t| - 1]) { LongerWord(ws, c); } else { NewWord(ws, c); }
      }
    } else {
      assert Words(s) == [] by { NonEmptyOne(""); }
    }
  }

  // A character goes to the end of the last word...
  lemma LongerWord(ws: seq<string>, c: char)
    requires |ws| > 0
    ensures Join(ws[..|ws| - 1] + [ws[|ws| - 1] + [c]], " ") == Join(ws, " ") + [c]
  {
    hide *;
    var init, last := ws[..|ws| - 1], ws[|ws| - 1];
    assert ws == init + [last];
    LongerLast(init, last, c);
  }

  lemma LongerLast(init: seq<string>, last: string, c: char)
    ensures Join(init + [last + [c]], " ") == Join(init + [last], " ") + [c]
  {
    JoinSnoc(init, last);
    JoinSnoc(init, last + [c]);
    if init != [] { Regroup(Join(init, " ") + " ", last, [c]); }
    hide Join;
  }

  lemma Regroup(a: string, b: string, c: string)
    ensures a + (b + c) == (a + b) + c
  {
  }

  // ...or starts a word.
  lemma NewWord(ws: seq<string>, c: char)
    ensures Join(ws + [[c]], " ") == Join(ws, " ") + (if ws == [] then "" else " ") + [c]
  {
    JoinSnoc(ws, [c]);
    if ws == [] { assert "" + "" + [c] == [c]; }
  }

  lemma {:induction false} WordChars(xs: seq<string>)
    requires forall x, c :: x in xs && c in x ==> !Space(c)
    requires forall x :: x in xs ==> x != ""
    ensures var j := Join(xs, " "); j == "" || (!Space(j[0]) && !Space(j[|j| - 1]))
    ensures xs != [] ==> Join(xs, " ") != ""
  {
    if |xs| > 0 { assert xs[0] in xs && xs[0][0] in xs[0] && xs[0][|xs[0]| - 1] in xs[0]; }
    if |xs| > 1 {
      assert forall x :: x in xs[1..] ==> x in xs;
      WordChars(xs[1..]);
    }
  }

  lemma {:induction false} CutChars(s: string)
    ensures forall x, c :: x in Cut(s) && c in x ==> c in s && !Blank(c)
  {
    if s != "" {
      CutChars(s[1..]);
      var rest := Cut(s[1..]);
      forall x, c | x in Cut(s) && c in x ensures c in s && !Blank(c) {
        if x in rest { assert c in s[1..]; }
        else if !Blank(s[0]) && x == [s[0]] + rest[0] && c != s[0] { assert c in rest[0] && rest[0] in rest; }
      }
    }
  }

  lemma {:induction false} NonEmptyPart(xs: seq<string>)
    ensures forall x :: x in NonEmpty(xs) <==> x in xs && x != ""
  {
    if xs != [] { NonEmptyPart(xs[1..]); }
  }

  /** On inputs whose only white space is blank, tab, line feed and carriage return, the
      one-pass loop splits into words and joins them with single spaces. */
  lemma CollapseIsJoinWords(s: string)
    requires forall c :: c in s && Space(c) ==> Blank(c)
    ensures Collapse(s) == Join(Words(s), " ")
  {
    PassKeepsWords(s);
    CutChars(s);
    NonEmptyPart(Cut(s));
    WordChars(Words(s));
    var j, out := Join(Words(s), " "), Pass(s).0;
    assert TrimStart(out) == out;
    if out != j {
      assert out[..|out| - 1] == j;
      assert TrimEnd(out) == TrimEnd(j);
    }
    assert TrimEnd(j) == j;
  }

  // ---- Idempotence ----

  // What the loop leaves alone: no tab or line break, no leading or double space.
  ghost predicate Tidy(s: string) {
    && (forall i :: 0 <= i < |s| && Blank(s[i]) ==> s[i] == ' ')
    && (forall i :: 0 <= i < |s| && s[i] == ' ' ==> i > 0 && s[i - 1] != ' ')
  }

  lemma {:induction false} PassTidies(s: string)
    ensures Tidy(Pass(s).0) && (Pass(s).1 <==> Pass(s).0 != "" && Pass(s).0[|Pass(s).0| - 1] == ' ')
  {
    if s != "" { PassTidies(s[..|s| - 1]); }
  }

  lemma {:induction false} PassLeavesTidy(s: string)
    requires Tidy(s)
    ensures Pass(s) == (s, s != "" && s[|s| - 1] == ' ')
  {
    if s != "" {
      var n := |s| - 1;
      PassLeavesTidy(s[..n]);
      assert s == s[..n] + [s[n]];
    }
  }

  lemma {:induction false} TrimStartTidy(s: string)
    requires forall i :: 0 <= i < |s| && Blank(s[i]) ==> s[i] == ' '
    requires forall i :: 0 < i < |s| && s[i] == ' ' ==> s[i - 1] != ' '
    ensures Tidy(TrimStart(s))
  {
    if s != "" && Space(s[0]) { TrimStartTidy(s[1..]); }
  }

  lemma TrimEndKeepsStart(s: string)
    requires s == "" || !Space(s[0])
    ensures TrimEnd(s) == "" || !Space(TrimEnd(s)[0])
  {
  }

  /** Collapsing twice is collapsing once, on every input. */
  lemma CollapseIdempotent(s: string)
    ensures Collapse(Collapse(s)) == Collapse(s)
  {
    var out := Pass(s).0;
    PassTidies(s);
    TrimStartTidy(out);
    var start, t := TrimStart(out), Collapse(s);
    TrimEndKeepsStart(start);
    assert t <= start && Tidy(t);
    PassLeavesTidy(t);
    assert TrimStart(t) == t && TrimEnd(t) == t;
  }

  /** What a collapsed text looks like: no tab, line feed or carriage return, no two spaces in
      a row, no white space at either end. */
  lemma CollapseTidy(s: string)
    ensures var r := Collapse(s);
      && '\t' !in r && '\n' !in r && '\r' !in r
      && (forall i :: 0 <= i < |r| - 1 ==> !(r[i] == ' ' && r[i + 1] == ' '))
      && (r != "" ==> !Space(r[0]) && !Space(r[|r| - 1]))
  {
    var out := Pass(s).0;
    PassTidies(s);
    TrimStartTidy(out);
    var start, r := TrimStart(out), Collapse(s);
    TrimEndKeepsStart(start);
    assert r <= start && Tidy(r);
    forall i | 0 <= i < |r| ensures r[i] != '\t' && r[i] != '\n' && r[i] != '\r' {
      assert Blank(r[i]) ==> r[i] == ' ';
    }
    hide Pass, TrimStart, TrimEnd;
  }
}
