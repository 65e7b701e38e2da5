/** Store keys. The emulator keeps every resource in one flat map under a string
    such as "vm:sub:rg:name". A Key is the structured reading of such a string;
    this module shows when the two readings agree. */
module Keys {
  import opened Text

  datatype Key =
    | RgKey(sub: string, rg: string)
    | VmKey(sub: string, rg: string, name: string)
    | SvcKey(sub: string, rg: string, vm: string, svc: string)
    | SecretKey(secret: string)
    | IdentityKey(sub: string, rg: string, name: string)
    | TokenKey(hash: string)
    | ClusterKey(sub: string, rg: string, name: string)
    | Other(segs: seq<string>)

  function Segs(k: Key): seq<string> {
    match k
    case RgKey(s, r) => ["rg", s, r]
    case VmKey(s, r, n) => ["vm", s, r, n]
    case SvcKey(s, r, v, n) => ["vmsvc", s, r, v, n]
    case SecretKey(x) => ["vmidsecret", x]
    case IdentityKey(s, r, n) => ["msi", "identity", s, r, n]
    case TokenKey(h) => ["msi", "token", h]
    case ClusterKey(s, r, n) => ["aks", "cluster", s, r, n]
    case Other(segs) => segs
  }

  function Flat(k: Key): string {
    Join(Segs(k), ":")
  }

  // First words owned by the constructors above; no other key family uses them.
  predicate TypedHead(h: string) {
    h == "rg" || h == "vm" || h == "vmsvc" || h == "vmidsecret" || h == "msi" || h == "aks"
  }

  predicate ColonFree(xs: seq<string>) {
    forall x :: x in xs ==> ':' !in x
  }

  predicate Clean(k: Key) {
    && ColonFree(Segs(k))
    && (k.Other? ==> |k.segs| > 0 && !TypedHead(k.segs[0]))
  }

  // The strings the source concatenates.
  lemma FlatAsInSource(s: string, r: string, n: string, x: string)
    ensures Flat(RgKey(s, r)) == "rg:" + s + ":" + r
    ensures Flat(VmKey(s, r, n)) == "vm:" + s + ":" + r + ":" + n
    ensures Flat(SvcKey(s, r, n, x)) == "vmsvc:" + s + ":" + r + ":" + n + ":" + x
    ensures Flat(SecretKey(x)) == "vmidsecret:" + x
    ensures Flat(IdentityKey(s, r, n)) == "msi:identity:" + s + ":" + r + ":" + n
    ensures Flat(TokenKey(x)) == "msi:token:" + x
    ensures Flat(ClusterKey(s, r, n)) == "aks:cluster:" + s + ":" + r + ":" + n
  {
    Join3("rg", s, r);
    Join4("vm", s, r, n);
    Join5("vmsvc", s, r, n, x);
    Join2("vmidsecret", x);
    Join5("msi", "identity", s, r, n);
    Join3("msi", "token", x);
    Join5("aks", "cluster", s, r, n);
    assert "vm:" == "vm" + ":" && "rg:" == "rg" + ":" && "vmsvc:" == "vmsvc" + ":" && "vmidsecret:" == "vmidsecret" + ":";
    assert "msi:identity:" == "msi" + ":" + "identity" + ":";
    assert "msi:token:" == "msi" + ":" + "token" + ":";
    assert "aks:cluster:" == "aks" + ":" + "cluster" + ":";
  }

  lemma Join2(a: string, b: string)
    ensures Join([a, b], ":") == a + ":" + b
  {
    assert [a, b][1..] == [b];
  }

  lemma Join3(a: string, b: string, c: string)
    ensures Join([a, b, c], ":") == a + ":" + b + ":" + c
  {
    Join2(b, c);
    assert [a, b, c][1..] == [b, c];
    assert a + ":" + (b + ":" + c) == a + ":" + b + ":" + c;
  }

  lemma Join4(a: string, b: string, c: string, d: string)
    ensures Join([a, b, c, d], ":") == a + ":" + b + ":" + c + ":" + d
  {
    Join3(b, c, d);
    assert [a, b, c, d][1..] == [b, c, d];
    assert a + ":" + (b + ":" + c + ":" + d) == a + ":" + b + ":" + c + ":" + d;
  }

  lemma Join5(a: string, b: string, c: string, d: string, e: string)
    ensures Join([a, b, c, d, e], ":") == a + ":" + b + ":" + c + ":" + d + ":" + e
  {
    Join4(b, c, d, e);
    assert [a, b, c, d, e][1..] == [b, c, d, e];
    assert a + ":" + (b + ":" + c + ":" + d + ":" + e) == a + ":" + b + ":" + c + ":" + d + ":" + e;
  }

  // ---- Which strings a key can be confused with ----

  lemma {:induction false} SplitOfJoin(xs: seq<string>, n: nat)
    requires |xs| > 0 && n <= |xs| && ColonFree(xs[..n])
    ensures |Split(Join(xs, ":"), ':')| >= |xs|
    ensures Split(Join(xs, ":"), ':')[..n] == xs[..n]
    ensures |Split(Join(xs, ":"), ':')| == |xs| ==> ColonFree(xs)
  {
    var s := Join(xs, ":");
    if |xs| == 1 {
      if n == 1 { assert xs[..1][0] == xs[0]; SplitAtom(xs[0], ':'); }
      JoinSplit(s, ':');
      SplitPieces(s, ':');
    } else {
      var rest := Join(xs[1..], ":");
      assert s == xs[0] + [':'] + rest;
      SplitConcat(xs[0], ':', rest);
      if n > 0 {
        assert xs[1..][..n - 1] == xs[..n][1..];
        assert xs[..n][0] == xs[0];
        SplitAtom(xs[0], ':');
        SplitOfJoin(xs[1..], n - 1);
      } else {
        SplitOfJoin(xs[1..], 0);
      }
      JoinSplit(xs[0], ':');
      SplitPieces(xs[0], ':');
      if |Split(s, ':')| == |xs| {
        assert xs[0] == Split(xs[0], ':')[0];
        forall x | x in xs ensures ':' !in x {
          assert x == xs[0] || x in xs[1..];
        }
      }
    }
  }

  // Words x whose joined string is that of colon-free words y: the colon-free start
  // of x is the start of y, and x has more words than y or is y.
  lemma SameString(x: seq<string>, y: seq<string>, n: nat)
    requires |x| > 0 && |y| > 0 && ColonFree(y) && n <= |x| && ColonFree(x[..n])
    requires Join(x, ":") == Join(y, ":")
    ensures |x| <= |y| && x[..n] == y[..n]
    ensures |x| == |y| ==> x == y
  {
    SplitJoin(y, ':');
    SplitOfJoin(x, n);
    if |x| == |y| { SplitJoin(x, ':'); }
  }

  // A typed key has as many words as any clean key with the same first words.
  lemma TypedWords(a: Key, b: Key)
    requires Clean(b) && !a.Other? && Flat(a) == Flat(b)
    ensures Segs(a) == Segs(b)
  {
    var x, y := Segs(a), Segs(b);
    var tags := if a.IdentityKey? || a.TokenKey? || a.ClusterKey? then 2 else 1;
    assert x[..tags] == if tags == 1 then [x[0]] else [x[0], x[1]];
    assert ColonFree(x[..tags]);
    SameString(x, y, tags);
    assert y[0] == x[..tags][0];
    assert tags == 2 ==> y[1] == x[..tags][1];
  }

  /** A clean stored key is the only structured key with its flat string. The other
      key need not be clean: a request whose names contain ':' misses every entry. */
  lemma FlatInjective(a: Key, b: Key)
    requires Clean(b) && (a.Other? ==> Clean(a))
    requires Flat(a) == Flat(b)
    ensures a == b
  {
    if a.Other? {
      SplitJoin(Segs(a), ':');
      SplitJoin(Segs(b), ':');
    } else {
      TypedWords(a, b);
    }
    assert Segs(a) == Segs(b);
    hide *;
    SegsInjective(a, b);
  }

  lemma SegsInjective(a: Key, b: Key)
    requires Segs(a) == Segs(b)
    requires a.Other? ==> |a.segs| > 0 && !TypedHead(a.segs[0])
    requires b.Other? ==> |b.segs| > 0 && !TypedHead(b.segs[0])
    ensures a == b
  {
    var x, y := Segs(a), Segs(b);
    assert x[0] == y[0] && |x| == |y|;
    assert |x| > 1 ==> x[1] == y[1];
    assert |x| > 2 ==> x[2] == y[2];
    assert |x| > 3 ==> x[3] == y[3];
    assert |x| > 4 ==> x[4] == y[4];
  }

  /** The hypothesis on colons is exact: a VM's flat key stands for that VM alone
      if and only if none of its three names contains a colon. */
  lemma VmKeyUnambiguous(s: string, r: string, n: string)
    ensures (forall k: Key :: k.VmKey? && Flat(k) == Flat(VmKey(s, r, n)) ==> k == VmKey(s, r, n))
       <==> ':' !in s && ':' !in r && ':' !in n
  {
    if ':' !in s && ':' !in r && ':' !in n {
      assert Clean(VmKey(s, r, n));
      forall k: Key | k.VmKey? && Flat(k) == Flat(VmKey(s, r, n)) ensures k == VmKey(s, r, n) {
        FlatInjective(k, VmKey(s, r, n));
      }
    } else {
      var k := Impostor(s, r, n);
      ImpostorFlat(s, r, n);
    }
  }

  lemma ImpostorFlat(s: string, r: string, n: string)
    requires ':' in s || ':' in r || ':' in n
    ensures Flat(Impostor(s, r, n)) == Flat(VmKey(s, r, n))
  {
    if ':' in s {
      var i := IndexOf(s);
      MergeHead(s[..i], s[i + 1..], r, n);
      assert Cut(s, i);
    } else if ':' in r {
      var i := IndexOf(r);
      MergeMiddle(s, r[..i], r[i + 1..], n);
      assert Cut(r, i);
    } else {
      var i := IndexOf(n);
      MergeHead(s, r, n[..i], n[i + 1..]);
      assert Cut(n, i);
      MergeMiddle(s, r, n[..i], n[i + 1..]);
    }
  }

  // Four words read as three in two ways.
  lemma MergeHead(a: string, b: string, c: string, d: string)
    ensures Flat(VmKey(a + ":" + b, c, d)) == Join(["vm", a, b, c, d], ":") == Flat(VmKey(a, b, c + ":" + d))
  {
    JoinMerge(["vm"], a, b, [c, d]);
    assert ["vm"] + [a + ":" + b] + [c, d] == ["vm", a + ":" + b, c, d];
    assert ["vm"] + [a, b] + [c, d] == ["vm", a, b, c, d];
    JoinMerge(["vm", a, b], c, d, []);
    assert ["vm", a, b] + [c + ":" + d] + [] == ["vm", a, b, c + ":" + d];
    assert ["vm", a, b] + [c, d] + [] == ["vm", a, b, c, d];
  }

  lemma MergeMiddle(a: string, b: string, c: string, d: string)
    ensures Flat(VmKey(a, b + ":" + c, d)) == Join(["vm", a, b, c, d], ":") == Flat(VmKey(a, b, c + ":" + d))
  {
    JoinMerge(["vm", a], b, c, [d]);
    assert ["vm", a] + [b + ":" + c] + [d] == ["vm", a, b + ":" + c, d];
    assert ["vm", a] + [b, c] + [d] == ["vm", a, b, c, d];
    MergeHead(a, b, c, d);
  }

  ghost predicate Cut(x: string, i: nat)
    requires i < |x| && x[i] == ':'
  {
    x == x[..i] + ":" + x[i + 1..]
  }

  lemma {:induction false} JoinMerge(xs: seq<string>, a: string, b: string, ys: seq<string>)
    ensures Join(xs + [a + ":" + b] + ys, ":") == Join(xs + [a, b] + ys, ":")
  {
    if xs == [] {
      assert [] + [a, b] + ys == [a] + ([b] + ys);
      assert ([a] + ([b] + ys))[1..] == [b] + ys;
      assert [] + [a + ":" + b] + ys == [a + ":" + b] + ys;
      assert ([b] + ys)[1..] == ys && ([a + ":" + b] + ys)[1..] == ys;
      if ys != [] {
        assert a + ":" + (b + ":" + Join(ys, ":")) == a + ":" + b + ":" + Join(ys, ":");
      }
    } else {
      JoinMerge(xs[1..], a, b, ys);
      assert (xs + [a + ":" + b] + ys)[1..] == xs[1..] + [a + ":" + b] + ys;
      assert (xs + [a, b] + ys)[1..] == xs[1..] + [a, b] + ys;
    }
  }

  ghost function IndexOf(s: string): (i: nat)
    requires ':' in s
    ensures i < |s| && s[i] == ':'
  {
    var i :| 0 <= i < |s| && s[i] == ':'; i
  }

  ghost function Impostor(s: string, r: string, n: string): (k: Key)
    requires ':' in s || ':' in r || ':' in n
    ensures k.VmKey? && k != VmKey(s, r, n)
  {
    if ':' in s then VmKey(s[..IndexOf(s)], s[IndexOf(s) + 1..], r + ":" + n)
    else if ':' in r then VmKey(s, r[..IndexOf(r)], r[IndexOf(r) + 1..] + ":" + n)
    else VmKey(s + ":" + r, n[..IndexOf(n)], n[IndexOf(n) + 1..])
  }

  // ---- Prefix scans on the structured reading ----

  /** Scanning for the flat prefix "p1:p2:...:" selects the keys whose segments
      properly extend p. */
  lemma FlatPrefixScan(k: Key, p: seq<string>)
    requires Clean(k) && |p| > 0 && ColonFree(p)
    ensures HasPrefix(Flat(k), Join(p, ":") + ":") <==> ProperPrefix(p, Segs(k))
  {
    PrefixScan(Flat(k), Join(p, ":"), ':');
    SplitJoin(p, ':');
    SplitJoin(Segs(k), ':');
  }

  // The keys a scan for "vmsvc:sub:rg:vm:" selects are exactly that VM's services.
  lemma ServicePrefix(k: Key, s: string, r: string, v: string)
    requires k.Other? ==> |k.segs| > 0 && !TypedHead(k.segs[0])
    ensures ProperPrefix(["vmsvc", s, r, v], Segs(k)) <==> k.SvcKey? && k.sub == s && k.rg == r && k.vm == v
  {
    var p, x := ["vmsvc", s, r, v], Segs(k);
    if ProperPrefix(p, x) {
      assert x[..4][0] == x[0] && x[..4][1] == x[1] && x[..4][2] == x[2] && x[..4][3] == x[3];
    }
    if k.SvcKey? && k.sub == s && k.rg == r && k.vm == v {
      assert x[..4] == p;
    }
  }

  lemma VmPrefix(k: Key, s: string, r: string)
    requires k.Other? ==> |k.segs| > 0 && !TypedHead(k.segs[0])
    ensures ProperPrefix(["vm", s, r], Segs(k)) <==> k.VmKey? && k.sub == s && k.rg == r
  {
    var p, x := ["vm", s, r], Segs(k);
    if ProperPrefix(p, x) {
      assert x[..3][0] == x[0] && x[..3][1] == x[1] && x[..3][2] == x[2];
    }
    if k.VmKey? && k.sub == s && k.rg == r {
      assert x[..3] == p;
    }
  }
}
