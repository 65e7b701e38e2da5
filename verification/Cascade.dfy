/** Which keys the resource-group cascade removes. */
module Cascade {
  import opened Text
  import opened Keys
  import opened GroupSpec

  // How the typed keys relate to a family of the list.
  ghost predicate FamilyShape(f: seq<string>) {
    && 1 <= |f| <= 2
    && f[0] != "rg" && f[0] != "vmidsecret"
    && (f[0] == "vm" ==> f == ["vm"])
    && (f[0] == "vmsvc" ==> f == ["vmsvc"])
    && (f[0] == "msi" ==> f == ["msi", "identity"])
    && (f[0] == "aks" ==> f == ["aks", "cluster"])
  }

  lemma FamilyShapes()
    ensures forall f :: f in FAMILIES ==> FamilyShape(f)
  {
    forall f | f in BEFORE_CLUSTERS ensures FamilyShape(f) {}
    forall f | f in AFTER_VMS ensures FamilyShape(f) {}
  }

  lemma FamilyFacts(i: nat)
    requires i < |FAMILIES|
    ensures FamilyShape(FAMILIES[i])
  {
    FamilyShapes();
  }

  // The first words of a key under a family's prefix.
  lemma UnderFamily(f: seq<string>, sub: string, rg: string, segs: seq<string>)
    requires |f| == 1 || |f| == 2
    ensures ProperPrefix(f + [sub, rg], segs) <==>
      |f| + 2 < |segs| && segs[..|f|] == f && segs[|f|] == sub && segs[|f| + 1] == rg
  {
    var p := f + [sub, rg];
    if |p| < |segs| {
      assert segs[..|p|] == segs[..|f|] + [segs[|f|], segs[|f| + 1]];
    }
  }

  predicate InGroup(k: Key, sub: string, rg: string) {
    match k
    case VmKey(s, r, _) => s == sub && r == rg
    case SvcKey(s, r, _, _) => s == sub && r == rg
    case IdentityKey(s, r, _) => s == sub && r == rg
    case ClusterKey(s, r, _) => s == sub && r == rg
    case _ => false
  }

  lemma CascadeStaysInGroup(k: Key, sub: string, rg: string)
    requires !k.Other? && InCascade(FAMILIES, sub, rg, k)
    ensures InGroup(k, sub, rg)
  {
    var segs := Segs(k);
    var i :| 0 <= i < |FAMILIES| && ProperPrefix(FAMILIES[i] + [sub, rg], segs);
    FamilyFacts(i);
    UnderFamily(FAMILIES[i], sub, rg, segs);
    assert segs[..|FAMILIES[i]|][0] == segs[0];
    assert |FAMILIES[i]| == 2 ==> segs[..2][1] == segs[1];
  }

  lemma GroupInCascade(k: Key, sub: string, rg: string)
    requires !k.Other? && InGroup(k, sub, rg)
    ensures InCascade(FAMILIES, sub, rg, k)
  {
    var segs, n := Segs(k), |BEFORE_CLUSTERS|;
    var i := match k { case VmKey(_, _, _) => n + 1 case SvcKey(_, _, _, _) => n + 2 case IdentityKey(_, _, _) => n + 3 case _ => n };
    var f := if k.VmKey? then ["vm"] else if k.SvcKey? then ["vmsvc"] else if k.IdentityKey? then ["msi", "identity"] else ["aks", "cluster"];
    assert FAMILIES[i] == f;
    UnderFamily(f, sub, rg, segs);
    assert segs[..|f|] == f;
  }

  /** On the keys the services of this model write, the string prefixes of the cascade
      mean membership in the resource group: rg1 never touches rg10. */
  lemma CascadeIsGroup(k: Key, sub: string, rg: string)
    requires !k.Other?
    ensures InCascade(FAMILIES, sub, rg, k) <==> InGroup(k, sub, rg)
  {
    hide InCascade, InGroup;
    if InCascade(FAMILIES, sub, rg, k) { CascadeStaysInGroup(k, sub, rg); }
    if InGroup(k, sub, rg) { GroupInCascade(k, sub, rg); }
  }

  // ---- The other families ----

  /** A key can be misread as one of another family and group: where the subscription asked
      for is the second word of a family (group g of subscription "bap" reads like the
      start of "lb:bap:g:"), and where the key's own second word completes the name of a
      family (a data-plane entry "cosmos:account:s:r:...", or a resource of a subscription
      called "account"). */
  ghost predicate Misread(t: seq<string>, s: string, r: string, rest: seq<string>, sub: string, rg: string)
    requires |t| == 1 || |t| == 2
  {
    if |t| == 2 then [t[0]] in FAMILIES && t[1] == sub && s == rg
    else |rest| > 1 && [t[0], s] in FAMILIES && r == sub && rest[0] == rg
  }

  // One family against one key.
  ghost predicate Takes(f: seq<string>, t: seq<string>, s: string, r: string, rest: seq<string>, sub: string, rg: string)
    requires |t| == 1 || |t| == 2
  {
    || (f == t && s == sub && r == rg && rest != [])
    || (|t| == 2 && f == [t[0]] && t[1] == sub && s == rg)
    || (|t| == 1 && |rest| > 1 && f == [t[0], s] && r == sub && rest[0] == rg)
  }

  lemma FamilyTakes(f: seq<string>, t: seq<string>, s: string, r: string, rest: seq<string>, sub: string, rg: string)
    requires (|t| == 1 || |t| == 2) && (|f| == 1 || |f| == 2)
    ensures ProperPrefix(f + [sub, rg], t + [s, r] + rest) <==> Takes(f, t, s, r, rest, sub, rg)
  {
    var segs := t + [s, r] + rest;
    assert segs[0] == t[0] && segs[|t|] == s && segs[|t| + 1] == r && (rest != [] ==> segs[|t| + 2] == rest[0]);
    assert |t| == 2 ==> segs[1] == t[1];
    UnderFamily(f, sub, rg, segs);
    if |f| == 1 {
      assert segs[..1] == [segs[0]];
    } else {
      assert segs[..2] == [segs[0], segs[1]];
    }
  }

  /** For a resource of any one- or two-word family t, filed as t:s:r:rest, the cascade
      on (sub, rg) takes it exactly when t is listed and it lies in that subscription
      and group (and is more than the bare prefix), or when it is misread. */
  lemma CascadeExactly(t: seq<string>, s: string, r: string, rest: seq<string>, sub: string, rg: string)
    requires |t| == 1 || |t| == 2
    ensures InCascade(FAMILIES, sub, rg, Other(t + [s, r] + rest))
       <==> (t in FAMILIES && s == sub && r == rg && rest != []) || Misread(t, s, r, rest, sub, rg)
  {
    hide FAMILIES;
    forall i | 0 <= i < |FAMILIES|
      ensures ProperPrefix(FAMILIES[i] + [sub, rg], Segs(Other(t + [s, r] + rest))) <==> Takes(FAMILIES[i], t, s, r, rest, sub, rg)
    {
      FamilyFacts(i);
      FamilyTakes(FAMILIES[i], t, s, r, rest, sub, rg);
    }
    if f :| f in FAMILIES && Takes(f, t, s, r, rest, sub, rg) {
      var i :| 0 <= i < |FAMILIES| && FAMILIES[i] == f;
    }
    assert (t in FAMILIES && s == sub && r == rg && rest != []) || Misread(t, s, r, rest, sub, rg)
      <==> exists f :: f in FAMILIES && Takes(f, t, s, r, rest, sub, rg);
  }

  /** Keys of three words or fewer, such as "kv:vault:name", are never taken. */
  lemma ShortKeysKept(segs: seq<string>, sub: string, rg: string)
    requires |segs| <= 3
    ensures !InCascade(FAMILIES, sub, rg, Other(segs))
  {
    forall i | 0 <= i < |FAMILIES| ensures !ProperPrefix(FAMILIES[i] + [sub, rg], segs) {
      FamilyFacts(i);
    }
    hide FAMILIES;
  }

  // Such a misreading does happen.
  lemma BackendPoolMisread(g: string, r: string, rest: seq<string>)
    ensures Misread(["lb", "bap"], g, r, rest, "bap", g) && ["lb", "bap"] !in FAMILIES
  {
    assert FAMILIES[|BEFORE_CLUSTERS| + 7] == ["lb"];
    forall f | f in BEFORE_CLUSTERS ensures f[0] != "lb" {}
    forall f | f in AFTER_VMS ensures |f| == 2 ==> f[0] != "lb" {}
    assert forall f :: f in FAMILIES ==> f in BEFORE_CLUSTERS || f == ["aks", "cluster"] || f in AFTER_VMS;
  }
}
