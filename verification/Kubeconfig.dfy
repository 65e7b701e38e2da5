/** Kubeconfig files: the merge `azlocal aks get-credentials` performs on them, and the
    rewriting that k3s's own kubeconfig gets before it is handed out. */
module Kubeconfig {
  import opened Options

  // A decoded YAML value; Scalar stands for numbers, booleans and null.
  datatype Yaml = Scalar | Str(text: string) | Seq(items: seq<Yaml>) | Map(entries: map<string, Yaml>)

  type Config = map<string, Yaml>

  // The name an entry of a named list goes by, if it has one.
  function NameOf(item: Yaml): Option<string> {
    if item.Map? && "name" in item.entries && item.entries["name"].Str?
    then Some(item.entries["name"].text)
    else None
  }

  // A section that is missing or no list counts as empty.
  function Section(cfg: Config, section: string): seq<Yaml> {
    if section in cfg && cfg[section].Seq? then cfg[section].items else []
  }

  predicate Named(items: seq<Yaml>, name: string) {
    exists i :: 0 <= i < |items| && NameOf(items[i]) == Some(name)
  }

  // ---- Merging two named lists ----

  // The entries of existing that incoming does not replace, in order.
  function Surviving(existing: seq<Yaml>, incoming: seq<Yaml>): seq<Yaml> {
    if existing == [] then []
    else
      var n := NameOf(existing[0]);
      (if n.Some? && Named(incoming, n.value) then [] else [existing[0]]) + Surviving(existing[1..], incoming)
  }

  function MergedList(existing: seq<Yaml>, incoming: seq<Yaml>): seq<Yaml> {
    Surviving(existing, incoming) + incoming
  }

  lemma SurvivingCons(xs: seq<Yaml>, incoming: seq<Yaml>)
    requires xs != []
    ensures var n := NameOf(xs[0]);
      Surviving(xs, incoming) == (if n.Some? && Named(incoming, n.value) then [] else [xs[0]]) + Surviving(xs[1..], incoming)
  {
    hide Named, NameOf;
  }

  lemma {:induction false} SurvivingConcat(a: seq<Yaml>, b: seq<Yaml>, incoming: seq<Yaml>)
    ensures Surviving(a + b, incoming) == Surviving(a, incoming) + Surviving(b, incoming)
  {
    hide Named, NameOf;
    if a == [] {
      assert a + b == b;
    } else {
      assert (a + b)[0] == a[0] && (a + b)[1..] == a[1..] + b;
      SurvivingConcat(a[1..], b, incoming);
      SurvivingCons(a, incoming);
      SurvivingCons(a + b, incoming);
      hide Surviving;
    }
  }

  lemma SurvivingOne(item: Yaml, incoming: seq<Yaml>)
    ensures var n := NameOf(item);
      Surviving([item], incoming) == if n.Some? && Named(incoming, n.value) then [] else [item]
  {
    assert [item][1..] == [];
    hide Named, NameOf;
  }

  lemma NamedConcat(a: seq<Yaml>, b: seq<Yaml>, name: string)
    ensures Named(a + b, name) <==> Named(a, name) || Named(b, name)
  {
    hide NameOf;
    if Named(a, name) {
      var i :| 0 <= i < |a| && NameOf(a[i]) == Some(name);
      assert (a + b)[i] == a[i];
    }
    if Named(b, name) {
      var i :| 0 <= i < |b| && NameOf(b[i]) == Some(name);
      assert (a + b)[|a| + i] == b[i];
    }
  }

  // Which names survive.
  lemma {:induction false} SurvivingNames(existing: seq<Yaml>, incoming: seq<Yaml>, name: string)
    ensures Named(Surviving(existing, incoming), name) <==> Named(existing, name) && !Named(incoming, name)
  {
    if existing != [] {
      var item, rest := existing[0], existing[1..];
      SurvivingNames(rest, incoming, name);
      assert existing == [item] + rest;
      NamedConcat([item], rest, name);
      NamedConcat(Surviving([item], incoming), Surviving(rest, incoming), name);
      SurvivingConcat([item], rest, incoming);
      SurvivingOne(item, incoming);
      NamedOne(item, name);
      hide NameOf, Surviving;
      if NameOf(item) == Some(name) {
        assert Surviving([item], incoming) == if Named(incoming, name) then [] else [item];
      }
    }
  }

  lemma NamedOne(item: Yaml, name: string)
    ensures Named([item], name) <==> NameOf(item) == Some(name)
    ensures !Named([], name)
  {
    if NameOf(item) == Some(name) { assert NameOf([item][0]) == Some(name); }
    hide NameOf;
  }

  /** A merge defines the names of both lists. */
  lemma MergedNames(existing: seq<Yaml>, incoming: seq<Yaml>, name: string)
    ensures Named(MergedList(existing, incoming), name) <==> Named(existing, name) || Named(incoming, name)
  {
    SurvivingNames(existing, incoming, name);
    NamedConcat(Surviving(existing, incoming), incoming, name);
  }

  // Incoming has an entry of the same name.
  predicate Replaced(item: Yaml, incoming: seq<Yaml>) {
    exists j :: 0 <= j < |incoming| && NameOf(incoming[j]).Some? && NameOf(incoming[j]) == NameOf(item)
  }

  lemma ReplacedIff(item: Yaml, incoming: seq<Yaml>)
    ensures Replaced(item, incoming) <==> NameOf(item).Some? && Named(incoming, NameOf(item).value)
  {
    hide NameOf;
  }

  lemma SurvivingSnoc(existing: seq<Yaml>, incoming: seq<Yaml>, n: nat)
    requires n < |existing|
    ensures Surviving(existing[..n + 1], incoming)
         == Surviving(existing[..n], incoming) + (if Replaced(existing[n], incoming) then [] else [existing[n]])
  {
    assert existing[..n + 1] == existing[..n] + [existing[n]];
    SurvivingConcat(existing[..n], [existing[n]], incoming);
    SurvivingOne(existing[n], incoming);
    ReplacedIff(existing[n], incoming);
    hide NameOf, Named, Replaced, Surviving;
  }

  /** A merged list is the old one without the entries that incoming replaces, in the old
      order, followed by all of incoming. */
  lemma MergedIs(existing: seq<Yaml>, incoming: seq<Yaml>) returns (kept: seq<nat>)
    ensures forall i, j :: 0 <= i < j < |kept| ==> kept[i] < kept[j]
    ensures forall n: nat :: n in kept <==> n < |existing| && !Replaced(existing[n], incoming)
    ensures var m := MergedList(existing, incoming);
      && |m| == |kept| + |incoming| && m[|kept|..] == incoming
      && forall i :: 0 <= i < |kept| ==> kept[i] < |existing| && m[i] == existing[kept[i]]
  {
    hide NameOf, Named, Replaced;
    kept := [];
    for n := 0 to |existing|
      invariant forall i, j :: 0 <= i < j < |kept| ==> kept[i] < kept[j]
      invariant forall k: nat :: k in kept <==> k < n && !Replaced(existing[k], incoming)
      invariant |Surviving(existing[..n], incoming)| == |kept|
      invariant forall i :: 0 <= i < |kept| ==> kept[i] < n && Surviving(existing[..n], incoming)[i] == existing[kept[i]]
    {
      SurvivingSnoc(existing, incoming, n);
      hide Surviving;
      if !Replaced(existing[n], incoming) { kept := kept + [n]; }
    }
    assert existing[..|existing|] == existing;
  }

  // Filtering twice is filtering by both.
  lemma {:induction false} SurvivingTwice(a: seq<Yaml>, b: seq<Yaml>, c: seq<Yaml>)
    ensures Surviving(Surviving(a, b), c) == Surviving(a, MergedList(b, c))
  {
    if a != [] {
      var item, rest := a[0], a[1..];
      SurvivingTwice(rest, b, c);
      SurvivingConcat(Surviving([item], b), Surviving(rest, b), c);
      SurvivingOne(item, b);
      SurvivingOne(item, c);
      SurvivingOne(item, MergedList(b, c));
      assert a == [item] + rest;
      SurvivingConcat([item], rest, b);
      SurvivingConcat([item], rest, MergedList(b, c));
      assert Surviving([], c) == [];
      if NameOf(item).Some? { MergedNames(b, c, NameOf(item).value); }
      hide NameOf, Named, MergedList, Surviving;
    }
  }

  /** Merging is associative. */
  lemma MergeAssociative(a: seq<Yaml>, b: seq<Yaml>, c: seq<Yaml>)
    ensures MergedList(MergedList(a, b), c) == MergedList(a, MergedList(b, c))
  {
    SurvivingConcat(Surviving(a, b), b, c);
    SurvivingTwice(a, b, c);
    hide Surviving;
  }

  /** The empty list is its identity on both sides. */
  lemma {:induction false} MergeIdentity(a: seq<Yaml>)
    ensures MergedList(a, []) == a && MergedList([], a) == a
  {
    if a != [] {
      MergeIdentity(a[1..]);
      assert a == [a[0]] + a[1..];
    }
  }

  predicate AllNamed(items: seq<Yaml>) {
    forall i :: 0 <= i < |items| ==> NameOf(items[i]).Some?
  }

  // Of a list's own entries only the nameless survive it.
  lemma {:induction false} SurvivingSelf(items: seq<Yaml>, incoming: seq<Yaml>)
    requires forall i :: 0 <= i < |items| ==> items[i] in incoming
    ensures Surviving(items, incoming) == [] <==> AllNamed(items)
  {
    if items != [] {
      SurvivingSelf(items[1..], incoming);
      var n := NameOf(items[0]);
      if n.Some? {
        var j :| 0 <= j < |incoming| && incoming[j] == items[0];
        assert NameOf(incoming[j]) == n;
      }
      hide NameOf;
      assert AllNamed(items) <==> n.Some? && AllNamed(items[1..]);
    }
  }

  /** Merging the same list again changes nothing exactly when all its entries are named. */
  lemma MergeIdempotentIff(existing: seq<Yaml>, incoming: seq<Yaml>)
    ensures MergedList(MergedList(existing, incoming), incoming) == MergedList(existing, incoming) <==> AllNamed(incoming)
  {
    var kept := Surviving(existing, incoming);
    SurvivingConcat(kept, incoming, incoming);
    SurvivingTwice(existing, incoming, incoming);
    SurvivingSelf(incoming, incoming);
    SameSurvivors(existing, incoming);
    hide Surviving, AllNamed;
    var again := Surviving(incoming, incoming);
    assert |kept + again + incoming| == |kept| + |again| + |incoming|;
    if again == [] { assert kept + again + incoming == kept + incoming; }
  }

  lemma {:induction false} SameSurvivors(existing: seq<Yaml>, incoming: seq<Yaml>)
    ensures Surviving(existing, MergedList(incoming, incoming)) == Surviving(existing, incoming)
  {
    if existing != [] {
      SameSurvivors(existing[1..], incoming);
      var n := NameOf(existing[0]);
      if n.Some? { MergedNames(incoming, incoming, n.value); }
      hide Named, NameOf, MergedList;
    }
  }

  // mergeNamedList
  method MergeNamedList(existing: seq<Yaml>, incoming: seq<Yaml>) returns (out: seq<Yaml>)
    ensures out == MergedList(existing, incoming)
  {
    var names: set<string> := {};
    for i := 0 to |incoming|
      invariant forall n :: n in names <==> Named(incoming[..i], n)
    {
      var n := NameOf(incoming[i]);
      assert incoming[..i + 1] == incoming[..i] + [incoming[i]];
      forall m ensures Named(incoming[..i + 1], m) <==> Named(incoming[..i], m) || n == Some(m) {
        NamedConcat(incoming[..i], [incoming[i]], m);
        NamedOne(incoming[i], m);
      }
      if n.Some? { names := names + {n.value}; }
    }
    assert incoming[..|incoming|] == incoming;
    out := [];
    for i := 0 to |existing|
      invariant out == Surviving(existing[..i], incoming)
    {
      assert existing[..i + 1] == existing[..i] + [existing[i]];
      SurvivingConcat(existing[..i], [existing[i]], incoming);
      SurvivingOne(existing[i], incoming);
      var n := NameOf(existing[i]);
      if !(n.Some? && n.value in names) { out := out + [existing[i]]; }
    }
    assert existing[..|existing|] == existing;
    out := out + incoming;
  }

  // ---- Names resolve to the last definition ----

  predicate UniqueNames(items: seq<Yaml>) {
    forall i, j :: 0 <= i < j < |items| && NameOf(items[i]).Some? ==> NameOf(items[i]) != NameOf(items[j])
  }

  // The entry a name stands for.
  function Lookup(items: seq<Yaml>, name: string): Option<Yaml> {
    if items == [] then None
    else if NameOf(items[0]) == Some(name) then Some(items[0])
    else Lookup(items[1..], name)
  }

  lemma {:induction false} LookupConcat(a: seq<Yaml>, b: seq<Yaml>, name: string)
    ensures Lookup(a + b, name) == if Lookup(a, name).Some? then Lookup(a, name) else Lookup(b, name)
  {
    hide NameOf;
    if a == [] {
      assert a + b == b;
    } else {
      assert (a + b)[1..] == a[1..] + b;
      LookupConcat(a[1..], b, name);
    }
  }

  lemma {:induction false} LookupFinds(items: seq<Yaml>, name: string)
    ensures Lookup(items, name).Some? <==> Named(items, name)
    ensures Lookup(items, name).Some? ==> Lookup(items, name).value in items && NameOf(Lookup(items, name).value) == Some(name)
  {
    if items != [] {
      LookupFinds(items[1..], name);
      assert items == [items[0]] + items[1..];
      NamedConcat([items[0]], items[1..], name);
      NamedOne(items[0], name);
      hide NameOf, Named;
    }
  }

  lemma {:induction false} LookupSurviving(existing: seq<Yaml>, incoming: seq<Yaml>, name: string)
    requires !Named(incoming, name)
    ensures Lookup(Surviving(existing, incoming), name) == Lookup(existing, name)
  {
    if existing != [] {
      LookupSurviving(existing[1..], incoming, name);
      LookupConcat([existing[0]], Surviving(existing[1..], incoming), name);
      hide NameOf, Named;
      assert Surviving(existing, incoming) ==
        if NameOf(existing[0]).Some? && Named(incoming, NameOf(existing[0]).value) then Surviving(existing[1..], incoming)
        else [existing[0]] + Surviving(existing[1..], incoming);
      assert [existing[0]][1..] == [];
    }
  }

  /** After a merge a name stands for what incoming says, or else for what it did before. */
  lemma MergedLookup(existing: seq<Yaml>, incoming: seq<Yaml>, name: string)
    ensures Lookup(MergedList(existing, incoming), name)
         == if Named(incoming, name) then Lookup(incoming, name) else Lookup(existing, name)
  {
    var kept := Surviving(existing, incoming);
    LookupConcat(kept, incoming, name);
    LookupFinds(kept, name);
    LookupFinds(incoming, name);
    SurvivingNames(existing, incoming, name);
    if !Named(incoming, name) { LookupSurviving(existing, incoming, name); }
    hide Lookup, Surviving, Named;
  }

  lemma {:induction false} SurvivingUnique(existing: seq<Yaml>, incoming: seq<Yaml>)
    requires UniqueNames(existing)
    ensures UniqueNames(Surviving(existing, incoming))
  {
    if existing != [] {
      var item, rest := existing[0], existing[1..];
      assert UniqueNames(rest);
      SurvivingUnique(rest, incoming);
      var n, kept := NameOf(item), Surviving(rest, incoming);
      if n.Some? {
        SurvivingNames(rest, incoming, n.value);
        forall i | 0 <= i < |rest| ensures NameOf(rest[i]) != n {
          assert existing[i + 1] == rest[i];
        }
        assert !Named(rest, n.value);
      }
      UniqueCons(item, kept);
      hide NameOf, Named, UniqueNames;
      assert Surviving(existing, incoming) ==
        if n.Some? && Named(incoming, n.value) then kept else [item] + kept;
    }
  }

  lemma UniqueCons(item: Yaml, rest: seq<Yaml>)
    requires UniqueNames(rest)
    ensures NameOf(item).None? || !Named(rest, NameOf(item).value) ==> UniqueNames([item] + rest)
  {
    var all := [item] + rest;
    assert forall i :: 0 <= i < |rest| ==> all[i + 1] == rest[i];
    if NameOf(item).None? || !Named(rest, NameOf(item).value) {
      forall i, j | 0 <= i < j < |all| && NameOf(all[i]).Some? ensures NameOf(all[i]) != NameOf(all[j]) {
        assert all[j] == rest[j - 1];
        if i > 0 { assert all[i] == rest[i - 1]; }
      }
    }
  }

  /** Merging lists without repeated names repeats none. */
  lemma MergedUnique(existing: seq<Yaml>, incoming: seq<Yaml>)
    requires UniqueNames(existing) && UniqueNames(incoming)
    ensures UniqueNames(MergedList(existing, incoming))
  {
    var kept := Surviving(existing, incoming);
    var all := kept + incoming;
    SurvivingUnique(existing, incoming);
    hide NameOf, Surviving;
    forall i, j | 0 <= i < j < |all| && NameOf(all[i]).Some? ensures NameOf(all[i]) != NameOf(all[j]) {
      if i < |kept| <= j {
        SurvivingNames(existing, incoming, NameOf(all[i]).value);
        assert Named(kept, NameOf(all[i]).value) by { assert kept[i] == all[i]; }
        assert incoming[j - |kept|] == all[j];
      }
    }
  }

  // ---- Whole files ----

  // mergeKubeconfig on the two decoded files; without a usable existing file the incoming one is taken.
  function Merge(existing: Option<Config>, incoming: Config): Config {
    match existing
    case None => incoming
    case Some(e) => Adopt(Adopt(Adopt(Sections(e, incoming), incoming, "current-context"), incoming, "apiVersion"), incoming, "kind")
  }

  function MergeSection(cfg: Config, incoming: Config, section: string): Config {
    cfg[section := Seq(MergedList(Section(cfg, section), Section(incoming, section)))]
  }

  function Sections(cfg: Config, incoming: Config): Config {
    MergeSection(MergeSection(MergeSection(cfg, incoming, "clusters"), incoming, "contexts"), incoming, "users")
  }

  function Adopt(cfg: Config, incoming: Config, key: string): Config {
    if key in incoming then cfg[key := incoming[key]] else cfg
  }

  const SECTIONS := ["clusters", "contexts", "users"]

  class File {
    var config: Config

    constructor (c: Config)
      ensures config == c
    {
      config := c;
    }

    // mergeKubeconfig, once the file is decoded
    method MergeIn(incoming: Config)
      modifies this
      ensures config == Merge(Some(old(config)), incoming)
    {
      hide MergedList, Section;
      ghost var first := MergeSection(config, incoming, "clusters");
      ghost var second := MergeSection(first, incoming, "contexts");
      for i := 0 to 3
        invariant config == [old(config), first, second, MergeSection(second, incoming, "users")][i]
      {
        var section := SECTIONS[i];
        var merged := MergeNamedList(Section(config, section), Section(incoming, section));
        config := config[section := Seq(merged)];
      }
      if "current-context" in incoming { config := config["current-context" := incoming["current-context"]]; }
      if "apiVersion" in incoming { config := config["apiVersion" := incoming["apiVersion"]]; }
      if "kind" in incoming { config := config["kind" := incoming["kind"]]; }
    }
  }

  lemma MergeSections(e: Config, incoming: Config)
    ensures var m := Merge(Some(e), incoming);
      forall s :: s in {"clusters", "contexts", "users"} ==> Section(m, s) == MergedList(Section(e, s), Section(incoming, s))
    ensures var m := Merge(Some(e), incoming);
      "current-context" in m <==> "current-context" in e || "current-context" in incoming
    ensures var m := Merge(Some(e), incoming);
      "current-context" in m
      ==> m["current-context"] == if "current-context" in incoming then incoming["current-context"] else e["current-context"]
  {
    hide MergedList;
    var m := Merge(Some(e), incoming);
    assert "clusters"[1] == 'l' && "contexts"[1] == 'o' && "users"[1] == 's';
    assert "current-context"[1] == 'u' && "apiVersion"[1] == 'p' && "kind"[1] == 'i';
  }

  /** A merge keeps every other key of the file, and takes apiVersion and kind from incoming
      where it has them. */
  lemma MergeOtherKeys(e: Config, incoming: Config, key: string)
    requires key !in {"clusters", "contexts", "users", "current-context"}
    ensures var m := Merge(Some(e), incoming);
      && (key in m <==> key in e || (key in {"apiVersion", "kind"} && key in incoming))
      && (key in m ==> m[key] == if key in {"apiVersion", "kind"} && key in incoming then incoming[key] else e[key])
  {
    hide MergedList;
  }

  // ---- Reference closure ----

  // The text under a key of a map, if it is text.
  function TextAt(item: Yaml, key: string): Option<string> {
    if item.Map? && key in item.entries && item.entries[key].Str? then Some(item.entries[key].text) else None
  }

  predicate Refers(context: Yaml, clusters: seq<Yaml>, users: seq<Yaml>) {
    && context.Map? && "context" in context.entries
    && var inner := context.entries["context"];
       && TextAt(inner, "cluster").Some? && Named(clusters, TextAt(inner, "cluster").value)
       && TextAt(inner, "user").Some? && Named(users, TextAt(inner, "user").value)
  }

  // Every context names a present cluster and user; current-context names a present context.
  predicate Closed(cfg: Config) {
    && (forall c :: c in Section(cfg, "contexts") ==> Refers(c, Section(cfg, "clusters"), Section(cfg, "users")))
    && ("current-context" in cfg ==>
         cfg["current-context"].Str? && Named(Section(cfg, "contexts"), cfg["current-context"].text))
  }

  predicate Unique(cfg: Config) {
    && UniqueNames(Section(cfg, "clusters"))
    && UniqueNames(Section(cfg, "contexts"))
    && UniqueNames(Section(cfg, "users"))
  }

  predicate Sound(cfg: Config) {
    Closed(cfg) && Unique(cfg)
  }

  lemma RefersMore(context: Yaml, clusters: seq<Yaml>, users: seq<Yaml>, moreClusters: seq<Yaml>, moreUsers: seq<Yaml>)
    requires Refers(context, clusters, users)
    requires forall n: string :: Named(clusters, n) ==> Named(moreClusters, n)
    requires forall n: string :: Named(users, n) ==> Named(moreUsers, n)
    ensures Refers(context, moreClusters, moreUsers)
  {
    hide Named, TextAt;
  }

  lemma {:induction false} SurvivorsAreOld(existing: seq<Yaml>, incoming: seq<Yaml>, item: Yaml)
    requires item in Surviving(existing, incoming)
    ensures item in existing
  {
    if existing != [] && item != existing[0] {
      SurvivorsAreOld(existing[1..], incoming, item);
    }
  }

  /** Merging one closed file with unique names into another gives such a file. */
  lemma MergeKeepsSound(existing: Option<Config>, incoming: Config)
    requires existing.Some? ==> Sound(existing.value)
    requires Sound(incoming)
    ensures Sound(Merge(existing, incoming))
  {
    if existing.Some? {
      var e, m := existing.value, Merge(existing, incoming);
      MergeSections(e, incoming);
      hide Merge;
      MergeKeepsUnique(e, incoming, m);
      MergeKeepsClosed(e, incoming, m);
    }
  }

  lemma MergeKeepsUnique(e: Config, incoming: Config, m: Config)
    requires Unique(e) && Unique(incoming)
    requires forall s :: s in {"clusters", "contexts", "users"} ==> Section(m, s) == MergedList(Section(e, s), Section(incoming, s))
    ensures Unique(m)
  {
    hide Section, MergedList, UniqueNames;
    MergedUnique(Section(e, "clusters"), Section(incoming, "clusters"));
    MergedUnique(Section(e, "contexts"), Section(incoming, "contexts"));
    MergedUnique(Section(e, "users"), Section(incoming, "users"));
  }

  lemma MergeKeepsClosed(e: Config, incoming: Config, m: Config)
    requires Closed(e) && Closed(incoming)
    requires forall s :: s in {"clusters", "contexts", "users"} ==> Section(m, s) == MergedList(Section(e, s), Section(incoming, s))
    requires "current-context" in m <==> "current-context" in e || "current-context" in incoming
    requires "current-context" in m
      ==> m["current-context"] == if "current-context" in incoming then incoming["current-context"] else e["current-context"]
    ensures Closed(m)
  {
    hide Section, Named, Refers, Surviving;
    forall s, n: string | s in {"clusters", "contexts", "users"}
      ensures Named(Section(e, s), n) || Named(Section(incoming, s), n) ==> Named(Section(m, s), n)
    {
      MergedNames(Section(e, s), Section(incoming, s), n);
    }
    forall c | c in Section(m, "contexts") ensures Refers(c, Section(m, "clusters"), Section(m, "users")) {
      if c in Section(incoming, "contexts") {
        RefersMore(c, Section(incoming, "clusters"), Section(incoming, "users"), Section(m, "clusters"), Section(m, "users"));
      } else {
        SurvivorsAreOld(Section(e, "contexts"), Section(incoming, "contexts"), c);
        RefersMore(c, Section(e, "clusters"), Section(e, "users"), Section(m, "clusters"), Section(m, "users"));
      }
    }
  }

  // ---- Whole runs of merges ----

  function MergeAll(start: Option<Config>, cfgs: seq<Config>): Option<Config> {
    if cfgs == [] then start
    else Some(Merge(MergeAll(start, cfgs[..|cfgs| - 1]), cfgs[|cfgs| - 1]))
  }

  /** However many files are merged in, the result stays closed and its names unique. */
  lemma {:induction false} RunKeepsSound(start: Option<Config>, cfgs: seq<Config>)
    requires start.Some? ==> Sound(start.value)
    requires forall i :: 0 <= i < |cfgs| ==> Sound(cfgs[i])
    ensures MergeAll(start, cfgs).Some? ==> Sound(MergeAll(start, cfgs).value)
  {
    if cfgs != [] {
      var init := cfgs[..|cfgs| - 1];
      assert forall i :: 0 <= i < |init| ==> init[i] == cfgs[i];
      RunKeepsSound(start, init);
      MergeKeepsSound(MergeAll(start, init), cfgs[|cfgs| - 1]);
      hide Sound, Merge;
    }
  }

  // What a name meant in the last file that defined it.
  function LastMeaning(start: Option<Config>, cfgs: seq<Config>, section: string, name: string): Option<Yaml> {
    if cfgs == [] then
      if start.Some? then Lookup(Section(start.value, section), name) else None
    else if Named(Section(cfgs[|cfgs| - 1], section), name) then Lookup(Section(cfgs[|cfgs| - 1], section), name)
    else LastMeaning(start, cfgs[..|cfgs| - 1], section, name)
  }

  /** Over a whole run each name resolves to the last file that defined it. */
  lemma {:induction false} RunResolves(start: Option<Config>, cfgs: seq<Config>, section: string, name: string)
    requires section in {"clusters", "contexts", "users"}
    ensures var end := MergeAll(start, cfgs);
      (if end.Some? then Lookup(Section(end.value, section), name) else None) == LastMeaning(start, cfgs, section, name)
  {
    if cfgs != [] {
      var init, last := cfgs[..|cfgs| - 1], cfgs[|cfgs| - 1];
      RunResolves(start, init, section, name);
      var before := MergeAll(start, init);
      LookupFinds(Section(last, section), name);
      if before.Some? {
        MergeSections(before.value, last);
        MergedLookup(Section(before.value, section), Section(last, section), name);
      }
      hide Merge, MergedList, Lookup, Named, Section;
      assert MergeAll(start, cfgs) == Some(Merge(before, last));
      if before.None? {
        NothingBefore(start, init, section, name);
        assert Merge(before, last) == last by { NoFile(last); }
      }
    }
  }

  lemma NoFile(incoming: Config)
    ensures Merge(None, incoming) == incoming
  {
  }

  lemma NothingBefore(start: Option<Config>, cfgs: seq<Config>, section: string, name: string)
    requires MergeAll(start, cfgs).None?
    ensures LastMeaning(start, cfgs, section, name).None?
  {
  }

  // ---- The kubeconfig k3s hands out ----

  function ClusterEntry(item: Yaml, name: string, retarget: string -> string): Yaml {
    if !item.Map? then item
    else
      var m := item.entries["name" := Str(name)];
      if "cluster" in m && m["cluster"].Map? && TextAt(m["cluster"], "server").Some?
      then Map(m["cluster" := Map(m["cluster"].entries["server" := Str(retarget(TextAt(m["cluster"], "server").value))])])
      else Map(m)
  }

  function ContextEntry(item: Yaml, name: string, user: string): Yaml {
    if !item.Map? then item
    else
      var m := item.entries["name" := Str(name)];
      if "context" in m && m["context"].Map?
      then Map(m["context" := Map(m["context"].entries["cluster" := Str(name)]["user" := Str(user)])])
      else Map(m)
  }

  function UserEntry(item: Yaml, user: string): Yaml {
    if item.Map? then Map(item.entries["name" := Str(user)]) else item
  }

  function UserName(name: string): string {
    "clusterAdmin_miniblue_" + name
  }

  function MapSection(cfg: Config, section: string, f: Yaml -> Yaml): Config {
    if section in cfg && cfg[section].Seq?
    then cfg[section := Seq(seq(|cfg[section].items|, i requires 0 <= i < |cfg[section].items| => f(cfg[section].items[i])))]
    else cfg
  }

  function Rewritten(cfg: Config, name: string, retarget: string -> string): Config {
    MapSection(MapSection(MapSection(cfg,
      "clusters", (y: Yaml) => ClusterEntry(y, name, retarget)),
      "contexts", (y: Yaml) => ContextEntry(y, name, UserName(name))),
      "users", (y: Yaml) => UserEntry(y, UserName(name)))
    ["current-context" := Str(name)]
  }

  method RewriteSection(cfg: Config, section: string, f: Yaml -> Yaml) returns (out: Config)
    ensures out == MapSection(cfg, section, f)
  {
    out := cfg;
    if section in cfg && cfg[section].Seq? {
      var items := cfg[section].items;
      for i := 0 to |items|
        invariant |items| == |cfg[section].items|
        invariant forall j :: 0 <= j < |items| ==> items[j] == if j < i then f(cfg[section].items[j]) else cfg[section].items[j]
      {
        items := items[i := f(items[i])];
      }
      var all := cfg[section].items;
      assert items == seq(|all|, i requires 0 <= i < |all| => f(all[i]));
      out := cfg[section := Seq(items)];
    }
  }

  // k3sBackend.Kubeconfig on the decoded file
  method Rewrite(raw: Config, name: string, retarget: string -> string) returns (cfg: Config)
    ensures cfg == Rewritten(raw, name, retarget)
  {
    var user := UserName(name);
    cfg := RewriteSection(raw, "clusters", (y: Yaml) => ClusterEntry(y, name, retarget));
    cfg := RewriteSection(cfg, "contexts", (y: Yaml) => ContextEntry(y, name, user));
    cfg := RewriteSection(cfg, "users", (y: Yaml) => UserEntry(y, user));
    cfg := cfg["current-context" := Str(name)];
  }

  /** A cluster of the rewritten file goes by the new name and its server is the retargeted
      one; every other key stays. */
  lemma ClusterSays(item: Yaml, name: string, retarget: string -> string)
    requires item.Map?
    ensures ClusterEntry(item, name, retarget).Map?
    ensures var m, c := item.entries, ClusterEntry(item, name, retarget).entries;
      && c.Keys == m.Keys + {"name"} && c["name"] == Str(name)
      && (forall k :: k in m && k != "name" && k != "cluster" ==> c[k] == m[k])
      && ("cluster" in m && TextAt(m["cluster"], "server").Some? ==>
            && c["cluster"].Map? && c["cluster"].entries.Keys == m["cluster"].entries.Keys
            && c["cluster"].entries["server"] == Str(retarget(TextAt(m["cluster"], "server").value))
            && forall k :: k in m["cluster"].entries && k != "server" ==> c["cluster"].entries[k] == m["cluster"].entries[k])
      && ("cluster" in m && TextAt(m["cluster"], "server").None? ==> c["cluster"] == m["cluster"])
  {
    DifferentKeys();
  }

  /** A context goes by the name and refers to the cluster and the user; every other key stays. */
  lemma ContextSays(item: Yaml, name: string, user: string)
    requires item.Map?
    ensures ContextEntry(item, name, user).Map?
    ensures var m, c := item.entries, ContextEntry(item, name, user).entries;
      && c.Keys == m.Keys + {"name"} && c["name"] == Str(name)
      && (forall k :: k in m && k != "name" && k != "context" ==> c[k] == m[k])
      && ("context" in m && m["context"].Map? ==>
            && c["context"].Map? && c["context"].entries.Keys == m["context"].entries.Keys + {"cluster", "user"}
            && c["context"].entries["cluster"] == Str(name) && c["context"].entries["user"] == Str(user)
            && forall k :: k in m["context"].entries && k != "cluster" && k != "user" ==> c["context"].entries[k] == m["context"].entries[k])
      && ("context" in m && !m["context"].Map? ==> c["context"] == m["context"])
  {
    DifferentKeys();
  }

  /** A user goes by the user's name; every other key stays. */
  lemma UserSays(item: Yaml, user: string)
    requires item.Map?
    ensures UserEntry(item, user).Map?
    ensures var m, c := item.entries, UserEntry(item, user).entries;
      c.Keys == m.Keys + {"name"} && c["name"] == Str(user) && forall k :: k in m && k != "name" ==> c[k] == m[k]
  {
  }

  lemma DifferentKeys()
    ensures "name" != "cluster" && "name" != "context" && "cluster" != "user"
  {
    assert "name"[0] == 'n' && "cluster"[0] == 'c' && "context"[0] == 'c' && "user"[0] == 'u';
  }

  /** The rewritten file as a whole: its three sections entry by entry, its current context,
      and every other key as it was. */
  lemma RewrittenFile(raw: Config, name: string, retarget: string -> string)
    ensures var r := Rewritten(raw, name, retarget);
      && r.Keys == raw.Keys + {"current-context"} && r["current-context"] == Str(name)
      && forall k :: k in raw && k !in {"clusters", "contexts", "users", "current-context"} ==> r[k] == raw[k]
  {
    hide ClusterEntry, ContextEntry, UserEntry;
  }

  // The section holds one map and otherwise nothing that could take a name.
  predicate OneMap(items: seq<Yaml>) {
    && (exists i :: 0 <= i < |items| && items[i].Map?)
    && (forall i, j :: 0 <= i < j < |items| ==> !(items[i].Map? && items[j].Map?))
  }

  predicate HasContext(item: Yaml) {
    item.Map? && "context" in item.entries && item.entries["context"].Map?
  }

  // The shape k3s writes: one cluster, one user, one context, which has its inner map.
  predicate SingleCluster(cfg: Config) {
    && OneMap(Section(cfg, "clusters"))
    && OneMap(Section(cfg, "users"))
    && |Section(cfg, "contexts")| == 1
    && HasContext(Section(cfg, "contexts")[0])
  }

  lemma RewrittenSections(cfg: Config, name: string, retarget: string -> string)
    ensures var r := Rewritten(cfg, name, retarget);
      && |Section(r, "clusters")| == |Section(cfg, "clusters")|
      && |Section(r, "contexts")| == |Section(cfg, "contexts")|
      && |Section(r, "users")| == |Section(cfg, "users")|
      && "current-context" in r && r["current-context"] == Str(name)
    ensures var r := Rewritten(cfg, name, retarget);
      && (forall i :: 0 <= i < |Section(cfg, "clusters")| ==>
           Section(r, "clusters")[i] == ClusterEntry(Section(cfg, "clusters")[i], name, retarget))
      && (forall i :: 0 <= i < |Section(cfg, "contexts")| ==>
           Section(r, "contexts")[i] == ContextEntry(Section(cfg, "contexts")[i], name, UserName(name)))
      && (forall i :: 0 <= i < |Section(cfg, "users")| ==>
           Section(r, "users")[i] == UserEntry(Section(cfg, "users")[i], UserName(name)))
  {
    hide ClusterEntry, ContextEntry, UserEntry, UserName;
    assert "clusters"[1] == 'l' && "contexts"[1] == 'o' && "users"[1] == 's' && "current-context"[1] == 'u';
  }

  lemma EntryNames(item: Yaml, name: string, retarget: string -> string)
    ensures NameOf(ClusterEntry(item, name, retarget)) == if item.Map? then Some(name) else None
    ensures NameOf(ContextEntry(item, name, UserName(name))) == if item.Map? then Some(name) else None
    ensures NameOf(UserEntry(item, UserName(name))) == if item.Map? then Some(UserName(name)) else None
  {
    assert "name"[0] == 'n' && "cluster"[0] == 'c' && "context"[0] == 'c';
  }

  // Renaming every map of a list to one name leaves that name present once exactly when there is one map.
  lemma RenamedOnce(items: seq<Yaml>, out: seq<Yaml>, name: string)
    requires |out| == |items|
    requires forall i :: 0 <= i < |items| ==> NameOf(out[i]) == if items[i].Map? then Some(name) else None
    ensures Named(out, name) && UniqueNames(out) <==> OneMap(items)
    ensures Named(out, name) <==> exists i :: 0 <= i < |items| && items[i].Map?
  {
    hide NameOf;
    if i :| 0 <= i < |items| && items[i].Map? {
      assert NameOf(out[i]) == Some(name);
    }
    if UniqueNames(out) {
      forall i, j | 0 <= i < j < |items| ensures !(items[i].Map? && items[j].Map?) {
        assert NameOf(out[i]).Some? ==> NameOf(out[i]) != NameOf(out[j]);
      }
    }
  }

  lemma RewrittenContextRefers(item: Yaml, name: string, clusters: seq<Yaml>, users: seq<Yaml>)
    requires Named(clusters, name) && Named(users, UserName(name))
    ensures Refers(ContextEntry(item, name, UserName(name)), clusters, users) <==> HasContext(item)
  {
    hide Named, UserName;
    assert "name"[0] == 'n' && "context"[0] == 'c' && "cluster"[0] == 'c' && "user"[0] == 'u';
  }

  lemma NeedsContext(item: Yaml, name: string, clusters: seq<Yaml>, users: seq<Yaml>)
    ensures Refers(ContextEntry(item, name, UserName(name)), clusters, users) ==>
      HasContext(item) && Named(clusters, name) && Named(users, UserName(name))
  {
    hide Named, UserName;
    assert "name"[0] == 'n' && "context"[0] == 'c' && "cluster"[0] == 'c' && "user"[0] == 'u';
  }

  /** The rewritten kubeconfig is closed with unique names exactly when k3s wrote one
      cluster, one user and one well-formed context. */
  lemma RewrittenSoundIff(raw: Config, name: string, retarget: string -> string)
    ensures Sound(Rewritten(raw, name, retarget)) <==> SingleCluster(raw)
  {
    var r := Rewritten(raw, name, retarget);
    RewrittenSections(raw, name, retarget);
    forall item: Yaml { EntryNames(item, name, retarget); }
    hide Rewritten, Section, ClusterEntry, ContextEntry, UserEntry, UserName, NameOf;
    RenamedOnce(Section(raw, "clusters"), Section(r, "clusters"), name);
    RenamedOnce(Section(raw, "contexts"), Section(r, "contexts"), name);
    RenamedOnce(Section(raw, "users"), Section(r, "users"), UserName(name));
    if SingleCluster(raw) {
      RewrittenContextRefers(Section(raw, "contexts")[0], name, Section(r, "clusters"), Section(r, "users"));
    }
    if Sound(r) { SoundNeeds(raw, r, name); }
  }

  lemma SoundNeeds(raw: Config, r: Config, name: string)
    requires Sound(r) && "current-context" in r && r["current-context"] == Str(name)
    requires |Section(r, "contexts")| == |Section(raw, "contexts")|
    requires forall i :: 0 <= i < |Section(raw, "contexts")| ==>
      Section(r, "contexts")[i] == ContextEntry(Section(raw, "contexts")[i], name, UserName(name))
    requires Named(Section(r, "clusters"), name) && UniqueNames(Section(r, "clusters")) <==> OneMap(Section(raw, "clusters"))
    requires Named(Section(r, "contexts"), name) && UniqueNames(Section(r, "contexts")) <==> OneMap(Section(raw, "contexts"))
    requires Named(Section(r, "users"), UserName(name)) && UniqueNames(Section(r, "users")) <==> OneMap(Section(raw, "users"))
    ensures SingleCluster(raw)
  {
    hide Section, ContextEntry, UserName, Named, UniqueNames, HasContext, Refers;
    var cs := Section(raw, "contexts");
    forall i | 0 <= i < |cs| ensures HasContext(cs[i]) && Named(Section(r, "clusters"), name) && Named(Section(r, "users"), UserName(name)) {
      assert Section(r, "contexts")[i] in Section(r, "contexts");
      NeedsContext(cs[i], name, Section(r, "clusters"), Section(r, "users"));
    }
    AllMapsOne(cs);
  }

  lemma TwoMaps(items: seq<Yaml>)
    requires |items| > 1 && items[0].Map? && items[1].Map?
    ensures !OneMap(items)
  {
  }

  lemma AllMapsOne(items: seq<Yaml>)
    requires OneMap(items) && forall i :: 0 <= i < |items| ==> HasContext(items[i])
    ensures |items| == 1
  {
    assert |items| > 0;
    hide OneMap;
    if |items| > 1 { TwoMaps(items); }
  }

  // The credentials handed out for some clusters, one file each.
  function Credentials(raws: seq<Config>, names: seq<string>, retarget: string -> string): seq<Config>
    requires |names| == |raws|
  {
    seq(|raws|, i requires 0 <= i < |raws| => Rewritten(raws[i], names[i], retarget))
  }

  lemma CredentialsEach(raws: seq<Config>, names: seq<string>, retarget: string -> string, i: nat, name: string)
    requires |names| == |raws| && i < |raws| && SingleCluster(raws[i])
    ensures var c := Credentials(raws, names, retarget)[i];
      Sound(c) && (Named(Section(c, "clusters"), name) <==> name == names[i])
  {
    hide Rewritten, Sound, SingleCluster, Section, Named;
    RewrittenSoundIff(raws[i], names[i], retarget);
    OnlyItsName(raws[i], names[i], retarget, name);
  }

  /** Credentials of any number of k3s clusters can be merged, in any order, into a sound
      file: the result is sound, and a cluster's name still stands for its own entry as
      long as no later credentials use that name. */
  lemma CredentialsMerge(start: Option<Config>, raws: seq<Config>, names: seq<string>, retarget: string -> string, k: nat)
    requires start.Some? ==> Sound(start.value)
    requires |names| == |raws| && k < |raws|
    requires forall i :: 0 <= i < |raws| ==> SingleCluster(raws[i])
    requires forall i :: k < i < |raws| ==> names[i] != names[k]
    ensures var cfgs := Credentials(raws, names, retarget);
      var end := MergeAll(start, cfgs);
      && end.Some? && Sound(end.value)
      && Lookup(Section(end.value, "clusters"), names[k]) == Lookup(Section(cfgs[k], "clusters"), names[k])
      && Lookup(Section(end.value, "clusters"), names[k]).Some?
  {
    var cfgs := Credentials(raws, names, retarget);
    assert |cfgs| == |raws|;
    hide Credentials, Rewritten, Sound, SingleCluster, Section, Named, Lookup, Merge;
    forall i | 0 <= i < |raws|
      ensures Sound(cfgs[i]) && (Named(Section(cfgs[i], "clusters"), names[k]) <==> names[k] == names[i])
    {
      CredentialsEach(raws, names, retarget, i, names[k]);
    }
    RunKeepsSound(start, cfgs);
    RunResolves(start, cfgs, "clusters", names[k]);
    LastIs(start, cfgs, names[k], k);
    LookupFinds(Section(cfgs[k], "clusters"), names[k]);
  }

  lemma OnlyItsName(raw: Config, name: string, retarget: string -> string, other: string)
    requires SingleCluster(raw)
    ensures Named(Section(Rewritten(raw, name, retarget), "clusters"), other) <==> other == name
  {
    var r := Rewritten(raw, name, retarget);
    RewrittenSections(raw, name, retarget);
    forall item: Yaml { EntryNames(item, name, retarget); }
    hide Rewritten, Section, ClusterEntry, ContextEntry, UserEntry, UserName, NameOf;
    RenamedOnce(Section(raw, "clusters"), Section(r, "clusters"), name);
  }

  lemma {:induction false} LastIs(start: Option<Config>, cfgs: seq<Config>, name: string, k: nat)
    requires k < |cfgs| && Named(Section(cfgs[k], "clusters"), name)
    requires forall i :: k < i < |cfgs| ==> !Named(Section(cfgs[i], "clusters"), name)
    ensures LastMeaning(start, cfgs, "clusters", name) == Lookup(Section(cfgs[k], "clusters"), name)
  {
    hide Named, Section, Lookup;
    if k < |cfgs| - 1 {
      LastIs(start, cfgs[..|cfgs| - 1], name, k);
    }
  }
}
