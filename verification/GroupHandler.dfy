/** The resource-group handlers. Deleting a group runs down a fixed list of prefix
    deletions, stopping on the way to tear down k3s clusters and VMs. */
module GroupHandlers {
  import opened Options
  import opened Text
  import opened Keys
  import opened Keyed
  import opened Worlds
  import opened VmSpec
  import opened AksSpec
  import opened GroupSpec
  import opened Machines
  import opened VmHandlers
  import opened AksHandlers

  // What a list of prefix deletions leaves.
  ghost function Swept(view: map<Key, Value>, fs: seq<seq<string>>, sub: string, rg: string): map<Key, Value> {
    map k | k in view && !InCascade(fs, sub, rg, k) :: view[k]
  }

  lemma SweepNone(view: map<Key, Value>, sub: string, rg: string)
    ensures Swept(view, [], sub, rg) == view
  {
  }

  lemma SweepOne(view: map<Key, Value>, fs: seq<seq<string>>, i: nat, sub: string, rg: string)
    requires i < |fs|
    ensures var v := Swept(view, fs[..i], sub, rg); v - Under(v, fs[i] + [sub, rg]) == Swept(view, fs[..i + 1], sub, rg)
  {
    forall k ensures InCascade(fs[..i + 1], sub, rg, k) <==> InCascade(fs[..i], sub, rg, k) || ProperPrefix(fs[i] + [sub, rg], Segs(k)) {
      CascadeSnoc(fs, i, sub, rg, k);
    }
    hide InCascade;
  }

  lemma CascadeSnoc(fs: seq<seq<string>>, i: nat, sub: string, rg: string, k: Key)
    requires i < |fs|
    ensures InCascade(fs[..i + 1], sub, rg, k) <==> InCascade(fs[..i], sub, rg, k) || ProperPrefix(fs[i] + [sub, rg], Segs(k))
  {
    if InCascade(fs[..i], sub, rg, k) {
      var j :| 0 <= j < i && ProperPrefix(fs[..i][j] + [sub, rg], Segs(k));
      assert fs[..i + 1][j] == fs[..i][j];
    }
    if ProperPrefix(fs[i] + [sub, rg], Segs(k)) { assert fs[..i + 1][i] == fs[i]; }
    if InCascade(fs[..i + 1], sub, rg, k) {
      var j :| 0 <= j < i + 1 && ProperPrefix(fs[..i + 1][j] + [sub, rg], Segs(k));
      if j < i { assert fs[..i][j] == fs[..i + 1][j]; }
    }
  }

  // "family:sub:rg:" goes.
  method Drop(store: KeyedStore<Value>, f: seq<string>, sub: string, rg: string,
              ghost v0: map<Key, Value>, ghost fs: seq<seq<string>>, ghost i: nat)
    requires store.Valid() && i < |fs| && fs[i] == f && |f| > 0 && ColonFree(f) && ColonFree([sub, rg])
    requires store.view == Swept(v0, fs[..i], sub, rg)
    modifies store, store.flat
    ensures store.Valid() && store.view == Swept(v0, fs[..i + 1], sub, rg)
  {
    SweepOne(v0, fs, i, sub, rg);
    assert ColonFree(f + [sub, rg]);
    store.DeleteByPrefix(f + [sub, rg]);
  }

  lemma BeforeWords()
    ensures forall i :: 0 <= i < |BEFORE_CLUSTERS| ==> |BEFORE_CLUSTERS[i]| > 0 && ColonFree(BEFORE_CLUSTERS[i])
  {
    forall f | f in BEFORE_CLUSTERS ensures |f| > 0 && ColonFree(f) {}
  }

  lemma AfterWords()
    ensures forall i :: 0 <= i < |AFTER_VMS| ==> |AFTER_VMS[i]| > 0 && ColonFree(AFTER_VMS[i])
  {
    hide ColonFree;
    AfterWords1();
    AfterWords2();
    AfterWords3();
    AfterWords4();
  }

  lemma AfterWords1()
    ensures forall i :: 0 <= i < 5 ==> |AFTER_VMS[i]| > 0 && ColonFree(AFTER_VMS[i])
  {
  }

  lemma AfterWords2()
    ensures forall i :: 5 <= i < 9 ==> |AFTER_VMS[i]| > 0 && ColonFree(AFTER_VMS[i])
  {
  }

  lemma AfterWords3()
    ensures forall i :: 9 <= i < 13 ==> |AFTER_VMS[i]| > 0 && ColonFree(AFTER_VMS[i])
  {
  }

  lemma AfterWords4()
    ensures forall i :: 13 <= i < 17 ==> |AFTER_VMS[i]| > 0 && ColonFree(AFTER_VMS[i])
  {
  }

  // The deletions before the k3s clusters are torn down.
  method SweepBefore(store: KeyedStore<Value>, sub: string, rg: string)
    requires store.Valid() && ColonFree([sub, rg])
    modifies store, store.flat
    ensures store.Valid() && store.view == Swept(old(store.view), BEFORE_CLUSTERS, sub, rg)
  {
    ghost var v0 := store.view;
    SweepNone(v0, sub, rg);
    assert BEFORE_CLUSTERS[..0] == [] && BEFORE_CLUSTERS[..15] == BEFORE_CLUSTERS;
    hide Swept, ColonFree, Represents;
    SweepBefore1(store, sub, rg, v0);
    SweepBefore2(store, sub, rg, v0);
    SweepBefore3(store, sub, rg, v0);
  }

  method SweepBefore1(store: KeyedStore<Value>, sub: string, rg: string, ghost v0: map<Key, Value>)
    requires store.Valid() && ColonFree([sub, rg]) && store.view == Swept(v0, BEFORE_CLUSTERS[..0], sub, rg)
    modifies store, store.flat
    ensures store.Valid() && store.view == Swept(v0, BEFORE_CLUSTERS[..5], sub, rg)
  {
    BeforeWords();
    hide Swept, ColonFree, Represents;
    Drop(store, ["vnet"], sub, rg, v0, BEFORE_CLUSTERS, 0);
    Drop(store, ["subnet"], sub, rg, v0, BEFORE_CLUSTERS, 1);
    Drop(store, ["func"], sub, rg, v0, BEFORE_CLUSTERS, 2);
    Drop(store, ["acr", "registry"], sub, rg, v0, BEFORE_CLUSTERS, 3);
    Drop(store, ["eg", "topic"], sub, rg, v0, BEFORE_CLUSTERS, 4);
  }

  method SweepBefore2(store: KeyedStore<Value>, sub: string, rg: string, ghost v0: map<Key, Value>)
    requires store.Valid() && ColonFree([sub, rg]) && store.view == Swept(v0, BEFORE_CLUSTERS[..5], sub, rg)
    modifies store, store.flat
    ensures store.Valid() && store.view == Swept(v0, BEFORE_CLUSTERS[..10], sub, rg)
  {
    BeforeWords();
    hide Swept, ColonFree, Represents;
    Drop(store, ["dns", "zone"], sub, rg, v0, BEFORE_CLUSTERS, 5);
    Drop(store, ["dns", "record"], sub, rg, v0, BEFORE_CLUSTERS, 6);
    Drop(store, ["redis"], sub, rg, v0, BEFORE_CLUSTERS, 7);
    Drop(store, ["pgflex", "server"], sub, rg, v0, BEFORE_CLUSTERS, 8);
    Drop(store, ["pgflex", "db"], sub, rg, v0, BEFORE_CLUSTERS, 9);
  }

  method SweepBefore3(store: KeyedStore<Value>, sub: string, rg: string, ghost v0: map<Key, Value>)
    requires store.Valid() && ColonFree([sub, rg]) && store.view == Swept(v0, BEFORE_CLUSTERS[..10], sub, rg)
    modifies store, store.flat
    ensures store.Valid() && store.view == Swept(v0, BEFORE_CLUSTERS[..15], sub, rg)
  {
    BeforeWords();
    hide Swept, ColonFree, Represents;
    Drop(store, ["dbmysql", "server"], sub, rg, v0, BEFORE_CLUSTERS, 10);
    Drop(store, ["dbmysql", "db"], sub, rg, v0, BEFORE_CLUSTERS, 11);
    Drop(store, ["sqldb", "server"], sub, rg, v0, BEFORE_CLUSTERS, 12);
    Drop(store, ["sqldb", "db"], sub, rg, v0, BEFORE_CLUSTERS, 13);
    Drop(store, ["aci", "containergroup"], sub, rg, v0, BEFORE_CLUSTERS, 14);
  }

  // The deletions after the VMs are torn down.
  method SweepAfter(store: KeyedStore<Value>, sub: string, rg: string)
    requires store.Valid() && ColonFree([sub, rg])
    modifies store, store.flat
    ensures store.Valid() && store.view == Swept(old(store.view), AFTER_VMS, sub, rg)
  {
    ghost var v0 := store.view;
    SweepNone(v0, sub, rg);
    assert AFTER_VMS[..0] == [] && AFTER_VMS[..17] == AFTER_VMS;
    hide Swept, ColonFree, Represents;
    SweepAfter1(store, sub, rg, v0);
    SweepAfter2(store, sub, rg, v0);
    SweepAfter3(store, sub, rg, v0);
    SweepAfter4(store, sub, rg, v0);
  }

  method SweepAfter1(store: KeyedStore<Value>, sub: string, rg: string, ghost v0: map<Key, Value>)
    requires store.Valid() && ColonFree([sub, rg]) && store.view == Swept(v0, AFTER_VMS[..0], sub, rg)
    modifies store, store.flat
    ensures store.Valid() && store.view == Swept(v0, AFTER_VMS[..5], sub, rg)
  {
    AfterWords();
    hide Swept, ColonFree, Represents;
    Drop(store, ["vm"], sub, rg, v0, AFTER_VMS, 0);
    Drop(store, ["vmsvc"], sub, rg, v0, AFTER_VMS, 1);
    Drop(store, ["msi", "identity"], sub, rg, v0, AFTER_VMS, 2);
    Drop(store, ["nsg"], sub, rg, v0, AFTER_VMS, 3);
    Drop(store, ["nsgrule"], sub, rg, v0, AFTER_VMS, 4);
  }

  method SweepAfter2(store: KeyedStore<Value>, sub: string, rg: string, ghost v0: map<Key, Value>)
    requires store.Valid() && ColonFree([sub, rg]) && store.view == Swept(v0, AFTER_VMS[..5], sub, rg)
    modifies store, store.flat
    ensures store.Valid() && store.view == Swept(v0, AFTER_VMS[..9], sub, rg)
  {
    AfterWords();
    hide Swept, ColonFree, Represents;
    Drop(store, ["publicip"], sub, rg, v0, AFTER_VMS, 5);
    Drop(store, ["lb"], sub, rg, v0, AFTER_VMS, 6);
    Drop(store, ["appgw"], sub, rg, v0, AFTER_VMS, 7);
    Drop(store, ["blob", "account"], sub, rg, v0, AFTER_VMS, 8);
  }

  method SweepAfter3(store: KeyedStore<Value>, sub: string, rg: string, ghost v0: map<Key, Value>)
    requires store.Valid() && ColonFree([sub, rg]) && store.view == Swept(v0, AFTER_VMS[..9], sub, rg)
    modifies store, store.flat
    ensures store.Valid() && store.view == Swept(v0, AFTER_VMS[..13], sub, rg)
  {
    AfterWords();
    hide Swept, ColonFree, Represents;
    Drop(store, ["blob", "armcontainer"], sub, rg, v0, AFTER_VMS, 9);
    Drop(store, ["cosmos", "account"], sub, rg, v0, AFTER_VMS, 10);
    Drop(store, ["cosmos", "sqldb"], sub, rg, v0, AFTER_VMS, 11);
    Drop(store, ["cosmos", "container"], sub, rg, v0, AFTER_VMS, 12);
  }

  method SweepAfter4(store: KeyedStore<Value>, sub: string, rg: string, ghost v0: map<Key, Value>)
    requires store.Valid() && ColonFree([sub, rg]) && store.view == Swept(v0, AFTER_VMS[..13], sub, rg)
    modifies store, store.flat
    ensures store.Valid() && store.view == Swept(v0, AFTER_VMS[..17], sub, rg)
  {
    AfterWords();
    hide Swept, ColonFree, Represents;
    Drop(store, ["sb", "namespace"], sub, rg, v0, AFTER_VMS, 13);
    Drop(store, ["sb", "armqueue"], sub, rg, v0, AFTER_VMS, 14);
    Drop(store, ["sb", "armtopic"], sub, rg, v0, AFTER_VMS, 15);
    Drop(store, ["appconfig", "store"], sub, rg, v0, AFTER_VMS, 16);
  }

  // ---- The VM clean-up ----

  ghost function SecretsOf(vs: seq<Value>): set<Key> {
    set v | v in vs && v.VmVal? && v.vm.secret != "" :: SecretKey(v.vm.secret)
  }

  ghost function ContainersOfVms(vs: seq<Value>, rg: string): set<string> {
    set v | v in vs && v.VmVal? && v.vm.name != "" :: VmContainer(rg, v.vm.name)
  }

  ghost function NetworksOfVms(vs: seq<Value>, rg: string): set<string> {
    set v | v in vs && v.VmVal? && v.vm.name != "" :: VmNetwork(rg, v.vm.name)
  }

  ghost function ContainersOfSvcs(s: map<Key, Value>, vs: seq<Value>, sub: string, rg: string): set<string> {
    set v, x | v in vs && v.VmVal? && v.vm.name != "" && x in SvcContainers(s, Services(s, sub, rg, v.vm.name)) :: x
  }

  lemma VmValues(s: map<Key, Value>, sub: string, rg: string, vs: seq<Value>)
    requires forall v :: v in vs && v.VmVal? <==> v.VmVal? && exists k :: k in VmsIn(s, sub, rg) && s[k] == v
    ensures SecretsOf(vs) == SecretsIn(s, sub, rg)
    ensures ContainersOfVms(vs, rg) == VmContainersIn(s, sub, rg)
    ensures NetworksOfVms(vs, rg) == VmNetworksIn(s, sub, rg)
    ensures ContainersOfSvcs(s, vs, sub, rg) == SvcContainersIn(s, sub, rg)
  {
    hide VmContainer, VmNetwork, SvcContainers;
    assert forall k :: k in VmsIn(s, sub, rg) ==> s[k] in vs;
    forall v | v in vs && v.VmVal? ensures exists k :: k in VmsIn(s, sub, rg) && s[k] == v {}
  }

  // checkDockerCached
  method DockerCached(m: Machine, probe: bool) returns (ok: bool)
    modifies m`dockerProbe
    ensures (ok, m.dockerProbe) == ProbeOnce(m.disabled, old(m.dockerProbe), probe)
  {
    if m.disabled { return false; }
    if m.dockerProbe.None? { m.dockerProbe := Some(probe); }
    ok := m.dockerProbe.value;
  }

  method VmRecords(m: Machine, sub: string, rg: string) returns (items: seq<Value>)
    requires m.Valid() && ColonFree([sub, rg])
    ensures forall v :: v in items && v.VmVal? <==> v.VmVal? && exists k :: k in VmsIn(m.store.view, sub, rg) && m.store.view[k] == v
  {
    assert ColonFree(["vm", sub, rg]) by { assert sub in [sub, rg] && rg in [sub, rg]; }
    items := m.RecordsUnder(["vm", sub, rg]);
    AllClean(m.store.view, m.store.flat.data);
    forall k | k in m.store.view ensures ProperPrefix(["vm", sub, rg], Segs(k)) <==> k.VmKey? && k.sub == sub && k.rg == rg {
      VmPrefix(k, sub, rg);
    }
    hide Represents, Clean;
  }

  // Deleting index entries does not change which services a VM has.
  lemma SecretsAside(s: map<Key, Value>, gone: set<Key>, sub: string, rg: string, name: string)
    requires forall k :: k in gone ==> k.SecretKey?
    ensures Services(s - gone, sub, rg, name) == Services(s, sub, rg, name)
    ensures SvcContainers(s - gone, Services(s, sub, rg, name)) == SvcContainers(s, Services(s, sub, rg, name))
  {
  }

  // CleanupVMsInRG
  method CleanupVms(m: Machine, sub: string, rg: string, probe: bool) returns (dockerOk: bool)
    requires m.Valid() && ColonFree([sub, rg])
    requires forall k :: k in VmsIn(m.store.view, sub, rg) ==> ':' !in m.store.view[k].vm.name
    modifies m`dockerProbe, m.store, m.store.flat, m.docker
    ensures m.Valid() && m.store.view == old(m.store.view) - SecretsIn(old(m.store.view), sub, rg)
    ensures (dockerOk, m.dockerProbe) == ProbeOnce(m.disabled, old(m.dockerProbe), probe)
    ensures m.docker.containers == if dockerOk then
              old(m.docker.containers) - SvcContainersIn(old(m.store.view), sub, rg) - VmContainersIn(old(m.store.view), sub, rg)
            else old(m.docker.containers)
    ensures m.docker.networks == if dockerOk then old(m.docker.networks) - VmNetworksIn(old(m.store.view), sub, rg) else old(m.docker.networks)
  {
    dockerOk := DockerCached(m, probe);
    var items := VmRecords(m, sub, rg);
    ghost var v0 := m.store.view;
    VmValues(v0, sub, rg, items);
    hide Represents, VmContainer, VmNetwork, SvcContainers, Services, VmsIn, SecretsIn, SvcContainersIn, VmContainersIn, VmNetworksIn;
    CleanupEach(m, sub, rg, items, dockerOk);
  }

  // Its loop.
  method CleanupEach(m: Machine, sub: string, rg: string, items: seq<Value>, dockerOk: bool)
    requires m.Valid() && ColonFree([sub, rg])
    requires forall i :: 0 <= i < |items| && items[i].VmVal? ==> ':' !in items[i].vm.name
    modifies m.store, m.store.flat, m.docker
    ensures m.Valid() && m.store.view == old(m.store.view) - SecretsOf(items)
    ensures m.docker.containers == if dockerOk then
              old(m.docker.containers) - ContainersOfSvcs(old(m.store.view), items, sub, rg) - ContainersOfVms(items, rg)
            else old(m.docker.containers)
    ensures m.docker.networks == if dockerOk then old(m.docker.networks) - NetworksOfVms(items, rg) else old(m.docker.networks)
  {
    ghost var v0, c0, n0 := m.store.view, m.docker.containers, m.docker.networks;
    hide Represents, ColonFree;
    for i := 0 to |items|
      invariant m.Valid() && m.store.view == v0 - SecretsOf(items[..i])
      invariant m.docker.containers == if dockerOk then c0 - ContainersOfSvcs(v0, items[..i], sub, rg) - ContainersOfVms(items[..i], rg) else c0
      invariant m.docker.networks == if dockerOk then n0 - NetworksOfVms(items[..i], rg) else n0
    {
      assert items[..i + 1] == items[..i] + [items[i]];
      CleanupOne(m, sub, rg, items[i], dockerOk, v0, items[..i], c0, n0);
    }
    assert items[..|items|] == items;
  }

  // One turn of that loop.
  method CleanupOne(m: Machine, sub: string, rg: string, item: Value, dockerOk: bool,
                    ghost v0: map<Key, Value>, ghost past: seq<Value>, ghost c0: map<string, bool>, ghost n0: set<string>)
    requires m.Valid() && ColonFree([sub, rg]) && (item.VmVal? ==> ':' !in item.vm.name)
    requires m.store.view == v0 - SecretsOf(past)
    requires m.docker.containers == if dockerOk then c0 - ContainersOfSvcs(v0, past, sub, rg) - ContainersOfVms(past, rg) else c0
    requires m.docker.networks == if dockerOk then n0 - NetworksOfVms(past, rg) else n0
    modifies m.store, m.store.flat, m.docker
    ensures m.Valid() && m.store.view == v0 - SecretsOf(past + [item])
    ensures m.docker.containers == if dockerOk then c0 - ContainersOfSvcs(v0, past + [item], sub, rg) - ContainersOfVms(past + [item], rg) else c0
    ensures m.docker.networks == if dockerOk then n0 - NetworksOfVms(past + [item], rg) else n0
  {
    OneMore(v0, past, item, sub, rg);
    hide Represents, VmContainer, VmNetwork, SvcContainers, Services, SecretsOf, ContainersOfSvcs, ContainersOfVms, NetworksOfVms;
    if !item.VmVal? { return; }
    if item.vm.secret != "" { var _ := m.store.Delete(SecretKey(item.vm.secret)); }
    if !dockerOk || item.vm.name == "" { return; }
    SecretsAside(v0, SecretsOf(past + [item]), sub, rg, item.vm.name);
    assert ColonFree([sub, rg, item.vm.name]);
    m.TearDown(sub, rg, item.vm.name);
  }

  lemma OneMore(v0: map<Key, Value>, past: seq<Value>, item: Value, sub: string, rg: string)
    ensures SecretsOf(past + [item]) == SecretsOf(past) + (if item.VmVal? && item.vm.secret != "" then {SecretKey(item.vm.secret)} else {})
    ensures forall k :: k in SecretsOf(past + [item]) ==> k.SecretKey?
    ensures var named := item.VmVal? && item.vm.name != "";
            && ContainersOfVms(past + [item], rg) == ContainersOfVms(past, rg) + (if named then {VmContainer(rg, item.vm.name)} else {})
            && NetworksOfVms(past + [item], rg) == NetworksOfVms(past, rg) + (if named then {VmNetwork(rg, item.vm.name)} else {})
            && ContainersOfSvcs(v0, past + [item], sub, rg) == ContainersOfSvcs(v0, past, sub, rg)
                 + (if named then SvcContainers(v0, Services(v0, sub, rg, item.vm.name)) else {})
  {
    hide VmContainer, VmNetwork, SvcContainers, Services;
    assert forall v :: v in past + [item] <==> v in past || v == item;
  }

  // ---- The handlers ----

  lemma HeadsDiffer(f: seq<string>, rest: seq<string>, segs: seq<string>)
    requires |f| > 0 && |segs| > 0 && f[0] != segs[0]
    ensures !ProperPrefix(f + rest, segs)
  {
    var p := f + rest;
    assert p[0] == f[0];
    assert |p| <= |segs| ==> segs[..|p|][0] == segs[0];
  }

  // No family before the clusters' touches a record of this model.
  lemma BeforeSparesTyped(sub: string, rg: string, k: Key)
    requires !k.Other?
    ensures !InCascade(BEFORE_CLUSTERS, sub, rg, k)
  {
    BeforeHeads();
    assert TypedHead(Segs(k)[0]);
    hide BEFORE_CLUSTERS, ProperPrefix, Segs, TypedHead;
    forall i | 0 <= i < |BEFORE_CLUSTERS| ensures !ProperPrefix(BEFORE_CLUSTERS[i] + [sub, rg], Segs(k)) {
      HeadsDiffer(BEFORE_CLUSTERS[i], [sub, rg], Segs(k));
    }
  }

  lemma BeforeHeads()
    ensures forall i :: 0 <= i < |BEFORE_CLUSTERS| ==> |BEFORE_CLUSTERS[i]| > 0 && !TypedHead(BEFORE_CLUSTERS[i][0])
  {
    forall f | f in BEFORE_CLUSTERS ensures |f| > 0 && !TypedHead(f[0]) {}
  }

  // The clusters' own deletion spares everything else of this model.
  lemma ClustersSpareVms(sub: string, rg: string, k: Key)
    requires !k.Other? && !k.ClusterKey?
    ensures !InCascade([["aks", "cluster"]], sub, rg, k)
  {
    HeadsDiffer(["aks", "cluster"], [sub, rg], Segs(k));
  }

  // Views that agree on VMs and services agree on what the clean-up looks at.
  ghost predicate SameVms(s: map<Key, Value>, t: map<Key, Value>) {
    forall k: Key :: k.VmKey? || k.SvcKey? ==> (k in s <==> k in t) && (k in s ==> s[k] == t[k])
  }

  lemma SameVmsSame(s: map<Key, Value>, t: map<Key, Value>, sub: string, rg: string)
    requires SameVms(s, t)
    ensures VmsIn(s, sub, rg) == VmsIn(t, sub, rg) && SecretsIn(s, sub, rg) == SecretsIn(t, sub, rg)
    ensures VmContainersIn(s, sub, rg) == VmContainersIn(t, sub, rg) && VmNetworksIn(s, sub, rg) == VmNetworksIn(t, sub, rg)
    ensures SvcContainersIn(s, sub, rg) == SvcContainersIn(t, sub, rg)
  {
    hide VmContainer, VmNetwork;
    assert VmsIn(s, sub, rg) == VmsIn(t, sub, rg);
    assert NamedVmsIn(s, sub, rg) == NamedVmsIn(t, sub, rg);
    forall name ensures SvcContainers(s, Services(s, sub, rg, name)) == SvcContainers(t, Services(t, sub, rg, name)) {
      assert Services(s, sub, rg, name) == Services(t, sub, rg, name);
    }
    hide SvcContainers, Services;
  }

  lemma SweepsCompose(v: map<Key, Value>, fs: seq<seq<string>>, gs: seq<seq<string>>, gone: set<Key>, sub: string, rg: string)
    ensures Swept(Swept(v, fs, sub, rg) - gone, gs, sub, rg) == map k | k in v && !InCascade(fs + gs, sub, rg, k) && k !in gone :: v[k]
  {
    forall k ensures InCascade(fs + gs, sub, rg, k) <==> InCascade(fs, sub, rg, k) || InCascade(gs, sub, rg, k) {
      CascadeAppend(fs, gs, sub, rg, k);
    }
    hide InCascade;
  }

  lemma CascadeAppend(fs: seq<seq<string>>, gs: seq<seq<string>>, sub: string, rg: string, k: Key)
    ensures InCascade(fs + gs, sub, rg, k) <==> InCascade(fs, sub, rg, k) || InCascade(gs, sub, rg, k)
  {
    var hs := fs + gs;
    if InCascade(fs, sub, rg, k) {
      var i :| 0 <= i < |fs| && ProperPrefix(fs[i] + [sub, rg], Segs(k));
      assert hs[i] == fs[i];
    }
    if InCascade(gs, sub, rg, k) {
      var i :| 0 <= i < |gs| && ProperPrefix(gs[i] + [sub, rg], Segs(k));
      assert hs[|fs| + i] == gs[i];
    }
    if InCascade(hs, sub, rg, k) {
      var i :| 0 <= i < |hs| && ProperPrefix(hs[i] + [sub, rg], Segs(k));
      assert i < |fs| ==> hs[i] == fs[i];
      assert i >= |fs| ==> hs[i] == gs[i - |fs|];
    }
  }

  // The store after all of it.
  lemma AllSwept(v0: map<Key, Value>, sub: string, rg: string)
    ensures var v2 := Swept(v0 - {RgKey(sub, rg)}, BEFORE_CLUSTERS, sub, rg);
            var v3 := Swept(v2, [["aks", "cluster"]], sub, rg);
            Swept(v3 - SecretsIn(v0, sub, rg), AFTER_VMS, sub, rg) == Cleared(v0, sub, rg)
  {
    var v1 := v0 - {RgKey(sub, rg)};
    var v2 := Swept(v1, BEFORE_CLUSTERS, sub, rg);
    var gone := SecretsIn(v0, sub, rg);
    SweepsCompose(v1, BEFORE_CLUSTERS, [["aks", "cluster"]], {}, sub, rg);
    assert v2 - {} == v2;
    var fs := BEFORE_CLUSTERS + [["aks", "cluster"]];
    assert Swept(v2, [["aks", "cluster"]], sub, rg) == Swept(v1, fs, sub, rg);
    SweepsCompose(v1, fs, AFTER_VMS, gone, sub, rg);
    assert fs + AFTER_VMS == FAMILIES;
    hide InCascade, SecretsIn, FAMILIES, BEFORE_CLUSTERS, AFTER_VMS;
  }

  lemma UntilVms(v0: map<Key, Value>, sub: string, rg: string)
    ensures var v2 := Swept(v0 - {RgKey(sub, rg)}, BEFORE_CLUSTERS, sub, rg);
            && ClustersIn(v2, sub, rg) == ClustersIn(v0, sub, rg)
            && Handles(v2, ClustersIn(v0, sub, rg)) == Handles(v0, ClustersIn(v0, sub, rg))
            && SameVms(v0, Swept(v2, [["aks", "cluster"]], sub, rg))
  {
    forall k: Key | !k.Other? ensures !InCascade(BEFORE_CLUSTERS, sub, rg, k) { BeforeSparesTyped(sub, rg, k); }
    forall k: Key | !k.Other? && !k.ClusterKey? ensures !InCascade([["aks", "cluster"]], sub, rg, k) { ClustersSpareVms(sub, rg, k); }
    hide InCascade, Handle, BEFORE_CLUSTERS;
  }

  class GroupHandler {
    const m: Machine

    constructor (m: Machine)
      ensures this.m == m
    {
      this.m := m;
    }

    // location: None when the body is not valid JSON.
    method CreateOrUpdate(sub: string, rg: string, location: Option<string>) returns (reply: Reply)
      requires m.Valid()
      modifies m.store, m.store.flat
      ensures (m.State(), reply) == PutGroup(old(m.State()), sub, rg, location)
      ensures m.InStep() && (m.Valid() <==> reply == BadRequest || (':' !in sub && ':' !in rg))
    {
      m.ValidInStep();
      hide Represents, Mirrors;
      if location.None? { return BadRequest; }
      if location.value == "" { return BadRequest; }
      var k := RgKey(sub, rg);
      assert Clean(k) <==> ':' !in sub && ':' !in rg by { assert Segs(k)[1] in Segs(k) && Segs(k)[2] in Segs(k); }
      hide Clean;
      var there := m.store.Exists(k);
      m.File(k, RgVal(location.value));
      reply := if there then Success else Created;
    }

    // The cascade up to the VMs, once the group's own entry is gone from v0.
    method EmptyUntilVms(sub: string, rg: string, ghost v0: map<Key, Value>)
      requires m.Valid() && m.store.view == v0 - {RgKey(sub, rg)} && ColonFree([sub, rg])
      modifies m.store, m.store.flat, m.docker`containers
      ensures m.Valid() && m.store.view == Swept(Swept(v0 - {RgKey(sub, rg)}, BEFORE_CLUSTERS, sub, rg), [["aks", "cluster"]], sub, rg)
      ensures m.docker.containers == old(m.docker.containers) - Handles(v0, ClustersIn(v0, sub, rg))
    {
      UntilVms(v0, sub, rg);
      hide Represents, Swept, Handles, ColonFree;
      SweepBefore(m.store, sub, rg);
      CleanupClusters(m, sub, rg);
      SweepClusters(m.store, sub, rg);
    }

    method EmptyFromVms(sub: string, rg: string, probe: bool, ghost v0: map<Key, Value>, ghost v3: map<Key, Value>) returns (ghost dockerOk: bool)
      requires m.Valid() && m.store.view == v3 && SameVms(v0, v3) && ColonFree([sub, rg])
      requires forall k :: k in VmsIn(v0, sub, rg) ==> ':' !in v0[k].vm.name
      modifies m, m.store, m.store.flat, m.docker
      ensures m.Valid() && m.store.view == Swept(v3 - SecretsIn(v0, sub, rg), AFTER_VMS, sub, rg)
      ensures (dockerOk, m.dockerProbe) == ProbeOnce(m.disabled, old(m.dockerProbe), probe)
      ensures m.docker.containers == if dockerOk then old(m.docker.containers) - SvcContainersIn(v0, sub, rg) - VmContainersIn(v0, sub, rg)
                                     else old(m.docker.containers)
      ensures m.docker.networks == if dockerOk then old(m.docker.networks) - VmNetworksIn(v0, sub, rg) else old(m.docker.networks)
    {
      SameVmsSame(v0, v3, sub, rg);
      SameVmNames(v0, v3, sub, rg);
      hide Represents, Swept, SecretsIn, VmsIn, VmContainersIn, VmNetworksIn, SvcContainersIn, ColonFree, SameVms;
      dockerOk := CleanupVms(m, sub, rg, probe);
      SweepAfter(m.store, sub, rg);
    }

    method Empty(sub: string, rg: string, probe: bool, ghost v0: map<Key, Value>) returns (ghost dockerOk: bool)
      requires m.Valid() && m.store.view == v0 - {RgKey(sub, rg)} && ColonFree([sub, rg])
      requires forall k :: k in VmsIn(v0, sub, rg) ==> ':' !in v0[k].vm.name
      modifies m, m.store, m.store.flat, m.docker
      ensures m.Valid() && m.store.view == Cleared(v0, sub, rg)
      ensures (dockerOk, m.dockerProbe) == ProbeOnce(m.disabled, old(m.dockerProbe), probe)
      ensures var kept := old(m.docker.containers) - Handles(v0, ClustersIn(v0, sub, rg));
              m.docker.containers == if dockerOk then kept - SvcContainersIn(v0, sub, rg) - VmContainersIn(v0, sub, rg) else kept
      ensures m.docker.networks == if dockerOk then old(m.docker.networks) - VmNetworksIn(v0, sub, rg) else old(m.docker.networks)
    {
      UntilVms(v0, sub, rg);
      AllSwept(v0, sub, rg);
      hide Represents, Swept, SecretsIn, VmsIn, VmContainersIn, VmNetworksIn, SvcContainersIn, Handles, Cleared, ColonFree, SameVms, ClustersIn;
      EmptyUntilVms(sub, rg, v0);
      dockerOk := EmptyFromVms(sub, rg, probe, v0, m.store.view);
    }

    /** Every VM record of the store carries its own name, which is how the clean-up
        finds its Docker objects. */
    method DeleteAll(sub: string, rg: string, env: Env) returns (reply: Reply)
      requires m.Valid()
      requires forall k :: k in m.store.view && k.VmKey? && m.store.view[k].VmVal? ==> m.store.view[k].vm.name == k.name
      modifies m, m.store, m.store.flat, m.docker
      ensures m.Valid() && (m.State(), reply) == DeleteGroup(old(m.State()), sub, rg, env)
    {
      var k := RgKey(sub, rg);
      ghost var v0 := m.store.view;
      GroupWords(v0, m.store.flat.data, sub, rg);
      hide Represents, VmsIn, ClustersIn, SecretsIn, VmContainersIn, VmNetworksIn, SvcContainersIn, Handles, Cleared, ColonFree, Clean;
      ghost var w := m.State();
      var removed := m.store.Delete(k);
      if !removed {
        assert m.State() == w;
        return NotFound;
      }
      ghost var dockerOk := Empty(sub, rg, env.probe, v0);
      assert (dockerOk, m.dockerProbe) == Probed(w, env);
      hide ProbeOnce, Probed;
      reply := Accepted;
    }
  }

  lemma SameVmNames(s: map<Key, Value>, t: map<Key, Value>, sub: string, rg: string)
    requires SameVms(s, t) && VmsIn(s, sub, rg) == VmsIn(t, sub, rg)
    ensures forall k :: k in VmsIn(s, sub, rg) ==> t[k] == s[k]
  {
  }

  lemma SweptClusters(v: map<Key, Value>, sub: string, rg: string)
    ensures v - Under(v, ["aks", "cluster", sub, rg]) == Swept(v, [["aks", "cluster"]], sub, rg)
  {
    var fs, p := [["aks", "cluster"]], ["aks", "cluster", sub, rg];
    assert fs[0] + [sub, rg] == p;
    forall k ensures InCascade(fs, sub, rg, k) <==> ProperPrefix(p, Segs(k)) {}
    hide InCascade, ProperPrefix, Segs;
  }

  method SweepClusters(store: KeyedStore<Value>, sub: string, rg: string)
    requires store.Valid() && ColonFree([sub, rg])
    modifies store, store.flat
    ensures store.Valid() && store.view == Swept(old(store.view), [["aks", "cluster"]], sub, rg)
  {
    SweptClusters(store.view, sub, rg);
    assert ColonFree(["aks", "cluster", sub, rg]) by { assert sub in [sub, rg] && rg in [sub, rg]; }
    hide Swept, Represents, ColonFree, Under;
    store.DeleteByPrefix(["aks", "cluster", sub, rg]);
  }

  lemma GroupWords(view: map<Key, Value>, data: map<string, Value>, sub: string, rg: string)
    requires Represents(view, data)
    requires forall k :: k in view && k.VmKey? && view[k].VmVal? ==> view[k].vm.name == k.name
    ensures RgKey(sub, rg) in view ==> ColonFree([sub, rg])
    ensures forall k :: k in VmsIn(view, sub, rg) ==> ':' !in view[k].vm.name
    ensures RgKey(sub, rg) !in view ==> view - {RgKey(sub, rg)} == view
  {
    if RgKey(sub, rg) in view {
      assert Clean(RgKey(sub, rg));
      var w := Segs(RgKey(sub, rg));
      assert w[1] in w && w[2] in w;
    }
    forall k | k in VmsIn(view, sub, rg) ensures ':' !in view[k].vm.name {
      assert Clean(k) && Segs(k)[3] in Segs(k);
    }
  }
}
