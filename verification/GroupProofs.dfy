/** Deleting a resource group: what the cascade removes, and when it keeps the invariant. */
module GroupProofs {
  import opened Options
  import opened Keys
  import opened Worlds
  import opened VmSpec
  import opened AksSpec
  import opened GroupSpec
  import opened Cascade
  import opened Invariant
  import opened VmProofs
  import opened AksProofs

  lemma GroupEntry(s: map<Key, Value>, sub: string, rg: string, location: string)
    requires StoreInv(s)
    ensures StoreInv(s[RgKey(sub, rg) := RgVal(location)])
  {
    var t := s[RgKey(sub, rg) := RgVal(location)];
    assert WellFiled(RgKey(sub, rg), RgVal(location));
    hide WellFiled, Mirrored, PortsApart;
    assert SameOwners(s, t);
    assert Typed(t) && Resolves(t);
    hide Typed, Resolves, SameOwners;
    BystandersKeepStore(s, t);
  }

  lemma PutGroupStore(w: World, sub: string, rg: string, location: Option<string>)
    requires StoreInv(w.store)
    ensures StoreInv(PutGroup(w, sub, rg, location).0.store)
  {
    hide StoreInv;
    if location.Some? { GroupEntry(w.store, sub, rg, location.value); }
  }

  lemma PutGroupKeeps(w: World, sub: string, rg: string, location: Option<string>)
    requires Inv(w)
    ensures Inv(PutGroup(w, sub, rg, location).0)
  {
    var w' := PutGroup(w, sub, rg, location).0;
    if location.Some? {
      assert WellFiled(RgKey(sub, rg), RgVal(location.value));
      hide WellFiled, Owns, NoOrphans, Distinct, Mirrored, PortsApart, ClustersHeld;
      assert SameOwners(w.store, w'.store) && Typed(w'.store) && Resolves(w'.store);
      hide Typed, Resolves, SameOwners;
      BystandersKeep(w, w');
    }
  }

  // ---- The store ----

  // The group's keys, and whether a key survives.
  ghost predicate Kept(s: map<Key, Value>, sub: string, rg: string, k: Key) {
    && k in s && k != RgKey(sub, rg) && !InGroup(k, sub, rg) && k !in SecretsIn(s, sub, rg)
  }

  lemma ClearedKeeps(s: map<Key, Value>, sub: string, rg: string)
    ensures forall k: Key :: !k.Other? ==> (k in Cleared(s, sub, rg) <==> Kept(s, sub, rg, k))
    ensures Part(Cleared(s, sub, rg), s)
  {
    forall k: Key | !k.Other? ensures InCascade(FAMILIES, sub, rg, k) <==> InGroup(k, sub, rg) {
      CascadeIsGroup(k, sub, rg);
    }
    hide InCascade, FAMILIES, InGroup, SecretsIn;
  }

  // The secrets removed are those of the group's VMs.
  lemma SecretsOfGroup(s: map<Key, Value>, sub: string, rg: string, x: string)
    requires Typed(s) && Mirrored(s) && SecretKey(x) in s
    ensures SecretKey(x) in SecretsIn(s, sub, rg) <==> InGroup(OwnerOf(s, x).value, sub, rg)
  {
    var owner := OwnerOf(s, x).value;
    assert WellFiled(owner, s[owner]);
    if SecretKey(x) in SecretsIn(s, sub, rg) {
      var k :| k in VmsIn(s, sub, rg) && s[k].vm.secret == x;
      assert OwnerOf(s, SecretOf(s, k)) == Some(k);
    }
    hide WellFiled, Typed, Mirrored;
    if InGroup(owner, sub, rg) { assert owner in VmsIn(s, sub, rg); }
  }

  lemma ClearedStore(s: map<Key, Value>, sub: string, rg: string)
    requires StoreInv(s)
    ensures StoreInv(Cleared(s, sub, rg)) && Part(Cleared(s, sub, rg), s)
  {
    var t := Cleared(s, sub, rg);
    ClearedKeeps(s, sub, rg);
    ClearedSecrets(s, sub, rg);
    ClearedResolves(s, sub, rg);
    hide Typed, Mirrored, Resolves, PortsApart, Cleared, SecretOf, Part;
    RemovalKeepsStore(s, t);
  }

  lemma ClearedSecrets(s: map<Key, Value>, sub: string, rg: string)
    requires Typed(s) && Mirrored(s)
    ensures var t := Cleared(s, sub, rg);
            forall k :: k in s && k.VmKey? ==> (k in t <==> SecretKey(SecretOf(s, k)) in t)
  {
    var t := Cleared(s, sub, rg);
    ClearedKeeps(s, sub, rg);
    hide Typed, Cleared, SecretsIn;
    forall k | k in s && k.VmKey? ensures k in t <==> SecretKey(SecretOf(s, k)) in t {
      assert OwnerOf(s, SecretOf(s, k)) == Some(k);
      SecretsOfGroup(s, sub, rg, SecretOf(s, k));
      if k in SecretsIn(s, sub, rg) { SecretsAreSecrets(s, sub, rg); }
    }
  }

  lemma SecretsAreSecrets(s: map<Key, Value>, sub: string, rg: string)
    ensures forall k :: k in SecretsIn(s, sub, rg) ==> k.SecretKey?
  {
  }

  lemma ClearedResolves(s: map<Key, Value>, sub: string, rg: string)
    requires Resolves(s)
    ensures Resolves(Cleared(s, sub, rg))
  {
    var t := Cleared(s, sub, rg);
    ClearedKeeps(s, sub, rg);
    SecretsAreSecrets(s, sub, rg);
    hide Cleared, SecretsIn;
  }

  lemma DeleteGroupStore(w: World, sub: string, rg: string, env: Env)
    requires StoreInv(w.store)
    ensures StoreInv(DeleteGroup(w, sub, rg, env).0.store)
  {
    ClearedStore(w.store, sub, rg);
    hide StoreInv, Cleared, SvcContainersIn, VmContainersIn, VmNetworksIn, Handles;
  }

  // ---- Docker ----

  // The cascade can tell Docker about every VM of the group.
  ghost predicate Reachable(s: map<Key, Value>, sub: string, rg: string, dockerOk: bool) {
    forall k :: k in s && k.VmKey? && k.sub == sub && k.rg == rg ==> dockerOk && k.name != ""
  }

  lemma VmNamesIn(s: map<Key, Value>, sub: string, rg: string, j: Key)
    requires Typed(s) && Distinct(s) && j in s && j.VmKey?
    ensures VmContainer(j.rg, j.name) in VmContainersIn(s, sub, rg) <==> InGroup(j, sub, rg) && j.name != ""
    ensures VmNetwork(j.rg, j.name) in VmNetworksIn(s, sub, rg) <==> InGroup(j, sub, rg) && j.name != ""
  {
    forall k | k in VmsIn(s, sub, rg) ensures s[k].vm.name == k.name && k.rg == rg { assert WellFiled(k, s[k]); }
    forall k | k in NamedVmsIn(s, sub, rg) ensures VmNetwork(rg, k.name) == VmNetwork(j.rg, j.name) <==> VmContainer(rg, k.name) == VmContainer(j.rg, j.name) {
      SameContainerSameNetwork(rg, k.name, j.rg, j.name);
    }
    assert WellFiled(j, s[j]);
    hide WellFiled, Typed, VmContainer, VmNetwork;
    if InGroup(j, sub, rg) && j.name != "" { assert j in NamedVmsIn(s, sub, rg); }
  }

  lemma SvcNamesIn(s: map<Key, Value>, sub: string, rg: string, j: Key)
    requires Typed(s) && Distinct(s) && Resolves(s) && j in s && j.SvcKey?
    ensures SvcContainer(j.rg, j.vm, j.svc) in SvcContainersIn(s, sub, rg) <==> InGroup(j, sub, rg) && j.vm != ""
  {
    forall k | k in VmsIn(s, sub, rg) ensures s[k].vm.name == k.name { assert WellFiled(k, s[k]); }
    var c, owner := SvcContainer(j.rg, j.vm, j.svc), VmKey(j.sub, j.rg, j.vm);
    assert owner in s && WellFiled(owner, s[owner]);
    hide WellFiled, SvcContainers, SvcContainer, Resolves;
    if c in SvcContainersIn(s, sub, rg) {
      var k :| k in NamedVmsIn(s, sub, rg) && c in SvcContainers(s, Services(s, sub, rg, s[k].vm.name));
      SvcContainersOf(s, Services(s, sub, rg, s[k].vm.name), j);
    }
    if InGroup(j, sub, rg) && j.vm != "" {
      assert owner in NamedVmsIn(s, sub, rg) && j in Services(s, sub, rg, j.vm);
      SvcContainersOf(s, Services(s, sub, rg, j.vm), j);
      assert c in SvcContainers(s, Services(s, sub, rg, s[owner].vm.name));
    }
  }

  lemma KindsIn(s: map<Key, Value>, sub: string, rg: string)
    requires Typed(s)
    ensures forall c :: c in VmContainersIn(s, sub, rg) ==> KindOf(c) == VmKind
    ensures forall c :: c in SvcContainersIn(s, sub, rg) ==> KindOf(c) == SvcKind
    ensures forall c :: c in Handles(s, ClustersIn(s, sub, rg)) ==> KindOf(c) == AksKind
  {
    NameKinds();
    hide VmContainer, VmNetwork, SvcContainer, KindOf, SvcContainers;
    forall k, c | k in NamedVmsIn(s, sub, rg) && c in SvcContainers(s, Services(s, sub, rg, s[k].vm.name)) ensures KindOf(c) == SvcKind {
      SvcContainersKind(s, Services(s, sub, rg, s[k].vm.name), c);
    }
    forall k | k in ClustersIn(s, sub, rg) && Handle(s[k]).Some? ensures KindOf(Handle(s[k]).value) == AksKind {
      assert WellFiled(k, s[k]);
    }
    hide Typed, WellFiled, Handle;
  }

  ghost function Emptied(w: World, sub: string, rg: string): World {
    w.(store := Cleared(w.store, sub, rg),
       containers := w.containers - Handles(w.store, ClustersIn(w.store, sub, rg))
                       - SvcContainersIn(w.store, sub, rg) - VmContainersIn(w.store, sub, rg),
       networks := w.networks - VmNetworksIn(w.store, sub, rg))
  }

  lemma EmptiedVm(w: World, sub: string, rg: string, j: Key)
    requires Typed(w.store) && Owns(w) && Distinct(w.store) && Reachable(w.store, sub, rg, true)
    requires j in w.store && j.VmKey?
    ensures var w' := Emptied(w, sub, rg);
            && (j in w'.store <==> VmContainer(j.rg, j.name) in w'.containers)
            && (j in w'.store <==> VmNetwork(j.rg, j.name) in w'.networks)
  {
    NameKinds();
    KindsIn(w.store, sub, rg);
    VmNamesIn(w.store, sub, rg, j);
    ClearedKeeps(w.store, sub, rg);
    SecretsAreSecrets(w.store, sub, rg);
    assert VmContainer(j.rg, j.name) in w.containers && VmNetwork(j.rg, j.name) in w.networks;
    assert KindOf(VmContainer(j.rg, j.name)) == VmKind;
    hide Typed, Owns, Distinct, KindOf, VmContainer, VmNetwork, Cleared, SvcContainersIn, VmContainersIn, VmNetworksIn, Handles, SecretsIn;
  }

  lemma EmptiedSvc(w: World, sub: string, rg: string, j: Key)
    requires Typed(w.store) && Owns(w) && Distinct(w.store) && Resolves(w.store) && Reachable(w.store, sub, rg, true)
    requires j in w.store && j.SvcKey?
    ensures var w' := Emptied(w, sub, rg); j in w'.store <==> SvcContainer(j.rg, j.vm, j.svc) in w'.containers
  {
    NameKinds();
    KindsIn(w.store, sub, rg);
    SvcNamesIn(w.store, sub, rg, j);
    ClearedKeeps(w.store, sub, rg);
    SecretsAreSecrets(w.store, sub, rg);
    assert VmKey(j.sub, j.rg, j.vm) in w.store;
    assert SvcContainer(j.rg, j.vm, j.svc) in w.containers;
    assert KindOf(SvcContainer(j.rg, j.vm, j.svc)) == SvcKind;
    hide Typed, Owns, Distinct, Resolves, KindOf, SvcContainer, Cleared, SvcContainersIn, VmContainersIn, Handles, SecretsIn;
  }

  lemma EmptiedDocker(w: World, sub: string, rg: string)
    requires Typed(w.store) && Owns(w) && NoOrphans(w) && Distinct(w.store) && Resolves(w.store) && Reachable(w.store, sub, rg, true)
    ensures Owns(Emptied(w, sub, rg)) && NoOrphans(Emptied(w, sub, rg))
  {
    var w' := Emptied(w, sub, rg);
    ClearedKeeps(w.store, sub, rg);
    assert Part(w'.store, w.store) && w'.containers.Keys <= w.containers.Keys && w'.networks <= w.networks;
    hide Emptied, Typed, Owns, NoOrphans, Distinct, Resolves, Reachable, VmContainer, VmNetwork, SvcContainer;
    forall j | j in w.store && j.VmKey?
      ensures j in w'.store <==> VmContainer(j.rg, j.name) in w'.containers
      ensures j in w'.store <==> VmNetwork(j.rg, j.name) in w'.networks
    {
      EmptiedVm(w, sub, rg, j);
    }
    forall j | j in w.store && j.SvcKey? ensures j in w'.store <==> SvcContainer(j.rg, j.vm, j.svc) in w'.containers {
      EmptiedSvc(w, sub, rg, j);
    }
    RemovalKeepsDocker(w, w');
  }

  lemma EmptiedClusters(w: World, sub: string, rg: string, w': World)
    requires Typed(w.store) && ClustersHeld(w) && w'.store == Cleared(w.store, sub, rg)
    requires w'.containers.Keys <= (w.containers - Handles(w.store, ClustersIn(w.store, sub, rg))).Keys
    ensures ClustersHeld(w')
  {
    var s, t := w.store, Cleared(w.store, sub, rg);
    ClearedKeeps(s, sub, rg);
    SecretsAreSecrets(s, sub, rg);
    hide Cleared, KindOf, Handle, SecretsIn, Typed;
    forall h | h in Handles(s, Clusters(s)) && h !in Handles(s, ClustersIn(s, sub, rg)) ensures h in Handles(t, Clusters(t)) {
      var j :| j in Clusters(s) && Handle(s[j]).Some? && Handle(s[j]).value == h;
      assert j !in ClustersIn(s, sub, rg);
      assert j in Clusters(t) && t[j] == s[j];
    }
    hide Handles;
  }

  /** The cascade removes a group's k3s containers with their records, whether or not the
      Docker probe of the VM service succeeds. */
  lemma DeleteGroupHolds(w: World, sub: string, rg: string, env: Env)
    requires Typed(w.store) && ClustersHeld(w)
    ensures ClustersHeld(DeleteGroup(w, sub, rg, env).0)
  {
    var w' := DeleteGroup(w, sub, rg, env).0;
    assert RgKey(sub, rg) in w.store ==> w'.containers.Keys <= (w.containers - Handles(w.store, ClustersIn(w.store, sub, rg))).Keys;
    hide Cleared, SvcContainersIn, VmContainersIn, VmNetworksIn, Handles, Typed, ClustersHeld;
    if RgKey(sub, rg) in w.store { EmptiedClusters(w, sub, rg, w'); }
  }

  lemma EmptiedKeeps(w: World, sub: string, rg: string)
    requires Inv(w) && Reachable(w.store, sub, rg, true)
    ensures Inv(Emptied(w, sub, rg))
  {
    hide Typed, Owns, NoOrphans, Distinct, Mirrored, Resolves, PortsApart, ClustersHeld, Reachable, Cleared,
      SvcContainersIn, VmContainersIn, VmNetworksIn, Handles;
    ClearedStore(w.store, sub, rg);
    RemovalDistinct(w.store, Cleared(w.store, sub, rg));
    EmptiedDocker(w, sub, rg);
    EmptiedClusters(w, sub, rg, Emptied(w, sub, rg));
  }

  // A group without VMs has no Docker objects but k3s containers.
  lemma NoVmsNothing(s: map<Key, Value>, sub: string, rg: string)
    requires forall k :: k in s && k.VmKey? ==> k.sub != sub || k.rg != rg
    ensures VmContainersIn(s, sub, rg) == {} && SvcContainersIn(s, sub, rg) == {} && VmNetworksIn(s, sub, rg) == {}
  {
    hide VmContainer, VmNetwork, SvcContainers;
    assert VmsIn(s, sub, rg) == {};
    assert NamedVmsIn(s, sub, rg) == {};
  }

  // A VM whose container the cascade does not remove...
  lemma UnreachedStays(w: World, sub: string, rg: string, env: Env, k: Key)
    requires Typed(w.store) && Owns(w) && Distinct(w.store) && RgKey(sub, rg) in w.store
    requires k in w.store && k.VmKey? && k.sub == sub && k.rg == rg && !(Probed(w, env).0 && k.name != "")
    ensures var w' := DeleteGroup(w, sub, rg, env).0;
            && VmContainer(k.rg, k.name) in w'.containers
            && forall j :: j in w'.store && j.VmKey? ==> j in w.store && j != k
  {
    NameKinds();
    KindsIn(w.store, sub, rg);
    VmNamesIn(w.store, sub, rg, k);
    ClearedKeeps(w.store, sub, rg);
    assert VmContainer(k.rg, k.name) in w.containers && KindOf(VmContainer(k.rg, k.name)) == VmKind;
    hide Typed, Owns, Distinct, KindOf, VmContainer, VmNetwork, Cleared, SvcContainersIn, VmContainersIn, VmNetworksIn, Handles, SecretsIn;
  }

  // ...is orphaned by it.
  lemma UnreachedIsOrphaned(w: World, sub: string, rg: string, env: Env, k: Key)
    requires Inv(w) && RgKey(sub, rg) in w.store
    requires k in w.store && k.VmKey? && k.sub == sub && k.rg == rg && !(Probed(w, env).0 && k.name != "")
    ensures !Inv(DeleteGroup(w, sub, rg, env).0)
  {
    var w', c := DeleteGroup(w, sub, rg, env).0, VmContainer(k.rg, k.name);
    UnreachedStays(w, sub, rg, env, k);
    NameKinds();
    hide DeleteGroup, VmContainer, KindOf, Typed, Owns, Mirrored, Resolves, PortsApart, ClustersHeld;
    assert Distinct(w.store) && KindOf(c) == VmKind;
    assert !VmHolds(w'.store, c);
  }

  /** Deleting an existing group keeps the invariant if and only if Docker is seen to
      be available and no VM of the group has an empty name, or the group has no VM. */
  lemma DeleteGroupKeeps(w: World, sub: string, rg: string, env: Env)
    requires Inv(w) && RgKey(sub, rg) in w.store
    ensures Inv(DeleteGroup(w, sub, rg, env).0) <==> Reachable(w.store, sub, rg, Probed(w, env).0)
  {
    var dockerOk := Probed(w, env).0;
    var w' := DeleteGroup(w, sub, rg, env).0;
    if Reachable(w.store, sub, rg, dockerOk) {
      DeleteGroupIs(w, sub, rg, env);
      EmptiedKeeps(w, sub, rg);
      ProbeKeeps(Emptied(w, sub, rg), w'.probe);
    } else {
      var k :| k in w.store && k.VmKey? && k.sub == sub && k.rg == rg && !(dockerOk && k.name != "");
      hide DeleteGroup, Inv;
      UnreachedIsOrphaned(w, sub, rg, env, k);
    }
    hide Inv, DeleteGroup, Emptied;
  }

  lemma DeleteGroupIs(w: World, sub: string, rg: string, env: Env)
    requires RgKey(sub, rg) in w.store && Reachable(w.store, sub, rg, Probed(w, env).0)
    ensures Reachable(w.store, sub, rg, true)
    ensures DeleteGroup(w, sub, rg, env).0 == Emptied(w, sub, rg).(probe := DeleteGroup(w, sub, rg, env).0.probe)
  {
    if !Probed(w, env).0 { NoVmsNothing(w.store, sub, rg); }
    hide Cleared, SvcContainersIn, VmContainersIn, VmNetworksIn, Handles;
  }

  lemma ProbeKeeps(w: World, probe: Option<bool>)
    requires Inv(w)
    ensures Inv(w.(probe := probe))
  {
    hide Typed, Distinct, Mirrored, Resolves, PortsApart, KindOf, VmContainer, VmNetwork, SvcContainer, VmHolds, SvcHolds, NetHeld, Handles;
  }

  lemma DeleteGroupNamed(w: World, sub: string, rg: string, env: Env, digest: string -> string)
    requires Named(w.store, digest)
    ensures Named(DeleteGroup(w, sub, rg, env).0.store, digest)
  {
    ClearedKeeps(w.store, sub, rg);
    hide Cleared, SvcContainersIn, VmContainersIn, VmNetworksIn, Handles, AksContainer;
  }

  /** Of the model's own records, a group deletion removes the group, what is filed
      under it and its VMs' secrets, and nothing else; no kept record changes. */
  lemma DeleteGroupIsExact(w: World, sub: string, rg: string, env: Env, k: Key)
    requires Typed(w.store) && Mirrored(w.store) && RgKey(sub, rg) in w.store && k in w.store && !k.Other?
    ensures var s := DeleteGroup(w, sub, rg, env).0.store;
            && (k in s ==> s[k] == w.store[k])
            && (k !in s <==> k == RgKey(sub, rg) || InGroup(k, sub, rg)
                             || (k.SecretKey? && InGroup(OwnerOf(w.store, k.secret).value, sub, rg)))
  {
    ClearedKeeps(w.store, sub, rg);
    SecretsAreSecrets(w.store, sub, rg);
    if k.SecretKey? { SecretsOfGroup(w.store, sub, rg, k.secret); }
    hide Typed, Cleared, SecretsIn, SvcContainersIn, VmContainersIn, VmNetworksIn, Handles;
    assert k.SecretKey? ==> OwnerOf(w.store, k.secret).Some?;
  }

  /** Of any other resource, filed as t:s:r:rest under a one- or two-word family t, it
      removes those of listed families in that subscription and group, and the misread ones. */
  lemma DeleteGroupFamilies(w: World, sub: string, rg: string, env: Env, t: seq<string>, s: string, r: string, rest: seq<string>)
    requires |t| == 1 || |t| == 2
    requires RgKey(sub, rg) in w.store && Other(t + [s, r] + rest) in w.store
    ensures var k, left := Other(t + [s, r] + rest), DeleteGroup(w, sub, rg, env).0.store;
            && (k in left ==> left[k] == w.store[k])
            && (k !in left <==> (t in FAMILIES && s == sub && r == rg && rest != []) || Misread(t, s, r, rest, sub, rg))
  {
    CascadeExactly(t, s, r, rest, sub, rg);
    SecretsAreSecrets(w.store, sub, rg);
    hide FAMILIES, InCascade, Misread, SecretsIn, SvcContainersIn, VmContainersIn, VmNetworksIn, Handles;
  }

  /** Keys of three words or fewer stay as they are. */
  lemma DeleteGroupSparesShort(w: World, sub: string, rg: string, env: Env, segs: seq<string>)
    requires RgKey(sub, rg) in w.store && |segs| <= 3 && Other(segs) in w.store
    ensures var s := DeleteGroup(w, sub, rg, env).0.store; Other(segs) in s && s[Other(segs)] == w.store[Other(segs)]
  {
    ShortKeysKept(segs, sub, rg);
    SecretsAreSecrets(w.store, sub, rg);
    hide FAMILIES, InCascade, SecretsIn, SvcContainersIn, VmContainersIn, VmNetworksIn, Handles;
  }
}
