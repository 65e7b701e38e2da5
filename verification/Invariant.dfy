/** What stays true of the World while requests come and go: records and Docker
    objects own each other one to one, the secret index mirrors the VMs, references
    resolve, and sibling services never share a port. */
module Invariant {
  import opened Options
  import opened Keys
  import opened ArmIds
  import opened Worlds
  import opened AksSpec

  // Each key holds its own kind of record, filled in from the key.
  ghost predicate WellFiled(k: Key, v: Value) {
    match k
    case RgKey(_, _) => v.RgVal?
    case VmKey(s, r, n) =>
      v.VmVal? && v.vm.name == n && v.vm.id == VmArmId(s, r, n) && v.vm.containerName == VmContainer(r, n) && v.vm.secret != ""
    case SvcKey(_, r, m, n) => v.SvcVal? && v.svc.name == n && v.svc.containerName == SvcContainer(r, m, n)
    case SecretKey(_) => v.SecretVal?
    case IdentityKey(_, _, _) => v.IdVal?
    case TokenKey(_) => v.TokenVal?
    case ClusterKey(_, _, _) => v.ClusterVal? && (Handle(v).Some? ==> KindOf(Handle(v).value) == AksKind)
    case Other(_) => v.OtherVal?
  }

  ghost predicate Typed(store: map<Key, Value>) {
    forall k :: k in store ==> WellFiled(k, store[k])
  }

  // Every record has its Docker objects.
  ghost predicate Owns(w: World) {
    forall k :: k in w.store ==>
      && (k.VmKey? ==> VmContainer(k.rg, k.name) in w.containers && VmNetwork(k.rg, k.name) in w.networks)
      && (k.SvcKey? ==> SvcContainer(k.rg, k.vm, k.svc) in w.containers)
  }

  ghost predicate VmHolds(store: map<Key, Value>, c: string) {
    exists k :: k in store && k.VmKey? && VmContainer(k.rg, k.name) == c
  }

  ghost predicate NetHeld(store: map<Key, Value>, c: string) {
    exists k :: k in store && k.VmKey? && VmNetwork(k.rg, k.name) == c
  }

  ghost predicate SvcHolds(store: map<Key, Value>, c: string) {
    exists k :: k in store && k.SvcKey? && SvcContainer(k.rg, k.vm, k.svc) == c
  }

  // Every managed Docker object has its record.
  ghost predicate NoOrphans(w: World) {
    && (forall c :: c in w.containers && KindOf(c) == VmKind ==> VmHolds(w.store, c))
    && (forall c :: c in w.networks && KindOf(c) == NetKind ==> NetHeld(w.store, c))
    && (forall c :: c in w.containers && KindOf(c) == SvcKind ==> SvcHolds(w.store, c))
  }

  lemma HoldersGrow(s: map<Key, Value>, t: map<Key, Value>)
    requires s.Keys <= t.Keys
    ensures forall c :: VmHolds(s, c) ==> VmHolds(t, c)
    ensures forall c :: NetHeld(s, c) ==> NetHeld(t, c)
    ensures forall c :: SvcHolds(s, c) ==> SvcHolds(t, c)
  {
    hide VmContainer, VmNetwork, SvcContainer;
    assert forall k :: k in s ==> k in t;
  }

  // No two records share one.
  ghost predicate Distinct(store: map<Key, Value>) {
    && (forall j, k :: j in store && k in store && j.VmKey? && k.VmKey? && j != k ==>
          VmContainer(j.rg, j.name) != VmContainer(k.rg, k.name))
    && (forall j, k :: j in store && k in store && j.SvcKey? && k.SvcKey? && j != k ==>
          SvcContainer(j.rg, j.vm, j.svc) != SvcContainer(k.rg, k.vm, k.svc))
  }

  ghost predicate Ownership(w: World) {
    Owns(w) && NoOrphans(w) && Distinct(w.store)
  }

  function SecretOf(store: map<Key, Value>, k: Key): string {
    if k in store && store[k].VmVal? then store[k].vm.secret else ""
  }

  function OwnerOf(store: map<Key, Value>, secret: string): Option<Key> {
    if SecretKey(secret) in store && store[SecretKey(secret)].SecretVal? then Some(store[SecretKey(secret)].owner) else None
  }

  // Secret index and VM records are inverse to each other.
  ghost predicate Mirrored(store: map<Key, Value>) {
    && (forall k :: k in store && k.VmKey? ==> OwnerOf(store, SecretOf(store, k)) == Some(k))
    && (forall x :: SecretKey(x) in store ==>
          OwnerOf(store, x).Some? && OwnerOf(store, x).value in store && OwnerOf(store, x).value.VmKey?
          && SecretOf(store, OwnerOf(store, x).value) == x)
  }

  ghost predicate Resolves(store: map<Key, Value>) {
    forall k :: k in store ==>
      && (k.SvcKey? ==> VmKey(k.sub, k.rg, k.vm) in store)
      && (k.VmKey? ==> RgKey(k.sub, k.rg) in store)
      && (k.IdentityKey? ==> RgKey(k.sub, k.rg) in store)
  }

  predicate SameVm(j: Key, k: Key) {
    j.SvcKey? && k.SvcKey? && j.sub == k.sub && j.rg == k.rg && j.vm == k.vm
  }

  function PortsOf(store: map<Key, Value>, k: Key): seq<int> {
    if k in store && store[k].SvcVal? then store[k].svc.ports else []
  }

  ghost predicate PortsApart(store: map<Key, Value>) {
    forall j, k :: j in store && k in store && SameVm(j, k) && j != k ==>
      forall p :: p in PortsOf(store, j) ==> p !in PortsOf(store, k)
  }

  // No k3s container without a cluster record naming it.
  ghost predicate ClustersHeld(w: World) {
    forall c :: c in w.containers && KindOf(c) == AksKind ==> c in Handles(w.store, Clusters(w.store))
  }

  /** The half that concerns the store alone; it needs nothing from Docker. */
  ghost predicate StoreInv(s: map<Key, Value>) {
    && Typed(s)
    && Mirrored(s)
    && Resolves(s)
    && PortsApart(s)
  }

  ghost predicate Inv(w: World) {
    && StoreInv(w.store)
    && Ownership(w)
    && ClustersHeld(w)
  }

  // ---- Frames ----

  ghost predicate SameClusters(s: map<Key, Value>, t: map<Key, Value>) {
    forall k: Key :: k.ClusterKey? ==> (k in s <==> k in t) && (k in s ==> s[k] == t[k])
  }

  lemma ClustersStay(w: World, w': World)
    requires ClustersHeld(w) && SameClusters(w.store, w'.store)
    requires forall c :: c in w'.containers && KindOf(c) == AksKind ==> c in w.containers
    ensures ClustersHeld(w')
  {
    hide KindOf;
    assert Clusters(w'.store) == Clusters(w.store);
    assert Handles(w'.store, Clusters(w'.store)) == Handles(w.store, Clusters(w.store));
  }

  // What depends only on which records and Docker objects there are.
  lemma SameKeysKeep(w: World, w': World)
    requires Ownership(w) && Resolves(w.store)
    requires w'.store.Keys == w.store.Keys && w'.containers.Keys == w.containers.Keys && w'.networks == w.networks
    ensures Ownership(w') && Resolves(w'.store)
  {
    hide VmContainer, VmNetwork, SvcContainer, KindOf;
    assert forall k :: k in w.store <==> k in w'.store;
    assert forall c :: c in w.containers <==> c in w'.containers;
    HoldersGrow(w.store, w'.store);
    assert NoOrphans(w') by { hide VmHolds, NetHeld, SvcHolds, Distinct, Resolves; }
    assert Owns(w') by { hide VmHolds, NetHeld, SvcHolds, Distinct, Resolves; }
  }

  // ---- Removals ----

  ghost predicate Part(t: map<Key, Value>, s: map<Key, Value>) {
    forall k :: k in t ==> k in s && t[k] == s[k]
  }

  /** Removing records keeps the store's half of the invariant when a VM goes together
      with its secret and its services, and a group with its VMs and identities. */
  lemma RemovalKeepsStore(s: map<Key, Value>, t: map<Key, Value>)
    requires Typed(s) && Mirrored(s) && PortsApart(s) && Part(t, s)
    requires forall k :: k in s && k.VmKey? ==> (k in t <==> SecretKey(SecretOf(s, k)) in t)
    requires Resolves(t)
    ensures StoreInv(t)
  {
    RemovalMirrors(s, t);
    hide WellFiled, Mirrored, Resolves;
    assert forall k :: k in t ==> k in s && PortsOf(t, k) == PortsOf(s, k);
  }

  lemma RemovalDistinct(s: map<Key, Value>, t: map<Key, Value>)
    requires Distinct(s) && Part(t, s)
    ensures Distinct(t)
  {
    hide VmContainer, SvcContainer;
  }

  lemma RemovalMirrors(s: map<Key, Value>, t: map<Key, Value>)
    requires Mirrored(s) && Part(t, s)
    requires forall k :: k in s && k.VmKey? ==> (k in t <==> SecretKey(SecretOf(s, k)) in t)
    ensures Mirrored(t)
  {
    forall x | SecretKey(x) in t
      ensures OwnerOf(t, x).Some? && OwnerOf(t, x).value in t && OwnerOf(t, x).value.VmKey? && SecretOf(t, OwnerOf(t, x).value) == x
    {
      assert SecretKey(x) in s;
    }
    forall k | k in t && k.VmKey? ensures OwnerOf(t, SecretOf(t, k)) == Some(k) {
      assert OwnerOf(s, SecretOf(s, k)) == Some(k);
    }
  }

  /** Removing Docker objects keeps ownership when each goes with its record. */
  lemma RemovalKeepsDocker(w: World, w': World)
    requires Owns(w) && NoOrphans(w) && Part(w'.store, w.store)
    requires w'.containers.Keys <= w.containers.Keys && w'.networks <= w.networks
    requires forall k :: k in w.store && k.VmKey? ==>
               (k in w'.store <==> VmContainer(k.rg, k.name) in w'.containers) && (k in w'.store <==> VmNetwork(k.rg, k.name) in w'.networks)
    requires forall k :: k in w.store && k.SvcKey? ==> (k in w'.store <==> SvcContainer(k.rg, k.vm, k.svc) in w'.containers)
    ensures Owns(w') && NoOrphans(w')
  {
    hide VmContainer, VmNetwork, SvcContainer, KindOf;
    forall c | c in w'.containers && KindOf(c) == VmKind ensures VmHolds(w'.store, c) {
      assert VmHolds(w.store, c);
    }
    forall c | c in w'.networks && KindOf(c) == NetKind ensures NetHeld(w'.store, c) {
      assert NetHeld(w.store, c);
    }
    forall c | c in w'.containers && KindOf(c) == SvcKind ensures SvcHolds(w'.store, c) {
      assert SvcHolds(w.store, c);
    }
  }

  // ---- Entries that own nothing ----

  predicate Bystander(k: Key) {
    k.RgKey? || k.IdentityKey? || k.TokenKey? || k.Other?
  }

  // Only bystander entries differ.
  ghost predicate SameOwners(s: map<Key, Value>, t: map<Key, Value>) {
    forall k: Key :: !Bystander(k) ==> (k in s <==> k in t) && (k in s ==> s[k] == t[k])
  }

  lemma BystandersStore(s: map<Key, Value>, t: map<Key, Value>)
    requires Mirrored(s) && PortsApart(s) && SameOwners(s, t)
    ensures Mirrored(t) && PortsApart(t) && SameClusters(s, t)
  {
    assert forall x :: OwnerOf(t, x) == OwnerOf(s, x) && (SecretKey(x) in s <==> SecretKey(x) in t);
    assert forall j: Key :: j.VmKey? ==> SecretOf(t, j) == SecretOf(s, j) && (j in t <==> j in s);
    assert forall j: Key :: j.SvcKey? ==> PortsOf(t, j) == PortsOf(s, j) && (j in t <==> j in s);
  }

  /** Writing or removing entries that own nothing keeps the store's half while references resolve. */
  lemma BystandersKeepStore(s: map<Key, Value>, t: map<Key, Value>)
    requires StoreInv(s) && SameOwners(s, t) && Typed(t) && Resolves(t)
    ensures StoreInv(t)
  {
    hide Typed, Mirrored, Resolves, PortsApart, SameOwners, SameClusters;
    BystandersStore(s, t);
  }

  lemma BystandersDistinct(s: map<Key, Value>, t: map<Key, Value>)
    requires Distinct(s) && SameOwners(s, t)
    ensures Distinct(t)
  {
    hide VmContainer, SvcContainer;
    assert forall j: Key :: j.VmKey? || j.SvcKey? ==> (j in t <==> j in s);
  }

  lemma BystandersDocker(w: World, w': World)
    requires Owns(w) && NoOrphans(w) && SameOwners(w.store, w'.store) && w'.containers == w.containers && w'.networks == w.networks
    ensures Owns(w') && NoOrphans(w')
  {
    hide VmContainer, VmNetwork, SvcContainer, KindOf;
    assert forall k: Key :: k.VmKey? || k.SvcKey? ==> (k in w.store <==> k in w'.store);
    forall c | VmHolds(w.store, c) ensures VmHolds(w'.store, c) {}
    forall c | NetHeld(w.store, c) ensures NetHeld(w'.store, c) {}
    forall c | SvcHolds(w.store, c) ensures SvcHolds(w'.store, c) {}
    hide VmHolds, NetHeld, SvcHolds;
  }

  /** With Docker left alone they keep the whole invariant. */
  lemma BystandersKeep(w: World, w': World)
    requires Inv(w) && SameOwners(w.store, w'.store) && w'.containers == w.containers && w'.networks == w.networks
    requires Typed(w'.store) && Resolves(w'.store)
    ensures Inv(w')
  {
    hide Typed, Owns, NoOrphans, Distinct, Mirrored, Resolves, PortsApart, ClustersHeld, SameOwners, SameClusters;
    BystandersStore(w.store, w'.store);
    BystandersDistinct(w.store, w'.store);
    BystandersDocker(w, w');
    ClustersStay(w, w');
  }

  // ---- What goes on outside the emulator ----

  // Containers may stop and start by themselves, and containers and networks that
  // are not the emulator's may come and go.
  ghost predicate Drifts(w: World, w': World) {
    && w' == w.(containers := w'.containers, networks := w'.networks)
    && (forall c :: KindOf(c) != Foreign ==> (c in w.containers <==> c in w'.containers))
    && (forall c :: KindOf(c) != Foreign ==> (c in w.networks <==> c in w'.networks))
  }

  lemma DriftKeeps(w: World, w': World)
    requires Inv(w) && Drifts(w, w')
    ensures Inv(w')
  {
    NameKinds();
    hide VmContainer, VmNetwork, SvcContainer, KindOf, Typed, Distinct, Mirrored, Resolves, PortsApart, VmHolds, NetHeld, SvcHolds;
    ClustersStay(w, w');
    hide ClustersHeld;
    assert Owns(w') by {
      forall k | k in w.store && k.VmKey? ensures VmContainer(k.rg, k.name) in w'.containers && VmNetwork(k.rg, k.name) in w'.networks {
        assert KindOf(VmContainer(k.rg, k.name)) == VmKind && KindOf(VmNetwork(k.rg, k.name)) == NetKind;
      }
      forall k | k in w.store && k.SvcKey? ensures SvcContainer(k.rg, k.vm, k.svc) in w'.containers {
        assert KindOf(SvcContainer(k.rg, k.vm, k.svc)) == SvcKind;
      }
    }
  }
}
