/** The VM and service requests keep the invariant. */
module VmProofs {
  import opened Options
  import opened Keys
  import opened ArmIds
  import opened Worlds
  import opened VmSpec
  import opened Invariant

  // Another VM already uses the container name the new one would get: the name
  // leaves out the subscription and joins group and name with '-'.
  ghost predicate NameTaken(store: map<Key, Value>, a: VmArgs) {
    exists k :: k in store && k.VmKey? && k != VmKey(a.sub, a.rg, a.name) && VmContainer(k.rg, k.name) == VmContainer(a.rg, a.name)
  }

  // The request asks for a VM that is not there yet, and nothing is wrong with it.
  ghost predicate Starts(w: World, a: VmArgs) {
    && RgKey(a.sub, a.rg) in w.store
    && a.image.Some?
    && !ResolveIdentity(w.store, a.identity).Refused?
    && VmKey(a.sub, a.rg, a.name) !in w.store
  }

  ghost predicate FreshSecret(store: map<Key, Value>, secret: string) {
    secret != "" && SecretKey(secret) !in store
  }

  lemma RewriteVmStore(s: map<Key, Value>, k: Key, vm: VmRec)
    requires StoreInv(s)
    requires k in s && k.VmKey? && WellFiled(k, VmVal(vm)) && vm.secret == SecretOf(s, k)
    ensures var t := s[k := VmVal(vm)]; StoreInv(t) && SameClusters(s, t) && t.Keys == s.Keys
  {
    hide WellFiled;
    var t := s[k := VmVal(vm)];
    assert forall x :: OwnerOf(t, x) == OwnerOf(s, x);
    assert forall j :: SecretOf(t, j) == SecretOf(s, j);
    assert forall j: Key :: j.SvcKey? ==> PortsOf(t, j) == PortsOf(s, j);
  }

  // Replacing a VM record by one with the same owner fields.
  lemma RewriteVm(w: World, k: Key, vm: VmRec)
    requires Inv(w) && k in w.store && k.VmKey? && WellFiled(k, VmVal(vm)) && vm.secret == SecretOf(w.store, k)
    ensures Inv(w.(store := w.store[k := VmVal(vm)]))
  {
    var w' := w.(store := w.store[k := VmVal(vm)]);
    RewriteVmStore(w.store, k, vm);
    ClustersStay(w, w');
    SameKeysKeep(w, w');
    hide Typed, Owns, NoOrphans, Distinct, Mirrored, Resolves, PortsApart, ClustersHeld, WellFiled;
  }

  // Removing a container and a network that no record owns.
  lemma DropUnowned(w: World, c: string, n: string)
    requires Owns(w) && NoOrphans(w) && ClustersHeld(w)
    requires forall k :: k in w.store && k.VmKey? ==> VmContainer(k.rg, k.name) != c && VmNetwork(k.rg, k.name) != n
    requires forall k :: k in w.store && k.SvcKey? ==> SvcContainer(k.rg, k.vm, k.svc) != c
    ensures var w' := w.(containers := w.containers - {c}, networks := w.networks - {n});
            Owns(w') && NoOrphans(w') && ClustersHeld(w')
  {
    var w' := w.(containers := w.containers - {c}, networks := w.networks - {n});
    ClustersStay(w, w');
    hide VmContainer, VmNetwork, SvcContainer, KindOf, NoOrphans, ClustersHeld;
    RemovalKeepsDocker(w, w');
  }

  lemma FreeNames(store: map<Key, Value>, a: VmArgs)
    requires !NameTaken(store, a) && VmKey(a.sub, a.rg, a.name) !in store
    ensures forall k :: k in store && k.VmKey? ==>
              VmContainer(k.rg, k.name) != VmContainer(a.rg, a.name) && VmNetwork(k.rg, k.name) != VmNetwork(a.rg, a.name)
    ensures forall k :: k in store && k.SvcKey? ==> SvcContainer(k.rg, k.vm, k.svc) != VmContainer(a.rg, a.name)
  {
    NameKinds();
    forall k | k in store && k.VmKey?
      ensures VmContainer(k.rg, k.name) != VmContainer(a.rg, a.name) && VmNetwork(k.rg, k.name) != VmNetwork(a.rg, a.name)
    {
      SameContainerSameNetwork(k.rg, k.name, a.rg, a.name);
    }
    hide VmContainer, VmNetwork, SvcContainer, KindOf;
    forall k | k in store && k.SvcKey? ensures SvcContainer(k.rg, k.vm, k.svc) != VmContainer(a.rg, a.name) {
      assert KindOf(SvcContainer(k.rg, k.vm, k.svc)) == SvcKind && KindOf(VmContainer(a.rg, a.name)) == VmKind;
    }
  }

  lemma PutVmFails(w: World, a: VmArgs)
    requires Inv(w) && Starts(w, a) && !NameTaken(w.store, a)
    ensures Inv(w.(containers := w.containers - {VmContainer(a.rg, a.name)}, networks := w.networks - {VmNetwork(a.rg, a.name)}))
  {
    hide Typed, Owns, NoOrphans, Distinct, Mirrored, Resolves, PortsApart, ClustersHeld, VmContainer, VmNetwork, NameTaken, ResolveIdentity;
    FreeNames(w.store, a);
    DropUnowned(w, VmContainer(a.rg, a.name), VmNetwork(a.rg, a.name));
  }

  ghost function Born(w: World, a: VmArgs, identity: Option<map<string, Assignment>>): World
    requires a.image.Some?
  {
    w.(store := WithVm(w.store, a, identity),
       containers := w.containers[VmContainer(a.rg, a.name) := true],
       networks := w.networks + {VmNetwork(a.rg, a.name)})
  }

  lemma BornMirrored(w: World, a: VmArgs, identity: Option<map<string, Assignment>>)
    requires Mirrored(w.store) && Starts(w, a) && FreshSecret(w.store, a.secret)
    ensures Mirrored(WithVm(w.store, a, identity))
  {
    var s, born := WithVm(w.store, a, identity), VmKey(a.sub, a.rg, a.name);
    hide ResolveIdentity, VmArmId, VmContainer;
    forall k | k in s && k.VmKey? ensures OwnerOf(s, SecretOf(s, k)) == Some(k) {
      if k != born { assert OwnerOf(w.store, SecretOf(w.store, k)) == Some(k); }
    }
  }

  lemma BornStore(w: World, a: VmArgs, identity: Option<map<string, Assignment>>)
    requires StoreInv(w.store) && Starts(w, a) && FreshSecret(w.store, a.secret)
    ensures StoreInv(WithVm(w.store, a, identity))
  {
    hide VmContainer, VmNetwork, SvcContainer, KindOf, VmArmId, ResolveIdentity, NoOrphans, Owns, ClustersHeld, Distinct;
    var s, born := WithVm(w.store, a, identity), VmKey(a.sub, a.rg, a.name);
    BornMirrored(w, a, identity);
    hide Mirrored;
    assert forall k: Key :: k.SvcKey? ==> PortsOf(s, k) == PortsOf(w.store, k);
  }

  lemma BornDistinct(w: World, a: VmArgs, identity: Option<map<string, Assignment>>)
    requires Distinct(w.store) && Starts(w, a) && !NameTaken(w.store, a)
    ensures Distinct(WithVm(w.store, a, identity))
  {
    hide VmContainer, SvcContainer, ResolveIdentity;
  }

  lemma BornOwns(w: World, a: VmArgs, identity: Option<map<string, Assignment>>)
    requires Owns(w) && Starts(w, a)
    ensures Owns(Born(w, a, identity))
  {
    hide VmContainer, VmNetwork, SvcContainer, VmArmId, ResolveIdentity;
  }

  lemma BornHeld(w: World, a: VmArgs, identity: Option<map<string, Assignment>>)
    requires NoOrphans(w) && ClustersHeld(w) && Starts(w, a)
    ensures NoOrphans(Born(w, a, identity)) && ClustersHeld(Born(w, a, identity))
  {
    NameKinds();
    hide VmContainer, VmNetwork, SvcContainer, KindOf, VmArmId, ResolveIdentity;
    var w', born := Born(w, a, identity), VmKey(a.sub, a.rg, a.name);
    HoldersGrow(w.store, w'.store);
    assert born in w'.store;
    assert VmHolds(w'.store, VmContainer(a.rg, a.name)) && NetHeld(w'.store, VmNetwork(a.rg, a.name));
    assert SameClusters(w.store, w'.store);
    assert KindOf(VmContainer(a.rg, a.name)) == VmKind;
    ClustersStay(w, w');
    hide VmHolds, NetHeld, SvcHolds, ClustersHeld, SameClusters;
  }

  lemma PutVmUpdates(w: World, a: VmArgs, identity: Option<map<string, Assignment>>, blind: set<string>)
    requires Inv(w) && VmKey(a.sub, a.rg, a.name) in w.store
    ensures var k := VmKey(a.sub, a.rg, a.name);
            w.store[k].VmVal? && Inv(w.(store := w.store[k := VmVal(UpdatedVm(w, w.store[k].vm, a, identity, blind))]))
  {
    var k := VmKey(a.sub, a.rg, a.name);
    assert WellFiled(k, w.store[k]);
    RewriteVm(w, k, UpdatedVm(w, w.store[k].vm, a, identity, blind));
  }

  /** Whatever Docker is asked and answers, also under a taken name or without Docker at
      all, creating or updating a VM keeps the store's half. */
  lemma PutVmStore(w: World, a: VmArgs, env: Env)
    requires StoreInv(w.store) && FreshSecret(w.store, a.secret)
    ensures StoreInv(PutVm(w, a, env).0.store)
  {
    var k, resolved := VmKey(a.sub, a.rg, a.name), ResolveIdentity(w.store, a.identity);
    if k in w.store {
      assert WellFiled(k, w.store[k]);
      RewriteVmStore(w.store, k, UpdatedVm(w, w.store[k].vm, a, Identity(resolved), env.blind));
    } else if Starts(w, a) {
      BornStore(w, a, Identity(resolved));
    }
    hide StoreInv, VmContainer, VmNetwork, ResolveIdentity, WithVm, UpdatedVm;
  }

  // The newcomer runs: two records now share one container.
  lemma SharedAfterStart(w: World, a: VmArgs, env: Env, k: Key)
    requires w.docker && Starts(w, a) && env.runOk && VmNetwork(a.rg, a.name) in w.networks && a.secret != ""
    requires k in w.store && k.VmKey? && k != VmKey(a.sub, a.rg, a.name)
    requires VmKey(a.sub, a.rg, a.name) !in w.store
    requires VmContainer(k.rg, k.name) == VmContainer(a.rg, a.name)
    ensures !Distinct(PutVm(w, a, env).0.store)
  {
    hide VmContainer, VmNetwork, VmArmId, ResolveIdentity;
    var t, born := PutVm(w, a, env).0.store, VmKey(a.sub, a.rg, a.name);
    assert k in t && born in t;
  }

  // It does not run: the older VM has lost its network.
  lemma LostAfterFailure(w: World, a: VmArgs, env: Env, k: Key)
    requires w.docker && Starts(w, a) && !env.runOk && VmNetwork(a.rg, a.name) in w.networks
    requires k in w.store && k.VmKey? && VmNetwork(k.rg, k.name) == VmNetwork(a.rg, a.name)
    ensures !Owns(PutVm(w, a, env).0)
  {
    hide VmContainer, VmNetwork, VmArmId, ResolveIdentity;
    assert k in PutVm(w, a, env).0.store;
  }

  lemma PutVmTaken(w: World, a: VmArgs, env: Env)
    requires Inv(w) && w.docker && Starts(w, a) && NameTaken(w.store, a) && a.secret != ""
    ensures !Inv(PutVm(w, a, env).0)
  {
    var born := VmKey(a.sub, a.rg, a.name);
    var k :| k in w.store && k.VmKey? && k != born && VmContainer(k.rg, k.name) == VmContainer(a.rg, a.name);
    SameContainerSameNetwork(k.rg, k.name, a.rg, a.name);
    assert VmNetwork(a.rg, a.name) in w.networks;
    assert born !in w.store;
    hide VmContainer, VmNetwork, PutVm;
    if env.runOk { SharedAfterStart(w, a, env, k); } else { LostAfterFailure(w, a, env, k); }
  }

  // docker run is reached, fails, and leaves the container it created.
  ghost predicate LeavesVm(w: World, a: VmArgs, env: Env) {
    Starts(w, a) && (env.netOk || VmNetwork(a.rg, a.name) in w.networks) && !env.runOk && env.leftover
  }

  lemma PutVmLeaves(w: World, a: VmArgs, env: Env)
    requires w.docker && LeavesVm(w, a, env) && !NameTaken(w.store, a)
    ensures !NoOrphans(PutVm(w, a, env).0)
  {
    NameKinds();
    var w', c := PutVm(w, a, env).0, VmContainer(a.rg, a.name);
    assert KindOf(c) == VmKind;
    hide VmContainer, VmNetwork, VmArmId, ResolveIdentity, KindOf;
    assert c in w'.containers && w'.store == w.store;
    assert !VmHolds(w'.store, c);
  }

  lemma PutVmFailed(w: World, a: VmArgs, env: Env)
    requires Inv(w) && Starts(w, a) && !NameTaken(w.store, a) && !env.leftover
    ensures var c := VmContainer(a.rg, a.name);
      Inv(w.(containers := Ran(w.containers - {c}, c, false, env.leftover), networks := w.networks - {VmNetwork(a.rg, a.name)}))
  {
    PutVmFails(w, a);
    hide Inv, VmContainer, VmNetwork, ResolveIdentity, NameTaken;
  }

  lemma PutVmStarts(w: World, a: VmArgs, env: Env)
    requires Inv(w) && w.docker && FreshSecret(w.store, a.secret)
    requires Starts(w, a) && !NameTaken(w.store, a) && !LeavesVm(w, a, env)
    ensures Inv(PutVm(w, a, env).0)
  {
    var identity := Identity(ResolveIdentity(w.store, a.identity));
    if !env.leftover { PutVmFailed(w, a, env); }
    BornStore(w, a, identity);
    BornDistinct(w, a, identity);
    BornOwns(w, a, identity);
    BornHeld(w, a, identity);
    hide VmContainer, VmNetwork, SvcContainer, KindOf, VmArmId, ResolveIdentity, WithVm, UpdatedVm, NameTaken,
      Typed, Owns, NoOrphans, Distinct, Mirrored, Resolves, PortsApart, ClustersHeld;
  }

  lemma PutVmStays(w: World, a: VmArgs, env: Env)
    requires Inv(w) && w.docker && !Starts(w, a)
    ensures Inv(PutVm(w, a, env).0)
  {
    var k, resolved := VmKey(a.sub, a.rg, a.name), ResolveIdentity(w.store, a.identity);
    assert k in w.store ==> WellFiled(k, w.store[k]);
    if RgKey(a.sub, a.rg) in w.store && a.image.Some? && !resolved.Refused? {
      PutVmUpdates(w, a, Identity(resolved), env.blind);
    }
    hide Inv, VmContainer, VmNetwork, VmArmId, ResolveIdentity, WithVm, UpdatedVm, WellFiled;
  }

  /** Creating or updating a VM keeps the invariant if and only if it does not start a VM
      under a container name another VM already has (the older VM's container is removed
      before the new one is run), and docker run does not fail and leave a container behind
      (only the network is cleaned up then). */
  lemma PutVmKeeps(w: World, a: VmArgs, env: Env)
    requires Inv(w) && w.docker && FreshSecret(w.store, a.secret)
    ensures Inv(PutVm(w, a, env).0) <==> !(Starts(w, a) && NameTaken(w.store, a)) && !LeavesVm(w, a, env)
  {
    assert LeavesVm(w, a, env) ==> Starts(w, a);
    hide LeavesVm, NameTaken, Starts, PutVm;
    if !Starts(w, a) {
      PutVmStays(w, a, env);
    } else if NameTaken(w.store, a) {
      PutVmTaken(w, a, env);
    } else if LeavesVm(w, a, env) {
      PutVmLeaves(w, a, env);
    } else {
      PutVmStarts(w, a, env);
    }
  }

  // ---- Reads, power actions ----

  // Switching containers on and off leaves ownership alone.
  lemma SwitchKeeps(w: World, containers: map<string, bool>)
    requires Inv(w) && containers.Keys == w.containers.Keys
    ensures Inv(w.(containers := containers))
  {
    var w' := w.(containers := containers);
    assert forall c :: c in w'.containers <==> c in w.containers;
    ClustersStay(w, w');
    SameKeysKeep(w, w');
  }

  lemma RefreshStore(w: World, k: Key, blind: set<string>)
    requires StoreInv(w.store) && k in w.store && k.VmKey?
    ensures w.store[k].VmVal? && StoreInv(RefreshVm(w, k, w.store[k].vm, blind).store)
  {
    assert WellFiled(k, w.store[k]);
    RewriteVmStore(w.store, k, Refreshed(w, w.store[k].vm, blind));
  }

  lemma ReadVmStore(w: World, k: Key, env: Env)
    requires StoreInv(w.store)
    ensures StoreInv(ReadVm(w, k, env).0.store)
  {
    if k in w.store {
      assert WellFiled(k, w.store[k]);
      if k.VmKey? { RefreshStore(w, k, env.blind); }
    }
  }

  lemma PowerStore(w: World, sub: string, rg: string, name: string, action: Action, env: Env)
    requires StoreInv(w.store)
    ensures StoreInv(Power(w, sub, rg, name, action, env).0.store)
  {
    hide StoreInv, VmContainer, SvcContainers, Acted, Refreshed;
    var k := VmKey(sub, rg, name);
    if k in w.store {
      RefreshStore(w, k, env.blind);
      var w0 := RefreshVm(w, k, w.store[k].vm, env.blind);
      var containers := Power(w, sub, rg, name, action, env).0.containers;
      RefreshStore(w0.(containers := containers), k, env.blindAfter);
    }
  }

  lemma RefreshKeeps(w: World, k: Key, blind: set<string>)
    requires Inv(w) && k in w.store && k.VmKey?
    ensures w.store[k].VmVal? && Inv(RefreshVm(w, k, w.store[k].vm, blind))
  {
    assert WellFiled(k, w.store[k]);
    RewriteVm(w, k, Refreshed(w, w.store[k].vm, blind));
  }

  lemma ReadVmKeeps(w: World, k: Key, env: Env)
    requires Inv(w)
    ensures Inv(ReadVm(w, k, env).0)
  {
    if k in w.store {
      assert WellFiled(k, w.store[k]);
      if k.VmKey? { RefreshKeeps(w, k, env.blind); }
    }
  }

  lemma PowerKeeps(w: World, sub: string, rg: string, name: string, action: Action, env: Env)
    requires Inv(w)
    ensures Inv(Power(w, sub, rg, name, action, env).0)
  {
    hide Inv, VmContainer, SvcContainers;
    var k := VmKey(sub, rg, name);
    if k in w.store && w.docker {
      RefreshKeeps(w, k, env.blind);
      var w0 := RefreshVm(w, k, w.store[k].vm, env.blind);
      var containers := Power(w, sub, rg, name, action, env).0.containers;
      ActedKeys(w.containers, VmContainer(rg, name), SvcContainers(w.store, Services(w.store, sub, rg, name)), env, action);
      hide Acted;
      assert containers.Keys == w.containers.Keys;
      SwitchKeeps(w0, containers);
      RefreshKeeps(w0.(containers := containers), k, env.blindAfter);
    }
  }

  lemma ActedKeys(containers: map<string, bool>, vm: string, svcs: set<string>, env: Env, action: Action)
    ensures Acted(containers, vm, svcs, env, action).Keys == containers.Keys
  {
    var stopped := Stopped(containers, vm, svcs, env.stopFails);
    assert stopped.Keys == containers.Keys;
    assert Started(containers, vm, svcs, env.startFails).Keys == containers.Keys;
    assert Started(stopped, vm, svcs, env.startFails).Keys == containers.Keys;
  }

  /** A restart whose stopping works and whose starting is refused for the VM's container
      is reported as failed and leaves the VM and all its services stopped. */
  lemma RestartHalfway(w: World, sub: string, rg: string, name: string, env: Env)
    requires w.docker && GetVm(w.store, VmKey(sub, rg, name)).Some?
    requires env.stopFails == {} && VmContainer(rg, name) in env.startFails
    ensures var (w', reply) := Power(w, sub, rg, name, Restart, env);
            && reply == StartFailed
            && forall x :: x in w.containers && (x == VmContainer(rg, name) || x in SvcContainers(w.store, Services(w.store, sub, rg, name)))
                 ==> x in w'.containers && !w'.containers[x]
  {
    hide VmContainer, SvcContainers, Services, Refreshed;
  }

  // ---- Deleting a VM ----

  // The store after VM k is gone, with its services and its secret.
  ghost function VmGone(store: map<Key, Value>, k: Key): map<Key, Value>
    requires k.VmKey?
  {
    store - Services(store, k.sub, k.rg, k.name) - {SecretKey(SecretOf(store, k))} - {k}
  }

  lemma VmGoneResolves(s: map<Key, Value>, k: Key)
    requires Resolves(s) && k.VmKey?
    ensures Resolves(VmGone(s, k)) && Part(VmGone(s, k), s) && SameClusters(s, VmGone(s, k))
  {
  }

  lemma VmGoneSecrets(s: map<Key, Value>, k: Key)
    requires Mirrored(s) && k in s && k.VmKey?
    ensures forall j :: j in s && j.VmKey? ==> (j in VmGone(s, k) <==> SecretKey(SecretOf(s, j)) in VmGone(s, k))
  {
    assert OwnerOf(s, SecretOf(s, k)) == Some(k);
    forall j | j in s && j.VmKey? ensures j in VmGone(s, k) <==> SecretKey(SecretOf(s, j)) in VmGone(s, k) {
      assert OwnerOf(s, SecretOf(s, j)) == Some(j);
    }
  }

  lemma VmGoneKeeps(s: map<Key, Value>, k: Key)
    requires StoreInv(s) && k in s && k.VmKey?
    ensures var t := VmGone(s, k); StoreInv(t) && SameClusters(s, t) && Part(t, s)
  {
    hide Typed, Mirrored, Resolves, PortsApart, VmGone, SecretOf, Part;
    VmGoneResolves(s, k);
    VmGoneSecrets(s, k);
    RemovalKeepsStore(s, VmGone(s, k));
  }

  // The containers listed for a set of services are exactly theirs.
  lemma SvcContainersOf(s: map<Key, Value>, ks: set<Key>, j: Key)
    requires Typed(s) && Distinct(s) && j in s && j.SvcKey?
    requires forall k :: k in ks ==> k in s && k.SvcKey?
    ensures SvcContainer(j.rg, j.vm, j.svc) in SvcContainers(s, ks) <==> j in ks
  {
    NameKinds();
    assert WellFiled(j, s[j]);
    assert KindOf(SvcContainer(j.rg, j.vm, j.svc)) == SvcKind;
    hide VmContainer, VmNetwork, SvcContainer, KindOf, VmArmId;
    if SvcContainer(j.rg, j.vm, j.svc) in SvcContainers(s, ks) {
      var k :| k in ks && s[k].SvcVal? && s[k].svc.containerName == SvcContainer(j.rg, j.vm, j.svc);
      assert WellFiled(k, s[k]);
    }
  }

  // They are all of the service kind, so no VM's container is among them.
  lemma SvcContainersKind(s: map<Key, Value>, ks: set<Key>, c: string)
    requires Typed(s) && c in SvcContainers(s, ks)
    requires forall k :: k in ks ==> k in s && k.SvcKey?
    ensures KindOf(c) == SvcKind
  {
    NameKinds();
    hide VmContainer, VmNetwork, SvcContainer, KindOf, VmArmId;
    var k :| k in ks && s[k].SvcVal? && s[k].svc.containerName == c;
    assert WellFiled(k, s[k]);
  }

  // With a VM's container and its services' go its own record and theirs, no other.
  lemma DeleteVmTakesVm(w: World, services: set<Key>, k: Key, j: Key)
    requires Typed(w.store) && Owns(w) && Distinct(w.store)
    requires j in w.store && j.VmKey? && k in w.store && k.VmKey?
    requires forall x :: x in services ==> x in w.store && x.SvcKey?
    ensures j != k <==> VmContainer(j.rg, j.name) in w.containers - SvcContainers(w.store, services) - {VmContainer(k.rg, k.name)}
    ensures j != k <==> VmNetwork(j.rg, j.name) in w.networks - {VmNetwork(k.rg, k.name)}
  {
    SameContainerSameNetwork(j.rg, j.name, k.rg, k.name);
    NameKinds();
    hide VmContainer, VmNetwork, SvcContainer, KindOf, WellFiled, SvcContainers;
    if VmContainer(j.rg, j.name) in SvcContainers(w.store, services) { SvcContainersKind(w.store, services, VmContainer(j.rg, j.name)); }
  }

  lemma DeleteVmTakesSvc(w: World, services: set<Key>, k: Key, j: Key)
    requires Typed(w.store) && Owns(w) && Distinct(w.store)
    requires j in w.store && j.SvcKey? && k.VmKey?
    requires forall x :: x in services ==> x in w.store && x.SvcKey?
    ensures j !in services <==> SvcContainer(j.rg, j.vm, j.svc) in w.containers - SvcContainers(w.store, services) - {VmContainer(k.rg, k.name)}
  {
    NameKinds();
    hide VmContainer, VmNetwork, SvcContainer, KindOf, WellFiled, SvcContainers;
    SvcContainersOf(w.store, services, j);
    assert KindOf(SvcContainer(j.rg, j.vm, j.svc)) == SvcKind && KindOf(VmContainer(k.rg, k.name)) == VmKind;
  }

  ghost function WithoutVm(w: World, k: Key): World
    requires k.VmKey?
  {
    w.(store := VmGone(w.store, k),
       containers := w.containers - SvcContainers(w.store, Services(w.store, k.sub, k.rg, k.name)) - {VmContainer(k.rg, k.name)},
       networks := w.networks - {VmNetwork(k.rg, k.name)})
  }

  lemma WithoutVmDocker(w: World, k: Key)
    requires Typed(w.store) && Owns(w) && Distinct(w.store) && NoOrphans(w) && k in w.store && k.VmKey?
    ensures Owns(WithoutVm(w, k)) && NoOrphans(WithoutVm(w, k))
  {
    var services, w' := Services(w.store, k.sub, k.rg, k.name), WithoutVm(w, k);
    assert forall j :: j in w.store && (j.VmKey? || j.SvcKey?) ==> (j in w'.store <==> j !in services && j != k);
    assert Part(w'.store, w.store) && w'.containers.Keys <= w.containers.Keys;
    hide Typed, Owns, Distinct, NoOrphans, VmGone, VmContainer, VmNetwork, SvcContainer, SvcContainers;
    forall j | j in w.store && j.VmKey?
      ensures j in w'.store <==> VmContainer(j.rg, j.name) in w'.containers
      ensures j in w'.store <==> VmNetwork(j.rg, j.name) in w'.networks
    {
      DeleteVmTakesVm(w, services, k, j);
    }
    forall j | j in w.store && j.SvcKey? ensures j in w'.store <==> SvcContainer(j.rg, j.vm, j.svc) in w'.containers {
      DeleteVmTakesSvc(w, services, k, j);
    }
    RemovalKeepsDocker(w, w');
  }

  lemma DeleteVmIs(w: World, sub: string, rg: string, name: string)
    requires Typed(w.store) && w.docker && VmKey(sub, rg, name) in w.store
    ensures DeleteVm(w, sub, rg, name).0 == WithoutVm(w, VmKey(sub, rg, name))
  {
    assert WellFiled(VmKey(sub, rg, name), w.store[VmKey(sub, rg, name)]);
  }

  lemma DeleteVmStore(w: World, sub: string, rg: string, name: string)
    requires StoreInv(w.store)
    ensures StoreInv(DeleteVm(w, sub, rg, name).0.store)
  {
    var k := VmKey(sub, rg, name);
    if k in w.store {
      assert WellFiled(k, w.store[k]);
      assert DeleteVm(w, sub, rg, name).0.store == VmGone(w.store, k);
      hide DeleteVm, StoreInv;
      VmGoneKeeps(w.store, k);
    }
  }

  lemma DeleteVmKeeps(w: World, sub: string, rg: string, name: string)
    requires Inv(w) && w.docker
    ensures Inv(DeleteVm(w, sub, rg, name).0)
  {
    hide Typed, Owns, NoOrphans, Distinct, Mirrored, Resolves, PortsApart, ClustersHeld, VmGone, SameClusters, Part;
    var k := VmKey(sub, rg, name);
    if k in w.store {
      DeleteVmIs(w, sub, rg, name);
      VmGoneKeeps(w.store, k);
      RemovalDistinct(w.store, VmGone(w.store, k));
      WithoutVmDocker(w, k);
      ClustersStay(w, WithoutVm(w, k));
    }
  }
}
