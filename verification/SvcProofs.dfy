/** The VM-service requests keep the invariant, and sibling services keep their ports apart. */
module SvcProofs {
  import opened Options
  import opened Keys
  import opened Worlds
  import opened VmSpec
  import opened Invariant
  import opened VmProofs

  // ---- The store after a deployment ----

  // The ports of a new deployment are free among its siblings.
  ghost predicate PortsFree(s: map<Key, Value>, key: Key, ports: seq<int>) {
    forall j :: j in s && SameVm(j, key) && j != key ==> forall p :: p in ports ==> p !in PortsOf(s, j)
  }

  lemma NoConflictMeansFree(s: map<Key, Value>, a: SvcArgs, ports: seq<int>)
    requires Typed(s)
    ensures Conflict(s, a, ports) <==> !PortsFree(s, SvcKey(a.sub, a.rg, a.vm, a.svc), ports)
  {
    var key := SvcKey(a.sub, a.rg, a.vm, a.svc);
    forall j | j in s && SameVm(j, key) ensures j in Services(s, a.sub, a.rg, a.vm) && s[j].SvcVal? && s[j].svc.name == j.svc {
      assert WellFiled(j, s[j]);
    }
    hide Typed, SvcContainer;
    if !PortsFree(s, key, ports) {
      var j :| j in s && SameVm(j, key) && j != key && exists p :: p in ports && p in PortsOf(s, j);
      assert j in Services(s, a.sub, a.rg, a.vm) && s[j].svc.name != a.svc;
    }
  }

  lemma DeployStore(s: map<Key, Value>, key: Key, svc: SvcRec)
    requires StoreInv(s)
    requires key.SvcKey? && VmKey(key.sub, key.rg, key.vm) in s && WellFiled(key, SvcVal(svc)) && PortsFree(s, key, svc.ports)
    ensures var t := s[key := SvcVal(svc)]; StoreInv(t) && SameClusters(s, t)
  {
    var t := s[key := SvcVal(svc)];
    DeployMirrors(s, key, svc);
    hide Mirrored, WellFiled;
    assert forall j :: j != key ==> PortsOf(t, j) == PortsOf(s, j);
    assert PortsOf(t, key) == svc.ports;
  }

  lemma DeployMirrors(s: map<Key, Value>, key: Key, svc: SvcRec)
    requires Mirrored(s) && key.SvcKey?
    ensures Mirrored(s[key := SvcVal(svc)])
  {
    var t := s[key := SvcVal(svc)];
    assert forall x :: OwnerOf(t, x) == OwnerOf(s, x);
    assert forall j: Key :: j.VmKey? ==> SecretOf(t, j) == SecretOf(s, j) && (j in t <==> j in s);
  }

  // ---- A successful deployment ----

  lemma DeployDistinct(w: World, key: Key, svc: SvcRec)
    requires key.SvcKey? && Owns(w) && Distinct(w.store)
    requires key !in w.store ==> SvcContainer(key.rg, key.vm, key.svc) !in w.containers
    ensures Distinct(w.store[key := SvcVal(svc)])
  {
    hide VmContainer, VmNetwork, SvcContainer;
  }

  lemma DeployOwns(w: World, key: Key, svc: SvcRec)
    requires key.SvcKey? && Owns(w) && NoOrphans(w)
    ensures var c := SvcContainer(key.rg, key.vm, key.svc);
            var w' := w.(store := w.store[key := SvcVal(svc)], containers := (w.containers - {c})[c := true]);
            Owns(w') && NoOrphans(w')
  {
    NameKinds();
    var c := SvcContainer(key.rg, key.vm, key.svc);
    var w' := w.(store := w.store[key := SvcVal(svc)], containers := (w.containers - {c})[c := true]);
    assert KindOf(c) == SvcKind;
    assert SvcHolds(w'.store, c) by { assert key in w'.store; }
    hide VmContainer, VmNetwork, SvcContainer, KindOf, VmHolds, NetHeld, SvcHolds;
    assert forall x :: x in w'.containers <==> x in w.containers || x == c;
    OneMoreService(w, w', key, c);
  }

  lemma OneMoreService(w: World, w': World, key: Key, c: string)
    requires Owns(w) && NoOrphans(w) && key.SvcKey? && c == SvcContainer(key.rg, key.vm, key.svc)
    requires w'.store.Keys == w.store.Keys + {key} && w'.networks == w.networks
    requires forall x :: x in w'.containers <==> x in w.containers || x == c
    requires KindOf(c) == SvcKind && SvcHolds(w'.store, c)
    ensures Owns(w') && NoOrphans(w')
  {
    HoldersGrow(w.store, w'.store);
    hide VmContainer, VmNetwork, SvcContainer, KindOf, VmHolds, NetHeld, SvcHolds;
    forall k | k in w'.store && k != key ensures k in w.store { assert k in w'.store.Keys; }
  }

  lemma DeployClusters(w: World, key: Key, svc: SvcRec)
    requires key.SvcKey? && ClustersHeld(w)
    ensures var c := SvcContainer(key.rg, key.vm, key.svc);
            ClustersHeld(w.(store := w.store[key := SvcVal(svc)], containers := (w.containers - {c})[c := true]))
  {
    NameKinds();
    var c := SvcContainer(key.rg, key.vm, key.svc);
    var w' := w.(store := w.store[key := SvcVal(svc)], containers := (w.containers - {c})[c := true]);
    hide VmContainer, VmNetwork, SvcContainer, KindOf;
    assert KindOf(c) == SvcKind;
    ClustersStay(w, w');
  }

  // ---- A service goes: deleted, or its redeployment failed ----

  lemma SvcGoneParts(s: map<Key, Value>, key: Key)
    requires Mirrored(s) && Resolves(s) && key.SvcKey?
    ensures var t := s - {key};
            && Resolves(t) && Part(t, s) && SameClusters(s, t)
            && forall k :: k in s && k.VmKey? ==> (k in t <==> SecretKey(SecretOf(s, k)) in t)
  {
    var t := s - {key};
    forall k | k in s && k.VmKey? ensures k in t && SecretKey(SecretOf(s, k)) in t {
      assert OwnerOf(s, SecretOf(s, k)) == Some(k);
    }
  }

  lemma SvcGoneStore(s: map<Key, Value>, key: Key)
    requires StoreInv(s) && key.SvcKey?
    ensures var t := s - {key}; StoreInv(t) && SameClusters(s, t) && Part(t, s)
  {
    hide Typed, Mirrored, Resolves, PortsApart, SecretOf, Part, SameClusters;
    SvcGoneParts(s, key);
    RemovalKeepsStore(s, s - {key});
  }

  lemma SvcGoneDocker(w: World, key: Key)
    requires Owns(w) && NoOrphans(w) && Distinct(w.store) && ClustersHeld(w) && key in w.store && key.SvcKey?
    ensures var w' := w.(store := w.store - {key}, containers := w.containers - {SvcContainer(key.rg, key.vm, key.svc)});
            Owns(w') && NoOrphans(w') && ClustersHeld(w')
  {
    NameKinds();
    var w' := w.(store := w.store - {key}, containers := w.containers - {SvcContainer(key.rg, key.vm, key.svc)});
    ClustersStay(w, w');
    hide VmContainer, VmNetwork, SvcContainer, KindOf, NoOrphans, ClustersHeld;
    forall k | k in w.store && k.VmKey? ensures VmContainer(k.rg, k.name) != SvcContainer(key.rg, key.vm, key.svc) {
      assert KindOf(VmContainer(k.rg, k.name)) == VmKind && KindOf(SvcContainer(key.rg, key.vm, key.svc)) == SvcKind;
    }
    RemovalKeepsDocker(w, w');
  }

  lemma SvcGoneKeeps(w: World, key: Key)
    requires Inv(w) && key in w.store && key.SvcKey?
    ensures Inv(w.(store := w.store - {key}, containers := w.containers - {SvcContainer(key.rg, key.vm, key.svc)}))
  {
    hide Typed, Owns, NoOrphans, Distinct, Mirrored, Resolves, PortsApart, ClustersHeld, SvcContainer, SameClusters, Part;
    SvcGoneStore(w.store, key);
    RemovalDistinct(w.store, w.store - {key});
    SvcGoneDocker(w, key);
  }

  // ---- Requests ----

  ghost function Deployed(w: World, key: Key, svc: SvcRec): World
    requires key.SvcKey?
  {
    var c := SvcContainer(key.rg, key.vm, key.svc);
    w.(store := w.store[key := SvcVal(svc)], containers := (w.containers - {c})[c := true])
  }

  lemma DeployedKeeps(w: World, key: Key, svc: SvcRec)
    requires Inv(w) && key.SvcKey? && VmKey(key.sub, key.rg, key.vm) in w.store
    requires WellFiled(key, SvcVal(svc)) && PortsFree(w.store, key, svc.ports)
    requires key !in w.store ==> SvcContainer(key.rg, key.vm, key.svc) !in w.containers
    ensures Inv(Deployed(w, key, svc))
  {
    hide Typed, Owns, NoOrphans, Distinct, Mirrored, Resolves, PortsApart, ClustersHeld, SvcContainer, WellFiled, PortsFree;
    DeployStore(w.store, key, svc);
    DeployDistinct(w, key, svc);
    DeployOwns(w, key, svc);
    DeployClusters(w, key, svc);
  }

  // docker run is reached, fails, and leaves the container it created.
  ghost predicate LeftAfterDeploy(w: World, a: SvcArgs, env: Env) {
    && !env.runOk && env.leftover
    && (SvcKey(a.sub, a.rg, a.vm, a.svc) in w.store || SvcContainer(a.rg, a.vm, a.svc) !in w.containers)
  }

  lemma DeployLeaves(w: World, a: SvcArgs, env: Env)
    requires Owns(w) && Distinct(w.store) && a.input.Some? && LeftAfterDeploy(w, a, env)
    ensures !NoOrphans(Deploy(w, a, env).0)
  {
    NameKinds();
    var key, c, w' := SvcKey(a.sub, a.rg, a.vm, a.svc), SvcContainer(a.rg, a.vm, a.svc), Deploy(w, a, env).0;
    assert KindOf(c) == SvcKind;
    hide VmContainer, VmNetwork, SvcContainer, KindOf, NewSvc;
    assert c in w'.containers && w'.store == w.store - {key};
    assert !SvcHolds(w'.store, c);
  }

  // The other outcomes of a deployment: nothing, the old service gone, or the new one in its place.
  lemma DeployOutcomes(w: World, a: SvcArgs, env: Env)
    requires a.input.Some? && !LeftAfterDeploy(w, a, env)
    ensures var key, c := SvcKey(a.sub, a.rg, a.vm, a.svc), SvcContainer(a.rg, a.vm, a.svc);
            var w' := Deploy(w, a, env).0;
            || (key !in w.store && w' == w)
            || (key in w.store && w' == w.(store := w.store - {key}, containers := w.containers - {c}))
            || ((key in w.store || c !in w.containers) && w' == Deployed(w, key, NewSvc(a, a.input.value)))
  {
    var key, c := SvcKey(a.sub, a.rg, a.vm, a.svc), SvcContainer(a.rg, a.vm, a.svc);
    hide SvcContainer, NewSvc;
    if key !in w.store {
      assert w.store - {key} == w.store;
      if c !in w.containers { assert w.containers - {c} == w.containers; }
    }
  }

  lemma DeployKeeps(w: World, a: SvcArgs, env: Env)
    requires Inv(w) && VmKey(a.sub, a.rg, a.vm) in w.store && a.input.Some? && !Conflict(w.store, a, a.input.value.ports)
    ensures Inv(Deploy(w, a, env).0) <==> !LeftAfterDeploy(w, a, env)
  {
    var key, c := SvcKey(a.sub, a.rg, a.vm, a.svc), SvcContainer(a.rg, a.vm, a.svc);
    var svc := NewSvc(a, a.input.value);
    NoConflictMeansFree(w.store, a, a.input.value.ports);
    assert WellFiled(key, SvcVal(svc));
    if LeftAfterDeploy(w, a, env) {
      DeployLeaves(w, a, env);
    } else {
      DeployOutcomes(w, a, env);
      hide Inv, SvcContainer, WellFiled, Conflict, PortsFree, NewSvc, Deploy, Deployed;
      if key in w.store { SvcGoneKeeps(w, key); }
      if key in w.store || c !in w.containers { DeployedKeeps(w, key, svc); }
    }
  }

  lemma DeployStoreHalf(w: World, a: SvcArgs, env: Env)
    requires StoreInv(w.store) && VmKey(a.sub, a.rg, a.vm) in w.store && a.input.Some? && !Conflict(w.store, a, a.input.value.ports)
    ensures StoreInv(Deploy(w, a, env).0.store)
  {
    var key, svc := SvcKey(a.sub, a.rg, a.vm, a.svc), NewSvc(a, a.input.value);
    NoConflictMeansFree(w.store, a, a.input.value.ports);
    assert WellFiled(key, SvcVal(svc));
    SvcGoneStore(w.store, key);
    DeployStore(w.store, key, svc);
    hide StoreInv, SvcContainer, NewSvc;
  }

  lemma PutServiceStore(w: World, a: SvcArgs, env: Env)
    requires StoreInv(w.store)
    ensures StoreInv(PutService(w, a, env).0.store)
  {
    var k := VmKey(a.sub, a.rg, a.vm);
    hide StoreInv, Conflict, Deploy, ServiceName, Refreshed;
    if k in w.store && GetVm(w.store, k).Some? {
      RefreshStore(w, k, env.blind);
      var w0 := RefreshVm(w, k, w.store[k].vm, env.blind);
      if a.input.Some? && !Conflict(w.store, a, a.input.value.ports) {
        ConflictUnchanged(w, k, Refreshed(w, w.store[k].vm, env.blind), a, a.input.value.ports);
        DeployStoreHalf(w0, a, env);
      }
    }
  }

  lemma ReadServiceStore(w: World, k: Key, env: Env)
    requires StoreInv(w.store) && k.SvcKey?
    ensures StoreInv(ReadService(w, k, env).0.store)
  {
    if k in w.store && w.store[k].SvcVal? {
      var svc := RefreshedSvc(w, w.store[k].svc, env);
      assert WellFiled(k, w.store[k]);
      assert WellFiled(k, SvcVal(svc)) && Resolves(w.store) && PortsApart(w.store);
      assert PortsFree(w.store, k, svc.ports) by { assert svc.ports == PortsOf(w.store, k); }
      hide StoreInv, RefreshedSvc, PortsFree, WellFiled;
      DeployStore(w.store, k, svc);
    }
  }

  lemma DeleteServiceStore(w: World, k: Key)
    requires StoreInv(w.store) && k.SvcKey?
    ensures StoreInv(DeleteService(w, k).0.store)
  {
    hide StoreInv;
    SvcGoneStore(w.store, k);
  }

  lemma ConflictUnchanged(w: World, k: Key, vm: VmRec, a: SvcArgs, ports: seq<int>)
    requires k.VmKey?
    ensures Conflict(w.store[k := VmVal(vm)], a, ports) <==> Conflict(w.store, a, ports)
  {
    var t := w.store[k := VmVal(vm)];
    assert Services(t, a.sub, a.rg, a.vm) == Services(w.store, a.sub, a.rg, a.vm);
    assert forall j :: j in Services(w.store, a.sub, a.rg, a.vm) ==> t[j] == w.store[j];
  }

  // The request gets as far as docker run.
  ghost predicate Deploys(w: World, a: SvcArgs, env: Env) {
    var k := VmKey(a.sub, a.rg, a.vm);
    && GetVm(w.store, k).Some? && ServiceName(a.svc) && a.input.Some? && w.docker
    && Refreshed(w, w.store[k].vm, env.blind).power == "running"
    && !Conflict(w.store, a, a.input.value.ports)
  }

  ghost predicate LeavesService(w: World, a: SvcArgs, env: Env) {
    Deploys(w, a, env) && LeftAfterDeploy(w, a, env)
  }

  /** Deploying a service keeps the invariant if and only if docker run does not fail and
      leave a container behind. Another service's container of the same name does no harm:
      docker run refuses and nothing is lost. */
  lemma PutServiceKeeps(w: World, a: SvcArgs, env: Env)
    requires Inv(w)
    ensures Inv(PutService(w, a, env).0) <==> !LeavesService(w, a, env)
  {
    var k := VmKey(a.sub, a.rg, a.vm);
    hide Typed, Owns, NoOrphans, Distinct, Mirrored, Resolves, PortsApart, ClustersHeld, Conflict, Deploy, ServiceName;
    if k in w.store && GetVm(w.store, k).Some? {
      RefreshKeeps(w, k, env.blind);
      var w0 := RefreshVm(w, k, w.store[k].vm, env.blind);
      if a.input.Some? && !Conflict(w.store, a, a.input.value.ports) {
        ConflictUnchanged(w, k, Refreshed(w, w.store[k].vm, env.blind), a, a.input.value.ports);
        DeployKeeps(w0, a, env);
        assert LeftAfterDeploy(w0, a, env) <==> LeftAfterDeploy(w, a, env);
        hide LeftAfterDeploy;
      }
    }
  }

  /** A container so left behind blocks its service: while it stays and no record of the
      service exists, every further deployment that gets as far as docker run fails, whatever
      Docker would have said, and leaves the container where it is. */
  lemma LeftoverBlocks(w: World, a: SvcArgs, env: Env)
    requires SvcContainer(a.rg, a.vm, a.svc) in w.containers && SvcKey(a.sub, a.rg, a.vm, a.svc) !in w.store
    requires Deploys(w, a, env)
    ensures var (w', reply) := PutService(w, a, env);
      reply == StartFailed && SvcKey(a.sub, a.rg, a.vm, a.svc) !in w'.store && w'.containers == w.containers
  {
    hide SvcContainer, ServiceName, Conflict, Refreshed, NewSvc;
  }

  // Such a state is what the failed deployment of a new service leaves.
  lemma LeavesBlocked(w: World, a: SvcArgs, env: Env)
    requires LeavesService(w, a, env)
    ensures var w' := PutService(w, a, env).0;
      SvcContainer(a.rg, a.vm, a.svc) in w'.containers && SvcKey(a.sub, a.rg, a.vm, a.svc) !in w'.store
  {
    hide SvcContainer, ServiceName, Conflict, Refreshed, NewSvc;
  }

  // The record the refresh in front of a deployment leaves.
  lemma RefreshedPower(w: World, k: Key, blind: set<string>)
    requires Typed(w.store) && w.docker && k in w.store && k.VmKey?
    ensures w.store[k].VmVal?
    ensures Refreshed(w, w.store[k].vm, blind)
         == w.store[k].vm.(power := if SeenRunning(w, VmContainer(k.rg, k.name), blind) then "running" else "stopped")
  {
    assert WellFiled(k, w.store[k]);
    NameKinds();
    assert VmContainer(k.rg, k.name) != "";
    hide KindOf, VmContainer;
  }

  lemma DeployNeverConflicts(w: World, a: SvcArgs, env: Env)
    requires a.input.Some?
    ensures Deploy(w, a, env).1 != PortConflict
  {
  }

  /** A request is refused for its ports exactly when a sibling exposes one of them,
      and the refusal changes nothing but the VM's refreshed power state. */
  lemma PortConflictIsExact(w: World, a: SvcArgs, env: Env)
    requires Typed(w.store) && w.docker && VmKey(a.sub, a.rg, a.vm) in w.store && ServiceName(a.svc) && a.input.Some?
    ensures var k, key := VmKey(a.sub, a.rg, a.vm), SvcKey(a.sub, a.rg, a.vm, a.svc);
            var (w', reply) := PutService(w, a, env);
            && (reply == PortConflict <==>
                  SeenRunning(w, VmContainer(a.rg, a.vm), env.blind) && !PortsFree(w.store, key, a.input.value.ports))
            && (reply == PortConflict ==>
                  && w' == w.(store := w'.store) && w'.store.Keys == w.store.Keys
                  && (forall j :: j in w.store && j != k ==> w'.store[j] == w.store[j])
                  && w.store[k].VmVal? && w'.store[k] == VmVal(w.store[k].vm.(power := "running")))
  {
    var k, key := VmKey(a.sub, a.rg, a.vm), SvcKey(a.sub, a.rg, a.vm, a.svc);
    RefreshedPower(w, k, env.blind);
    NoConflictMeansFree(w.store, a, a.input.value.ports);
    hide Typed, Conflict, PortsFree, VmContainer, SeenRunning, Refreshed, Deploy, ServiceName;
    DeployNeverConflicts(RefreshVm(w, k, w.store[k].vm, env.blind), a, env);
  }

  lemma ReadServiceFrame(w: World, k: Key, env: Env)
    requires k.SvcKey?
    ensures var w' := ReadService(w, k, env).0;
            && w'.store.Keys == w.store.Keys && w'.containers == w.containers && w'.networks == w.networks
            && SameClusters(w.store, w'.store)
  {
    hide RefreshedSvc;
  }

  lemma ReadServiceKeeps(w: World, k: Key, env: Env)
    requires Inv(w) && k.SvcKey?
    ensures Inv(ReadService(w, k, env).0)
  {
    var w' := ReadService(w, k, env).0;
    assert Resolves(w.store);
    hide StoreInv, Ownership, Resolves, ClustersHeld, ReadService, SameClusters;
    ReadServiceFrame(w, k, env);
    ReadServiceStore(w, k, env);
    SameKeysKeep(w, w');
    ClustersStay(w, w');
  }

  lemma DeleteServiceKeeps(w: World, k: Key)
    requires Inv(w) && w.docker && k.SvcKey?
    ensures Inv(DeleteService(w, k).0)
  {
    if k in w.store {
      assert WellFiled(k, w.store[k]);
      NameKinds();
      assert SvcContainer(k.rg, k.vm, k.svc) != "";
      hide Inv, SvcContainer, WellFiled, KindOf;
      SvcGoneKeeps(w, k);
    }
  }
}
