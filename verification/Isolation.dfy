/** A request disturbs nothing but what it is about. */
module Isolation {
  import opened Keys
  import opened ArmIds
  import opened Worlds
  import opened VmSpec
  import opened IdentitySpec
  import opened AksSpec
  import opened GroupSpec
  import opened Cascade
  import opened Invariant
  import opened VmProofs
  import opened AksProofs
  import opened GroupProofs
  import opened Operations
  import opened Reach
  import opened StoreRuns
  import opened Systems

  // ---- Only the record a request is about ----

  function ContainerOf(k: Key): string
    requires k.VmKey? || k.SvcKey?
  {
    if k.VmKey? then VmContainer(k.rg, k.name) else SvcContainer(k.rg, k.vm, k.svc)
  }

  predicate ServiceOf(j: Key, sub: string, rg: string, vm: string) {
    j.SvcKey? && j.sub == sub && j.rg == rg && j.vm == vm
  }

  // The request is about record j: it names it, its VM, or its group for deletion. A
  // deployment also refreshes its VM's record.
  predicate Addresses(op: Op, j: Key) {
    match op
    case PutVmOp(a, _) => j == VmKey(a.sub, a.rg, a.name)
    case ReadVmOp(s, r, n, _) => j == VmKey(s, r, n)
    case DeleteVmOp(s, r, n) => j == VmKey(s, r, n) || ServiceOf(j, s, r, n)
    case PowerOp(s, r, n, _, _) => j == VmKey(s, r, n) || ServiceOf(j, s, r, n)
    case PutServiceOp(a, _) => j == VmKey(a.sub, a.rg, a.vm) || j == SvcKey(a.sub, a.rg, a.vm, a.svc)
    case ReadServiceOp(s, r, v, n, _) => j == SvcKey(s, r, v, n)
    case DeleteServiceOp(s, r, v, n) => j == SvcKey(s, r, v, n)
    case DeleteGroupOp(s, r, _) => InGroup(j, s, r)
    case _ => false
  }

  // j's record is unchanged.
  ghost predicate SameRecord(w: World, w': World, j: Key) {
    j in w.store && j in w'.store && w'.store[j] == w.store[j]
  }

  // And so are its container, running or stopped, and its network.
  ghost predicate Undisturbed(w: World, w': World, j: Key)
    requires j.VmKey? || j.SvcKey?
  {
    && SameRecord(w, w', j)
    && ContainerOf(j) in w.containers && ContainerOf(j) in w'.containers
    && w'.containers[ContainerOf(j)] == w.containers[ContainerOf(j)]
    && (j.VmKey? ==> VmNetwork(j.rg, j.name) in w'.networks)
  }

  lemma PutVmRecordStays(w: World, a: VmArgs, env: Env, j: Key)
    requires (j.VmKey? || j.SvcKey?) && j in w.store && j != VmKey(a.sub, a.rg, a.name)
    ensures SameRecord(w, PutVm(w, a, env).0, j)
  {
    hide VmContainer, VmNetwork, ResolveIdentity, UpdatedVm, NewVm;
  }

  lemma DeleteVmRecordStays(w: World, sub: string, rg: string, name: string, j: Key)
    requires (j.VmKey? || j.SvcKey?) && j in w.store && j != VmKey(sub, rg, name) && !ServiceOf(j, sub, rg, name)
    ensures SameRecord(w, DeleteVm(w, sub, rg, name).0, j)
  {
    hide VmContainer, VmNetwork, SvcContainers;
  }

  lemma PowerRecordStays(w: World, sub: string, rg: string, name: string, action: Action, env: Env, j: Key)
    requires j in w.store && j != VmKey(sub, rg, name)
    ensures SameRecord(w, Power(w, sub, rg, name, action, env).0, j)
  {
    hide VmContainer, SvcContainers, Acted, Idle, Succeeds, Refreshed;
  }

  lemma DeployRecordStays(w: World, a: SvcArgs, env: Env, j: Key)
    requires a.input.Some? && j in w.store && j != SvcKey(a.sub, a.rg, a.vm, a.svc)
    ensures SameRecord(w, Deploy(w, a, env).0, j)
  {
    hide SvcContainer, NewSvc;
  }

  lemma PutServiceRecordStays(w: World, a: SvcArgs, env: Env, j: Key)
    requires j in w.store && j != VmKey(a.sub, a.rg, a.vm) && j != SvcKey(a.sub, a.rg, a.vm, a.svc)
    ensures SameRecord(w, PutService(w, a, env).0, j)
  {
    var k := VmKey(a.sub, a.rg, a.vm);
    if GetVm(w.store, k).Some? && a.input.Some? { DeployRecordStays(RefreshVm(w, k, w.store[k].vm, env.blind), a, env, j); }
    hide ServiceName, Conflict, Refreshed, Deploy;
  }

  lemma VmRecordStays(c: Config, w: World, op: Op, now: int, j: Key)
    requires (j.VmKey? || j.SvcKey?) && j in w.store && VmOp(op) && !Addresses(op, j)
    ensures SameRecord(w, Effect(c, w, op, now), j)
  {
    hide ServiceOf, SameRecord, PutVm, DeleteVm, Power, PutService;
    match op {
      case PutVmOp(a, e) => PutVmRecordStays(w, a, e, j);
      case DeleteVmOp(s, r, n) => DeleteVmRecordStays(w, s, r, n, j);
      case PowerOp(s, r, n, a, e) => PowerRecordStays(w, s, r, n, a, e, j);
      case PutServiceOp(a, e) => PutServiceRecordStays(w, a, e, j);
      case _ => ReadRecordStays(c, w, op, now, j);
    }
  }

  lemma ReadRecordStays(c: Config, w: World, op: Op, now: int, j: Key)
    requires op.ReadVmOp? || op.ReadServiceOp? || op.DeleteServiceOp?
    requires j in w.store && !Addresses(op, j)
    ensures SameRecord(w, Effect(c, w, op, now), j)
  {
    hide Refreshed, RefreshedSvc;
  }

  lemma GroupRecordStays(w: World, sub: string, rg: string, env: Env, j: Key)
    requires Typed(w.store) && Mirrored(w.store) && (j.VmKey? || j.SvcKey?) && j in w.store && !InGroup(j, sub, rg)
    ensures SameRecord(w, DeleteGroup(w, sub, rg, env).0, j)
  {
    if RgKey(sub, rg) in w.store { DeleteGroupIsExact(w, sub, rg, env, j); }
    hide Typed, Mirrored, Cleared, Handles, SvcContainersIn, VmContainersIn, VmNetworksIn;
  }

  lemma OtherRecordStays(c: Config, w: World, op: Op, now: int, j: Key)
    requires (j.VmKey? || j.SvcKey?) && j in w.store && !VmOp(op) && !op.DeleteGroupOp?
    ensures SameRecord(w, Effect(c, w, op, now), j)
  {
    hide LooseKey, Selectable, Matches, ClaimsFor, AksContainer, ClusterName, Handles, Orphans;
  }

  /** In every mode, a request changes no VM's or service's record it is not about. */
  lemma RecordStays(c: Config, w: World, op: Op, now: int, j: Key)
    requires Typed(w.store) && Mirrored(w.store) && (j.VmKey? || j.SvcKey?) && j in w.store && !Addresses(op, j)
    ensures SameRecord(w, Effect(c, w, op, now), j)
  {
    if op.DeleteGroupOp? { GroupRecordStays(w, op.sub, op.rg, op.env, j); }
    hide Typed, Mirrored, DeleteGroup;
    if VmOp(op) {
      VmRecordStays(c, w, op, now, j);
    } else if !op.DeleteGroupOp? {
      OtherRecordStays(c, w, op, now, j);
    }
  }

  // A VM's objects are not those of another VM or of another VM's service.
  lemma NotAnothersObject(w: World, sub: string, rg: string, name: string, j: Key)
    requires Typed(w.store) && Owns(w) && Distinct(w.store) && (j.VmKey? || j.SvcKey?) && j in w.store && VmKey(sub, rg, name) in w.store
    requires j != VmKey(sub, rg, name) && !ServiceOf(j, sub, rg, name)
    ensures ContainerOf(j) !in VmObjects(w, sub, rg, name)
    ensures j.VmKey? ==> VmNetwork(j.rg, j.name) != VmNetwork(rg, name)
  {
    var k, services := VmKey(sub, rg, name), Services(w.store, sub, rg, name);
    hide Typed, Distinct, VmContainer, VmNetwork, SvcContainer, SvcContainers;
    if j.VmKey? {
      assert VmContainer(j.rg, j.name) in w.containers && VmNetwork(j.rg, j.name) in w.networks;
      DeleteVmTakesVm(w, services, k, j);
    } else {
      assert SvcContainer(j.rg, j.vm, j.svc) in w.containers;
      DeleteVmTakesSvc(w, services, k, j);
    }
  }

  lemma NotAnothersStart(w: World, a: VmArgs, j: Key)
    requires (j.VmKey? || j.SvcKey?) && j in w.store && j != VmKey(a.sub, a.rg, a.name) && !NameTaken(w.store, a)
    ensures ContainerOf(j) != VmContainer(a.rg, a.name)
    ensures j.VmKey? ==> VmNetwork(j.rg, j.name) != VmNetwork(a.rg, a.name)
  {
    NameKinds();
    if j.VmKey? { SameContainerSameNetwork(j.rg, j.name, a.rg, a.name); }
    assert j.SvcKey? ==> KindOf(ContainerOf(j)) == SvcKind;
    assert KindOf(VmContainer(a.rg, a.name)) == VmKind;
    hide KindOf, VmContainer, VmNetwork, SvcContainer;
  }

  lemma NotAnothersService(w: World, sub: string, rg: string, vm: string, svc: string, j: Key)
    requires Owns(w) && Distinct(w.store) && (j.VmKey? || j.SvcKey?) && j in w.store && j != SvcKey(sub, rg, vm, svc)
    requires SvcKey(sub, rg, vm, svc) in w.store || SvcContainer(rg, vm, svc) !in w.containers
    ensures ContainerOf(j) != SvcContainer(rg, vm, svc)
  {
    NameKinds();
    assert j.VmKey? ==> KindOf(ContainerOf(j)) == VmKind;
    assert KindOf(SvcContainer(rg, vm, svc)) == SvcKind;
    hide KindOf, VmContainer, VmNetwork, SvcContainer;
  }

  lemma NotAnothersGroup(w: World, sub: string, rg: string, j: Key)
    requires Typed(w.store) && Distinct(w.store) && Resolves(w.store) && (j.VmKey? || j.SvcKey?) && j in w.store && !InGroup(j, sub, rg)
    ensures ContainerOf(j) !in Handles(w.store, ClustersIn(w.store, sub, rg)) + SvcContainersIn(w.store, sub, rg) + VmContainersIn(w.store, sub, rg)
    ensures j.VmKey? ==> VmNetwork(j.rg, j.name) !in VmNetworksIn(w.store, sub, rg)
  {
    NameKinds();
    KindsIn(w.store, sub, rg);
    assert KindOf(ContainerOf(j)) == if j.VmKey? then VmKind else SvcKind;
    hide Typed, Distinct, Resolves, KindOf, VmContainer, VmNetwork, SvcContainer, Handles, SvcContainersIn, VmContainersIn, VmNetworksIn;
    if j.VmKey? { VmNamesIn(w.store, sub, rg, j); } else { SvcNamesIn(w.store, sub, rg, j); }
  }

  lemma NotACluster(c: Config, w: World, op: Op, j: Key)
    requires Typed(w.store) && (j.VmKey? || j.SvcKey?)
    requires op.PutClusterOp? || op.DeleteClusterOp? || op.ShutdownOp? || op.ReapOp?
    ensures ContainerOf(j) !in TouchedContainers(c, w, op) && TouchedNetworks(w, op) == {}
  {
    NameKinds();
    assert KindOf(ContainerOf(j)) == if j.VmKey? then VmKind else SvcKind;
    if op.PutClusterOp? { AksKindOfName(c.digest, op.sub, op.rg, op.name); }
    if op.DeleteClusterOp? { HandlesAreAks(w, {ClusterKey(op.sub, op.rg, op.name)}); }
    if op.ShutdownOp? { HandlesAreAks(w, Clusters(w.store)); }
    assert op.ReapOp? ==> forall x :: x in Orphans(w) ==> KindOf(x) == AksKind;
    hide Typed, KindOf, VmContainer, VmNetwork, SvcContainer, AksContainer, Handles, Orphans;
  }

  // What is not addressed is not touched.
  lemma UnaddressedUntouched(c: Config, w: World, op: Op, j: Key)
    requires Inv(w) && (j.VmKey? || j.SvcKey?) && j in w.store && !Addresses(op, j) && !op.DriftOp?
    requires op.PutVmOp? ==> !(Starts(w, op.vm) && NameTaken(w.store, op.vm))
    ensures ContainerOf(j) !in TouchedContainers(c, w, op)
    ensures j.VmKey? ==> VmNetwork(j.rg, j.name) !in TouchedNetworks(w, op)
  {
    hide Typed, Owns, Distinct, Resolves, ContainerOf, VmContainer, VmNetwork, SvcContainer, AksContainer, Starts, NameTaken, VmObjects,
      Handles, Orphans, SvcContainersIn, VmContainersIn, VmNetworksIn;
    match op {
      case PutVmOp(a, e) => if Starts(w, a) { NotAnothersStart(w, a, j); }
      case DeleteVmOp(s, r, n) => if VmKey(s, r, n) in w.store { NotAnothersObject(w, s, r, n, j); }
      case PowerOp(s, r, n, a, e) => if VmKey(s, r, n) in w.store { NotAnothersObject(w, s, r, n, j); }
      case PutServiceOp(a, e) =>
        if SvcKey(a.sub, a.rg, a.vm, a.svc) in w.store || SvcContainer(a.rg, a.vm, a.svc) !in w.containers {
          NotAnothersService(w, a.sub, a.rg, a.vm, a.svc, j);
        }
      case DeleteServiceOp(s, r, v, n) => if SvcKey(s, r, v, n) in w.store { NotAnothersService(w, s, r, v, n, j); }
      case DeleteGroupOp(s, r, e) => NotAnothersGroup(w, s, r, j);
      case PutClusterOp(_, _, _, _, _) => NotACluster(c, w, op, j);
      case DeleteClusterOp(_, _, _) => NotACluster(c, w, op, j);
      case ShutdownOp(_) => NotACluster(c, w, op, j);
      case ReapOp(_) => NotACluster(c, w, op, j);
      case _ =>
    }
  }

  lemma OwnsObjects(w: World, j: Key)
    requires Owns(w) && (j.VmKey? || j.SvcKey?) && j in w.store
    ensures ContainerOf(j) in w.containers && (j.VmKey? ==> VmNetwork(j.rg, j.name) in w.networks)
  {
    hide VmContainer, VmNetwork, SvcContainer;
  }

  lemma EffectIsolates(c: Config, w: World, op: Op, now: int, j: Key)
    requires Inv(w) && (j.VmKey? || j.SvcKey?) && j in w.store && !Addresses(op, j) && !op.DriftOp?
    requires op.PutVmOp? ==> !(Starts(w, op.vm) && NameTaken(w.store, op.vm))
    ensures Undisturbed(w, Effect(c, w, op, now), j)
  {
    assert Typed(w.store) && Mirrored(w.store);
    OwnsObjects(w, j);
    hide Inv, Typed, Mirrored, Effect, TouchedContainers, TouchedNetworks, ContainerOf, VmNetwork, Starts, NameTaken, Addresses, SameRecord;
    RecordStays(c, w, op, now, j);
    EffectOutside(c, w, op, now);
    UnaddressedUntouched(c, w, op, j);
  }

  /** With Docker, a request leaves every VM and every service it is not about as they were:
      record, container, running state and network, also across subscriptions whose names clash. */
  lemma StepIsolates(c: Config, s: Sys, op: Op, now: int, j: Key)
    requires Sound(c, s) && Proper(c, s, op, now) && !op.DriftOp?
    requires (j.VmKey? || j.SvcKey?) && j in s.w.store && !Addresses(op, j)
    ensures Undisturbed(s.w, Step(c, s, op, now).w, j)
  {
    SoundInv(c, s);
    assert op.PutVmOp? ==> !(Starts(s.w, op.vm) && NameTaken(s.w.store, op.vm));
    hide Sound, Proper, Inv, Effect, Undisturbed, Addresses, Starts, NameTaken, Named;
    EffectIsolates(c, s.w, op, now, j);
  }

  ghost predicate Spared(ops: seq<(Op, int)>, j: Key) {
    forall i :: 0 <= i < |ops| ==> !Addresses(ops[i].0, j)
  }

  lemma SparedRest(ops: seq<(Op, int)>, j: Key)
    requires Spared(ops, j) && ops != []
    ensures !Addresses(ops[0].0, j) && Spared(ops[1..], j)
  {
    hide Addresses;
  }

  lemma StoreSoundParts(c: Config, s: Sys)
    requires StoreSound(c, s)
    ensures Typed(s.w.store) && Mirrored(s.w.store)
  {
  }

  /** In every mode, over a whole run in which no request is about a VM or service, its
      record never changes. */
  lemma {:induction false} RunKeepsRecord(c: Config, s: Sys, ops: seq<(Op, int)>, j: Key)
    requires StoreSound(c, s) && LawfulRun(c, s, ops) && Faithful(c.codec) && Spared(ops, j)
    requires (j.VmKey? || j.SvcKey?) && j in s.w.store
    ensures SameRecord(s.w, Run(c, s, ops).w, j)
    decreases |ops|
  {
    hide StoreSound, Lawful, Faithful, Effect, Spared;
    if ops != [] {
      var op, now := ops[0].0, ops[0].1;
      StoreSoundParts(c, s);
      SparedRest(ops, j);
      StoreStepSound(c, s, op, now);
      hide Addresses, Typed, Mirrored;
      RecordStays(c, s.w, op, now, j);
      RunKeepsRecord(c, Step(c, s, op, now), ops[1..], j);
    }
  }

  lemma {:induction false} ProperIsLawful(c: Config, s: Sys, ops: seq<(Op, int)>)
    requires ProperRun(c, s, ops)
    ensures LawfulRun(c, s, ops)
    decreases |ops|
  {
    hide Step, Lawful, Drifts, Leaves, Starts, NameTaken, Reachable;
    if ops != [] { ProperIsLawful(c, Step(c, s, ops[0].0, ops[0].1), ops[1..]); }
  }

  /** With Docker it also still has its container and network at the end. */
  lemma RunIsolates(c: Config, s: Sys, ops: seq<(Op, int)>, j: Key)
    requires Sound(c, s) && ProperRun(c, s, ops) && Faithful(c.codec) && Spared(ops, j)
    requires (j.VmKey? || j.SvcKey?) && j in s.w.store
    ensures var w' := Run(c, s, ops).w;
      && SameRecord(s.w, w', j) && ContainerOf(j) in w'.containers
      && (j.VmKey? ==> VmNetwork(j.rg, j.name) in w'.networks)
  {
    ProperIsLawful(c, s, ops);
    RunSound(c, s, ops);
    assert Owns(Run(c, s, ops).w) && StoreSound(c, s);
    hide StoreSound, Sound, ProperRun, LawfulRun, Faithful, Run, Spared, ContainerOf, VmNetwork, Owns;
    RunKeepsRecord(c, s, ops, j);
    OwnsObjects(Run(c, s, ops).w, j);
  }
}
