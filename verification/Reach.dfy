/** What a request can reach in Docker. */
module Reach {
  import opened Keys
  import opened ArmIds
  import opened Worlds
  import opened VmSpec
  import opened IdentitySpec
  import opened AksSpec
  import opened GroupSpec
  import opened Invariant
  import opened VmProofs
  import opened AksProofs
  import opened GroupProofs
  import opened Operations

  // ---- The Docker objects a request may touch ----

  ghost function VmObjects(w: World, sub: string, rg: string, name: string): set<string> {
    SvcContainers(w.store, Services(w.store, sub, rg, name)) + {VmContainer(rg, name)}
  }

  // docker run under a taken name changes nothing.
  ghost function Redeployed(w: World, a: SvcArgs): set<string> {
    var x := SvcContainer(a.rg, a.vm, a.svc);
    if SvcKey(a.sub, a.rg, a.vm, a.svc) in w.store || x !in w.containers then {x} else {}
  }

  ghost function TouchedContainers(c: Config, w: World, op: Op): set<string> {
    match op
    case PutVmOp(a, _) => if Starts(w, a) then {VmContainer(a.rg, a.name)} else {}
    case DeleteVmOp(s, r, n) => if VmKey(s, r, n) in w.store then VmObjects(w, s, r, n) else {}
    case PowerOp(s, r, n, _, _) => if VmKey(s, r, n) in w.store then VmObjects(w, s, r, n) else {}
    case PutServiceOp(a, _) => Redeployed(w, a)
    case DeleteServiceOp(s, r, v, n) => if SvcKey(s, r, v, n) in w.store then {SvcContainer(r, v, n)} else {}
    case PutClusterOp(s, r, n, _, _) => {AksContainer(c.digest, s, r, n)}
    case DeleteClusterOp(s, r, n) => Handles(w.store, {ClusterKey(s, r, n)})
    case ShutdownOp(l) => Handles(w.store, Clusters(w.store)) - l
    case ReapOp(_) => Orphans(w)
    case DeleteGroupOp(s, r, _) =>
      Handles(w.store, ClustersIn(w.store, s, r)) + SvcContainersIn(w.store, s, r) + VmContainersIn(w.store, s, r)
    case _ => {}
  }

  ghost function TouchedNetworks(w: World, op: Op): set<string> {
    match op
    case PutVmOp(a, _) => if Starts(w, a) then {VmNetwork(a.rg, a.name)} else {}
    case DeleteVmOp(s, r, n) => if VmKey(s, r, n) in w.store then {VmNetwork(r, n)} else {}
    case DeleteGroupOp(s, r, _) => VmNetworksIn(w.store, s, r)
    case _ => {}
  }

  // Everything outside the two sets is as it was, running or stopped.
  ghost predicate Outside(w: World, w': World, cs: set<string>, ns: set<string>) {
    && (forall x :: x !in cs ==> (x in w.containers <==> x in w'.containers))
    && (forall x :: x !in cs && x in w.containers && x in w'.containers ==> w'.containers[x] == w.containers[x])
    && (forall x :: x !in ns ==> (x in w.networks <==> x in w'.networks))
  }

  lemma PutVmTouches(w: World, a: VmArgs, env: Env)
    requires Typed(w.store)
    ensures var w', c, n := PutVm(w, a, env).0, VmContainer(a.rg, a.name), VmNetwork(a.rg, a.name);
      if !Starts(w, a) then w'.containers == w.containers && w'.networks == w.networks
      else
        && (|| w'.containers == w.containers
            || w'.containers == Ran(w.containers - {c}, c, false, env.leftover)
            || w'.containers == w.containers[c := true])
        && (w'.networks == w.networks || w'.networks == w.networks - {n} || w'.networks == w.networks + {n})
  {
    var k := VmKey(a.sub, a.rg, a.name);
    assert k in w.store ==> WellFiled(k, w.store[k]);
    hide VmContainer, VmNetwork, ResolveIdentity, WithVm, UpdatedVm, WellFiled, Ran;
  }

  lemma PutVmReaches(w: World, a: VmArgs, env: Env)
    requires Typed(w.store)
    ensures var starts := Starts(w, a);
      Outside(w, PutVm(w, a, env).0, if starts then {VmContainer(a.rg, a.name)} else {}, if starts then {VmNetwork(a.rg, a.name)} else {})
  {
    PutVmTouches(w, a, env);
    hide VmContainer, VmNetwork, Starts, PutVm, Typed;
  }

  lemma PutVmOutside(c: Config, w: World, a: VmArgs, env: Env, now: int)
    requires Typed(w.store)
    ensures var op := PutVmOp(a, env); Outside(w, Effect(c, w, op, now), TouchedContainers(c, w, op), TouchedNetworks(w, op))
  {
    PutVmReaches(w, a, env);
    hide VmContainer, VmNetwork, Starts, PutVm, Typed, Outside;
  }

  lemma DeleteVmOutside(c: Config, w: World, sub: string, rg: string, name: string, now: int)
    ensures var op := DeleteVmOp(sub, rg, name); Outside(w, Effect(c, w, op, now), TouchedContainers(c, w, op), TouchedNetworks(w, op))
  {
    hide VmContainer, VmNetwork, SvcContainers, Services;
  }

  lemma SwitchOutside(containers: map<string, bool>, cs: set<string>, fails: set<string>, on: bool)
    ensures var t := Switch(containers, cs, fails, on);
      && t.Keys == containers.Keys
      && forall x :: x !in cs && x in containers ==> t[x] == containers[x]
  {
  }

  lemma ActedOutside(containers: map<string, bool>, vm: string, svcs: set<string>, env: Env, action: Action)
    ensures var t := Acted(containers, vm, svcs, env, action);
      && t.Keys == containers.Keys
      && forall x :: x !in svcs + {vm} && x in containers ==> t[x] == containers[x]
  {
    SwitchOutside(containers, svcs + {vm}, env.stopFails, false);
    SwitchOutside(containers, svcs + {vm}, env.startFails, true);
    SwitchOutside(Stopped(containers, vm, svcs, env.stopFails), svcs + {vm}, env.startFails, true);
    hide Switch;
  }

  lemma PowerOutside(c: Config, w: World, sub: string, rg: string, name: string, action: Action, env: Env, now: int)
    ensures var op := PowerOp(sub, rg, name, action, env);
      Outside(w, Effect(c, w, op, now), TouchedContainers(c, w, op), TouchedNetworks(w, op))
  {
    ActedOutside(w.containers, VmContainer(rg, name), SvcContainers(w.store, Services(w.store, sub, rg, name)), env, action);
    hide VmContainer, SvcContainers, Services, Acted, Succeeds, Idle;
  }

  lemma DeployReaches(w: World, a: SvcArgs, env: Env)
    requires a.input.Some?
    ensures Outside(w, Deploy(w, a, env).0, Redeployed(w, a), {})
  {
    hide SvcContainer, NewSvc;
  }

  lemma PutServiceReaches(w: World, a: SvcArgs, env: Env)
    ensures Outside(w, PutService(w, a, env).0, Redeployed(w, a), {})
  {
    var k := VmKey(a.sub, a.rg, a.vm);
    if GetVm(w.store, k).Some? && a.input.Some? {
      var w0 := RefreshVm(w, k, w.store[k].vm, env.blind);
      DeployReaches(w0, a, env);
      assert Redeployed(w0, a) == Redeployed(w, a);
    }
    hide SvcContainer, ServiceName, Conflict, Refreshed, Deploy, Redeployed;
  }

  lemma PutServiceOutside(c: Config, w: World, a: SvcArgs, env: Env, now: int)
    ensures var op := PutServiceOp(a, env); Outside(w, Effect(c, w, op, now), TouchedContainers(c, w, op), TouchedNetworks(w, op))
  {
    PutServiceReaches(w, a, env);
    hide PutService, Redeployed, Outside;
  }

  lemma DeleteServiceOutside(c: Config, w: World, sub: string, rg: string, vm: string, svc: string, now: int)
    requires Typed(w.store)
    ensures var op := DeleteServiceOp(sub, rg, vm, svc);
      Outside(w, Effect(c, w, op, now), TouchedContainers(c, w, op), TouchedNetworks(w, op))
  {
    var k := SvcKey(sub, rg, vm, svc);
    assert k in w.store ==> WellFiled(k, w.store[k]);
    hide SvcContainer, WellFiled;
  }

  lemma FewerOutside(w: World, store: map<Key, Value>, gone: set<string>)
    ensures Outside(w, w.(store := store, containers := w.containers - gone), gone, {})
  {
  }

  lemma LaunchOutside(w: World, x: string, env: Env)
    ensures Outside(w, Launch(w, x, env).0, {x}, {})
  {
  }

  lemma PutClusterOutside(c: Config, w: World, sub: string, rg: string, name: string, parsed: bool, env: Env)
    ensures Outside(w, PutCluster(w, c.digest, sub, rg, name, parsed, env).0, {AksContainer(c.digest, sub, rg, name)}, {})
  {
    LaunchOutside(w, AksContainer(c.digest, sub, rg, name), env);
    hide AksContainer, ClusterName, Launch;
  }

  lemma DeleteClusterOutside(w: World, sub: string, rg: string, name: string)
    ensures Outside(w, DeleteCluster(w, sub, rg, name).0, Handles(w.store, {ClusterKey(sub, rg, name)}), {})
  {
    var k := ClusterKey(sub, rg, name);
    if k in w.store && Handle(w.store[k]).Some? { assert Handle(w.store[k]).value in Handles(w.store, {k}); }
    hide Handle, Handles;
  }

  lemma ClusterOutside(c: Config, w: World, op: Op, now: int)
    requires op.PutClusterOp? || op.DeleteClusterOp? || op.ShutdownOp? || op.ReapOp?
    ensures Outside(w, Effect(c, w, op, now), TouchedContainers(c, w, op), TouchedNetworks(w, op))
  {
    hide AksContainer, Orphans, Handles, PutCluster, DeleteCluster;
    match op {
      case PutClusterOp(s, r, n, p, e) => PutClusterOutside(c, w, s, r, n, p, e);
      case DeleteClusterOp(s, r, n) => DeleteClusterOutside(w, s, r, n);
      case ShutdownOp(l) => FewerOutside(w, w.store, Handles(w.store, Clusters(w.store)) - l);
      case ReapOp(_) => FewerOutside(w, w.store, Orphans(w));
    }
    hide Outside;
  }

  lemma GroupOutside(c: Config, w: World, sub: string, rg: string, env: Env, now: int)
    ensures var op := DeleteGroupOp(sub, rg, env); Outside(w, Effect(c, w, op, now), TouchedContainers(c, w, op), TouchedNetworks(w, op))
  {
    hide Handles, SvcContainersIn, VmContainersIn, VmNetworksIn, Cleared;
  }

  lemma RestOutside(c: Config, w: World, op: Op, now: int)
    requires op.PutGroupOp? || op.ReadVmOp? || op.ReadServiceOp? || op.PutIdentityOp? || op.DeleteIdentityOp? || op.AttestOp? || op.IntrospectOp?
    ensures Outside(w, Effect(c, w, op, now), {}, {})
  {
    hide LooseKey, Selectable, Matches, Refreshed, RefreshedSvc;
  }

  lemma EffectOutside(c: Config, w: World, op: Op, now: int)
    requires Typed(w.store) && !op.DriftOp?
    ensures Outside(w, Effect(c, w, op, now), TouchedContainers(c, w, op), TouchedNetworks(w, op))
  {
    hide Typed, Outside, Effect, TouchedContainers, TouchedNetworks;
    match op {
      case PutVmOp(a, e) => PutVmOutside(c, w, a, e, now);
      case DeleteVmOp(s, r, n) => DeleteVmOutside(c, w, s, r, n, now);
      case PowerOp(s, r, n, a, e) => PowerOutside(c, w, s, r, n, a, e, now);
      case PutServiceOp(a, e) => PutServiceOutside(c, w, a, e, now);
      case DeleteServiceOp(s, r, v, n) => DeleteServiceOutside(c, w, s, r, v, n, now);
      case PutClusterOp(_, _, _, _, _) => ClusterOutside(c, w, op, now);
      case DeleteClusterOp(_, _, _) => ClusterOutside(c, w, op, now);
      case ShutdownOp(_) => ClusterOutside(c, w, op, now);
      case ReapOp(_) => ClusterOutside(c, w, op, now);
      case DeleteGroupOp(s, r, e) => GroupOutside(c, w, s, r, e, now);
      case _ => NothingTouched(c, w, op); RestOutside(c, w, op, now);
    }
  }

  lemma NothingTouched(c: Config, w: World, op: Op)
    requires op.PutGroupOp? || op.ReadVmOp? || op.ReadServiceOp? || op.PutIdentityOp? || op.DeleteIdentityOp? || op.AttestOp? || op.IntrospectOp?
    ensures TouchedContainers(c, w, op) == {} && TouchedNetworks(w, op) == {}
  {
  }

  // ---- Only the emulator's own objects ----

  lemma VmObjectsManaged(w: World, sub: string, rg: string, name: string, x: string)
    requires Typed(w.store) && x in VmObjects(w, sub, rg, name)
    ensures KindOf(x) == VmKind || KindOf(x) == SvcKind
  {
    NameKinds();
    hide KindOf, VmContainer, VmNetwork, SvcContainer, SvcContainers;
    if x != VmContainer(rg, name) { SvcContainersKind(w.store, Services(w.store, sub, rg, name), x); }
  }

  lemma ContainersManaged(c: Config, w: World, op: Op, x: string)
    requires Typed(w.store) && x in TouchedContainers(c, w, op)
    ensures KindOf(x) != Foreign
  {
    NameKinds();
    if op.PutClusterOp? { AksKindOfName(c.digest, op.sub, op.rg, op.name); }
    if op.DeleteGroupOp? { KindsIn(w.store, op.sub, op.rg); }
    if op.DeleteClusterOp? { HandlesAreAks(w, {ClusterKey(op.sub, op.rg, op.name)}); }
    if op.ShutdownOp? { HandlesAreAks(w, Clusters(w.store)); }
    if op.ReapOp? { assert KindOf(x) == AksKind; }
    hide KindOf, VmContainer, VmNetwork, SvcContainer, AksContainer, VmObjects, Handles, SvcContainersIn, VmContainersIn, Typed, Starts, Orphans;
    if op.DeleteVmOp? { VmObjectsManaged(w, op.sub, op.rg, op.name, x); }
    if op.PowerOp? { VmObjectsManaged(w, op.sub, op.rg, op.name, x); }
  }

  lemma NetworksManaged(w: World, op: Op, x: string)
    requires x in TouchedNetworks(w, op)
    ensures KindOf(x) == NetKind
  {
    NameKinds();
    hide KindOf, VmContainer, VmNetwork, SvcContainer, Starts;
    if op.DeleteGroupOp? {
      var k :| k in NamedVmsIn(w.store, op.sub, op.rg) && x == VmNetwork(op.rg, w.store[k].vm.name);
    }
  }

  /** No request touches a container or network the emulator did not name. */
  lemma ForeignUntouched(c: Config, w: World, op: Op, now: int)
    requires Typed(w.store) && !op.DriftOp?
    ensures var w' := Effect(c, w, op, now);
      && (forall x :: KindOf(x) == Foreign ==> (x in w.containers <==> x in w'.containers) && (x in w.networks <==> x in w'.networks))
      && (forall x :: KindOf(x) == Foreign && x in w.containers && x in w'.containers ==> w'.containers[x] == w.containers[x])
  {
    EffectOutside(c, w, op, now);
    forall x | KindOf(x) == Foreign ensures x !in TouchedContainers(c, w, op) && x !in TouchedNetworks(w, op) {
      if x in TouchedContainers(c, w, op) { ContainersManaged(c, w, op, x); }
      if x in TouchedNetworks(w, op) { NetworksManaged(w, op, x); }
    }
    hide Typed, KindOf, Effect, TouchedContainers, TouchedNetworks;
  }

  // The requests that deal with k3s containers.
  predicate ClusterOp(op: Op) {
    op.PutClusterOp? || op.DeleteClusterOp? || op.ShutdownOp? || op.ReapOp? || op.DeleteGroupOp?
  }

  lemma ContainersNotAks(c: Config, w: World, op: Op, x: string)
    requires Typed(w.store) && !ClusterOp(op) && x in TouchedContainers(c, w, op)
    ensures KindOf(x) != AksKind
  {
    NameKinds();
    hide KindOf, VmContainer, VmNetwork, SvcContainer, AksContainer, VmObjects, Typed, Starts;
    if op.DeleteVmOp? { VmObjectsManaged(w, op.sub, op.rg, op.name, x); }
    if op.PowerOp? { VmObjectsManaged(w, op.sub, op.rg, op.name, x); }
  }

  /** No other request creates or removes a k3s container. */
  lemma AksUntouched(c: Config, w: World, op: Op, now: int)
    requires Typed(w.store) && !ClusterOp(op) && !op.DriftOp?
    ensures var w' := Effect(c, w, op, now);
      forall x :: KindOf(x) == AksKind ==> (x in w.containers <==> x in w'.containers)
  {
    EffectOutside(c, w, op, now);
    forall x | KindOf(x) == AksKind ensures x !in TouchedContainers(c, w, op) {
      if x in TouchedContainers(c, w, op) { ContainersNotAks(c, w, op, x); }
    }
    hide Typed, KindOf, Effect, TouchedContainers, TouchedNetworks;
  }
}
