/** The cases in which the code does not keep its promises do happen: each is reached from
    the empty system by ordinary requests. */
module Witnesses {
  import opened Options
  import opened Keys
  import opened ArmIds
  import opened Worlds
  import opened VmSpec
  import opened IdentitySpec
  import opened AksSpec
  import opened GroupSpec
  import opened Invariant
  import opened VmProofs
  import opened SvcProofs
  import opened AksProofs
  import opened GroupProofs
  import opened Operations
  import opened Systems

  function Boot(realMode: bool): Sys {
    Sys(World(map[], map[], {}, true, false, None, realMode), 0, {}, {})
  }

  // Some proper run leads from the empty system to s.
  ghost predicate Reached(c: Config, s: Sys) {
    exists ops :: ProperRun(c, Boot(s.w.realMode), ops) && Run(c, Boot(s.w.realMode), ops) == s
  }

  lemma {:induction false} RunSnoc(c: Config, s: Sys, ops: seq<(Op, int)>, op: Op, now: int)
    requires ProperRun(c, s, ops) && Proper(c, Run(c, s, ops), op, now)
    ensures ProperRun(c, s, ops + [(op, now)]) && Run(c, s, ops + [(op, now)]) == Step(c, Run(c, s, ops), op, now)
    decreases |ops|
  {
    hide Proper, Step;
    var more := ops + [(op, now)];
    if ops == [] {
      assert more == [(op, now)] && more[1..] == [];
      assert ProperRun(c, Step(c, s, op, now), []) && Run(c, Step(c, s, op, now), []) == Step(c, s, op, now);
    } else {
      assert more[0] == ops[0] && more[1..] == ops[1..] + [(op, now)];
      RunSnoc(c, Step(c, s, ops[0].0, ops[0].1), ops[1..], op, now);
    }
  }

  lemma ReachedBoot(c: Config, realMode: bool)
    ensures Reached(c, Boot(realMode))
  {
    assert ProperRun(c, Boot(realMode), []) && Run(c, Boot(realMode), []) == Boot(realMode);
    hide ProperRun, Run;
  }

  lemma ReachedStep(c: Config, s: Sys, op: Op, now: int)
    requires Reached(c, s) && Proper(c, s, op, now) && Effect(c, s.w, op, now).realMode == s.w.realMode
    ensures Reached(c, Step(c, s, op, now))
  {
    var boot := Boot(s.w.realMode);
    var ops :| ProperRun(c, boot, ops) && Run(c, boot, ops) == s;
    hide Proper, Effect, ProperRun, Run;
    RunSnoc(c, boot, ops, op, now);
  }

  lemma ReachedSound(c: Config, s: Sys)
    requires Reached(c, s) && Faithful(c.codec)
    ensures Sound(c, s) && Inv(s.w) && s.w.docker
  {
    var ops :| ProperRun(c, Boot(s.w.realMode), ops) && Run(c, Boot(s.w.realMode), ops) == s;
    StartsSound(c, false, s.w.realMode);
    hide Sound, ProperRun, Run, Inv, Named;
    RunSound(c, Boot(s.w.realMode), ops);
    SoundInv(c, s);
  }

  // ---- Setting up a group and a VM ----

  const FINE := Env(true, true, false, true, true, {}, {}, {}, {}, None, true)

  function NewVmArgs(sub: string, rg: string, name: string, secret: string): VmArgs {
    VmArgs(sub, rg, name, "", Some("ubuntu"), Absent, secret)
  }

  lemma GroupReached(c: Config, s: Sys, sub: string, rg: string) returns (t: Sys)
    requires Reached(c, s)
    ensures Reached(c, t) && t.used == s.used
    ensures t.w == s.w.(store := s.w.store[RgKey(sub, rg) := RgVal("eastus")])
  {
    var op := PutGroupOp(sub, rg, Some("eastus"));
    assert |"eastus"| == 6;
    assert Proper(c, s, op, s.now);
    t := Step(c, s, op, s.now);
    hide Reached, Proper;
    ReachedStep(c, s, op, s.now);
  }

  lemma VmReached(c: Config, s: Sys, sub: string, rg: string, name: string, secret: string) returns (t: Sys)
    requires Reached(c, s) && s.w.docker && RgKey(sub, rg) in s.w.store && forall k :: k in s.w.store ==> !k.VmKey?
    requires secret != "" && secret !in s.used
    ensures Reached(c, t) && t.used == s.used + {secret}
    ensures t.w.store.Keys == s.w.store.Keys + {VmKey(sub, rg, name), SecretKey(secret)}
    ensures Runs(t.w.containers, VmContainer(rg, name)) && t.w.probe == s.w.probe && t.w.disabled == s.w.disabled
  {
    var a := NewVmArgs(sub, rg, name, secret);
    var op := PutVmOp(a, FINE);
    assert ResolveIdentity(s.w.store, Absent) == NoIdentity;
    assert !NameTaken(s.w.store, a);
    assert Proper(c, s, op, s.now);
    t := Step(c, s, op, s.now);
    hide Reached, Proper, VmContainer, VmNetwork, VmArmId, ResolveIdentity;
    ReachedStep(c, s, op, s.now);
  }

  // ---- Container names that drop the subscription ----

  ghost predicate Clashes(s: Sys, a: VmArgs, env: Env) {
    a.secret !in s.used && Starts(s.w, a) && NameTaken(s.w.store, a) && !Inv(PutVm(s.w, a, env).0)
  }

  lemma TwoGroupsReached(c: Config, one: string, two: string, rg: string, name: string, secret: string, realMode: bool) returns (s: Sys)
    requires one != two && secret != ""
    ensures Reached(c, s) && s.used == {secret} && RgKey(two, rg) in s.w.store
    ensures VmKey(one, rg, name) in s.w.store && VmKey(two, rg, name) !in s.w.store
    ensures forall x :: SecretKey(x) in s.w.store ==> x == secret
  {
    ReachedBoot(c, realMode);
    hide Reached;
    var s1 := GroupReached(c, Boot(realMode), one, rg);
    var s2 := GroupReached(c, s1, two, rg);
    hide VmContainer;
    s := VmReached(c, s2, one, rg, name, secret);
  }

  /** Group rg in two subscriptions, a VM in the first: asking for a VM of the same name in
      the second breaks the invariant, whatever Docker answers. */
  lemma NameClashHappens(c: Config, one: string, two: string, rg: string, name: string, secret: string, other: string, env: Env, realMode: bool)
    requires Faithful(c.codec) && one != two && secret != "" && other != "" && secret != other
    ensures exists s :: Reached(c, s) && VmKey(one, rg, name) in s.w.store && Clashes(s, NewVmArgs(two, rg, name, other), env)
  {
    hide Reached, Inv, Starts, NameTaken, PutVm, FreshSecret, Sound, LeavesVm;
    var s := TwoGroupsReached(c, one, two, rg, name, secret, realMode);
    ClashState(s, one, two, rg, name, other);
    ReachedSound(c, s);
    PutVmKeeps(s.w, NewVmArgs(two, rg, name, other), env);
    assert Clashes(s, NewVmArgs(two, rg, name, other), env);
  }

  lemma ClashState(s: Sys, one: string, two: string, rg: string, name: string, other: string)
    requires one != two && other != "" && SecretKey(other) !in s.w.store && RgKey(two, rg) in s.w.store
    requires VmKey(one, rg, name) in s.w.store && VmKey(two, rg, name) !in s.w.store
    ensures var a := NewVmArgs(two, rg, name, other); Starts(s.w, a) && NameTaken(s.w.store, a) && FreshSecret(s.w.store, other)
  {
    assert ResolveIdentity(s.w.store, Absent) == NoIdentity;
    hide VmContainer, ResolveIdentity;
  }

  // ---- A cascade that cannot reach Docker ----

  ghost predicate Strands(s: Sys, sub: string, rg: string, name: string, env: Env) {
    var w' := DeleteGroup(s.w, sub, rg, env).0;
    VmContainer(rg, name) in w'.containers && VmKey(sub, rg, name) !in w'.store && !Inv(w')
  }

  /** One VM, and a cascade whose Docker probe fails: its container stays and its record goes. */
  lemma CascadeOrphans(c: Config, sub: string, rg: string, name: string, secret: string, env: Env, realMode: bool)
    requires Faithful(c.codec) && secret != "" && !env.probe
    ensures exists s :: Reached(c, s) && VmKey(sub, rg, name) in s.w.store && Strands(s, sub, rg, name, env)
  {
    ReachedBoot(c, realMode);
    var s1 := GroupReached(c, Boot(realMode), sub, rg);
    var s := VmReached(c, s1, sub, rg, name, secret);
    var k := VmKey(sub, rg, name);
    hide Reached, VmContainer, DeleteGroup;
    ReachedSound(c, s);
    UnreachedStays(s.w, sub, rg, env, k);
    UnreachedIsOrphaned(s.w, sub, rg, env, k);
    assert Strands(s, sub, rg, name, env);
  }

  // ---- A second PUT that fails ----

  lemma ClusterReached(c: Config, sub: string, rg: string, name: string) returns (t: Sys)
    requires ClusterName(name)
    ensures Reached(c, t) && t.w.realMode
    ensures var k := ClusterKey(sub, rg, name);
      k in t.w.store && t.w.store[k] == ClusterVal(Some(AksContainer(c.digest, sub, rg, name)))
      && t.w.store.Keys == {k} && AksContainer(c.digest, sub, rg, name) in t.w.containers
  {
    ReachedBoot(c, true);
    var op := PutClusterOp(sub, rg, name, true, FINE);
    assert Proper(c, Boot(true), op, 0);
    t := Step(c, Boot(true), op, 0);
    hide Reached, Proper, ClusterName, AksContainer;
    ReachedStep(c, Boot(true), op, 0);
  }

  ghost predicate LosesNode(c: Config, s: Sys, sub: string, rg: string, name: string, env: Env) {
    !HandlesLive(PutCluster(s.w, c.digest, sub, rg, name, true, env).0)
  }

  /** A cluster that works, and a second PUT whose node never becomes ready: the first node
      is gone and the record still names it. */
  lemma RePutLosesNode(c: Config, sub: string, rg: string, name: string, env: Env)
    requires ClusterName(name) && env.portOk && env.runOk && !env.readyOk
    ensures exists s :: Reached(c, s) && HandlesLive(s.w) && LosesNode(c, s, sub, rg, name, env)
  {
    var s := ClusterReached(c, sub, rg, name);
    var k, x := ClusterKey(sub, rg, name), AksContainer(c.digest, sub, rg, name);
    AksNameKind(c.digest, k);
    assert KindOf(x) == AksKind && x != "";
    hide Reached, AksContainer, ClusterName, KindOf, PutCluster;
    assert k in Clusters(s.w.store) && Handle(s.w.store[k]) == Some(x);
    assert x in Handles(s.w.store, Clusters(s.w.store));
    assert forall j :: j in Clusters(s.w.store) ==> j == k;
    assert HandlesLive(s.w);
    PutClusterLiveIff(s.w, c.digest, sub, rg, name, env);
    assert LosesNode(c, s, sub, rg, name, env);
  }

  // ---- A record given up without k3s ----

  ghost predicate StrandsNode(c: Config, w: World, sub: string, rg: string, name: string, env: Env) {
    && !ClustersHeld(DeleteCluster(w, sub, rg, name).0)
    && !ClustersHeld(PutCluster(w, c.digest, sub, rg, name, true, env).0)
  }

  /** A cluster that works, and a process started again without k3s: deleting the cluster and
      putting it again both leave its container without a record. */
  lemma StubRestartOrphans(c: Config, sub: string, rg: string, name: string, env: Env)
    requires Faithful(c.codec) && ClusterName(name)
    ensures exists s :: Reached(c, s) && ClusterKey(sub, rg, name) in s.w.store && StrandsNode(c, s.w.(realMode := false), sub, rg, name, env)
  {
    var s := ClusterReached(c, sub, rg, name);
    hide Reached, ClusterName, AksContainer, Sound;
    ReachedSound(c, s);
    var w := s.w.(realMode := false);
    OnlyRecordIsSole(w, ClusterKey(sub, rg, name), AksContainer(c.digest, sub, rg, name));
    assert Typed(w.store) && ClustersHeld(w) && Named(w.store, c.digest);
    hide Typed, ClustersHeld, Named, Sole, Inv, PutCluster, DeleteCluster;
    DeleteClusterHoldsIff(w, sub, rg, name);
    PutClusterHoldsIff(w, c.digest, sub, rg, name, true, env);
    assert StrandsNode(c, w, sub, rg, name, env);
  }

  lemma OnlyRecordIsSole(w: World, k: Key, x: string)
    requires k.ClusterKey? && w.store.Keys == {k} && w.store[k] == ClusterVal(Some(x)) && x != "" && x in w.containers
    ensures Sole(w, k)
  {
    assert Clusters(w.store) - {k} == {};
  }

  // ---- A docker run that fails and leaves a container ----

  const LEFT := FINE.(runOk := false, leftover := true)

  ghost predicate LitterVm(s: Sys, a: VmArgs) {
    Starts(s.w, a) && !NameTaken(s.w.store, a) && a.secret !in s.used && !Inv(PutVm(s.w, a, LEFT).0)
  }

  /** In an empty group, a new VM whose run leaves the container it created breaks the invariant. */
  lemma FailedRunLitters(c: Config, sub: string, rg: string, name: string, secret: string, realMode: bool)
    requires Faithful(c.codec) && secret != ""
    ensures exists s :: Reached(c, s) && LitterVm(s, NewVmArgs(sub, rg, name, secret))
  {
    ReachedBoot(c, realMode);
    hide Reached, Inv, Sound, PutVm;
    var s := GroupReached(c, Boot(realMode), sub, rg);
    var a := NewVmArgs(sub, rg, name, secret);
    ReachedSound(c, s);
    hide VmContainer, VmNetwork;
    assert ResolveIdentity(s.w.store, Absent) == NoIdentity;
    assert Starts(s.w, a) && !NameTaken(s.w.store, a) && LeavesVm(s.w, a, LEFT);
    assert FreshSecret(s.w.store, secret);
    hide Starts, NameTaken, LeavesVm, FreshSecret;
    PutVmKeeps(s.w, a, LEFT);
    assert LitterVm(s, a);
  }

  ghost predicate Blocks(w: World, a: SvcArgs, env: Env) {
    var w' := PutService(w, a, LEFT).0;
    !Inv(w') && PutService(w', a, env).1 == StartFailed && SvcKey(a.sub, a.rg, a.vm, a.svc) !in PutService(w', a, env).0.store
  }

  /** On a VM without services, a new service whose run leaves the container it created
      breaks the invariant, and asking for the service again fails, whatever Docker would
      have answered then, as long as the VM is seen to run. */
  lemma FailedDeployBlocks(c: Config, sub: string, rg: string, vm: string, secret: string, svc: string, input: SvcInput, env: Env, realMode: bool)
    requires Faithful(c.codec) && secret != "" && ServiceName(svc) && VmContainer(rg, vm) !in env.blind
    ensures exists s :: Reached(c, s) && VmKey(sub, rg, vm) in s.w.store && Blocks(s.w, SvcArgs(sub, rg, vm, svc, Some(input)), env)
  {
    ReachedBoot(c, realMode);
    hide Reached, Inv, Sound, Blocks, ServiceName;
    var s1 := GroupReached(c, Boot(realMode), sub, rg);
    var s := VmReached(c, s1, sub, rg, vm, secret);
    ReachedSound(c, s);
    BlocksNew(s.w, SvcArgs(sub, rg, vm, svc, Some(input)), env);
  }

  // The VM runs and has no service yet.
  ghost predicate Vacant(w: World, a: SvcArgs) {
    var k, x := VmKey(a.sub, a.rg, a.vm), VmContainer(a.rg, a.vm);
    && w.docker && GetVm(w.store, k).Some? && w.store[k].vm.containerName == x && Runs(w.containers, x)
    && forall j :: j in w.store ==> !j.SvcKey?
  }

  lemma VacantDeploys(w: World, a: SvcArgs, env: Env)
    requires Vacant(w, a) && a.input.Some? && ServiceName(a.svc) && VmContainer(a.rg, a.vm) !in env.blind
    ensures Deploys(w, a, env)
  {
    hide VmContainer, ServiceName;
    assert Services(w.store, a.sub, a.rg, a.vm) == {};
    var vm := w.store[VmKey(a.sub, a.rg, a.vm)].vm;
    assert Refreshed(w, vm, env.blind) == vm.(power := "running") by { NameKinds(); }
    hide Services, Refreshed;
  }

  lemma StillVacant(w: World, a: SvcArgs)
    requires Vacant(w, a) && Deploys(w, a, LEFT) && SvcContainer(a.rg, a.vm, a.svc) !in w.containers
    ensures Vacant(PutService(w, a, LEFT).0, a)
  {
    var k := VmKey(a.sub, a.rg, a.vm);
    var w0 := RefreshVm(w, k, w.store[k].vm, {});
    assert Vacant(w0, a) by { hide VmContainer; }
    assert PutService(w, a, LEFT) == Deploy(w0, a, LEFT) by { hide Conflict, ServiceName, Refreshed, Deploy, Vacant; }
    hide VmContainer, SvcContainer, PutService, Deploys;
  }

  lemma BlocksNew(w: World, a: SvcArgs, env: Env)
    requires Inv(w) && w.docker && VmKey(a.sub, a.rg, a.vm) in w.store && Runs(w.containers, VmContainer(a.rg, a.vm))
    requires (forall k :: k in w.store ==> !k.SvcKey?) && a.input.Some? && ServiceName(a.svc) && VmContainer(a.rg, a.vm) !in env.blind
    ensures Blocks(w, a, env)
  {
    var w' := PutService(w, a, LEFT).0;
    assert WellFiled(VmKey(a.sub, a.rg, a.vm), w.store[VmKey(a.sub, a.rg, a.vm)]);
    assert SvcContainer(a.rg, a.vm, a.svc) !in w.containers by { NameKinds(); }
    hide Inv, ServiceName, VmContainer, SvcContainer;
    VacantDeploys(w, a, LEFT);
    StillVacant(w, a);
    hide Vacant, PutService, Deploys;
    VacantDeploys(w', a, env);
    PutServiceKeeps(w, a, LEFT);
    LeavesBlocked(w, a, LEFT);
    LeftoverBlocks(w', a, env);
  }
}
