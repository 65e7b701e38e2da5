/** Whole runs with Docker: any sequence of requests, in any order, with any answers from Docker. */
module Systems {
  import opened Options
  import opened Keys
  import opened Worlds
  import opened VmSpec
  import opened IdentitySpec
  import opened AksSpec
  import opened GroupSpec
  import opened Invariant
  import opened VmProofs
  import opened SvcProofs
  import opened IdentityProofs
  import opened AksProofs
  import opened GroupProofs
  import opened Operations
  import opened Frames
  import opened Reach
  import opened StoreRuns

  // Besides the clock and the secrets: nobody touches the emulator's own containers.
  ghost predicate Undisputed(s: Sys, op: Op, now: int) {
    && Lawful(s, op, now)
    && (op.DriftOp? ==> Drifts(s.w, s.w.(containers := op.containers, networks := op.networks)))
  }

  // The request ends with a container that no record refers to: docker run failed and left
  // one, or a record was given up without k3s.
  ghost predicate Leaves(c: Config, w: World, op: Op) {
    match op
    case PutVmOp(a, e) => LeavesVm(w, a, e)
    case PutServiceOp(a, e) => LeavesService(w, a, e)
    case PutClusterOp(_, _, _, _, _) => LeavesNode(c, w, op)
    case DeleteClusterOp(_, _, _) => LeavesNode(c, w, op)
    case _ => false
  }

  // The part of it that concerns k3s.
  ghost predicate LeavesNode(c: Config, w: World, op: Op) {
    match op
    case PutClusterOp(s, r, n, p, e) => PutLeaves(w, c.digest, s, r, n, p, e)
    case DeleteClusterOp(s, r, n) => !w.realMode && Sole(w, ClusterKey(s, r, n))
    case _ => false
  }

  /** And, for the ownership of containers: nothing is left behind, no VM is started under a
      taken container name, and no group is deleted while the cascade cannot reach its VMs'
      containers. */
  ghost predicate Proper(c: Config, s: Sys, op: Op, now: int) {
    && Undisputed(s, op, now)
    && !Leaves(c, s.w, op)
    && (op.PutVmOp? ==> !(Starts(s.w, op.vm) && NameTaken(s.w.store, op.vm)))
    && (op.DeleteGroupOp? && RgKey(op.sub, op.rg) in s.w.store ==> Reachable(s.w.store, op.sub, op.rg, Probed(s.w, op.env).0))
  }

  // ---- k3s containers, in every mode ----

  /** No k3s container without a record, and every record's handle is its own. */
  ghost predicate K3sSound(c: Config, w: World) {
    ClustersHeld(w) && Named(w.store, c.digest)
  }

  lemma SameClustersNamed(s: map<Key, Value>, t: map<Key, Value>, digest: string -> string)
    requires Named(s, digest) && SameClusters(s, t)
    ensures Named(t, digest)
  {
    hide AksContainer;
  }

  lemma EffectNamed(c: Config, w: World, op: Op, now: int)
    requires Named(w.store, c.digest)
    ensures Named(Effect(c, w, op, now).store, c.digest)
  {
    EffectFramed(c, w, op, now);
    hide Named, SameClusters, SameTokens, NoNewSecrets, DeleteGroup, PutCluster, DeleteCluster;
    match op {
      case DeleteGroupOp(s, r, e) => DeleteGroupNamed(w, s, r, e, c.digest);
      case PutClusterOp(s, r, n, p, e) => PutClusterNamed(w, c.digest, s, r, n, p, e);
      case DeleteClusterOp(s, r, n) => DeleteClusterNamed(w, c.digest, s, r, n);
      case _ =>
        hide Effect;
        SameClustersNamed(w.store, Effect(c, w, op, now).store, c.digest);
    }
  }

  lemma OrdinaryHeld(c: Config, w: World, op: Op, now: int)
    requires Typed(w.store) && ClustersHeld(w) && !ClusterOp(op)
    requires op.DriftOp? ==> Drifts(w, w.(containers := op.containers, networks := op.networks))
    ensures ClustersHeld(Effect(c, w, op, now))
  {
    var w' := Effect(c, w, op, now);
    EffectFramed(c, w, op, now);
    hide Typed, Effect, ClustersHeld, SameTokens, SameClusters, NoNewSecrets;
    assert forall x :: KindOf(x) == AksKind ==> (x in w.containers <==> x in w'.containers) by {
      if op.DriftOp? { DriftedAks(c, w, op, now); } else { AksUntouched(c, w, op, now); }
      hide Drifts;
    }
    hide KindOf, Drifts;
    ClustersStay(w, w');
  }

  lemma DriftedAks(c: Config, w: World, op: Op, now: int)
    requires op.DriftOp? && Drifts(w, w.(containers := op.containers, networks := op.networks))
    ensures forall x :: KindOf(x) == AksKind ==> (x in w.containers <==> x in Effect(c, w, op, now).containers)
  {
    hide KindOf;
  }

  lemma RestHeld(w: World, late: set<string>, listed: bool)
    requires ClustersHeld(w)
    ensures ClustersHeld(Shutdown(w, late)) && ClustersHeld(Reap(w, listed))
  {
    ShutdownHolds(w, late);
    ReapHolds(w);
    hide ClustersHeld, KindOf, Handles, Orphans;
  }

  /** Any request keeps every k3s container owned by a record, with k3s or without, whatever
      the VM service has, except exactly those that leave one behind. */
  lemma EffectHeldIff(c: Config, w: World, op: Op, now: int)
    requires Typed(w.store) && K3sSound(c, w)
    requires op.DriftOp? ==> Drifts(w, w.(containers := op.containers, networks := op.networks))
    ensures ClustersHeld(Effect(c, w, op, now)) <==> !LeavesNode(c, w, op)
  {
    hide Typed, ClustersHeld, Named, Drifts, PutLeaves, Sole, DeleteGroup, PutCluster, DeleteCluster, Shutdown, Reap;
    match op {
      case DeleteGroupOp(s, r, e) => DeleteGroupHolds(w, s, r, e);
      case PutClusterOp(s, r, n, p, e) => PutClusterHoldsIff(w, c.digest, s, r, n, p, e);
      case DeleteClusterOp(s, r, n) => DeleteClusterHoldsIff(w, s, r, n);
      case ShutdownOp(l) => RestHeld(w, l, true);
      case ReapOp(l) => RestHeld(w, {}, l);
      case _ => OrdinaryHeld(c, w, op, now);
    }
  }

  // A run in which nobody else touches the containers and no node is left behind.
  ghost predicate TidyRun(c: Config, s: Sys, ops: seq<(Op, int)>)
    decreases |ops|
  {
    ops != [] ==> Undisputed(s, ops[0].0, ops[0].1) && !LeavesNode(c, s.w, ops[0].0)
                  && TidyRun(c, Step(c, s, ops[0].0, ops[0].1), ops[1..])
  }

  /** Over any such run, with or without k3s and whatever the VM service has, no k3s container
      is ever left without a cluster record. */
  lemma {:induction false} RunK3sSound(c: Config, s: Sys, ops: seq<(Op, int)>)
    requires StoreSound(c, s) && K3sSound(c, s.w) && TidyRun(c, s, ops) && Faithful(c.codec)
    ensures K3sSound(c, Run(c, s, ops).w)
    decreases |ops|
  {
    if ops != [] {
      var op, now := ops[0].0, ops[0].1;
      assert Typed(s.w.store) && Lawful(s, op, now) && !LeavesNode(c, s.w, op);
      assert op.DriftOp? ==> Drifts(s.w, s.w.(containers := op.containers, networks := op.networks));
      EffectHeldIff(c, s.w, op, now);
      EffectNamed(c, s.w, op, now);
      hide StoreSound, Faithful, Effect, Undisputed, Lawful, Drifts, Typed, LeavesNode, Named, ClustersHeld;
      StoreStepSound(c, s, op, now);
      RunK3sSound(c, Step(c, s, op, now), ops[1..]);
    }
  }

  /** Once started up with k3s and reaped, whatever containers an earlier process left, the
      same holds from then on. */
  lemma ReapedRunSound(c: Config, s: Sys, ops: seq<(Op, int)>)
    requires StoreSound(c, s) && Named(s.w.store, c.digest) && Faithful(c.codec)
    requires TidyRun(c, s.(w := Reap(s.w, true)), ops)
    ensures K3sSound(c, Run(c, s.(w := Reap(s.w, true)), ops).w)
  {
    var t := s.(w := Reap(s.w, true));
    ReapHolds(s.w);
    assert StoreSound(c, t) by { hide StoreInv, Orphans, Vouches; }
    hide StoreSound, Named, ClustersHeld, TidyRun, Run, Faithful, Reap;
    RunK3sSound(c, t, ops);
  }

  // ---- Without k3s, from a daemon without k3s containers ----

  lemma StubLeavesNothing(c: Config, w: World, op: Op)
    requires Typed(w.store) && !w.realMode && NoK3s(w)
    ensures !LeavesNode(c, w, op)
  {
    hide KindOf, Typed, Sole, ClusterName;
    match op {
      case PutClusterOp(s, r, n, p, e) => NothingSole(w, ClusterKey(s, r, n));
      case DeleteClusterOp(s, r, n) => NothingSole(w, ClusterKey(s, r, n));
      case _ =>
    }
  }

  lemma StubStaysFree(c: Config, w: World, op: Op, now: int)
    requires Typed(w.store) && !w.realMode && NoK3s(w)
    requires op.DriftOp? ==> Drifts(w, w.(containers := op.containers, networks := op.networks))
    ensures NoK3s(Effect(c, w, op, now)) && !Effect(c, w, op, now).realMode
  {
    EffectFramed(c, w, op, now);
    if !ClusterOp(op) {
      if op.DriftOp? { DriftedAks(c, w, op, now); } else { AksUntouched(c, w, op, now); }
    } else {
      hide ClusterName, AksContainer, Handles, Orphans, SvcContainersIn, VmContainersIn, VmNetworksIn, Cleared, Handle;
      assert Effect(c, w, op, now).containers.Keys <= w.containers.Keys;
    }
    hide Typed, Effect, KindOf, SameTokens, SameClusters, NoNewSecrets, Drifts;
  }

  ghost predicate UndisputedRun(c: Config, s: Sys, ops: seq<(Op, int)>)
    decreases |ops|
  {
    ops != [] ==> Undisputed(s, ops[0].0, ops[0].1) && UndisputedRun(c, Step(c, s, ops[0].0, ops[0].1), ops[1..])
  }

  /** In the default mode, on a daemon without k3s containers, every run is tidy. */
  lemma {:induction false} StubRunIsTidy(c: Config, s: Sys, ops: seq<(Op, int)>)
    requires StoreSound(c, s) && Faithful(c.codec) && !s.w.realMode && NoK3s(s.w) && UndisputedRun(c, s, ops)
    ensures TidyRun(c, s, ops) && NoK3s(Run(c, s, ops).w)
    decreases |ops|
  {
    if ops != [] {
      var op, now := ops[0].0, ops[0].1;
      assert Typed(s.w.store) && Lawful(s, op, now);
      assert op.DriftOp? ==> Drifts(s.w, s.w.(containers := op.containers, networks := op.networks));
      hide StoreSound, Faithful, Effect, Undisputed, Lawful, Drifts, Typed, LeavesNode, NoK3s;
      StubLeavesNothing(c, s.w, op);
      StubStaysFree(c, s.w, op, now);
      StoreStepSound(c, s, op, now);
      StubRunIsTidy(c, Step(c, s, op, now), ops[1..]);
    }
  }

  // ---- VMs and services, when the VM service has Docker ----

  /** Everything at once. */
  ghost predicate Sound(c: Config, s: Sys) {
    && StoreSound(c, s)
    && s.w.docker && Ownership(s.w)
    && K3sSound(c, s.w)
  }

  lemma StartsSound(c: Config, disabled: bool, realMode: bool)
    ensures Sound(c, Sys(World(map[], map[], {}, true, disabled, None, realMode), 0, {}, {}))
  {
  }

  lemma SoundInv(c: Config, s: Sys)
    requires Sound(c, s)
    ensures Inv(s.w) && s.w.docker && Named(s.w.store, c.digest)
  {
    hide StoreInv, Ownership, ClustersHeld, Named;
  }

  lemma VmOpKeepsInv(c: Config, s: Sys, op: Op, now: int)
    requires Inv(s.w) && s.w.docker && Proper(c, s, op, now) && VmOp(op)
    requires op.PutVmOp? ==> FreshSecret(s.w.store, op.vm.secret)
    ensures Inv(Effect(c, s.w, op, now))
  {
    var w := s.w;
    hide Inv, Drifts, Reachable, NameTaken, Starts, FreshSecret, LeavesVm, LeavesService, LeavesNode,
      PutVm, ReadVm, DeleteVm, Power, PutService, ReadService, DeleteService;
    match op {
      case PutVmOp(a, e) => PutVmKeeps(w, a, e);
      case ReadVmOp(sub, r, n, e) => ReadVmKeeps(w, VmKey(sub, r, n), e);
      case DeleteVmOp(sub, r, n) => DeleteVmKeeps(w, sub, r, n);
      case PowerOp(sub, r, n, a, e) => PowerKeeps(w, sub, r, n, a, e);
      case PutServiceOp(a, e) => PutServiceKeeps(w, a, e);
      case ReadServiceOp(sub, r, v, n, e) => ReadServiceKeeps(w, SvcKey(sub, r, v, n), e);
      case DeleteServiceOp(sub, r, v, n) => DeleteServiceKeeps(w, SvcKey(sub, r, v, n));
    }
  }

  lemma OtherOpKeepsInv(c: Config, s: Sys, op: Op, now: int)
    requires Inv(s.w) && Named(s.w.store, c.digest) && Proper(c, s, op, now) && !VmOp(op)
    ensures Inv(Effect(c, s.w, op, now))
  {
    var w := s.w;
    hide Inv, Named, Drifts, Reachable, NameTaken, Starts, PutLeaves, Sole,
      PutGroup, DeleteGroup, PutIdentity, DeleteIdentity, Attest, Introspect, PutCluster, DeleteCluster, Shutdown, Reap;
    match op {
      case PutGroupOp(sub, r, l) => PutGroupKeeps(w, sub, r, l);
      case DeleteGroupOp(sub, r, e) =>
        if RgKey(sub, r) in w.store { DeleteGroupKeeps(w, sub, r, e); } else { DeleteMissingGroup(w, sub, r, e); }
      case PutIdentityOp(sub, r, n, m) => PutIdentityKeeps(w, sub, r, n, m);
      case DeleteIdentityOp(sub, r, n) => DeleteIdentityKeeps(w, sub, r, n);
      case AttestOp(q, p) => AttestKeeps(w, q, p, now, c.codec);
      case IntrospectOp(t) => IntrospectKeeps(w, t, now, c.codec);
      case PutClusterOp(sub, r, n, p, e) => PutClusterKeeps(w, c.digest, sub, r, n, p, e);
      case DeleteClusterOp(sub, r, n) => DeleteClusterKeeps(w, sub, r, n);
      case ShutdownOp(l) => ShutdownKeeps(w, l);
      case ReapOp(l) => ReapKeeps(w, l);
      case DriftOp(cs, ns) => DriftKeeps(w, w.(containers := cs, networks := ns));
    }
  }

  lemma DeleteMissingGroup(w: World, sub: string, rg: string, env: Env)
    requires RgKey(sub, rg) !in w.store
    ensures DeleteGroup(w, sub, rg, env).0 == w
  {
  }

  lemma EffectOwnership(c: Config, s: Sys, op: Op, now: int)
    requires Sound(c, s) && Proper(c, s, op, now)
    ensures Ownership(Effect(c, s.w, op, now))
  {
    SoundInv(c, s);
    assert op.PutVmOp? ==> FreshSecret(s.w.store, op.vm.secret) by { assert SecretsUsed(s); }
    hide Sound, Proper, Effect, FreshSecret, Named, StoreInv, ClustersHeld, Ownership;
    if VmOp(op) { VmOpKeepsInv(c, s, op, now); } else { OtherOpKeepsInv(c, s, op, now); }
  }

  /** Every proper step keeps everything. */
  lemma StepSound(c: Config, s: Sys, op: Op, now: int)
    requires Sound(c, s) && Proper(c, s, op, now) && Faithful(c.codec)
    ensures Sound(c, Step(c, s, op, now))
  {
    assert Typed(s.w.store) && StoreSound(c, s) && Undisputed(s, op, now);
    NothingLeft(c, s, op, now);
    EffectOwnership(c, s, op, now);
    EffectFramed(c, s.w, op, now);
    hide StoreSound, Ownership, ClustersHeld, Named, Effect, Faithful, Lawful, Drifts, Typed, Leaves, LeavesNode, Starts, NameTaken,
      Reachable, SameTokens, SameClusters, NoNewSecrets;
    EffectHeldIff(c, s.w, op, now);
    EffectNamed(c, s.w, op, now);
    StoreStepSound(c, s, op, now);
  }

  lemma NothingLeft(c: Config, s: Sys, op: Op, now: int)
    requires Proper(c, s, op, now)
    ensures !LeavesNode(c, s.w, op)
  {
    hide Undisputed, PutLeaves, Sole, LeavesVm, LeavesService, Starts, NameTaken, Reachable;
  }

  // ---- Runs ----

  ghost predicate ProperRun(c: Config, s: Sys, ops: seq<(Op, int)>)
    decreases |ops|
  {
    ops != [] ==> Proper(c, s, ops[0].0, ops[0].1) && ProperRun(c, Step(c, s, ops[0].0, ops[0].1), ops[1..])
  }

  /** Every state of every proper run satisfies the whole invariant. */
  lemma {:induction false} RunSound(c: Config, s: Sys, ops: seq<(Op, int)>)
    requires Sound(c, s) && ProperRun(c, s, ops) && Faithful(c.codec)
    ensures Sound(c, Run(c, s, ops))
    decreases |ops|
  {
    hide Sound, Step, Proper, Faithful;
    if ops != [] {
      StepSound(c, s, ops[0].0, ops[0].1);
      RunSound(c, Step(c, s, ops[0].0, ops[0].1), ops[1..]);
    }
  }
}
