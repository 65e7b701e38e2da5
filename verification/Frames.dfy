/** What each request leaves alone in the store. */
module Frames {
  import opened Options
  import opened Keys
  import opened ArmIds
  import opened Worlds
  import opened VmSpec
  import opened IdentitySpec
  import opened AksSpec
  import opened GroupSpec
  import opened Invariant
  import opened GroupProofs
  import opened Operations

  // ---- What a step can do to secrets and tokens ----

  ghost predicate SameTokens(s: map<Key, Value>, t: map<Key, Value>) {
    forall h :: (TokenKey(h) in s <==> TokenKey(h) in t) && (TokenKey(h) in s ==> t[TokenKey(h)] == s[TokenKey(h)])
  }

  ghost predicate NoNewSecrets(s: map<Key, Value>, t: map<Key, Value>, except: set<string>) {
    forall x :: SecretKey(x) in t ==> SecretKey(x) in s || x in except
  }

  ghost predicate Calm(w: World, w': World, born: set<string>) {
    && w'.docker == w.docker && w'.realMode == w.realMode
    && SameTokens(w.store, w'.store) && NoNewSecrets(w.store, w'.store, born)
  }

  lemma PutVmCalm(w: World, a: VmArgs, env: Env)
    ensures Calm(w, PutVm(w, a, env).0, {a.secret}) && SameClusters(w.store, PutVm(w, a, env).0.store)
  {
    hide VmContainer, VmNetwork, ResolveIdentity, NewVm, UpdatedVm;
  }

  lemma ReadVmCalm(w: World, sub: string, rg: string, name: string, env: Env)
    ensures Calm(w, ReadVm(w, VmKey(sub, rg, name), env).0, {}) && SameClusters(w.store, ReadVm(w, VmKey(sub, rg, name), env).0.store)
  {
  }

  lemma DeleteVmCalm(w: World, sub: string, rg: string, name: string)
    ensures Calm(w, DeleteVm(w, sub, rg, name).0, {}) && SameClusters(w.store, DeleteVm(w, sub, rg, name).0.store)
  {
    hide VmContainer, VmNetwork, SvcContainers;
  }

  lemma PowerCalm(w: World, sub: string, rg: string, name: string, action: Action, env: Env)
    ensures Calm(w, Power(w, sub, rg, name, action, env).0, {}) && SameClusters(w.store, Power(w, sub, rg, name, action, env).0.store)
  {
    hide VmContainer, VmNetwork, SvcContainers, Acted, Succeeds, Idle, Refreshed;
  }

  lemma DeployCalm(w: World, a: SvcArgs, env: Env)
    requires a.input.Some?
    ensures Calm(w, Deploy(w, a, env).0, {}) && SameClusters(w.store, Deploy(w, a, env).0.store)
  {
    hide SvcContainer, NewSvc;
  }

  lemma RefreshCalm(w: World, k: Key, blind: set<string>)
    requires GetVm(w.store, k).Some? && k.VmKey?
    ensures var w' := RefreshVm(w, k, w.store[k].vm, blind); Calm(w, w', {}) && SameClusters(w.store, w'.store)
  {
    hide Refreshed;
  }

  lemma CalmThen(w: World, w1: World, w2: World)
    requires Calm(w, w1, {}) && SameClusters(w.store, w1.store) && Calm(w1, w2, {}) && SameClusters(w1.store, w2.store)
    ensures Calm(w, w2, {}) && SameClusters(w.store, w2.store)
  {
  }

  lemma PutServiceCalm(w: World, a: SvcArgs, env: Env)
    ensures Calm(w, PutService(w, a, env).0, {}) && SameClusters(w.store, PutService(w, a, env).0.store)
  {
    var k, w' := VmKey(a.sub, a.rg, a.vm), PutService(w, a, env).0;
    if w' == w {
      StoreFrame(w, w');
    } else {
      var w0 := RefreshVm(w, k, w.store[k].vm, env.blind);
      RefreshCalm(w, k, env.blind);
      if w' != w0 {
        hide SvcContainer, Conflict, ServiceName, RefreshVm, Calm, SameClusters;
        DeployCalm(w0, a, env);
        hide Deploy;
        CalmThen(w, w0, w');
      }
    }
  }

  lemma ServiceCalm(w: World, k: Key, env: Env)
    requires k.SvcKey?
    ensures Calm(w, ReadService(w, k, env).0, {}) && SameClusters(w.store, ReadService(w, k, env).0.store)
  {
    hide RefreshedSvc;
  }

  lemma DeleteServiceCalm(w: World, k: Key)
    requires k.SvcKey?
    ensures Calm(w, DeleteService(w, k).0, {}) && SameClusters(w.store, DeleteService(w, k).0.store)
  {
  }

  lemma IdentityCalm(w: World, sub: string, rg: string, name: string, minted: Assignment)
    ensures Calm(w, PutIdentity(w, sub, rg, name, minted).0, {}) && SameClusters(w.store, PutIdentity(w, sub, rg, name, minted).0.store)
    ensures Calm(w, DeleteIdentity(w, sub, rg, name).0, {}) && SameClusters(w.store, DeleteIdentity(w, sub, rg, name).0.store)
  {
  }

  lemma PutGroupCalm(w: World, sub: string, rg: string, location: Option<string>)
    ensures Calm(w, PutGroup(w, sub, rg, location).0, {}) && SameClusters(w.store, PutGroup(w, sub, rg, location).0.store)
  {
  }

  lemma PutClusterCalm(w: World, digest: string -> string, sub: string, rg: string, name: string, parsed: bool, env: Env)
    ensures Calm(w, PutCluster(w, digest, sub, rg, name, parsed, env).0, {})
  {
    hide AksContainer, ClusterName;
  }

  lemma DeleteClusterCalm(w: World, sub: string, rg: string, name: string)
    ensures Calm(w, DeleteCluster(w, sub, rg, name).0, {})
  {
    hide Handle;
  }

  lemma DeleteGroupCalm(w: World, sub: string, rg: string, env: Env)
    ensures Calm(w, DeleteGroup(w, sub, rg, env).0, {})
  {
    ClearedKeeps(w.store, sub, rg);
    SecretsAreSecrets(w.store, sub, rg);
    hide Cleared, SecretsIn, SvcContainersIn, VmContainersIn, VmNetworksIn, Handles;
  }

  lemma StoreFrame(w: World, w': World)
    requires w'.store == w.store && w'.docker == w.docker && w'.realMode == w.realMode
    ensures Calm(w, w', {}) && SameClusters(w.store, w'.store)
  {
  }

  lemma RestFrame(w: World, late: set<string>, listed: bool)
    ensures Shutdown(w, late).store == w.store && Calm(w, Shutdown(w, late), {})
    ensures Reap(w, listed).store == w.store && Calm(w, Reap(w, listed), {})
  {
    hide Handles, Orphans;
    StoreFrame(w, Shutdown(w, late));
    StoreFrame(w, Reap(w, listed));
  }

  lemma AttestFrame(w: World, q: TokenQuery, pick: string, now: int, c: Codec)
    ensures var w' := Attest(w, q, pick, now, c).0;
            SameClusters(w.store, w'.store) && NoNewSecrets(w.store, w'.store, {}) && w'.docker == w.docker && w'.realMode == w.realMode
  {
    hide LooseKey, Selectable, Matches, ClaimsFor;
  }

  lemma IntrospectFrame(w: World, token: string, now: int, c: Codec)
    ensures var w' := Introspect(w, token, now, c).0;
            SameClusters(w.store, w'.store) && NoNewSecrets(w.store, w'.store, {}) && w'.docker == w.docker && w'.realMode == w.realMode
  {
  }

  // ---- One step ----

  // Only the token requests touch tokens, only a new VM brings a secret, only the cluster
  // requests and the deletion of a group touch clusters; the modes never change.
  ghost predicate Framed(w: World, op: Op, w': World) {
    && w'.docker == w.docker && w'.realMode == w.realMode
    && NoNewSecrets(w.store, w'.store, if op.PutVmOp? then {op.vm.secret} else {})
    && (!op.AttestOp? && !op.IntrospectOp? ==> SameTokens(w.store, w'.store))
    && (!op.PutClusterOp? && !op.DeleteClusterOp? && !op.DeleteGroupOp? ==> SameClusters(w.store, w'.store))
  }

  lemma VmOpFramed(c: Config, w: World, op: Op, now: int)
    requires VmOp(op)
    ensures Framed(w, op, Effect(c, w, op, now))
  {
    hide SameClusters, PutVm, ReadVm, DeleteVm, Power, PutService, ReadService, DeleteService, NoNewSecrets, SameTokens;
    match op {
      case PutVmOp(a, e) => PutVmCalm(w, a, e);
      case ReadVmOp(sub, r, n, e) => ReadVmCalm(w, sub, r, n, e);
      case DeleteVmOp(sub, r, n) => DeleteVmCalm(w, sub, r, n);
      case PowerOp(sub, r, n, a, e) => PowerCalm(w, sub, r, n, a, e);
      case PutServiceOp(a, e) => PutServiceCalm(w, a, e);
      case ReadServiceOp(sub, r, v, n, e) => ServiceCalm(w, SvcKey(sub, r, v, n), e);
      case DeleteServiceOp(sub, r, v, n) => DeleteServiceCalm(w, SvcKey(sub, r, v, n));
    }
  }

  lemma OtherOpFramed(c: Config, w: World, op: Op, now: int)
    requires !VmOp(op)
    ensures Framed(w, op, Effect(c, w, op, now))
  {
    hide SameClusters, PutGroup, DeleteGroup, PutIdentity, DeleteIdentity, Attest, Introspect, PutCluster, DeleteCluster,
      Shutdown, Reap, NoNewSecrets, SameTokens;
    match op {
      case PutGroupOp(sub, r, l) => PutGroupCalm(w, sub, r, l);
      case DeleteGroupOp(sub, r, e) => DeleteGroupCalm(w, sub, r, e);
      case PutIdentityOp(sub, r, n, m) => IdentityCalm(w, sub, r, n, m);
      case DeleteIdentityOp(sub, r, n) => IdentityCalm(w, sub, r, n, Assignment("", ""));
      case AttestOp(q, p) => AttestFrame(w, q, p, now, c.codec);
      case IntrospectOp(t) => IntrospectFrame(w, t, now, c.codec);
      case PutClusterOp(sub, r, n, p, e) => PutClusterCalm(w, c.digest, sub, r, n, p, e);
      case DeleteClusterOp(sub, r, n) => DeleteClusterCalm(w, sub, r, n);
      case ShutdownOp(l) => RestFrame(w, l, true); StoreFrame(w, Effect(c, w, op, now));
      case ReapOp(l) => RestFrame(w, {}, l); StoreFrame(w, Effect(c, w, op, now));
      case DriftOp(cs, ns) => StoreFrame(w, Effect(c, w, op, now));
    }
  }

  lemma EffectFramed(c: Config, w: World, op: Op, now: int)
    ensures Framed(w, op, Effect(c, w, op, now))
  {
    if VmOp(op) { VmOpFramed(c, w, op, now); } else { OtherOpFramed(c, w, op, now); }
  }
}
