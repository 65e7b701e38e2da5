/** Whole runs, as far as the store goes: any requests in any order, in every mode of the
    emulator, with any behaviour of Docker. */
module StoreRuns {
  import opened Options
  import opened Keys
  import opened ArmIds
  import opened Worlds
  import opened VmSpec
  import opened IdentitySpec
  import opened AksSpec
  import opened GroupSpec
  import opened Invariant
  import opened VmProofs
  import opened SvcProofs
  import opened IdentityProofs
  import opened AksProofs
  import opened GroupProofs
  import opened Operations
  import opened Frames

  /** What is asked of the environment: time does not run backwards and secrets are fresh. */
  ghost predicate Lawful(s: Sys, op: Op, now: int) {
    && s.now <= now
    && (op.PutVmOp? ==> op.vm.secret != "" && op.vm.secret !in s.used)
  }

  ghost predicate LawfulRun(c: Config, s: Sys, ops: seq<(Op, int)>)
    decreases |ops|
  {
    ops != [] ==> Lawful(s, ops[0].0, ops[0].1) && LawfulRun(c, Step(c, s, ops[0].0, ops[0].1), ops[1..])
  }

  // ---- The invariant over runs ----

  ghost predicate SecretsUsed(s: Sys) {
    forall x :: SecretKey(x) in s.w.store ==> x in s.used
  }

  function Filed(claims: Claims): TokenRec {
    TokenRec(claims.armId, claims.vmId, claims.clientId, claims.expires)
  }

  function TokenOf(c: Config, claims: Claims): Key {
    TokenKey(c.codec.hash(c.codec.jwt(claims)))
  }

  // Every stored token was issued; every issued token is stored until it has expired.
  ghost predicate TokensFiled(c: Config, s: Sys) {
    && (forall h :: TokenKey(h) in s.w.store ==>
          exists i :: i in s.issued && TokenOf(c, i.claims) == TokenKey(h) && s.w.store[TokenKey(h)] == TokenVal(Filed(i.claims)))
    && (forall i :: i in s.issued && s.now <= i.claims.expires * SECOND ==>
          TokenOf(c, i.claims) in s.w.store && s.w.store[TokenOf(c, i.claims)] == TokenVal(Filed(i.claims)))
  }

  ghost predicate IssuesVouched(s: Sys) {
    forall i :: i in s.issued ==>
      Vouches(i.at, i.secret, i.vm, i.claims) && i.when <= s.now && i.claims.expires == (i.when + DAY) / SECOND
  }

  ghost predicate StoreSound(c: Config, s: Sys) {
    && StoreInv(s.w.store)
    && SecretsUsed(s)
    && TokensFiled(c, s)
    && IssuesVouched(s)
  }

  lemma StoreStarts(c: Config, w: World, now: int)
    requires w.store == map[]
    ensures StoreSound(c, Sys(w, now, {}, {}))
  {
  }

  // ---- One step keeps the store's half ----

  lemma EffectStore(c: Config, w: World, op: Op, now: int)
    requires StoreInv(w.store) && (op.PutVmOp? ==> FreshSecret(w.store, op.vm.secret))
    ensures StoreInv(Effect(c, w, op, now).store)
  {
    if VmOp(op) { VmOpStore(c, w, op, now); } else { OtherOpStore(c, w, op, now); }
    hide StoreInv, Effect;
  }

  lemma VmOpStore(c: Config, w: World, op: Op, now: int)
    requires StoreInv(w.store) && VmOp(op) && (op.PutVmOp? ==> FreshSecret(w.store, op.vm.secret))
    ensures StoreInv(Effect(c, w, op, now).store)
  {
    hide StoreInv, FreshSecret, PutVm, ReadVm, DeleteVm, Power, PutService, ReadService, DeleteService;
    match op {
      case PutVmOp(a, e) => PutVmStore(w, a, e);
      case ReadVmOp(sub, r, n, e) => ReadVmStore(w, VmKey(sub, r, n), e);
      case DeleteVmOp(sub, r, n) => DeleteVmStore(w, sub, r, n);
      case PowerOp(sub, r, n, a, e) => PowerStore(w, sub, r, n, a, e);
      case PutServiceOp(a, e) => PutServiceStore(w, a, e);
      case ReadServiceOp(sub, r, v, n, e) => ReadServiceStore(w, SvcKey(sub, r, v, n), e);
      case DeleteServiceOp(sub, r, v, n) => DeleteServiceStore(w, SvcKey(sub, r, v, n));
    }
  }

  lemma OtherOpStore(c: Config, w: World, op: Op, now: int)
    requires StoreInv(w.store) && !VmOp(op)
    ensures StoreInv(Effect(c, w, op, now).store)
  {
    hide StoreInv, PutGroup, DeleteGroup, PutIdentity, DeleteIdentity, Attest, Introspect, PutCluster, DeleteCluster, Handles, Orphans;
    match op {
      case PutGroupOp(sub, r, l) => PutGroupStore(w, sub, r, l);
      case DeleteGroupOp(sub, r, e) => DeleteGroupStore(w, sub, r, e);
      case PutIdentityOp(sub, r, n, m) => PutIdentityStore(w, sub, r, n, m);
      case DeleteIdentityOp(sub, r, n) => DeleteIdentityStore(w, sub, r, n);
      case AttestOp(q, p) => AttestStore(w, q, p, now, c.codec);
      case IntrospectOp(t) => IntrospectStore(w, t, now, c.codec);
      case PutClusterOp(sub, r, n, p, e) => PutClusterStore(w, c.digest, sub, r, n, p, e);
      case DeleteClusterOp(sub, r, n) => DeleteClusterStore(w, sub, r, n);
      case _ =>
    }
  }

  // ---- Tokens over a step ----

  lemma QuietTokens(c: Config, s: Sys, op: Op, now: int)
    requires TokensFiled(c, s) && s.now <= now && !op.AttestOp? && SameTokens(s.w.store, Effect(c, s.w, op, now).store)
    ensures TokensFiled(c, Step(c, s, op, now))
  {
    hide Effect;
    var s' := Step(c, s, op, now);
    assert s'.issued == s.issued;
  }

  // Filing one more issued token keeps the file and the record of issues in step.
  lemma FiledMore(c: Config, s: Sys, s': Sys, i: Issue)
    requires TokensFiled(c, s) && s.now <= s'.now && Faithful(c.codec)
    requires s'.issued == s.issued + {i}
    requires s'.w.store == s.w.store[TokenOf(c, i.claims) := TokenVal(Filed(i.claims))]
    ensures TokensFiled(c, s')
  {
    var k := TokenOf(c, i.claims);
    forall j | j in s.issued && TokenOf(c, j.claims) == k ensures Filed(j.claims) == Filed(i.claims) {
      assert c.codec.jwt(j.claims) == c.codec.jwt(i.claims);
    }
    assert i in s'.issued;
    hide Filed, Faithful;
    forall h | TokenKey(h) in s'.w.store
      ensures exists j :: j in s'.issued && TokenOf(c, j.claims) == TokenKey(h) && s'.w.store[TokenKey(h)] == TokenVal(Filed(j.claims))
    {
      if TokenKey(h) != k {
        assert TokenKey(h) in s.w.store;
        var j :| j in s.issued && TokenOf(c, j.claims) == TokenKey(h) && s.w.store[TokenKey(h)] == TokenVal(Filed(j.claims));
        assert j in s'.issued;
      }
    }
  }

  lemma AttestTokens(c: Config, s: Sys, q: TokenQuery, pick: string, now: int)
    requires TokensFiled(c, s) && s.now <= now && Faithful(c.codec)
    ensures TokensFiled(c, Step(c, s, AttestOp(q, pick), now))
  {
    hide LooseKey, Selectable, Matches, Faithful, TokensFiled;
    var s' := Step(c, s, AttestOp(q, pick), now);
    var r := Attest(s.w, q, pick, now, c.codec).1;
    if r.Issued? {
      FiledMore(c, s, s', Issue(s.w, q.secret, s.w.store[SecretKey(q.secret)].owner, r.claims, now));
    } else {
      assert s'.issued == s.issued && s'.w.store == s.w.store;
      SameFiles(c, s, s');
    }
  }

  lemma SameFiles(c: Config, s: Sys, s': Sys)
    requires TokensFiled(c, s) && s.now <= s'.now && s'.issued == s.issued && s'.w.store == s.w.store
    ensures TokensFiled(c, s')
  {
  }

  lemma IntrospectTokens(c: Config, s: Sys, token: string, now: int)
    requires TokensFiled(c, s) && s.now <= now
    ensures TokensFiled(c, Step(c, s, IntrospectOp(token), now))
  {
    var k := TokenKey(c.codec.hash(token));
    if Introspect(s.w, token, now, c.codec).0 != s.w {
      assert k in s.w.store && s.w.store[k].TokenVal? && now > s.w.store[k].token.expiresOn * SECOND;
      ExpiredTokenGone(c, s, k, now);
    } else {
      ClockMoves(c, s, now);
    }
    assert Step(c, s, IntrospectOp(token), now).issued == s.issued;
    hide TokensFiled;
  }

  lemma ClockMoves(c: Config, s: Sys, now: int)
    requires TokensFiled(c, s) && s.now <= now
    ensures TokensFiled(c, s.(now := now))
  {
  }

  lemma ExpiredTokenGone(c: Config, s: Sys, k: Key, now: int)
    requires TokensFiled(c, s) && s.now <= now && k.TokenKey?
    requires k in s.w.store && s.w.store[k].TokenVal? && now > s.w.store[k].token.expiresOn * SECOND
    ensures TokensFiled(c, s.(w := s.w.(store := s.w.store - {k}), now := now))
  {
  }

  lemma StepVouched(c: Config, s: Sys, op: Op, now: int)
    requires StoreInv(s.w.store) && IssuesVouched(s) && s.now <= now
    ensures IssuesVouched(Step(c, s, op, now))
  {
    var s' := Step(c, s, op, now);
    if op.AttestOp? { IssuedVouches(s.w, op.query, op.pick, now, c.codec); }
    hide Effect, StoreInv, Vouches, Attest;
    forall i | i in s'.issued && i !in s.issued
      ensures Vouches(i.at, i.secret, i.vm, i.claims) && i.when <= now && i.claims.expires == (i.when + DAY) / SECOND
    {
      assert i in NewIssues(c, s.w, op, now);
    }
  }

  lemma StepTokens(c: Config, s: Sys, op: Op, now: int)
    requires TokensFiled(c, s) && s.now <= now && Faithful(c.codec)
    ensures TokensFiled(c, Step(c, s, op, now))
  {
    EffectFramed(c, s.w, op, now);
    hide TokensFiled, Effect, Faithful, SameTokens;
    match op {
      case AttestOp(q, p) => AttestTokens(c, s, q, p, now);
      case IntrospectOp(t) => IntrospectTokens(c, s, t, now);
      case _ => QuietTokens(c, s, op, now);
    }
  }

  lemma StepSecrets(c: Config, s: Sys, op: Op, now: int)
    requires SecretsUsed(s)
    ensures SecretsUsed(Step(c, s, op, now))
  {
    EffectFramed(c, s.w, op, now);
    hide Effect, SameTokens, SameClusters;
  }

  /** Every lawful step keeps the store's half: in Docker mode or without Docker, with k3s or
      stub clusters, also under taken container names and unreachable cascades. */
  lemma StoreStepSound(c: Config, s: Sys, op: Op, now: int)
    requires StoreSound(c, s) && Lawful(s, op, now) && Faithful(c.codec)
    ensures StoreSound(c, Step(c, s, op, now))
  {
    assert op.PutVmOp? ==> FreshSecret(s.w.store, op.vm.secret);
    hide StoreInv, SecretsUsed, TokensFiled, IssuesVouched, Effect, Faithful, FreshSecret;
    EffectStore(c, s.w, op, now);
    StepSecrets(c, s, op, now);
    StepTokens(c, s, op, now);
    StepVouched(c, s, op, now);
  }

  // ---- Runs ----

  /** So does every run. */
  lemma {:induction false} StoreRunSound(c: Config, s: Sys, ops: seq<(Op, int)>)
    requires StoreSound(c, s) && LawfulRun(c, s, ops) && Faithful(c.codec)
    ensures StoreSound(c, Run(c, s, ops))
    decreases |ops|
  {
    hide StoreSound, Step, Lawful, Faithful;
    if ops != [] {
      StoreStepSound(c, s, ops[0].0, ops[0].1);
      StoreRunSound(c, Step(c, s, ops[0].0, ops[0].1), ops[1..]);
    }
  }

  /** In every state of every run, introspection calls a token active if and only if it
      was issued earlier and has not expired; it then reports the identity and the VM
      the token was issued for, which stood as the token says when it was issued. */
  lemma ActiveIffIssued(c: Config, s: Sys, token: string, now: int)
    requires StoreSound(c, s) && Faithful(c.codec) && s.now <= now && token != ""
    ensures Introspect(s.w, token, now, c.codec).1.Active? <==>
              exists i :: i in s.issued && c.codec.jwt(i.claims) == token && now <= i.claims.expires * SECOND
    ensures forall i :: i in s.issued && c.codec.jwt(i.claims) == token && now <= i.claims.expires * SECOND ==>
              && Introspect(s.w, token, now, c.codec).1
                 == Active(TokenRec(i.claims.armId, i.claims.vmId, i.claims.clientId, i.claims.expires))
              && Vouches(i.at, i.secret, i.vm, i.claims) && i.when <= now
  {
    var k := TokenKey(c.codec.hash(token));
    assert TokensFiled(c, s) && IssuesVouched(s) && (k in s.w.store ==> WellFiled(k, s.w.store[k]));
    hide StoreSound, Vouches;
    if Introspect(s.w, token, now, c.codec).1.Active? {
      var i :| i in s.issued && TokenOf(c, i.claims) == k && s.w.store[k] == TokenVal(Filed(i.claims));
      assert c.codec.jwt(i.claims) == token;
    }
  }

  // ---- Secrets that have had their day ----

  ghost predicate Dead(s: Sys, secret: string) {
    secret != "" && secret in s.used && SecretKey(secret) !in s.w.store
  }

  lemma StepKeepsDead(c: Config, s: Sys, op: Op, now: int, secret: string)
    requires Lawful(s, op, now) && Dead(s, secret)
    ensures Dead(Step(c, s, op, now), secret)
  {
    EffectFramed(c, s.w, op, now);
    hide Effect, SameTokens, SameClusters;
  }

  /** Once no VM holds a secret that was in use, it never opens the token endpoint again. */
  lemma {:induction false} DeadSecretStaysDead(c: Config, s: Sys, ops: seq<(Op, int)>, q: TokenQuery, pick: string, now: int)
    requires LawfulRun(c, s, ops) && Dead(s, q.secret)
    ensures Attest(Run(c, s, ops).w, q, pick, now, c.codec).1 == Unauthorized
    decreases |ops|
  {
    hide Step, Lawful;
    if ops != [] {
      StepKeepsDead(c, s, ops[0].0, ops[0].1, q.secret);
      DeadSecretStaysDead(c, Step(c, s, ops[0].0, ops[0].1), ops[1..], q, pick, now);
    }
  }

  /** Deleting a VM ends its secret. */
  lemma DeletedVmSecretIsDead(c: Config, s: Sys, sub: string, rg: string, name: string, now: int)
    requires StoreSound(c, s) && VmKey(sub, rg, name) in s.w.store
    ensures Dead(Step(c, s, DeleteVmOp(sub, rg, name), now), SecretOf(s.w.store, VmKey(sub, rg, name)))
  {
    var k := VmKey(sub, rg, name);
    var secret := SecretOf(s.w.store, k);
    SecretIndexed(c, s, k);
    DeletionDropsSecret(s.w, sub, rg, name);
    hide StoreSound, DeleteVm;
    assert secret in Step(c, s, DeleteVmOp(sub, rg, name), now).used;
  }

  lemma SecretIndexed(c: Config, s: Sys, k: Key)
    requires StoreSound(c, s) && k in s.w.store && k.VmKey?
    ensures var secret := SecretOf(s.w.store, k);
      s.w.store[k].VmVal? && secret != "" && SecretKey(secret) in s.w.store && secret in s.used
  {
    assert WellFiled(k, s.w.store[k]);
    assert OwnerOf(s.w.store, SecretOf(s.w.store, k)) == Some(k);
    assert SecretsUsed(s);
    hide StoreSound;
  }

  lemma DeletionDropsSecret(w: World, sub: string, rg: string, name: string)
    requires var k := VmKey(sub, rg, name); k in w.store && w.store[k].VmVal? && SecretOf(w.store, k) != ""
    ensures SecretKey(SecretOf(w.store, VmKey(sub, rg, name))) !in DeleteVm(w, sub, rg, name).0.store
  {
    hide Services, SvcContainers, VmContainer, VmNetwork;
  }

  /** So does deleting its resource group. */
  lemma DeletedGroupSecretsAreDead(c: Config, s: Sys, k: Key, env: Env, now: int)
    requires StoreSound(c, s) && k in s.w.store && k.VmKey?
    ensures Dead(Step(c, s, DeleteGroupOp(k.sub, k.rg, env), now), SecretOf(s.w.store, k))
  {
    assert WellFiled(k, s.w.store[k]);
    assert OwnerOf(s.w.store, SecretOf(s.w.store, k)) == Some(k) && RgKey(k.sub, k.rg) in s.w.store;
    assert SecretsUsed(s);
    DeleteGroupIsExact(s.w, k.sub, k.rg, env, SecretKey(SecretOf(s.w.store, k)));
    hide StoreSound, DeleteGroup, VmContainer, VmNetwork, VmArmId;
  }
}
