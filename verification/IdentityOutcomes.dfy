/** What an identity or token request answers and what is found afterwards, told from the
    outside. */
module IdentityOutcomes {
  import opened Options
  import opened Text
  import opened Keys
  import opened ArmIds
  import opened Worlds
  import opened VmSpec
  import opened IdentitySpec
  import opened Invariant
  import opened VmProofs
  import opened GroupProofs
  import opened AksSpec
  import opened GroupSpec
  import opened Operations
  import opened StoreRuns
  import opened Isolation
  import opened VmOutcomes

  // ---- The identity itself ----

  /** A new identity gets the minted ids, an existing one keeps its own; nothing else changes. */
  lemma PutIdentityOutcome(w: World, sub: string, rg: string, name: string, minted: Assignment)
    requires Typed(w.store)
    ensures var (w', reply) := PutIdentity(w, sub, rg, name, minted);
      var k := IdentityKey(sub, rg, name);
      && reply == (if RgKey(sub, rg) !in w.store then RgNotFound else if k in w.store then Success else Created)
      && (reply in {RgNotFound, Success} ==> w' == w)
      && (reply == Created ==> w' == w.(store := w.store[k := IdVal(minted)]))
  {
    var k := IdentityKey(sub, rg, name);
    if k in w.store {
      assert WellFiled(k, w.store[k]);
      assert w.store[k := w.store[k]] == w.store;
    }
  }

  lemma DeleteIdentityOutcome(w: World, sub: string, rg: string, name: string)
    ensures var (w', reply) := DeleteIdentity(w, sub, rg, name);
      var k := IdentityKey(sub, rg, name);
      && reply == (if k in w.store then NoContent else NotFound)
      && w' == w.(store := w'.store) && k !in w'.store
      && (forall j :: j != k ==> (j in w'.store <==> j in w.store) && (j in w.store ==> w'.store[j] == w.store[j]))
  {
  }

  // ---- Its ids over whole runs ----

  // The request deletes identity j, or its group.
  predicate Removes(op: Op, j: Key) {
    match op
    case DeleteIdentityOp(s, r, n) => j == IdentityKey(s, r, n)
    case DeleteGroupOp(s, r, _) => j.IdentityKey? && j.sub == s && j.rg == r
    case _ => false
  }

  ghost predicate HasIds(w: World, j: Key, ids: Assignment) {
    j in w.store && w.store[j] == IdVal(ids)
  }

  lemma PutVmKeepsIds(w: World, a: VmArgs, env: Env, j: Key, ids: Assignment)
    requires j.IdentityKey? && HasIds(w, j, ids)
    ensures HasIds(PutVm(w, a, env).0, j, ids)
  {
    hide VmContainer, VmNetwork, ResolveIdentity, UpdatedVm, NewVm;
  }

  lemma DeleteVmKeepsIds(w: World, sub: string, rg: string, name: string, j: Key, ids: Assignment)
    requires j.IdentityKey? && HasIds(w, j, ids)
    ensures HasIds(DeleteVm(w, sub, rg, name).0, j, ids)
  {
    hide VmContainer, VmNetwork, SvcContainers;
  }

  lemma PowerKeepsIds(w: World, sub: string, rg: string, name: string, action: Action, env: Env, j: Key, ids: Assignment)
    requires j.IdentityKey? && HasIds(w, j, ids)
    ensures HasIds(Power(w, sub, rg, name, action, env).0, j, ids)
  {
    hide VmContainer, SvcContainers, Acted, Idle, Succeeds, Refreshed;
  }

  lemma ServiceKeepsIds(w: World, a: SvcArgs, env: Env, j: Key, ids: Assignment)
    requires j.IdentityKey? && HasIds(w, j, ids)
    ensures HasIds(PutService(w, a, env).0, j, ids)
  {
    hide SvcContainer, ServiceName, Conflict, Refreshed, NewSvc;
  }

  lemma VmOpKeepsIds(c: Config, w: World, op: Op, now: int, j: Key, ids: Assignment)
    requires VmOp(op) && j.IdentityKey? && HasIds(w, j, ids)
    ensures HasIds(Effect(c, w, op, now), j, ids)
  {
    hide HasIds, PutVm, DeleteVm, Power, PutService;
    match op {
      case PutVmOp(a, e) => PutVmKeepsIds(w, a, e, j, ids);
      case DeleteVmOp(s, r, n) => DeleteVmKeepsIds(w, s, r, n, j, ids);
      case PowerOp(s, r, n, a, e) => PowerKeepsIds(w, s, r, n, a, e, j, ids);
      case PutServiceOp(a, e) => ServiceKeepsIds(w, a, e, j, ids);
      case _ => ReadKeepsIds(c, w, op, now, j, ids);
    }
  }

  lemma ReadKeepsIds(c: Config, w: World, op: Op, now: int, j: Key, ids: Assignment)
    requires op.ReadVmOp? || op.ReadServiceOp? || op.DeleteServiceOp?
    requires j.IdentityKey? && HasIds(w, j, ids)
    ensures HasIds(Effect(c, w, op, now), j, ids)
  {
    hide Refreshed, RefreshedSvc;
  }

  lemma OtherOpKeepsIds(c: Config, w: World, op: Op, now: int, j: Key, ids: Assignment)
    requires !VmOp(op) && !op.DeleteGroupOp? && !Removes(op, j) && j.IdentityKey? && HasIds(w, j, ids)
    ensures HasIds(Effect(c, w, op, now), j, ids)
  {
    hide LooseKey, Selectable, Matches, ClaimsFor, AksContainer, ClusterName, Handles, Orphans;
  }

  lemma GroupKeepsIds(w: World, sub: string, rg: string, env: Env, j: Key, ids: Assignment)
    requires Typed(w.store) && Mirrored(w.store) && j.IdentityKey? && HasIds(w, j, ids) && !(j.sub == sub && j.rg == rg)
    ensures HasIds(DeleteGroup(w, sub, rg, env).0, j, ids)
  {
    if RgKey(sub, rg) in w.store { DeleteGroupIsExact(w, sub, rg, env, j); }
    hide Typed, Mirrored, Cleared, Handles, SvcContainersIn, VmContainersIn, VmNetworksIn;
  }

  lemma StepKeepsIds(c: Config, w: World, op: Op, now: int, j: Key, ids: Assignment)
    requires Typed(w.store) && Mirrored(w.store) && !Removes(op, j) && j.IdentityKey? && HasIds(w, j, ids)
    ensures HasIds(Effect(c, w, op, now), j, ids)
  {
    if op.DeleteGroupOp? { GroupKeepsIds(w, op.sub, op.rg, op.env, j, ids); }
    hide Typed, Mirrored, HasIds, DeleteGroup, Removes;
    if VmOp(op) { VmOpKeepsIds(c, w, op, now, j, ids); }
    else if !op.DeleteGroupOp? { OtherOpKeepsIds(c, w, op, now, j, ids); }
  }

  // No request of the run deletes j or its group.
  predicate Unremoved(ops: seq<(Op, int)>, j: Key) {
    forall i :: 0 <= i < |ops| ==> !Removes(ops[i].0, j)
  }

  /** Over a whole run an identity keeps the ids it was created with, however often it is put
      again, until it or its group is deleted. */
  lemma {:induction false} IdsAreStable(c: Config, s: Sys, ops: seq<(Op, int)>, j: Key, ids: Assignment)
    requires StoreSound(c, s) && LawfulRun(c, s, ops) && Faithful(c.codec) && Unremoved(ops, j)
    requires j.IdentityKey? && HasIds(s.w, j, ids)
    ensures HasIds(Run(c, s, ops).w, j, ids)
    decreases |ops|
  {
    hide StoreSound, Lawful, Faithful, Effect, HasIds, Removes;
    if ops != [] {
      var op, now := ops[0].0, ops[0].1;
      StoreSoundParts(c, s);
      assert !Removes(ops[0].0, j) && Unremoved(ops[1..], j);
      StoreStepSound(c, s, op, now);
      hide Typed, Mirrored;
      StepKeepsIds(c, s.w, op, now, j, ids);
      IdsAreStable(c, Step(c, s, op, now), ops[1..], j, ids);
    }
  }

  // ---- Tokens ----

  // What the request asks for, of an assignment.
  predicate Wanted(q: TokenQuery, id: string, a: Assignment) {
    && (q.resId != "" ==> EqualFold(id, q.resId))
    && (q.resId == "" && q.clientId != "" ==> EqualFold(a.clientId, q.clientId))
  }

  // Assignment id of VM k, which the request may mean: the only one, if it names none.
  ghost predicate Means(w: World, k: Key, q: TokenQuery, id: string) {
    && k in w.store && w.store[k].VmVal? && w.store[k].vm.identity.Some?
    && var roster := w.store[k].vm.identity.value;
    && id in roster && Wanted(q, id, roster[id])
    && (q.resId == "" && q.clientId == "" ==> forall x :: x in roster ==> x == id)
  }

  // The identity it names is stored.
  predicate Exists(w: World, id: string) {
    LooseKey(id).Some? && LooseKey(id).value in w.store
  }

  ghost predicate Holds(w: World, k: Key, secret: string) {
    k in w.store && k.VmKey? && w.store[k].VmVal? && w.store[k].vm.secret == secret
  }

  lemma OnlyOne<T>(s: set<T>, x: T)
    requires x in s
    ensures |s| == 1 <==> forall y :: y in s ==> y == x
  {
    if |s| == 1 {
      var rest := s - {x};
      assert |rest| == 0;
      forall y | y in s ensures y == x { assert y !in rest; }
    }
    if forall y :: y in s ==> y == x { assert s == {x}; }
  }

  // What Attest chooses from is what the request may mean.
  lemma SelectableMeans(w: World, k: Key, q: TokenQuery, id: string)
    requires k in w.store && w.store[k].VmVal?
    ensures var roster := Assigned(w.store[k].vm);
      Means(w, k, q, id) <==> Selectable(q, roster) && id in roster && Matches(q, id, roster[id])
  {
    var roster := Assigned(w.store[k].vm);
    hide EqualFold;
    if id in roster {
      OnlyOne(roster.Keys, id);
      assert |roster.Keys| == |roster|;
    }
  }

  lemma HolderIsOwner(w: World, k: Key, secret: string)
    requires Typed(w.store) && Mirrored(w.store) && Holds(w, k, secret)
    ensures SecretKey(secret) in w.store && w.store[SecretKey(secret)] == SecretVal(k)
  {
    assert SecretOf(w.store, k) == secret;
    assert OwnerOf(w.store, secret) == Some(k);
  }

  /** A token is issued for an assignment the request means, with that one's ids, for the
      resource asked for, for a day; and it is refused exactly when there is no such
      assignment or the one chosen names no stored identity. */
  lemma TokenOutcome(w: World, k: Key, q: TokenQuery, pick: string, now: int, c: Codec)
    requires Typed(w.store) && Mirrored(w.store) && Holds(w, k, q.secret) && q.secret != ""
    requires Pickable(w, q, pick)
    ensures var (w', r) := Attest(w, q, pick, now, c);
      && ((exists id :: Means(w, k, q, id)) ==> Means(w, k, q, pick))
      && (r.Issued? <==> Means(w, k, q, pick) && Exists(w, pick))
      && (r.Refused? <==> !(Means(w, k, q, pick) && Exists(w, pick)))
      && (r.Refused? ==> w' == w)
      && (r.Issued? ==>
            && r.claims.armId == pick
            && Assignment(r.claims.principalId, r.claims.clientId) == w.store[k].vm.identity.value[pick]
            && r.claims.vmId == w.store[k].vm.id
            && r.claims.resource == (if q.resource == "" then "https://management.azure.com/" else q.resource)
            && r.claims.issuedAt == now / 1_000_000_000 && r.claims.expires == now / 1_000_000_000 + 86_400
            && r.token == c.jwt(r.claims)
            && w' == w.(store := w.store[TokenKey(c.hash(r.token)) :=
                          TokenVal(TokenRec(pick, r.claims.vmId, r.claims.clientId, r.claims.expires))]))
  {
    HolderIsOwner(w, k, q.secret);
    SelectableMeans(w, k, q, pick);
    if id :| Means(w, k, q, id) { SelectableMeans(w, k, q, id); }
    hide Typed, Mirrored, LooseKey, Selectable, Matches, Means;
  }

  /** Without a secret the answer is the host's token; a secret no VM holds is refused. */
  lemma NoHolder(w: World, q: TokenQuery, pick: string, now: int, c: Codec)
    requires Typed(w.store) && Mirrored(w.store)
    ensures var (w', r) := Attest(w, q, pick, now, c);
      && (r == HostToken <==> q.secret == "")
      && (r == Unauthorized <==> q.secret != "" && forall k :: !Holds(w, k, q.secret))
      && (r in {HostToken, Unauthorized} ==> w' == w)
  {
    if k :| Holds(w, k, q.secret) { HolderIsOwner(w, k, q.secret); }
    var x := SecretKey(q.secret);
    if x in w.store {
      assert OwnerOf(w.store, q.secret).Some? && WellFiled(x, w.store[x]);
      var owner := OwnerOf(w.store, q.secret).value;
      assert WellFiled(owner, w.store[owner]) && SecretOf(w.store, owner) == q.secret;
      assert Holds(w, owner, q.secret);
    }
    hide Typed, Mirrored, LooseKey, Selectable, Matches, VmArmId, Holds;
  }

  /** An identity that is deleted is refused from then on, although it is still assigned. */
  lemma DeletedIdentityRefused(w: World, sub: string, rg: string, name: string, q: TokenQuery, pick: string, now: int, c: Codec)
    requires LooseKey(pick) == Some(IdentityKey(sub, rg, name)) && q.secret != ""
    ensures Attest(DeleteIdentity(w, sub, rg, name).0, q, pick, now, c).1 in {TokenReply.Refused, Unauthorized}
  {
    hide LooseKey, Selectable, Matches;
  }

  /** From assignment to token: a new VM that was given an identity gets, for its secret and
      that identity's id in any case of letters, a token with the stored identity's ids. */
  lemma AssignedIsIssued(w: World, a: VmArgs, env: Env, id: string, q: TokenQuery, pick: string, now: int, c: Codec)
    requires StoreInv(w.store) && FreshSecret(w.store, a.secret) && PutVm(w, a, env).1 == Created
    requires !NoneAsked(a.identity) && id in a.identity.ids
    requires q.secret == a.secret && q.resId != "" && forall x :: x in a.identity.ids ==> (EqualFold(x, q.resId) <==> x == id)
    requires Pickable(PutVm(w, a, env).0, q, pick)
    ensures var r := Attest(PutVm(w, a, env).0, q, pick, now, c).1;
      && r.Issued? && r.claims.armId == id && r.claims.vmId == VmArmId(a.sub, a.rg, a.name)
      && exists j :: j in w.store && StrictKey(id) == Some(j) && w.store[j] == IdVal(Assignment(r.claims.principalId, r.claims.clientId))
  {
    var w', k := PutVm(w, a, env).0, VmKey(a.sub, a.rg, a.name);
    CreatedOutcome(w, a, env);
    PutVmStore(w, a, env);
    CreatedKeeps(w, a, env);
    var vm := w'.store[k].vm;
    var roster := vm.identity.value;
    assert Means(w', k, q, id) && Holds(w', k, q.secret);
    ParsersAgree(id);
    var j :| j in w.store && StrictKey(id) == Some(j) && w.store[j] == IdVal(roster[id]);
    assert Exists(w', id);
    hide PutVm, EqualFold, StrictKey, LooseKey, VmArmId, VmContainer, FreshSecret;
    TokenOutcome(w', k, q, pick, now, c);
    assert pick == id;
  }

  lemma CreatedKeeps(w: World, a: VmArgs, env: Env)
    requires PutVm(w, a, env).1 == Created
    ensures forall j: Key :: j.IdentityKey? && j in w.store ==> j in PutVm(w, a, env).0.store
  {
    hide VmContainer, VmNetwork, ResolveIdentity, NewVm, UpdatedVm;
  }

  /** Introspection of an empty token is malformed; an expired record is deleted on the way. */
  lemma IntrospectOutcome(w: World, token: string, now: int, c: Codec)
    requires Typed(w.store)
    ensures var (w', r) := Introspect(w, token, now, c);
      var k := TokenKey(c.hash(token));
      && (r == Malformed <==> token == "")
      && (token != "" ==>
           if k in w.store && w.store[k].TokenVal? && now <= w.store[k].token.expiresOn * SECOND
           then r == Active(w.store[k].token) && w' == w
           else r == Inactive && w' == w.(store := w.store - {k}))
  {
    var k := TokenKey(c.hash(token));
    if k in w.store { assert WellFiled(k, w.store[k]); } else { assert w.store - {k} == w.store; }
  }
}
