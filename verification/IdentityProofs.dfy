/** Identities and tokens: the requests keep the invariant, and a token vouches for
    what was true when it was issued. */
module IdentityProofs {
  import opened Options
  import opened Keys
  import opened ArmIds
  import opened Worlds
  import opened IdentitySpec
  import opened Invariant

  lemma PutIdentityKeeps(w: World, sub: string, rg: string, name: string, minted: Assignment)
    requires Inv(w)
    ensures Inv(PutIdentity(w, sub, rg, name, minted).0)
  {
    var w' := PutIdentity(w, sub, rg, name, minted).0;
    hide WellFiled, Owns, NoOrphans, Distinct, Mirrored, PortsApart, ClustersHeld;
    assert SameOwners(w.store, w'.store);
    assert Resolves(w'.store);
    PutIdentityTyped(w, sub, rg, name, minted);
    hide Typed, Resolves, SameOwners;
    BystandersKeep(w, w');
  }

  lemma PutIdentityStore(w: World, sub: string, rg: string, name: string, minted: Assignment)
    requires StoreInv(w.store)
    ensures StoreInv(PutIdentity(w, sub, rg, name, minted).0.store)
  {
    var t := PutIdentity(w, sub, rg, name, minted).0.store;
    hide WellFiled, Mirrored, PortsApart;
    assert SameOwners(w.store, t) && Resolves(t);
    PutIdentityTyped(w, sub, rg, name, minted);
    hide Typed, Resolves, SameOwners;
    BystandersKeepStore(w.store, t);
  }

  lemma DeleteIdentityStore(w: World, sub: string, rg: string, name: string)
    requires StoreInv(w.store)
    ensures StoreInv(DeleteIdentity(w, sub, rg, name).0.store)
  {
    var t := DeleteIdentity(w, sub, rg, name).0.store;
    hide WellFiled, Mirrored, PortsApart;
    assert SameOwners(w.store, t) && Typed(t) && Resolves(t);
    hide Typed, Resolves, SameOwners;
    BystandersKeepStore(w.store, t);
  }

  lemma TokenEntryStore(s: map<Key, Value>, hash: string, rec: TokenRec)
    requires StoreInv(s)
    ensures StoreInv(s[TokenKey(hash) := TokenVal(rec)]) && StoreInv(s - {TokenKey(hash)})
  {
    TokenBystanders(s, hash, rec);
    hide Typed, Resolves, SameOwners, Mirrored, PortsApart;
    BystandersKeepStore(s, s[TokenKey(hash) := TokenVal(rec)]);
    BystandersKeepStore(s, s - {TokenKey(hash)});
  }

  lemma AttestStore(w: World, q: TokenQuery, pick: string, now: int, c: Codec)
    requires StoreInv(w.store)
    ensures StoreInv(Attest(w, q, pick, now, c).0.store)
  {
    hide StoreInv, LooseKey, Selectable;
    match Attest(w, q, pick, now, c).1 {
      case Issued(token, claims) =>
        var vm := w.store[w.store[SecretKey(q.secret)].owner].vm;
        TokenEntryStore(w.store, c.hash(token), TokenRec(pick, vm.id, claims.clientId, claims.expires));
      case _ =>
    }
  }

  lemma IntrospectStore(w: World, token: string, now: int, c: Codec)
    requires StoreInv(w.store)
    ensures StoreInv(Introspect(w, token, now, c).0.store)
  {
    hide StoreInv;
    TokenEntryStore(w.store, c.hash(token), TokenRec("", "", "", 0));
  }

  lemma PutIdentityTyped(w: World, sub: string, rg: string, name: string, minted: Assignment)
    requires Typed(w.store)
    ensures Typed(PutIdentity(w, sub, rg, name, minted).0.store)
  {
    forall id ensures WellFiled(IdentityKey(sub, rg, name), IdVal(id)) {}
    hide WellFiled;
  }

  lemma DeleteIdentityKeeps(w: World, sub: string, rg: string, name: string)
    requires Inv(w)
    ensures Inv(DeleteIdentity(w, sub, rg, name).0)
  {
    var w' := DeleteIdentity(w, sub, rg, name).0;
    hide WellFiled, Owns, NoOrphans, Distinct, Mirrored, PortsApart, ClustersHeld;
    assert SameOwners(w.store, w'.store);
    assert Typed(w'.store) && Resolves(w'.store);
    hide Typed, Resolves, SameOwners;
    BystandersKeep(w, w');
  }

  lemma TokenEntryKeeps(w: World, hash: string, rec: TokenRec)
    requires Inv(w)
    ensures Inv(w.(store := w.store[TokenKey(hash) := TokenVal(rec)])) && Inv(w.(store := w.store - {TokenKey(hash)}))
  {
    var s, t := w.store[TokenKey(hash) := TokenVal(rec)], w.store - {TokenKey(hash)};
    TokenBystanders(w.store, hash, rec);
    hide Inv, Typed, Resolves, SameOwners;
    BystandersKeep(w, w.(store := s));
    BystandersKeep(w, w.(store := t));
  }

  lemma TokenBystanders(s: map<Key, Value>, hash: string, rec: TokenRec)
    requires Typed(s) && Resolves(s)
    ensures var t := s[TokenKey(hash) := TokenVal(rec)]; SameOwners(s, t) && Typed(t) && Resolves(t)
    ensures var t := s - {TokenKey(hash)}; SameOwners(s, t) && Typed(t) && Resolves(t)
  {
    assert WellFiled(TokenKey(hash), TokenVal(rec));
    hide WellFiled;
  }

  lemma AttestKeeps(w: World, q: TokenQuery, pick: string, now: int, c: Codec)
    requires Inv(w)
    ensures Inv(Attest(w, q, pick, now, c).0)
  {
    hide Inv, LooseKey, Selectable;
    match Attest(w, q, pick, now, c).1 {
      case Issued(token, claims) =>
        var vm := w.store[w.store[SecretKey(q.secret)].owner].vm;
        TokenEntryKeeps(w, c.hash(token), TokenRec(pick, vm.id, claims.clientId, claims.expires));
      case _ =>
    }
  }

  lemma IntrospectKeeps(w: World, token: string, now: int, c: Codec)
    requires Inv(w)
    ensures Inv(Introspect(w, token, now, c).0)
  {
    hide Inv;
    TokenEntryKeeps(w, c.hash(token), TokenRec("", "", "", 0));
  }

  // ---- What a token says ----

  /** The facts behind a token: the VM was there, it carried the secret and the
      assignment, and the assigned identity existed. */
  ghost predicate Vouches(w: World, secret: string, vm: Key, claims: Claims) {
    && vm in w.store && vm.VmKey? && w.store[vm].VmVal?
    && w.store[vm].vm.secret == secret
    && claims.vmId == VmArmId(vm.sub, vm.rg, vm.name)
    && claims.armId in Assigned(w.store[vm].vm)
    && claims.clientId == Assigned(w.store[vm].vm)[claims.armId].clientId
    && claims.principalId == Assigned(w.store[vm].vm)[claims.armId].principalId
    && LooseKey(claims.armId).Some? && LooseKey(claims.armId).value in w.store
  }

  lemma IssuedVouches(w: World, q: TokenQuery, pick: string, now: int, c: Codec)
    requires Typed(w.store) && Mirrored(w.store)
    ensures var r := Attest(w, q, pick, now, c).1;
            r.Issued? ==>
              && SecretKey(q.secret) in w.store && w.store[SecretKey(q.secret)].SecretVal?
              && Vouches(w, q.secret, w.store[SecretKey(q.secret)].owner, r.claims)
              && r.token == c.jwt(r.claims) && r.claims.expires == (now + DAY) / SECOND
  {
    var k := SecretKey(q.secret);
    if k in w.store {
      assert OwnerOf(w.store, q.secret).Some? && WellFiled(k, w.store[k]);
      var owner := OwnerOf(w.store, q.secret).value;
      assert WellFiled(owner, w.store[owner]);
      assert SecretOf(w.store, owner) == q.secret;
      hide Typed, Mirrored, LooseKey, VmArmId;
    }
  }

  /** A secret opens the token endpoint exactly while a VM holds it. */
  lemma SecretIsKnownIff(w: World, q: TokenQuery, pick: string, now: int, c: Codec)
    requires Typed(w.store) && Mirrored(w.store) && q.secret != ""
    ensures Attest(w, q, pick, now, c).1 != Unauthorized <==>
              exists k :: k in w.store && k.VmKey? && SecretOf(w.store, k) == q.secret
  {
    var x := SecretKey(q.secret);
    if x in w.store {
      assert OwnerOf(w.store, q.secret).Some? && WellFiled(x, w.store[x]);
      var owner := OwnerOf(w.store, q.secret).value;
      assert WellFiled(owner, w.store[owner]);
    }
    if k :| k in w.store && k.VmKey? && SecretOf(w.store, k) == q.secret {
      assert OwnerOf(w.store, SecretOf(w.store, k)) == Some(k);
    }
    hide Typed, Mirrored, LooseKey, VmArmId;
  }
}
