/** The managed-identity handlers: the ARM resource, the token endpoint, introspection. */
module IdentityHandlers {
  import opened Options
  import opened Keys
  import opened ArmIds
  import opened Keyed
  import opened Worlds
  import opened IdentitySpec
  import opened Machines
  import opened VmHandlers

  class IdentityHandler {
    const m: Machine
    const codec: Codec

    constructor (m: Machine, codec: Codec)
      ensures this.m == m && this.codec == codec
    {
      this.m, this.codec := m, codec;
    }

    method CreateOrUpdateIdentity(sub: string, rg: string, name: string, minted: Assignment) returns (reply: Reply)
      requires m.Valid()
      modifies m.store, m.store.flat
      ensures (m.State(), reply) == PutIdentity(old(m.State()), sub, rg, name, minted)
      ensures m.InStep() && (m.Valid() <==> reply == RgNotFound || ':' !in name)
    {
      m.ValidInStep();
      var group := m.store.Exists(RgKey(sub, rg));
      if !group { return RgNotFound; }
      var key := IdentityKey(sub, rg, name);
      AllClean(m.store.view, m.store.flat.data);
      if RgKey(sub, rg) in m.store.view { IdentityCleanIff(m.store.view, sub, rg, name); }
      hide Represents, Mirrors, Clean;
      var v := m.store.Get(key);
      // The ids of an existing identity are stable.
      var ids := if v.Found? && v.value.IdVal? then v.value.id else minted;
      m.File(key, IdVal(ids));
      reply := if v.Found? then Success else Created;
    }

    method RemoveIdentity(sub: string, rg: string, name: string) returns (reply: Reply)
      requires m.Valid()
      modifies m.store, m.store.flat
      ensures m.Valid() && (m.State(), reply) == DeleteIdentity(old(m.State()), sub, rg, name)
    {
      hide Represents;
      var key := IdentityKey(sub, rg, name);
      var removed := m.store.Delete(key);
      if !removed {
        assert old(m.store.view) - {key} == old(m.store.view);
        return NotFound;
      }
      reply := NoContent;
    }

    // The assignment a request names. Each loop keeps the last match it meets.
    method Choose(q: TokenQuery, roster: map<string, Assignment>) returns (pick: Option<string>)
      ensures pick.Some? <==> Selectable(q, roster)
      ensures pick.Some? ==> pick.value in roster && Matches(q, pick.value, roster[pick.value])
    {
      if q.resId == "" && q.clientId == "" && |roster| != 1 {
        return None;
      }
      pick := None;
      var todo := roster.Keys;
      while todo != {}
        invariant todo <= roster.Keys
        invariant pick.Some? ==> pick.value in roster && Matches(q, pick.value, roster[pick.value])
        invariant pick.None? ==> forall id :: id in roster && id !in todo ==> !Matches(q, id, roster[id])
      {
        var id :| id in todo;
        todo := todo - {id};
        if Matches(q, id, roster[id]) { pick := Some(id); }
      }
    }

    method GetToken(q: TokenQuery, now: int) returns (reply: TokenReply, ghost pick: string)
      requires m.Valid() && forall t :: ':' !in codec.hash(t)
      modifies m.store, m.store.flat
      ensures m.Valid() && (m.State(), reply) == Attest(old(m.State()), q, pick, now, codec)
      ensures q.secret != "" ==> Pickable(old(m.State()), q, pick)
    {
      hide Represents, LooseKey;
      pick := "";
      if q.secret == "" { return HostToken, pick; }
      var index := m.store.Get(SecretKey(q.secret));
      if index.Missing? || !index.value.SecretVal? { return Unauthorized, pick; }
      var owner := index.value.owner;
      var holder := m.store.Get(owner);
      if holder.Missing? || !holder.value.VmVal? { return Unauthorized, pick; }
      var vm := holder.value.vm;
      var roster := if vm.identity.Some? then vm.identity.value else map[];
      var chosen := Choose(q, roster);
      if chosen.None? { return Refused, pick; }
      pick := chosen.value;
      var identity := LooseKey(chosen.value);
      if identity.None? { return Refused, pick; }
      var exists_ := m.store.Exists(identity.value);
      if !exists_ { return Refused, pick; }
      var claims := ClaimsFor(vm, chosen.value, roster[chosen.value], q.resource, now);
      var token := codec.jwt(claims);
      assert Clean(TokenKey(codec.hash(token)));
      m.store.Set(TokenKey(codec.hash(token)), TokenVal(TokenRec(chosen.value, vm.id, claims.clientId, claims.expires)));
      return Issued(token, claims), pick;
    }

    method IntrospectToken(token: string, now: int) returns (reply: Introspection)
      requires m.Valid()
      modifies m.store, m.store.flat
      ensures m.Valid() && (m.State(), reply) == Introspect(old(m.State()), token, now, codec)
    {
      hide Represents;
      if token == "" { return Malformed; }
      var key := TokenKey(codec.hash(token));
      var v := m.store.Get(key);
      if v.Missing? || !v.value.TokenVal? { return Inactive; }
      if now > v.value.token.expiresOn * SECOND {
        var _ := m.store.Delete(key);
        return Inactive;
      }
      reply := Active(v.value.token);
    }
  }

  lemma IdentityCleanIff(view: map<Key, Value>, sub: string, rg: string, name: string)
    requires forall k :: k in view ==> Clean(k)
    requires RgKey(sub, rg) in view
    ensures Clean(IdentityKey(sub, rg, name)) <==> ':' !in name
  {
    var w, x := Segs(RgKey(sub, rg)), Segs(IdentityKey(sub, rg, name));
    assert Clean(RgKey(sub, rg));
    assert w[1] in w && w[2] in w && x[4] in x;
  }
}
