/** What managed-identity requests and the token endpoint do to the World. */
module IdentitySpec {
  import opened Text
  import opened Keys
  import opened Worlds
  import opened ArmIds

  function PutIdentity(w: World, sub: string, rg: string, name: string, minted: Assignment): (World, Reply) {
    var k := IdentityKey(sub, rg, name);
    if RgKey(sub, rg) !in w.store then (w, RgNotFound)
    else if k in w.store then (w.(store := w.store[k := IdVal(if w.store[k].IdVal? then w.store[k].id else minted)]), Success)
    else (w.(store := w.store[k := IdVal(minted)]), Created)
  }

  function DeleteIdentity(w: World, sub: string, rg: string, name: string): (World, Reply) {
    var k := IdentityKey(sub, rg, name);
    if k !in w.store then (w, NotFound) else (w.(store := w.store - {k}), NoContent)
  }

  // ---- Tokens ----

  const SECOND: int := 1_000_000_000
  const DAY: int := 86_400 * SECOND

  datatype Claims = Claims(principalId: string, clientId: string, armId: string, vmId: string,
                           resource: string, issuedAt: int, expires: int)

  /** buildMockJWT and tokenHash: how a claim set is printed, and the SHA-256 digest
      under which the token is filed. */
  datatype Codec = Codec(jwt: Claims -> string, hash: string -> string)

  ghost predicate Faithful(c: Codec) {
    && (forall x, y :: c.jwt(x) == c.jwt(y) ==> x == y)
    && (forall x, y :: c.hash(x) == c.hash(y) ==> x == y)
    && (forall x :: ':' !in c.hash(x))
  }

  // The query: header secret, mi_res_id, client_id, resource.
  datatype TokenQuery = TokenQuery(secret: string, resId: string, clientId: string, resource: string)

  datatype TokenReply = HostToken | Unauthorized | Refused | Issued(token: string, claims: Claims)

  predicate Matches(q: TokenQuery, id: string, a: Assignment) {
    if q.resId != "" then EqualFold(id, q.resId)
    else if q.clientId != "" then EqualFold(a.clientId, q.clientId)
    else true
  }

  function Assigned(vm: VmRec): map<string, Assignment> {
    if vm.identity.Some? then vm.identity.value else map[]
  }

  predicate Selectable(q: TokenQuery, roster: map<string, Assignment>) {
    && (exists id :: id in roster && Matches(q, id, roster[id]))
    && (q.resId == "" && q.clientId == "" ==> |roster| == 1)
  }

  function ClaimsFor(vm: VmRec, id: string, a: Assignment, resource: string, now: int): Claims {
    Claims(a.principalId, a.clientId, id, vm.id, if resource == "" then "https://management.azure.com/" else resource,
           now / SECOND, (now + DAY) / SECOND)
  }

  // Where the choice can end: on a matching assignment, whenever there is one to choose.
  predicate Pickable(w: World, q: TokenQuery, pick: string) {
    var index := SecretKey(q.secret);
    index in w.store && w.store[index].SecretVal? && w.store[index].owner in w.store && w.store[w.store[index].owner].VmVal? ==>
      var roster := Assigned(w.store[w.store[index].owner].vm);
      Selectable(q, roster) ==> pick in roster && Matches(q, pick, roster[pick])
  }

  /** pick is the matching assignment the map iteration ended on: Go does not say
      which, so the request may end in any of them. */
  function Attest(w: World, q: TokenQuery, pick: string, now: int, c: Codec): (World, TokenReply) {
    var index := SecretKey(q.secret);
    if q.secret == "" then (w, HostToken)
    else if index !in w.store || !w.store[index].SecretVal? then (w, Unauthorized)
    else
      var owner := w.store[index].owner;
      if owner !in w.store || !w.store[owner].VmVal? then (w, Unauthorized)
      else
        var vm := w.store[owner].vm;
        var roster := Assigned(vm);
        if !Selectable(q, roster) || pick !in roster || !Matches(q, pick, roster[pick]) then (w, Refused)
        else if LooseKey(pick).None? || LooseKey(pick).value !in w.store then (w, Refused)
        else
          var claims := ClaimsFor(vm, pick, roster[pick], q.resource, now);
          var token := c.jwt(claims);
          var rec := TokenRec(pick, vm.id, claims.clientId, claims.expires);
          (w.(store := w.store[TokenKey(c.hash(token)) := TokenVal(rec)]), Issued(token, claims))
  }

  datatype Introspection = Malformed | Inactive | Active(token: TokenRec)

  function Introspect(w: World, token: string, now: int, c: Codec): (World, Introspection) {
    var k := TokenKey(c.hash(token));
    if token == "" then (w, Malformed)
    else if k !in w.store || !w.store[k].TokenVal? then (w, Inactive)
    else if now > w.store[k].token.expiresOn * SECOND then (w.(store := w.store - {k}), Inactive)
    else (w, Active(w.store[k].token))
  }
}
