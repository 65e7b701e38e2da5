/** ARM ids of managed identities. The VM service and the token endpoint each have
    a parser; they must name the same store entry. */
module ArmIds {
  import opened Text
  import opened Keys
  import opened Options

  function ArmWords(sub: string, rg: string, provider: string, kind: string, name: string): seq<string> {
    ["subscriptions", sub, "resourceGroups", rg, "providers", provider, kind, name]
  }

  // "/subscriptions/<sub>/resourceGroups/<rg>/providers/<provider>/<kind>/<name>"
  function ArmId(sub: string, rg: string, provider: string, kind: string, name: string): string {
    "/" + Join(ArmWords(sub, rg, provider, kind, name), "/")
  }

  function IdentityArmId(sub: string, rg: string, name: string): string {
    ArmId(sub, rg, "Microsoft.ManagedIdentity", "userAssignedIdentities", name)
  }

  function VmArmId(sub: string, rg: string, name: string): string {
    ArmId(sub, rg, "Microsoft.Compute", "virtualMachines", name)
  }

  // identityStoreKeyFromARMID in the VM package.
  function StrictKey(armId: string): (r: Option<Key>)
    ensures r.Some? ==> r.value.IdentityKey?
  {
    var parts := Split(Trim(armId, '/'), '/');
    if |parts| != 8
       || !EqualFold(parts[0], "subscriptions")
       || !EqualFold(parts[2], "resourceGroups")
       || !EqualFold(parts[4], "providers")
       || !EqualFold(parts[5], "Microsoft.ManagedIdentity")
       || !EqualFold(parts[6], "userAssignedIdentities")
    then None
    else Some(IdentityKey(parts[1], parts[3], parts[7]))
  }

  // identityKeyFromARMID in the identity package: it only counts the parts.
  function LooseKey(armId: string): (r: Option<Key>)
    ensures r.Some? ==> r.value.IdentityKey?
  {
    var parts := Split(Trim(armId, '/'), '/');
    if |parts| != 8 then None else Some(IdentityKey(parts[1], parts[3], parts[7]))
  }

  lemma TrimmedEnds(body: string)
    requires body != "" && body[0] != '/' && body[|body| - 1] != '/'
    ensures Trim("/" + body, '/') == body && Trim("/" + body + "/", '/') == body
  {
    assert ("/" + body)[1..] == body && ("/" + body + "/")[1..] == body + "/";
    assert TrimLeft(body, '/') == body && TrimLeft(body + "/", '/') == body + "/";
    assert (body + "/")[..|body|] == body;
    assert TrimRight(body, '/') == body && TrimRight(body + "/", '/') == TrimRight(body, '/');
  }

  lemma PathWithLast(ws: seq<string>)
    requires |ws| >= 2 && forall w :: w in ws ==> '/' !in w
    requires ws[0] != "" && ws[|ws| - 1] != ""
    ensures Split(Trim("/" + Join(ws, "/"), '/'), '/') == ws
  {
    JoinEnds(ws);
    TrimmedEnds(Join(ws, "/"));
    SplitJoin(ws, '/');
    hide Split, Trim, Join;
  }

  lemma PathWithoutLast(ws: seq<string>)
    requires |ws| >= 2 && forall w :: w in ws ==> '/' !in w
    requires ws[0] != "" && ws[|ws| - 2] != "" && ws[|ws| - 1] == ""
    ensures Split(Trim("/" + Join(ws, "/"), '/'), '/') == ws[..|ws| - 1]
  {
    var init := ws[..|ws| - 1];
    assert init[|init| - 1] == ws[|ws| - 2] && init[0] == ws[0];
    hide Split, Trim, Join;
    JoinEnds(init);
    TrimmedEnds(Join(init, "/"));
    SplitJoin(init, '/');
    JoinNothing(ws);
    assert "/" + Join(ws, "/") == "/" + Join(init, "/") + "/";
  }

  lemma JoinNothing(ws: seq<string>)
    requires |ws| >= 2 && ws[|ws| - 1] == ""
    ensures Join(ws, "/") == Join(ws[..|ws| - 1], "/") + "/"
  {
    var init := ws[..|ws| - 1];
    assert ws == init + [""];
    assert Join([""], "/") == "";
    hide Join;
    JoinConcat(init, [""], "/");
    assert Join(init, "/") + "/" + "" == Join(init, "/") + "/";
  }

  // A printed path is recovered word by word unless its last word is empty: then
  // trimming eats the trailing slash and the word is lost.
  lemma PathRoundTrip(ws: seq<string>)
    requires |ws| >= 2 && forall w :: w in ws ==> '/' !in w
    requires ws[0] != "" && ws[|ws| - 2] != ""
    ensures Split(Trim("/" + Join(ws, "/"), '/'), '/') == if ws[|ws| - 1] != "" then ws else ws[..|ws| - 1]
  {
    if ws[|ws| - 1] != "" { PathWithLast(ws); } else { PathWithoutLast(ws); }
  }

  lemma JoinEnds(ws: seq<string>)
    requires |ws| > 0 && forall w :: w in ws ==> '/' !in w
    requires ws[0] != "" && ws[|ws| - 1] != ""
    ensures var s := Join(ws, "/"); s != "" && s[0] != '/' && s[|s| - 1] != '/'
  {
    assert ws[0] in ws && ws[|ws| - 1] in ws;
    if |ws| > 1 {
      var n := |ws| - 1;
      JoinConcat(ws[..n], [ws[n]], "/");
      assert ws == ws[..n] + [ws[n]];
      JoinConcat([ws[0]], ws[1..], "/");
      assert ws == [ws[0]] + ws[1..];
    }
  }

  /** Printing an identity's ARM id and parsing it gives the identity's key back if
      and only if the name is not empty. */
  lemma ArmIdRoundTrip(sub: string, rg: string, name: string)
    requires '/' !in sub && '/' !in rg && '/' !in name
    ensures StrictKey(IdentityArmId(sub, rg, name)) == Some(IdentityKey(sub, rg, name)) <==> name != ""
  {
    PathRoundTrip(ArmWords(sub, rg, "Microsoft.ManagedIdentity", "userAssignedIdentities", name));
  }

  /** The token endpoint finds every identity the VM service accepted, under the same key. */
  lemma ParsersAgree(armId: string)
    ensures StrictKey(armId).Some? ==> LooseKey(armId) == StrictKey(armId)
    ensures LooseKey(armId).Some? <==> |Split(Trim(armId, '/'), '/')| == 8
  {
  }

  // The five fixed words of an identity's id, in any case of letters.
  predicate FixedWords(ws: seq<string>) {
    && |ws| == 8
    && EqualFold(ws[0], "subscriptions") && EqualFold(ws[2], "resourceGroups") && EqualFold(ws[4], "providers")
    && EqualFold(ws[5], "Microsoft.ManagedIdentity") && EqualFold(ws[6], "userAssignedIdentities")
  }

  // The path made of ws.
  predicate Spells(path: string, ws: seq<string>) {
    path == Join(ws, "/") && forall w :: w in ws ==> '/' !in w
  }

  // It is the path of identity k.
  predicate IdentityPath(path: string, ws: seq<string>, k: Key) {
    FixedWords(ws) && Spells(path, ws) && k == IdentityKey(ws[1], ws[3], ws[7])
  }

  /** A text is accepted as the id of identity k if and only if between any slashes around it
      it is the path with k's words and the fixed ones, these in any case of letters. */
  lemma StrictKeyIff(armId: string, k: Key)
    ensures StrictKey(armId) == Some(k) <==> exists ws: seq<string> :: IdentityPath(Trim(armId, '/'), ws, k)
  {
    var ws := Split(Trim(armId, '/'), '/');
    JoinSplit(Trim(armId, '/'), '/');
    SplitPieces(Trim(armId, '/'), '/');
    hide Trim, EqualFold, Split, Join;
    if StrictKey(armId) == Some(k) { assert IdentityPath(Trim(armId, '/'), ws, k); }
    if vs: seq<string> :| IdentityPath(Trim(armId, '/'), vs, k) {
      SplitJoin(vs, '/');
      assert ws == vs;
    }
  }

  /** The other parser takes any eight words between slashes for an identity's id. */
  lemma LooseKeyIff(armId: string, k: Key)
    ensures LooseKey(armId) == Some(k) <==>
      exists ws: seq<string> :: |ws| == 8 && Spells(Trim(armId, '/'), ws) && k == IdentityKey(ws[1], ws[3], ws[7])
  {
    var ws := Split(Trim(armId, '/'), '/');
    JoinSplit(Trim(armId, '/'), '/');
    SplitPieces(Trim(armId, '/'), '/');
    hide Trim, Split, Join;
    if LooseKey(armId) == Some(k) { assert Spells(Trim(armId, '/'), ws); }
    if vs: seq<string> :| |vs| == 8 && Spells(Trim(armId, '/'), vs) && k == IdentityKey(vs[1], vs[3], vs[7]) {
      SplitJoin(vs, '/');
      assert ws == vs;
    }
  }
}
