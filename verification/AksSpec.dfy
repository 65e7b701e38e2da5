/** What the AKS requests do to the World, in real (k3s) and in stub mode. */
module AksSpec {
  import opened Options
  import opened Keys
  import opened Worlds

  // ^[a-zA-Z0-9][-_a-zA-Z0-9]{0,62}$
  predicate ClusterName(s: string) {
    && 1 <= |s| <= 63
    && Alphanumeric(s[0])
    && forall c :: c in s ==> Alphanumeric(c) || c == '-' || c == '_'
  }

  predicate Alphanumeric(c: char) {
    'a' <= c <= 'z' || 'A' <= c <= 'Z' || '0' <= c <= '9'
  }

  // sanitizeDockerName, character by character; first is the i == 0 case.
  function SanitizedChar(c: char, first: bool): string {
    if ('a' <= c <= 'z') || ('0' <= c <= '9') then [c]
    else if 'A' <= c <= 'Z' then [c + 32 as char]
    else if c == '-' || c == '_' || c == '.' then (if first then ['x', c] else [c])
    else ['_']
  }

  function Sanitized(s: string): string {
    if s == "" then "" else Sanitized(s[..|s| - 1]) + SanitizedChar(s[|s| - 1], |s| == 1)
  }

  function SanitizeDockerName(s: string): string {
    if s == "" then "x" else Sanitized(s)
  }

  // What Docker allows after the first character of a name.
  predicate LegalChar(c: char) {
    Alphanumeric(c) || c == '_' || c == '.' || c == '-'
  }

  // The characters sanitizing leaves: lower case only.
  predicate Tame(c: char) {
    LegalChar(c) && !('A' <= c <= 'Z')
  }

  lemma CharIsTame(c: char, first: bool)
    ensures var x := SanitizedChar(c, first); x != "" && forall d :: d in x ==> Tame(d)
    ensures Tame(c) && (first ==> Alphanumeric(c)) ==> SanitizedChar(c, first) == [c]
  {
  }

  lemma SanitizedSnoc(s: string)
    requires s != ""
    ensures Sanitized(s) == Sanitized(s[..|s| - 1]) + SanitizedChar(s[|s| - 1], |s| == 1)
  {
  }

  /** Sanitizing gives a non-empty text of characters Docker allows, in lower case. */
  lemma {:induction false} SanitizedIsLegal(s: string)
    ensures SanitizeDockerName(s) != ""
    ensures forall c :: c in SanitizeDockerName(s) ==> Tame(c)
    decreases |s|
  {
    if s != "" {
      SanitizedSnoc(s);
      CharIsTame(s[|s| - 1], |s| == 1);
      if |s| > 1 { SanitizedIsLegal(s[..|s| - 1]); } else { assert Sanitized(s[..0]) == ""; }
      hide SanitizedChar, Sanitized, Tame;
    }
  }

  /** A text that is one already, and does not start with punctuation, stays as it is. */
  lemma {:induction false} SanitizedKeeps(s: string)
    requires s != "" && Alphanumeric(s[0]) && forall c :: c in s ==> Tame(c)
    ensures SanitizeDockerName(s) == s
    decreases |s|
  {
    var init := s[..|s| - 1];
    assert s == init + [s[|s| - 1]];
    SanitizedSnoc(s);
    CharIsTame(s[|s| - 1], |s| == 1);
    if |s| > 1 {
      assert init[0] == s[0];
      SanitizedKeeps(init);
    } else {
      assert Sanitized(init) == "";
    }
    hide SanitizedChar, Sanitized, Tame;
  }

  /** The first character is a letter or digit exactly when the name is empty or starts with
      a letter, a digit or one of "-_.": another first character becomes '_'. */
  lemma {:induction false} SanitizedStartIff(s: string)
    ensures SanitizeDockerName(s) != ""
    ensures Alphanumeric(SanitizeDockerName(s)[0]) <==> s == "" || LegalChar(s[0])
    decreases |s|
  {
    if |s| > 1 {
      var init := s[..|s| - 1];
      SanitizedStartIff(init);
      assert SanitizeDockerName(init) == Sanitized(init) && init[0] == s[0];
      assert Sanitized(s) == Sanitized(init) + SanitizedChar(s[|s| - 1], false);
    } else if |s| == 1 {
      assert s[..0] == "" && Sanitized(s) == SanitizedChar(s[0], true);
    }
  }

  /** A cluster's own name, which creation checks first, always gives such a start. */
  lemma ClusterNameStart(name: string)
    requires ClusterName(name)
    ensures Alphanumeric(SanitizeDockerName(name)[0])
  {
    SanitizedStartIff(name);
    hide SanitizeDockerName;
  }

  /** Every k3s container's name is one Docker accepts. */
  lemma AksContainerIsLegal(digest: string -> string, sub: string, rg: string, name: string)
    requires forall c :: c in digest(sub + ":" + rg + ":" + name) ==> LegalChar(c)
    ensures var x := AksContainer(digest, sub, rg, name);
      x != "" && Alphanumeric(x[0]) && forall c :: c in x ==> LegalChar(c)
  {
    SanitizedIsLegal(name);
    assert forall c :: Tame(c) ==> LegalChar(c);
    hide SanitizeDockerName, Tame;
    assert "miniblue-aks-"[0] == 'm';
    assert forall c :: c in "miniblue-aks-" ==> LegalChar(c);
  }

  // digest: the eight hex digits kept of SHA-256("sub:rg:name"); it may collide.
  function AksContainer(digest: string -> string, sub: string, rg: string, name: string): string {
    "miniblue-aks-" + SanitizeDockerName(name) + "-" + digest(sub + ":" + rg + ":" + name)
  }

  // k3sBackend.Create: any older container of that name is gone whatever happens next.
  function Launch(w: World, c: string, env: Env): (World, bool) {
    var cleared := w.containers - {c};
    if !env.portOk then (w.(containers := cleared), false)
    else if !env.runOk then (w.(containers := Ran(cleared, c, false, env.leftover)), false)
    else if !env.readyOk then (w.(containers := cleared), false)
    else (w.(containers := cleared[c := true]), true)
  }

  // parsed: whether the request body is JSON.
  function PutCluster(w: World, digest: string -> string, sub: string, rg: string, name: string, parsed: bool, env: Env)
    : (World, Reply)
  {
    var k := ClusterKey(sub, rg, name);
    var reply := if k in w.store then Success else Created;
    var c := AksContainer(digest, sub, rg, name);
    if !ClusterName(name) || !parsed then (w, BadRequest)
    else if !w.realMode then (w.(store := w.store[k := ClusterVal(None)]), reply)
    else
      var (w', up) := Launch(w, c, env);
      if !up then (w', BackendFailed) else (w'.(store := w.store[k := ClusterVal(Some(c))]), reply)
  }

  // backendHandleFromCluster: an empty name is no handle.
  function Handle(v: Value): Option<string> {
    if v.ClusterVal? && v.handle.Some? && v.handle.value != "" then v.handle else None
  }

  function DeleteCluster(w: World, sub: string, rg: string, name: string): (World, Reply) {
    var k := ClusterKey(sub, rg, name);
    if k !in w.store then (w, NotFound)
    else
      var h := Handle(w.store[k]);
      (w.(store := w.store - {k},
          containers := if w.realMode && h.Some? then w.containers - {h.value} else w.containers), NoContent)
  }

  ghost function Handles(store: map<Key, Value>, ks: set<Key>): set<string> {
    set k | k in ks && k in store && Handle(store[k]).Some? :: Handle(store[k]).value
  }

  ghost function Clusters(store: map<Key, Value>): set<Key> {
    set k | k in store && k.ClusterKey?
  }

  ghost function ClustersIn(store: map<Key, Value>, sub: string, rg: string): set<Key> {
    set k | k in store && k.ClusterKey? && k.sub == sub && k.rg == rg
  }

  // late: the containers still being removed when the deadline passed.
  ghost function Shutdown(w: World, late: set<string>): World {
    if !w.realMode then w
    else w.(containers := w.containers - (Handles(w.store, Clusters(w.store)) - late))
  }

  ghost function Orphans(w: World): set<string> {
    set c | c in w.containers && KindOf(c) == AksKind && c !in Handles(w.store, Clusters(w.store))
  }

  // listed: whether docker ps answered.
  ghost function Reap(w: World, listed: bool): World {
    if listed then w.(containers := w.containers - Orphans(w)) else w
  }
}
