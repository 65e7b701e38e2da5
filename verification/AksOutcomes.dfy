/** What a cluster or group request answers and what is found afterwards, told from the
    outside. */
module AksOutcomes {
  import opened Options
  import opened Keys
  import opened Worlds
  import opened VmSpec
  import opened IdentitySpec
  import opened AksSpec
  import opened GroupSpec
  import opened Invariant
  import opened Operations

  /** With k3s a cluster PUT succeeds exactly when its node gets a port, runs and becomes
      ready: then the node runs and the record names it. Otherwise no record changes. */
  lemma PutClusterOutcome(w: World, digest: string -> string, sub: string, rg: string, name: string, parsed: bool, env: Env)
    requires w.realMode
    ensures var (w', reply) := PutCluster(w, digest, sub, rg, name, parsed, env);
      var k, x, up := ClusterKey(sub, rg, name), AksContainer(digest, sub, rg, name), env.portOk && env.runOk && env.readyOk;
      && reply == (if !ClusterName(name) || !parsed then BadRequest
                   else if !up then BackendFailed
                   else if k in w.store then Success else Created)
      && (reply == BadRequest ==> w' == w)
      && (reply == BackendFailed ==> w'.store == w.store)
      && (reply in {Success, Created} ==>
            && w'.store == w.store[k := ClusterVal(Some(x))]
            && x in w'.containers && w'.containers[x])
      && (forall y :: y != x ==> (y in w'.containers <==> y in w.containers) && (y in w.containers ==> w'.containers[y] == w.containers[y]))
  {
    hide AksContainer, ClusterName;
  }

  /** Without k3s it succeeds for every good request and writes a record without a node. */
  lemma PutStubOutcome(w: World, digest: string -> string, sub: string, rg: string, name: string, parsed: bool, env: Env)
    requires !w.realMode
    ensures var (w', reply) := PutCluster(w, digest, sub, rg, name, parsed, env);
      var k := ClusterKey(sub, rg, name);
      && reply == (if !ClusterName(name) || !parsed then BadRequest else if k in w.store then Success else Created)
      && w' == if reply == BadRequest then w else w.(store := w.store[k := ClusterVal(None)])
  {
    hide AksContainer, ClusterName;
  }

  /** DELETE finds exactly the stored clusters; the record goes, and with k3s the node it names. */
  lemma DeleteClusterOutcome(w: World, k: Key)
    requires k.ClusterKey? && Typed(w.store)
    ensures var (w', reply) := DeleteCluster(w, k.sub, k.rg, k.name);
      && reply == (if k in w.store then NoContent else NotFound)
      && (k !in w.store ==> w' == w)
      && (k in w.store ==>
            && w.store[k].ClusterVal?
            && w' == w.(store := w.store - {k}, containers := w'.containers)
            && forall x :: (x in w'.containers <==> x in w.containers && !(w.realMode && x != "" && w.store[k].handle == Some(x)))
                 && (x in w'.containers ==> w'.containers[x] == w.containers[x]))
  {
    if k in w.store { assert WellFiled(k, w.store[k]); }
    hide KindOf, Typed, WellFiled;
  }

  // ---- Names ----

  // A character of a container's name: letters in lower case, what Docker does not allow as '_'.
  function NameChar(c: char): char {
    if 'A' <= c <= 'Z' then c + 32 as char
    else if Alphanumeric(c) || c in {'-', '_', '.'} then c
    else '_'
  }

  /** Sanitizing rewrites each character for itself, after an 'x' when the first is one of
      "-_.". */
  lemma {:induction false} SanitizedAt(s: string)
    requires s != ""
    ensures SanitizeDockerName(s) == (if s[0] in {'-', '_', '.'} then "x" else "") + seq(|s|, i requires 0 <= i < |s| => NameChar(s[i]))
    decreases |s|
  {
    var init, last := s[..|s| - 1], s[|s| - 1];
    SanitizedSnoc(s);
    if |s| == 1 {
      assert Sanitized(init) == "" && seq(|s|, i requires 0 <= i < |s| => NameChar(s[i])) == [NameChar(last)];
    } else {
      SanitizedAt(init);
      assert init[0] == s[0];
      assert SanitizedChar(last, false) == [NameChar(last)];
      var a := seq(|init|, i requires 0 <= i < |init| => NameChar(init[i]));
      assert seq(|s|, i requires 0 <= i < |s| => NameChar(s[i])) == a + [NameChar(last)];
    }
    hide SanitizedChar, Sanitized, NameChar;
  }

  /** A cluster's container name says its name, which may be 63 characters, and ends in the digest. */
  lemma ContainerNameFits(digest: string -> string, sub: string, rg: string, name: string)
    requires ClusterName(name)
    ensures var x, d := AksContainer(digest, sub, rg, name), digest(sub + ":" + rg + ":" + name);
      && |x| == |name| + |d| + 14 && |name| <= 63
      && x[..13] == "miniblue-aks-" && x[|x| - |d|..] == d
      && forall i :: 0 <= i < |name| ==> x[13 + i] == NameChar(name[i])
  {
    SanitizedAt(name);
    hide SanitizeDockerName, NameChar;
    var r := SanitizeDockerName(name);
    assert |r| == |name| && |"miniblue-aks-"| == 13;
  }

  // ---- Groups ----

  /** A group is stored under the location asked for; a body without one is refused. */
  lemma PutGroupOutcome(w: World, sub: string, rg: string, location: Option<string>)
    ensures var (w', reply) := PutGroup(w, sub, rg, location);
      var k := RgKey(sub, rg);
      && reply == (if location.None? || location.value == "" then BadRequest else if k in w.store then Success else Created)
      && (reply == BadRequest ==> w' == w)
      && (reply != BadRequest ==>
            && w' == w.(store := w'.store)
            && k in w'.store && w'.store[k] == RgVal(location.value)
            && forall j :: j != k ==> (j in w'.store <==> j in w.store) && (j in w.store ==> w'.store[j] == w.store[j]))
  {
  }

  /** DELETE finds exactly the stored groups. The cascade asks for Docker at most once in the
      life of the process, and never where Docker is disabled. */
  lemma DeleteGroupOutcome(w: World, sub: string, rg: string, env: Env)
    ensures var (w', reply) := DeleteGroup(w, sub, rg, env);
      && reply == (if RgKey(sub, rg) in w.store then Accepted else NotFound)
      && RgKey(sub, rg) !in w'.store
      && (reply == NotFound ==> w' == w)
      && (reply == Accepted ==> w'.probe == if w.disabled || w.probe.Some? then w.probe else Some(env.probe))
    ensures Probed(w, env).0 <==> !w.disabled && (if w.probe.Some? then w.probe.value else env.probe)
  {
    hide Handles, ClustersIn, SvcContainersIn, VmContainersIn, VmNetworksIn, InCascade, SecretsIn;
  }

  // ---- The cascade's one probe ----

  ghost predicate SameProbe(w: World, w': World) {
    w'.disabled == w.disabled && w'.probe == w.probe
  }

  lemma VmOpKeepsProbe(c: Config, w: World, op: Op, now: int)
    requires VmOp(op)
    ensures SameProbe(w, Effect(c, w, op, now))
  {
    hide PutVm, DeleteVm, Power, PutService;
    match op {
      case PutVmOp(a, e) => PutVmProbe(w, a, e);
      case DeleteVmOp(s, r, n) => DeleteVmProbe(w, s, r, n);
      case PowerOp(s, r, n, a, e) => PowerProbe(w, s, r, n, a, e);
      case PutServiceOp(a, e) => PutServiceProbe(w, a, e);
      case _ => hide Refreshed, RefreshedSvc;
    }
  }

  lemma PutVmProbe(w: World, a: VmArgs, env: Env)
    ensures SameProbe(w, PutVm(w, a, env).0)
  {
    hide VmContainer, VmNetwork, ResolveIdentity, UpdatedVm, WithVm, Ran;
  }

  lemma DeleteVmProbe(w: World, sub: string, rg: string, name: string)
    ensures SameProbe(w, DeleteVm(w, sub, rg, name).0)
  {
    hide VmContainer, VmNetwork, SvcContainers, Services;
  }

  lemma PowerProbe(w: World, sub: string, rg: string, name: string, action: Action, env: Env)
    ensures SameProbe(w, Power(w, sub, rg, name, action, env).0)
  {
    hide VmContainer, SvcContainers, Services, Refreshed, Acted, Succeeds, Idle;
  }

  lemma PutServiceProbe(w: World, a: SvcArgs, env: Env)
    ensures SameProbe(w, PutService(w, a, env).0)
  {
    hide SvcContainer, Refreshed, Conflict, ServiceName, NewSvc, Ran;
  }

  lemma OtherOpKeepsProbe(c: Config, w: World, op: Op, now: int)
    requires !VmOp(op) && !op.DeleteGroupOp?
    ensures SameProbe(w, Effect(c, w, op, now))
  {
    hide Handles, Orphans, AksContainer, ClusterName, ClaimsFor, Selectable, Matches;
  }

  /** Whether the cascade reaches Docker is settled by its first run: what the probe said
      then, it says in every later state; where Docker is disabled it is never asked. */
  lemma {:induction false} ProbeIsFinal(c: Config, s: Sys, ops: seq<(Op, int)>, env: Env)
    ensures var w := Run(c, s, ops).w;
      && (s.w.disabled ==> w.probe == s.w.probe && !Probed(w, env).0)
      && (!s.w.disabled && s.w.probe.Some? ==> Probed(w, env) == (s.w.probe.value, s.w.probe))
    decreases |ops|
  {
    if ops != [] {
      var op, now := ops[0].0, ops[0].1;
      if VmOp(op) { VmOpKeepsProbe(c, s.w, op, now); }
      else if op.DeleteGroupOp? { DeleteGroupOutcome(s.w, op.sub, op.rg, op.env); }
      else { OtherOpKeepsProbe(c, s.w, op, now); }
      assert Step(c, s, ops[0].0, ops[0].1).w == Effect(c, s.w, ops[0].0, ops[0].1);
      hide Effect, Probed, Step;
      ProbeIsFinal(c, Step(c, s, ops[0].0, ops[0].1), ops[1..], env);
    }
  }
}
