/** The AKS handlers, the cascade's cluster clean-up and the start-up reaping. */
module AksHandlers {
  import opened Options
  import opened Text
  import opened Keys
  import opened Keyed
  import opened Worlds
  import opened AksSpec
  import opened Machines

  // sanitizeDockerName builds the name rune by rune.
  method Sanitize(s: string) returns (r: string)
    ensures r == SanitizeDockerName(s)
  {
    if s == "" { return "x"; }
    r := "";
    for i := 0 to |s|
      invariant r == Sanitized(s[..i])
    {
      assert s[..i + 1][..i] == s[..i];
      r := r + SanitizedChar(s[i], i == 0);
    }
    assert s[..|s|] == s;
  }

  class AksHandler {
    const m: Machine
    const digest: string -> string

    constructor (m: Machine, digest: string -> string)
      ensures this.m == m && this.digest == digest
    {
      this.m, this.digest := m, digest;
    }

    // k3sBackend.Create
    method Create(sub: string, rg: string, name: string, env: Env) returns (up: bool, c: string)
      modifies m.docker`containers
      ensures c == AksContainer(digest, sub, rg, name)
      ensures (m.State(), up) == Launch(old(m.State()), c, env)
    {
      var readable := Sanitize(name);
      c := "miniblue-aks-" + readable + "-" + digest(sub + ":" + rg + ":" + name);
      m.docker.Remove(c);
      if !env.portOk { return false, c; }
      up := m.docker.Run(c, env.runOk, env.leftover);
      if !up { return false, c; }
      if !env.readyOk {
        m.docker.Remove(c);
        assert m.docker.containers == old(m.docker.containers) - {c};
        return false, c;
      }
    }

    method CreateOrUpdateCluster(sub: string, rg: string, name: string, parsed: bool, env: Env) returns (reply: Reply)
      requires m.Valid()
      modifies m.store, m.store.flat, m.docker
      ensures (m.State(), reply) == PutCluster(old(m.State()), digest, sub, rg, name, parsed, env)
      ensures m.InStep() && (m.Valid() <==> reply in {BadRequest, BackendFailed} || (':' !in sub && ':' !in rg))
    {
      m.ValidInStep();
      hide Represents, Mirrors, ClusterName, AksContainer;
      if !ClusterName(name) { return BadRequest; }
      if !parsed { return BadRequest; }
      ClusterCleanIff(sub, rg, name);
      hide Clean;
      var key := ClusterKey(sub, rg, name);
      var there := m.store.Exists(key);
      var handle: Option<string> := None;
      if m.realMode {
        var up, c := Create(sub, rg, name, env);
        if !up { return BackendFailed; }
        handle := Some(c);
      }
      m.File(key, ClusterVal(handle));
      reply := if there then Success else Created;
    }

    method RemoveCluster(sub: string, rg: string, name: string) returns (reply: Reply)
      requires m.Valid()
      modifies m.store, m.store.flat, m.docker
      ensures m.Valid() && (m.State(), reply) == DeleteCluster(old(m.State()), sub, rg, name)
    {
      hide Represents;
      var key := ClusterKey(sub, rg, name);
      var v := m.store.Get(key);
      if v.Missing? { return NotFound; }
      var handle := Handle(v.value);
      if m.realMode && handle.Some? { m.docker.Remove(handle.value); }
      var _ := m.store.Delete(key);
      reply := NoContent;
    }

    // Every delete runs on its own; those in late had not finished at the deadline.
    method ShutDown(late: set<string>)
      requires m.Valid()
      modifies m.docker`containers
      ensures m.State() == Shutdown(old(m.State()), late)
    {
      if !m.realMode { return; }
      var items := m.RecordsUnder(["aks", "cluster"]);
      UnderAll(m.store.view, m.store.flat.data);
      hide Represents, Under;
      for i := 0 to |items|
        invariant m.docker.containers == old(m.docker.containers) - (HandlesOf(items[..i]) - late)
      {
        assert items[..i + 1] == items[..i] + [items[i]];
        var h := Handle(items[i]);
        if h.Some? && h.value !in late { m.docker.Remove(h.value); }
      }
      assert items[..|items|] == items;
      SameHandles(m.store.view, Clusters(m.store.view), items);
    }

    // reapOrphans: docker ps lists the k3s containers in any order.
    method ReapOrphans(listed: bool)
      requires m.Valid()
      modifies m.docker`containers
      ensures m.State() == Reap(old(m.State()), listed)
    {
      var items := m.RecordsUnder(["aks", "cluster"]);
      UnderAll(m.store.view, m.store.flat.data);
      SameHandles(m.store.view, Clusters(m.store.view), items);
      hide Represents, Under, KindOf;
      var expected := Expected(items);
      if !listed { return; }
      var names := set c | c in m.docker.containers && KindOf(c) == AksKind;
      assert names - expected == Orphans(m.State());
      RemoveUnexpected(names, expected);
    }

    method RemoveUnexpected(names: set<string>, expected: set<string>)
      modifies m.docker`containers
      ensures m.docker.containers == old(m.docker.containers) - (names - expected)
    {
      var todo := names;
      while todo != {}
        invariant todo <= names
        invariant m.docker.containers == old(m.docker.containers) - (names - todo - expected)
      {
        var c :| c in todo;
        todo := todo - {c};
        if c !in expected { m.docker.Remove(c); }
      }
      assert names - {} == names;
    }
  }

  // The container names the records hold.
  method Expected(items: seq<Value>) returns (expected: set<string>)
    ensures expected == HandlesOf(items)
  {
    expected := {};
    for i := 0 to |items|
      invariant expected == HandlesOf(items[..i])
    {
      assert items[..i + 1] == items[..i] + [items[i]];
      var h := Handle(items[i]);
      if h.Some? { expected := expected + {h.value}; }
    }
    assert items[..|items|] == items;
  }

  // CleanupClustersInRG: it asks no flag, only whether there is a handle.
  method CleanupClusters(m: Machine, sub: string, rg: string)
    requires m.Valid() && ColonFree([sub, rg])
    modifies m.docker`containers
    ensures m.docker.containers == old(m.docker.containers) - Handles(m.store.view, ClustersIn(m.store.view, sub, rg))
  {
    var p := ["aks", "cluster", sub, rg];
    assert ColonFree(p) by { assert sub in [sub, rg] && rg in [sub, rg]; }
    var items := m.RecordsUnder(p);
    UnderGroup(m.store.view, m.store.flat.data, sub, rg);
    hide Represents, Under;
    for i := 0 to |items|
      invariant m.docker.containers == old(m.docker.containers) - HandlesOf(items[..i])
    {
      assert items[..i + 1] == items[..i] + [items[i]];
      var h := Handle(items[i]);
      if h.Some? { m.docker.Remove(h.value); }
    }
    assert items[..|items|] == items;
    SameHandles(m.store.view, ClustersIn(m.store.view, sub, rg), items);
  }

  ghost function HandlesOf(items: seq<Value>): set<string> {
    set v | v in items && Handle(v).Some? :: Handle(v).value
  }

  lemma SameHandles(store: map<Key, Value>, ks: set<Key>, items: seq<Value>)
    requires forall k :: k in ks ==> k in store
    requires forall v :: v in items <==> exists k :: k in ks && store[k] == v
    ensures HandlesOf(items) == Handles(store, ks)
  {
    forall h | h in Handles(store, ks) ensures h in HandlesOf(items) {
      var k :| k in ks && Handle(store[k]).Some? && Handle(store[k]).value == h;
      assert store[k] in items;
    }
  }

  lemma UnderAll(view: map<Key, Value>, data: map<string, Value>)
    requires Represents(view, data)
    ensures Under(view, ["aks", "cluster"]) == Clusters(view)
  {
    forall k | k in view ensures ProperPrefix(["aks", "cluster"], Segs(k)) <==> k.ClusterKey? {
      assert Clean(k);
      ClusterPrefix(k);
    }
  }

  lemma ClusterPrefix(k: Key)
    requires k.Other? ==> |k.segs| > 0 && !TypedHead(k.segs[0])
    ensures ProperPrefix(["aks", "cluster"], Segs(k)) <==> k.ClusterKey?
  {
    var x := Segs(k);
    if ProperPrefix(["aks", "cluster"], x) { assert x[..2][0] == x[0]; }
    if k.ClusterKey? { assert x[..2] == ["aks", "cluster"]; }
  }

  lemma UnderGroup(view: map<Key, Value>, data: map<string, Value>, sub: string, rg: string)
    requires Represents(view, data)
    ensures Under(view, ["aks", "cluster", sub, rg]) == ClustersIn(view, sub, rg)
  {
    forall k | k in view ensures ProperPrefix(["aks", "cluster", sub, rg], Segs(k)) <==> k.ClusterKey? && k.sub == sub && k.rg == rg {
      assert Clean(k);
      ClusterGroupPrefix(k, sub, rg);
    }
  }

  lemma ClusterGroupPrefix(k: Key, sub: string, rg: string)
    requires k.Other? ==> |k.segs| > 0 && !TypedHead(k.segs[0])
    ensures ProperPrefix(["aks", "cluster", sub, rg], Segs(k)) <==> k.ClusterKey? && k.sub == sub && k.rg == rg
  {
    var p, x := ["aks", "cluster", sub, rg], Segs(k);
    if ProperPrefix(p, x) { assert x[..4][0] == x[0] && x[..4][2] == x[2] && x[..4][3] == x[3]; }
    if k.ClusterKey? && k.sub == sub && k.rg == rg { assert x[..4] == p; }
  }

  lemma ClusterCleanIff(sub: string, rg: string, name: string)
    requires ClusterName(name)
    ensures Clean(ClusterKey(sub, rg, name)) <==> ':' !in sub && ':' !in rg
  {
    var x := Segs(ClusterKey(sub, rg, name));
    assert x[2] in x && x[3] in x;
  }
}
