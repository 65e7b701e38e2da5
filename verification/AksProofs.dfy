/** AKS: no k3s container is ever left without a cluster record. */
module AksProofs {
  import opened Options
  import opened Keys
  import opened Worlds
  import opened AksSpec
  import opened Invariant

  // Every handle is the name its own cluster's container gets.
  ghost predicate Named(store: map<Key, Value>, digest: string -> string) {
    forall k :: k in store && k.ClusterKey? && Handle(store[k]).Some? ==>
      Handle(store[k]).value == AksContainer(digest, k.sub, k.rg, k.name)
  }

  lemma AksKindOfName(digest: string -> string, sub: string, rg: string, name: string)
    ensures KindOf(AksContainer(digest, sub, rg, name)) == AksKind
  {
    var c := AksContainer(digest, sub, rg, name);
    assert c[..13] == "miniblue-aks-";
    assert c[..12][9] == c[9] == 'a';
    assert c[9] == 'a';
    if |c| >= 15 { assert c[..15][9] == c[9]; }
  }

  // What AKS requests leave alone: every entry but the clusters, every container
  // but the k3s ones.
  ghost predicate OnlyClusters(w: World, w': World) {
    && (forall k: Key :: !k.ClusterKey? ==> (k in w.store <==> k in w'.store) && (k in w.store ==> w'.store[k] == w.store[k]))
    && (forall c :: KindOf(c) != AksKind ==> (c in w.containers <==> c in w'.containers))
    && w'.networks == w.networks
  }

  lemma OnlyClustersStore(s: map<Key, Value>, t: map<Key, Value>)
    requires Mirrored(s) && Resolves(s) && PortsApart(s)
    requires forall k: Key :: !k.ClusterKey? ==> (k in s <==> k in t) && (k in s ==> t[k] == s[k])
    ensures Mirrored(t) && Resolves(t) && PortsApart(t)
  {
    assert forall x :: OwnerOf(t, x) == OwnerOf(s, x) && (SecretKey(x) in s <==> SecretKey(x) in t);
    assert forall j: Key :: j.VmKey? ==> SecretOf(t, j) == SecretOf(s, j) && (j in t <==> j in s);
    assert forall j: Key :: j.SvcKey? ==> PortsOf(t, j) == PortsOf(s, j) && (j in t <==> j in s);
  }

  lemma OnlyClustersDistinct(s: map<Key, Value>, t: map<Key, Value>)
    requires Distinct(s)
    requires forall k: Key :: !k.ClusterKey? ==> (k in s <==> k in t)
    ensures Distinct(t)
  {
    hide VmContainer, SvcContainer;
    assert forall j: Key :: j.VmKey? || j.SvcKey? ==> (j in t <==> j in s);
  }

  lemma OnlyClustersDocker(w: World, w': World)
    requires Owns(w) && NoOrphans(w) && OnlyClusters(w, w')
    ensures Owns(w') && NoOrphans(w')
  {
    NameKinds();
    hide VmContainer, VmNetwork, SvcContainer, KindOf;
    forall k | k in w'.store && k.VmKey? ensures VmContainer(k.rg, k.name) in w'.containers {
      assert KindOf(VmContainer(k.rg, k.name)) == VmKind;
    }
    forall k | k in w'.store && k.SvcKey? ensures SvcContainer(k.rg, k.vm, k.svc) in w'.containers {
      assert KindOf(SvcContainer(k.rg, k.vm, k.svc)) == SvcKind;
    }
    forall c | VmHolds(w.store, c) ensures VmHolds(w'.store, c) {}
    forall c | NetHeld(w.store, c) ensures NetHeld(w'.store, c) {}
    forall c | SvcHolds(w.store, c) ensures SvcHolds(w'.store, c) {}
    hide VmHolds, NetHeld, SvcHolds;
  }

  lemma OnlyClustersKeep(w: World, w': World)
    requires Inv(w) && OnlyClusters(w, w') && Typed(w'.store) && ClustersHeld(w')
    ensures Inv(w')
  {
    hide Typed, Owns, NoOrphans, Distinct, Mirrored, Resolves, PortsApart, ClustersHeld;
    OnlyClustersStore(w.store, w'.store);
    OnlyClustersDistinct(w.store, w'.store);
    OnlyClustersDocker(w, w');
  }

  // ---- Requests ----

  lemma MoreHandles(s: map<Key, Value>, k: Key, c: string)
    requires k.ClusterKey? && c != ""
    ensures var t := s[k := ClusterVal(Some(c))];
            c in Handles(t, Clusters(t)) && forall h :: h in Handles(s, Clusters(s) - {k}) ==> h in Handles(t, Clusters(t))
  {
    var t := s[k := ClusterVal(Some(c))];
    assert k in Clusters(t);
    forall h | h in Handles(s, Clusters(s) - {k}) ensures h in Handles(t, Clusters(t)) {
      var j :| j in Clusters(s) - {k} && Handle(s[j]).Some? && Handle(s[j]).value == h;
      assert j in Clusters(t) && t[j] == s[j];
    }
  }

  // Only record k can hold its container's name, so giving up the container orphans nothing.
  lemma OldHandles(s: map<Key, Value>, digest: string -> string, k: Key, h: string)
    requires Named(s, digest) && k.ClusterKey? && h in Handles(s, Clusters(s)) && h != AksContainer(digest, k.sub, k.rg, k.name)
    ensures h in Handles(s, Clusters(s) - {k})
  {
    hide AksContainer;
    var j :| j in Clusters(s) && Handle(s[j]).Some? && Handle(s[j]).value == h;
    assert j != k;
  }

  lemma AksNameKind(digest: string -> string, k: Key)
    requires k.ClusterKey?
    ensures var c := AksContainer(digest, k.sub, k.rg, k.name); KindOf(c) == AksKind && c != ""
  {
    AksKindOfName(digest, k.sub, k.rg, k.name);
    assert KindOf("") == Foreign;
    hide AksContainer;
  }

  lemma TypedWith(s: map<Key, Value>, k: Key, c: string)
    requires Typed(s) && k.ClusterKey? && KindOf(c) == AksKind && c != ""
    ensures Typed(s[k := ClusterVal(Some(c))])
  {
    assert WellFiled(k, ClusterVal(Some(c)));
    hide WellFiled, KindOf;
  }

  lemma NamedWith(s: map<Key, Value>, digest: string -> string, k: Key)
    requires Named(s, digest) && k.ClusterKey?
    ensures Named(s[k := ClusterVal(Some(AksContainer(digest, k.sub, k.rg, k.name)))], digest)
  {
    hide AksContainer;
  }

  // A creation that works owns its container.
  lemma UpHeld(w: World, digest: string -> string, k: Key)
    requires ClustersHeld(w) && Named(w.store, digest) && k.ClusterKey?
    ensures var c := AksContainer(digest, k.sub, k.rg, k.name);
            ClustersHeld(w.(store := w.store[k := ClusterVal(Some(c))], containers := (w.containers - {c})[c := true]))
  {
    var c := AksContainer(digest, k.sub, k.rg, k.name);
    var t := w.store[k := ClusterVal(Some(c))];
    AksNameKind(digest, k);
    MoreHandles(w.store, k, c);
    forall h | h in Handles(w.store, Clusters(w.store)) && h != c ensures h in Handles(t, Clusters(t)) {
      OldHandles(w.store, digest, k, h);
    }
    hide AksContainer, KindOf, Handles, Named;
  }

  // One that fails leaves the records alone, so only a container left behind can be an orphan.
  lemma DownHeldIff(w: World, c: string, left: bool)
    requires ClustersHeld(w) && KindOf(c) == AksKind
    ensures ClustersHeld(w.(containers := Ran(w.containers - {c}, c, false, left)))
       <==> !(left && c !in Handles(w.store, Clusters(w.store)))
  {
    var t := Ran(w.containers - {c}, c, false, left);
    assert left ==> c in t && KindOf(c) == AksKind;
    hide KindOf, Handles;
  }

  lemma PutClusterOnly(w: World, digest: string -> string, k: Key, left: bool)
    requires k.ClusterKey?
    ensures var c := AksContainer(digest, k.sub, k.rg, k.name);
            && OnlyClusters(w, w.(store := w.store[k := ClusterVal(Some(c))], containers := (w.containers - {c})[c := true]))
            && OnlyClusters(w, w.(containers := Ran(w.containers - {c}, c, false, left)))
            && OnlyClusters(w, w.(containers := w.containers - {c}))
            && OnlyClusters(w, w.(store := w.store[k := ClusterVal(None)]))
  {
    AksNameKind(digest, k);
    hide AksContainer, KindOf;
  }

  ghost predicate NoK3s(w: World) {
    forall c :: c in w.containers ==> KindOf(c) != AksKind
  }

  // Record k alone keeps a live container from being an orphan. Without k3s the handlers
  // give up such a record without removing the container.
  ghost predicate Sole(w: World, k: Key) {
    && k in w.store && Handle(w.store[k]).Some?
    && Handle(w.store[k]).value in w.containers
    && Handle(w.store[k]).value !in Handles(w.store, Clusters(w.store) - {k})
  }

  lemma NothingSole(w: World, k: Key)
    requires Typed(w.store) && NoK3s(w) && k.ClusterKey?
    ensures !Sole(w, k)
  {
    assert k in w.store ==> WellFiled(k, w.store[k]);
    hide KindOf, WellFiled;
  }

  // Replacing or removing record k, with the containers as they are.
  lemma GivenUpIff(w: World, k: Key, t: map<Key, Value>)
    requires Typed(w.store) && ClustersHeld(w) && k.ClusterKey?
    requires forall j: Key :: j != k ==> (j in t <==> j in w.store) && (j in t ==> t[j] == w.store[j])
    requires k in t ==> Handle(t[k]).None?
    ensures ClustersHeld(w.(store := t)) <==> !Sole(w, k)
  {
    var rest := Handles(w.store, Clusters(w.store) - {k});
    assert Handles(t, Clusters(t)) == rest by {
      forall h | h in rest ensures h in Handles(t, Clusters(t)) {
        var j :| j in Clusters(w.store) - {k} && Handle(w.store[j]).Some? && Handle(w.store[j]).value == h;
        assert j in Clusters(t);
      }
      forall h | h in Handles(t, Clusters(t)) ensures h in rest {
        var j :| j in Clusters(t) && Handle(t[j]).Some? && Handle(t[j]).value == h;
        assert j in Clusters(w.store) - {k};
      }
    }
    assert k in w.store && Handle(w.store[k]).Some? ==> KindOf(Handle(w.store[k]).value) == AksKind by {
      if k in w.store { assert WellFiled(k, w.store[k]); }
    }
    forall h | h in Handles(w.store, Clusters(w.store)) ensures h in rest || (k in w.store && Handle(w.store[k]) == Some(h)) {
      var j :| j in Clusters(w.store) && Handle(w.store[j]).Some? && Handle(w.store[j]).value == h;
      assert j != k ==> j in Clusters(w.store) - {k};
    }
    hide KindOf, Handles, Typed, Handle;
  }

  lemma PutClusterStore(w: World, digest: string -> string, sub: string, rg: string, name: string, parsed: bool, env: Env)
    requires StoreInv(w.store)
    ensures StoreInv(PutCluster(w, digest, sub, rg, name, parsed, env).0.store)
  {
    var k, t := ClusterKey(sub, rg, name), PutCluster(w, digest, sub, rg, name, parsed, env).0.store;
    AksNameKind(digest, k);
    TypedWith(w.store, k, AksContainer(digest, sub, rg, name));
    assert WellFiled(k, ClusterVal(None));
    hide Mirrored, Resolves, PortsApart, WellFiled, AksContainer, ClusterName;
    assert Typed(t);
    OnlyClustersStore(w.store, t);
  }

  lemma DeleteClusterStore(w: World, sub: string, rg: string, name: string)
    requires StoreInv(w.store)
    ensures StoreInv(DeleteCluster(w, sub, rg, name).0.store)
  {
    var t := DeleteCluster(w, sub, rg, name).0.store;
    hide Mirrored, Resolves, PortsApart, WellFiled;
    assert Typed(t);
    OnlyClustersStore(w.store, t);
  }

  // A creation ends with a container no record refers to: with k3s, when docker run fails and
  // leaves one; without, when the old record was the only one to refer to its container.
  ghost predicate PutLeaves(w: World, digest: string -> string, sub: string, rg: string, name: string, parsed: bool, env: Env) {
    && ClusterName(name) && parsed
    && if w.realMode then
         env.portOk && !env.runOk && env.leftover && AksContainer(digest, sub, rg, name) !in Handles(w.store, Clusters(w.store))
       else Sole(w, ClusterKey(sub, rg, name))
  }

  lemma PutClusterNamed(w: World, digest: string -> string, sub: string, rg: string, name: string, parsed: bool, env: Env)
    requires Named(w.store, digest)
    ensures Named(PutCluster(w, digest, sub, rg, name, parsed, env).0.store, digest)
  {
    NamedWith(w.store, digest, ClusterKey(sub, rg, name));
    hide AksContainer, ClusterName;
  }

  /** Creating a cluster, in either mode and even if two clusters' names collide, leaves no
      k3s container without a record, except exactly when it leaves one in that way. */
  lemma PutClusterHoldsIff(w: World, digest: string -> string, sub: string, rg: string, name: string, parsed: bool, env: Env)
    requires Typed(w.store) && ClustersHeld(w) && Named(w.store, digest)
    ensures ClustersHeld(PutCluster(w, digest, sub, rg, name, parsed, env).0)
       <==> !PutLeaves(w, digest, sub, rg, name, parsed, env)
  {
    var k, c := ClusterKey(sub, rg, name), AksContainer(digest, sub, rg, name);
    AksNameKind(digest, k);
    UpHeld(w, digest, k);
    DownHeldIff(w, c, true);
    DownHeldIff(w, c, false);
    GivenUpIff(w, k, w.store[k := ClusterVal(None)]);
    hide ClustersHeld, AksContainer, ClusterName, Typed, Sole, Handles, KindOf;
  }

  lemma PutClusterObjects(w: World, digest: string -> string, sub: string, rg: string, name: string, parsed: bool, env: Env)
    ensures OnlyClusters(w, PutCluster(w, digest, sub, rg, name, parsed, env).0)
  {
    PutClusterOnly(w, digest, ClusterKey(sub, rg, name), env.leftover);
    hide AksContainer, ClusterName, KindOf;
  }

  /** So the whole invariant is kept exactly then. */
  lemma PutClusterKeeps(w: World, digest: string -> string, sub: string, rg: string, name: string, parsed: bool, env: Env)
    requires Inv(w) && Named(w.store, digest)
    ensures Inv(PutCluster(w, digest, sub, rg, name, parsed, env).0) <==> !PutLeaves(w, digest, sub, rg, name, parsed, env)
  {
    hide PutCluster, Typed, Mirrored, Resolves, PortsApart, OnlyClusters, ClustersHeld, Owns, NoOrphans, Distinct, Named, PutLeaves;
    PutClusterStore(w, digest, sub, rg, name, parsed, env);
    PutClusterHoldsIff(w, digest, sub, rg, name, parsed, env);
    PutClusterObjects(w, digest, sub, rg, name, parsed, env);
    if !PutLeaves(w, digest, sub, rg, name, parsed, env) { OnlyClustersKeep(w, PutCluster(w, digest, sub, rg, name, parsed, env).0); }
  }

  lemma DeleteClusterHeld(w: World, k: Key)
    requires ClustersHeld(w) && k in w.store && k.ClusterKey?
    ensures var h := Handle(w.store[k]);
            ClustersHeld(w.(store := w.store - {k}, containers := if h.Some? then w.containers - {h.value} else w.containers))
  {
    var h := Handle(w.store[k]);
    var t := w.store - {k};
    hide KindOf;
    forall x | x in Handles(w.store, Clusters(w.store)) && h != Some(x) ensures x in Handles(t, Clusters(t)) {
      var j :| j in Clusters(w.store) && Handle(w.store[j]).Some? && Handle(w.store[j]).value == x;
      assert j in Clusters(t);
    }
  }

  lemma DeleteClusterNamed(w: World, digest: string -> string, sub: string, rg: string, name: string)
    requires Named(w.store, digest)
    ensures Named(DeleteCluster(w, sub, rg, name).0.store, digest)
  {
    hide AksContainer;
  }

  /** Deleting a cluster leaves no k3s container without a record, except exactly when the
      emulator runs without k3s and the record was the only one to refer to a live container. */
  lemma DeleteClusterHoldsIff(w: World, sub: string, rg: string, name: string)
    requires Typed(w.store) && ClustersHeld(w)
    ensures ClustersHeld(DeleteCluster(w, sub, rg, name).0) <==> !(!w.realMode && Sole(w, ClusterKey(sub, rg, name)))
  {
    var k := ClusterKey(sub, rg, name);
    if k in w.store {
      DeleteClusterHeld(w, k);
      GivenUpIff(w, k, w.store - {k});
    }
    hide ClustersHeld, Handles, KindOf, Typed, Handle;
  }

  lemma DeleteClusterObjects(w: World, sub: string, rg: string, name: string)
    requires Typed(w.store)
    ensures OnlyClusters(w, DeleteCluster(w, sub, rg, name).0)
  {
    var k := ClusterKey(sub, rg, name);
    assert k in w.store ==> WellFiled(k, w.store[k]);
    hide KindOf, Handle;
  }

  lemma DeleteClusterKeeps(w: World, sub: string, rg: string, name: string)
    requires Inv(w)
    ensures Inv(DeleteCluster(w, sub, rg, name).0) <==> !(!w.realMode && Sole(w, ClusterKey(sub, rg, name)))
  {
    hide DeleteCluster, Typed, Mirrored, Resolves, PortsApart, OnlyClusters, ClustersHeld, Owns, NoOrphans, Distinct, Sole;
    DeleteClusterStore(w, sub, rg, name);
    DeleteClusterHoldsIff(w, sub, rg, name);
    DeleteClusterObjects(w, sub, rg, name);
    if w.realMode || !Sole(w, ClusterKey(sub, rg, name)) { OnlyClustersKeep(w, DeleteCluster(w, sub, rg, name).0); }
  }

  lemma HandlesAreAks(w: World, ks: set<Key>)
    requires Typed(w.store) && forall k :: k in ks ==> k.ClusterKey?
    ensures forall h :: h in Handles(w.store, ks) ==> KindOf(h) == AksKind
  {
    forall k | k in ks && k in w.store && Handle(w.store[k]).Some? ensures KindOf(Handle(w.store[k]).value) == AksKind {
      assert WellFiled(k, w.store[k]);
    }
    hide KindOf, WellFiled;
  }

  // Removing k3s containers, for whatever reason, leaves no orphan and disturbs nothing else.
  lemma FewerAksKeeps(w: World, gone: set<string>)
    requires Inv(w) && forall c :: c in gone ==> KindOf(c) == AksKind
    ensures Inv(w.(containers := w.containers - gone))
  {
    hide KindOf, Owns, NoOrphans, Distinct, Mirrored, Resolves, PortsApart, Typed;
    OnlyClustersKeep(w, w.(containers := w.containers - gone));
  }

  /** Shutdown orphans no container even when it runs out of time, and when it does
      not, no k3s container is left at all. */
  lemma ShutdownHolds(w: World, late: set<string>)
    requires ClustersHeld(w)
    ensures ClustersHeld(Shutdown(w, late))
    ensures w.realMode && late == {} ==> NoK3s(Shutdown(w, late))
  {
    hide KindOf, Handles;
  }

  lemma ShutdownKeeps(w: World, late: set<string>)
    requires Inv(w)
    ensures Inv(Shutdown(w, late))
  {
    HandlesAreAks(w, Clusters(w.store));
    FewerAksKeeps(w, Handles(w.store, Clusters(w.store)) - late);
    hide KindOf, Handle;
  }

  /** Reaping at start-up brings the no-orphan half about whatever was there before,
      removes no container a record names and no container of another kind. */
  lemma ReapHolds(w: World)
    ensures ClustersHeld(Reap(w, true))
    ensures forall c :: c in w.containers && (KindOf(c) != AksKind || c in Handles(w.store, Clusters(w.store))) ==>
              c in Reap(w, true).containers && Reap(w, true).containers[c] == w.containers[c]
    ensures Reap(w, true).store == w.store && Reap(w, true).networks == w.networks
  {
    hide KindOf, Handles;
  }

  lemma ReapKeeps(w: World, listed: bool)
    requires Inv(w)
    ensures Inv(Reap(w, listed))
  {
    FewerAksKeeps(w, Orphans(w));
    hide KindOf, Inv, Handles;
  }

  // ---- The other half ----

  // Every handle's container exists.
  ghost predicate HandlesLive(w: World) {
    forall h :: h in Handles(w.store, Clusters(w.store)) ==> h in w.containers
  }

  /** The converse, that every record has its container, is not kept by every create:
      exactly those that end without a container of a name some record already holds lose it. */
  lemma PutClusterLiveIff(w: World, digest: string -> string, sub: string, rg: string, name: string, env: Env)
    requires w.realMode && HandlesLive(w) && ClusterName(name)
    ensures var c := AksContainer(digest, sub, rg, name);
            HandlesLive(PutCluster(w, digest, sub, rg, name, true, env).0) <==>
              (env.portOk && if env.runOk then env.readyOk else env.leftover) || c !in Handles(w.store, Clusters(w.store))
  {
    var k, c := ClusterKey(sub, rg, name), AksContainer(digest, sub, rg, name);
    var t := w.store[k := ClusterVal(Some(c))];
    hide AksContainer, ClusterName;
    forall h | h in Handles(t, Clusters(t)) ensures h == c || h in Handles(w.store, Clusters(w.store)) {
      var j :| j in Clusters(t) && Handle(t[j]).Some? && Handle(t[j]).value == h;
      if j != k { assert j in Clusters(w.store); }
    }
    hide Handles;
  }
}
