/** What the handlers share at run time: the store, the Docker daemon and the flags
    probed at start-up. State() is their common World. */
module Machines {
  import opened Options
  import opened Text
  import opened Keys
  import opened Memory
  import opened Keyed
  import opened Worlds
  import opened VmSpec

  class Machine {
    const store: KeyedStore<Value>
    const docker: Docker
    const dockerAvail: bool
    const disabled: bool
    const realMode: bool
    var dockerProbe: Option<bool>

    ghost predicate Valid()
      reads this, store, store.flat
    {
      store.Valid()
    }

    // The two readings of the store agree, but a name in it may hold a colon.
    ghost predicate InStep()
      reads this, store, store.flat
    {
      store.InStep()
    }

    ghost function State(): World
      reads this, store, docker
    {
      World(store.view, docker.containers, docker.networks, dockerAvail, disabled, dockerProbe, realMode)
    }

    constructor (flat: MemoryBackend<Value>, dockerAvail: bool, disabled: bool, realMode: bool)
      requires flat.data == map[]
      ensures Valid() && State() == World(map[], map[], {}, dockerAvail, disabled, None, realMode)
      ensures fresh(store) && fresh(docker) && store.flat == flat
    {
      store := new KeyedStore(flat);
      docker := new Docker();
      this.dockerAvail, this.disabled, this.realMode, dockerProbe := dockerAvail, disabled, realMode, None;
    }

    // Set under a key the client has named.
    method File(k: Key, v: Value)
      requires Valid() && !k.Other?
      modifies store, store.flat
      ensures store.view == old(store.view)[k := v] && InStep() && (Valid() <==> Clean(k))
    {
      TypedIsUnshared(store.view, store.flat.data, k);
      PutRepresents(store.view, store.flat.data, k, v);
      hide Represents, Mirrors, Unshared, Clean, Flat;
      store.Put(k, v);
    }

    lemma ValidInStep()
      requires Valid()
      ensures InStep()
    {
    }

    // getVM
    method FindVm(k: Key) returns (r: Option<VmRec>)
      requires Valid() && k.VmKey?
      ensures r == GetVm(store.view, k)
    {
      var v := store.Get(k);
      r := match v case Found(VmVal(vm)) => Some(vm) case _ => None;
    }

    // The records a prefix scan lists.
    method RecordsUnder(p: seq<string>) returns (items: seq<Value>)
      requires Valid() && |p| > 0 && ColonFree(p)
      ensures forall v :: v in items <==> exists k :: k in Under(store.view, p) && store.view[k] == v
    {
      ghost var keys;
      items, keys := store.ListByPrefix(p);
    }

    // serviceRecords
    method ServiceRecords(sub: string, rg: string, name: string) returns (svcs: seq<SvcRec>)
      requires Valid() && ColonFree([sub, rg, name])
      ensures forall r :: r in svcs <==> exists k :: k in Services(store.view, sub, rg, name) && store.view[k] == SvcVal(r)
    {
      var p := ["vmsvc", sub, rg, name];
      assert ColonFree(p) by { assert sub in [sub, rg, name] && rg in [sub, rg, name] && name in [sub, rg, name]; }
      var items := RecordsUnder(p);
      UnderServices(store.view, sub, rg, name);
      svcs := [];
      for i := 0 to |items|
        invariant forall r :: r in svcs <==> exists j :: 0 <= j < i && items[j] == SvcVal(r)
      {
        if items[i].SvcVal? { svcs := svcs + [items[i].svc]; }
      }
      assert forall r :: r in svcs <==> SvcVal(r) in items;
    }

    // for each service with a container: docker rm -f
    method RemoveContainers(svcs: seq<SvcRec>)
      modifies docker`containers
      ensures docker.containers == old(docker.containers) - ContainersOf(svcs)
    {
      for i := 0 to |svcs|
        invariant docker.containers == old(docker.containers) - ContainersOf(svcs[..i])
      {
        assert svcs[..i + 1] == svcs[..i] + [svcs[i]];
        if svcs[i].containerName != "" { docker.Remove(svcs[i].containerName); }
      }
      assert svcs[..|svcs|] == svcs;
    }

    // The Docker half of a deletion: service containers, the VM's container, its network.
    method TearDown(sub: string, rg: string, name: string)
      requires Valid() && ColonFree([sub, rg, name])
      modifies docker
      ensures docker.containers ==
                old(docker.containers) - SvcContainers(store.view, Services(store.view, sub, rg, name)) - {VmContainer(rg, name)}
      ensures docker.networks == old(docker.networks) - {VmNetwork(rg, name)}
    {
      var svcs := ServiceRecords(sub, rg, name);
      SameContainers(store.view, Services(store.view, sub, rg, name), svcs);
      RemoveContainers(svcs);
      docker.Remove(VmContainer(rg, name));
      docker.NetworkRemove(VmNetwork(rg, name));
    }

    // refreshVM
    method Refresh(vm: VmRec, blind: set<string>) returns (r: VmRec)
      ensures r == Refreshed(State(), vm, blind)
    {
      r := vm;
      if !dockerAvail || vm.containerName == "" { return; }
      var running := docker.InspectRunning(vm.containerName, vm.containerName !in blind);
      r := vm.(power := if running then "running" else "stopped");
    }
  }

  ghost function ContainersOf(svcs: seq<SvcRec>): set<string> {
    set r | r in svcs && r.containerName != "" :: r.containerName
  }

  // The keys a scan for one VM's services finds.
  lemma UnderServices(view: map<Key, Value>, sub: string, rg: string, name: string)
    requires forall k :: k in view ==> Clean(k)
    ensures Under(view, ["vmsvc", sub, rg, name]) == Services(view, sub, rg, name)
  {
    forall k | k in view ensures ProperPrefix(["vmsvc", sub, rg, name], Segs(k)) <==> k in Services(view, sub, rg, name) {
      ServicePrefix(k, sub, rg, name);
    }
  }

  lemma SameContainers(store: map<Key, Value>, ks: set<Key>, svcs: seq<SvcRec>)
    requires forall k :: k in ks ==> k in store
    requires forall r :: r in svcs <==> exists k :: k in ks && store[k] == SvcVal(r)
    ensures ContainersOf(svcs) == SvcContainers(store, ks)
  {
    forall c | c in ContainersOf(svcs) ensures c in SvcContainers(store, ks) {
      var r :| r in svcs && r.containerName == c && c != "";
      var k :| k in ks && store[k] == SvcVal(r);
    }
    forall c | c in SvcContainers(store, ks) ensures c in ContainersOf(svcs) {
      var k :| k in ks && store[k].SvcVal? && store[k].svc.containerName == c;
      assert store[k].svc in svcs;
    }
  }
}
