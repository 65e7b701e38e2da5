/** The handlers for the services of a VM. */
module SvcHandlers {
  import opened Options
  import opened Keys
  import opened Keyed
  import opened Worlds
  import opened VmSpec
  import opened Machines
  import opened VmHandlers

  class SvcHandler {
    const m: Machine

    constructor (m: Machine)
      ensures this.m == m
    {
      this.m := m;
    }

    // The sibling scan of the source: every port of every other service against
    // every requested port.
    method PortTaken(svcs: seq<SvcRec>, svc: string, ports: seq<int>) returns (taken: bool)
      ensures taken <==> exists r :: r in svcs && r.name != svc && exists p :: p in r.ports && p in ports
    {
      for i := 0 to |svcs|
        invariant forall r :: r in svcs[..i] && r.name != svc ==> forall p :: p in r.ports ==> p !in ports
      {
        if svcs[i].name != svc {
          var sibling := svcs[i].ports;
          for j := 0 to |sibling|
            invariant forall p :: p in sibling[..j] ==> p !in ports
          {
            for n := 0 to |ports|
              invariant sibling[j] !in ports[..n]
            {
              if sibling[j] == ports[n] {
                assert svcs[i] in svcs && sibling[j] in svcs[i].ports && ports[n] in ports;
                return true;
              }
            }
          }
        }
      }
      taken := false;
    }

    method CreateOrUpdateService(a: SvcArgs, env: Env) returns (reply: Reply)
      requires m.Valid()
      modifies m.store, m.store.flat, m.docker
      ensures m.Valid() && (m.State(), reply) == PutService(old(m.State()), a, env)
    {
      AllClean(m.store.view, m.store.flat.data);
      hide VmContainer, SvcContainer, Represents, Clean, ColonFree, ServiceName, Deploy, Conflict;
      var key := VmKey(a.sub, a.rg, a.vm);
      var found := m.FindVm(key);
      if found.None? { return NotFound; }
      if !ServiceName(a.svc) { return BadRequest; }
      if a.input.None? { return BadRequest; }
      if !m.dockerAvail { return DockerUnavailable; }
      WordsAreClean(m.store.view, a.sub, a.rg, a.vm);
      var vm := m.Refresh(found.value, env.blind);
      var siblings := m.ServiceRecords(a.sub, a.rg, a.vm);
      SiblingConflict(m.store.view, a, siblings, a.input.value.ports);
      m.store.Set(key, VmVal(vm));
      if vm.power != "running" { return VmNotRunning; }
      var taken := PortTaken(siblings, a.svc, a.input.value.ports);
      if taken { return PortConflict; }
      reply := Install(a, a.input.value, env);
    }

    // docker rm of the replaced container and docker run.
    method Relaunch(container: string, replacing: bool, env: Env) returns (up: bool)
      modifies m.docker`containers
      ensures var cleared := if replacing then old(m.docker.containers) - {container} else old(m.docker.containers);
        && up == (env.runOk && container !in cleared)
        && m.docker.containers == Ran(cleared, container, env.runOk, env.leftover)
    {
      if replacing { m.docker.Remove(container); }
      up := m.docker.Run(container, env.runOk, env.leftover);
    }

    // The container, and the record when it runs.
    method Install(a: SvcArgs, input: SvcInput, env: Env) returns (reply: Reply)
      requires m.Valid() && a.input == Some(input) && Clean(VmKey(a.sub, a.rg, a.vm)) && ServiceName(a.svc)
      modifies m.store, m.store.flat, m.docker
      ensures m.Valid() && (m.State(), reply) == Deploy(old(m.State()), a, env)
    {
      ServiceKeyIsClean(a);
      hide SvcContainer, Represents, Clean, ColonFree, ServiceName, Ran;
      var key, container := SvcKey(a.sub, a.rg, a.vm, a.svc), SvcContainer(a.rg, a.vm, a.svc);
      var replacing := m.store.Exists(key);
      var up := Relaunch(container, replacing, env);
      if !up {
        var _ := m.store.Delete(key);
        return StartFailed;
      }
      m.store.Set(key, SvcVal(SvcRec(a.svc, input.image, container, input.ports, "running")));
      reply := if replacing then Success else Created;
    }

    method GetService(sub: string, rg: string, vm: string, svc: string, env: Env) returns (reply: Reply)
      requires m.Valid()
      modifies m.store, m.store.flat
      ensures m.Valid() && (m.State(), reply) == ReadService(old(m.State()), SvcKey(sub, rg, vm, svc), env)
    {
      var key := SvcKey(sub, rg, vm, svc);
      var v := m.store.Get(key);
      if v.Missing? || !v.value.SvcVal? { return NotFound; }
      var rec := v.value.svc;
      if m.dockerAvail && rec.containerName != "" {
        var running := m.docker.InspectRunning(rec.containerName, rec.containerName !in env.blind);
        if running { rec := rec.(status := "running"); }
        else if env.exit.Some? && env.exit.value != 0 { rec := rec.(status := "failed"); }
        else { rec := rec.(status := "stopped"); }
      }
      m.store.Set(key, SvcVal(rec));
      reply := Success;
    }

    method RemoveService(sub: string, rg: string, vm: string, svc: string) returns (reply: Reply)
      requires m.Valid()
      modifies m.store, m.store.flat, m.docker
      ensures m.Valid() && (m.State(), reply) == DeleteService(old(m.State()), SvcKey(sub, rg, vm, svc))
    {
      var key := SvcKey(sub, rg, vm, svc);
      var v := m.store.Get(key);
      if v.Missing? || !v.value.SvcVal? { return NotFound; }
      if m.dockerAvail && v.value.svc.containerName != "" { m.docker.Remove(v.value.svc.containerName); }
      var _ := m.store.Delete(key);
      reply := NoContent;
    }
  }

  lemma SiblingConflict(store: map<Key, Value>, a: SvcArgs, svcs: seq<SvcRec>, ports: seq<int>)
    requires forall r :: r in svcs <==> exists k :: k in Services(store, a.sub, a.rg, a.vm) && store[k] == SvcVal(r)
    ensures Conflict(store, a, ports) <==> exists r :: r in svcs && r.name != a.svc && exists p :: p in r.ports && p in ports
  {
    if Conflict(store, a, ports) {
      var k :| k in Services(store, a.sub, a.rg, a.vm) && store[k].SvcVal? && store[k].svc.name != a.svc
               && exists p :: p in store[k].svc.ports && p in ports;
      assert store[k] == SvcVal(store[k].svc);
      assert store[k].svc in svcs;
    }
    if r :| r in svcs && r.name != a.svc && exists p :: p in r.ports && p in ports {
      var k :| k in Services(store, a.sub, a.rg, a.vm) && store[k] == SvcVal(r);
    }
  }

  lemma ServiceKeyIsClean(a: SvcArgs)
    requires Clean(VmKey(a.sub, a.rg, a.vm)) && ServiceName(a.svc)
    ensures Clean(SvcKey(a.sub, a.rg, a.vm, a.svc))
  {
    var w := Segs(VmKey(a.sub, a.rg, a.vm));
    assert w[1] in w && w[2] in w && w[3] in w;
  }
}
