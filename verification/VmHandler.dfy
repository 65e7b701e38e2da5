/** The virtual-machine handlers, one method per request. */
module VmHandlers {
  import opened Options
  import opened Text
  import opened Keys
  import opened ArmIds
  import opened Keyed
  import opened Worlds
  import opened VmSpec
  import opened Machines

  class VmHandler {
    const m: Machine

    constructor (m: Machine)
      ensures this.m == m
    {
      this.m := m;
    }

    // resolveIdentityBlock: the ids are visited in no particular order.
    method Resolve(input: IdentityInput) returns (r: Resolution)
      requires m.Valid()
      ensures r == ResolveIdentity(m.store.view, input)
    {
      hide StrictKey, EqualFold, Represents;
      if !input.Block? { return NoIdentity; }
      if EqualFold(input.kind, "None") || input.kind == "" { return NoIdentity; }
      if !EqualFold(input.kind, "UserAssigned") { return Refused; }
      if input.ids == {} { return Refused; }
      var roster: map<string, Assignment> := map[];
      var todo := input.ids;
      while todo != {}
        invariant todo <= input.ids && roster.Keys == input.ids - todo
        invariant forall id :: id in roster ==> Assignable(m.store.view, id) && roster[id] == m.store.view[StrictKey(id).value].id
      {
        var id :| id in todo;
        todo := todo - {id};
        var key := StrictKey(id);
        if key.None? { return Refused; }
        var v := m.store.Get(key.value);
        if v.Missing? || !v.value.IdVal? { return Refused; }
        roster := roster[id := v.value.id];
      }
      r := Resolved(roster);
    }

    method CreateOrUpdateVm(a: VmArgs, env: Env) returns (reply: Reply)
      requires m.Valid() && ':' !in a.secret
      modifies m.store, m.store.flat, m.docker
      ensures (m.State(), reply) == PutVm(old(m.State()), a, env)
      ensures m.InStep() && (m.Valid() <==> reply != Created || ':' !in a.name)
    {
      m.ValidInStep();
      hide VmContainer, VmNetwork, ResolveIdentity, Clean, Represents, Mirrors, UpdatedVm, Provisioned;
      var groupExists := m.store.Exists(RgKey(a.sub, a.rg));
      if !groupExists { return RgNotFound; }
      if a.image.None? { return BadRequest; }
      var resolved := Resolve(a.identity);
      if resolved.Refused? { return BadRequest; }
      var identity := if resolved.Resolved? then Some(resolved.roster) else None;
      AllClean(m.store.view, m.store.flat.data);
      VmCleanIff(m.store.view, a);
      var existing := m.FindVm(VmKey(a.sub, a.rg, a.name));
      if existing.Some? {
        reply := UpdateInPlace(a, existing.value, identity, env);
      } else {
        reply := Provision(a, identity, env);
      }
    }

    // PUT on a VM that exists: metadata and assignments change, the container does not.
    method UpdateInPlace(a: VmArgs, vm: VmRec, identity: Option<map<string, Assignment>>, env: Env) returns (reply: Reply)
      requires m.Valid() && Clean(VmKey(a.sub, a.rg, a.name))
      modifies m.store, m.store.flat
      ensures m.Valid() && m.InStep() && reply == Success
      ensures m.State() == old(m.State().(store := m.store.view[VmKey(a.sub, a.rg, a.name) := VmVal(UpdatedVm(m.State(), vm, a, identity, env.blind))]))
    {
      var rec := vm;
      if a.location != "" { rec := rec.(location := a.location); }
      if !a.identity.Absent? { rec := rec.(identity := identity); }
      rec := m.Refresh(rec, env.blind);
      m.store.Set(VmKey(a.sub, a.rg, a.name), VmVal(rec));
      m.ValidInStep();
      reply := Success;
    }

    // A new VM's record and the index entry of its secret.
    method Record(a: VmArgs, identity: Option<map<string, Assignment>>)
      requires m.Valid() && a.image.Some? && Clean(SecretKey(a.secret))
      modifies m.store, m.store.flat
      ensures m.store.view == WithVm(old(m.store.view), a, identity)
      ensures m.InStep() && (m.Valid() <==> Clean(VmKey(a.sub, a.rg, a.name)))
    {
      var key, secret := VmKey(a.sub, a.rg, a.name), SecretKey(a.secret);
      var rec := VmRec(VmArmId(a.sub, a.rg, a.name), a.name, if a.location == "" then "eastus" else a.location, a.image.value,
                       a.secret, VmContainer(a.rg, a.name), "running", identity);
      RecordCleanIff(m.store.view, m.store.flat.data, key, VmVal(rec), secret, SecretVal(key));
      hide VmContainer, VmArmId, Represents, Mirrors, Clean, Flat, Unshared;
      m.store.Put(key, VmVal(rec));
      m.store.Put(secret, SecretVal(key));
    }

    // The network and the container of a new VM; a failed run takes the network with it.
    method StartUp(container: string, network: string, env: Env) returns (up: bool)
      modifies m.docker
      ensures var netUp := env.netOk || network in old(m.docker.networks);
        && up == (netUp && env.runOk)
        && m.docker.containers == (if !netUp then old(m.docker.containers)
                                   else if up then old(m.docker.containers)[container := true]
                                   else Ran(old(m.docker.containers) - {container}, container, false, env.leftover))
        && m.docker.networks == (if !netUp then old(m.docker.networks)
                                 else if up then old(m.docker.networks) + {network} else old(m.docker.networks) - {network})
    {
      var created := m.docker.NetworkCreate(network, env.netOk);
      if !created { return false; }
      m.docker.Remove(container);
      up := m.docker.Run(container, env.runOk, env.leftover);
      if !up { m.docker.NetworkRemove(network); }
    }

    // The rest of PUT, for a VM that does not exist yet.
    method Provision(a: VmArgs, identity: Option<map<string, Assignment>>, env: Env) returns (reply: Reply)
      requires m.Valid() && a.image.Some? && Clean(SecretKey(a.secret))
      modifies m.store, m.store.flat, m.docker
      ensures m.InStep() && (m.Valid() <==> reply != Created || Clean(VmKey(a.sub, a.rg, a.name)))
      ensures (m.State(), reply) == Provisioned(old(m.State()), a, identity, env)
    {
      m.ValidInStep();
      hide VmContainer, VmNetwork, Clean, Represents, Mirrors, WithVm, Ran;
      if m.dockerAvail {
        var up := StartUp(VmContainer(a.rg, a.name), VmNetwork(a.rg, a.name), env);
        if !up { return StartFailed; }
      }
      Record(a, identity);
      reply := Created;
    }

    method GetVirtualMachine(sub: string, rg: string, name: string, env: Env) returns (reply: Reply)
      requires m.Valid()
      modifies m.store, m.store.flat
      ensures m.Valid() && (m.State(), reply) == ReadVm(old(m.State()), VmKey(sub, rg, name), env)
    {
      var rec := m.FindVm(VmKey(sub, rg, name));
      if rec.None? { return NotFound; }
      var vm := m.Refresh(rec.value, env.blind);
      m.store.Set(VmKey(sub, rg, name), VmVal(vm));
      reply := Success;
    }

    method DeleteVirtualMachine(sub: string, rg: string, name: string) returns (reply: Reply)
      requires m.Valid()
      modifies m.store, m.store.flat, m.docker
      ensures m.Valid() && (m.State(), reply) == DeleteVm(old(m.State()), sub, rg, name)
    {
      AllClean(m.store.view, m.store.flat.data);
      hide VmContainer, VmNetwork, SvcContainers, Represents, Clean, ColonFree, Under;
      var key := VmKey(sub, rg, name);
      var rec := m.FindVm(key);
      if rec.None? { return NotFound; }
      WordsAreClean(m.store.view, sub, rg, name);
      if m.dockerAvail { m.TearDown(sub, rg, name); }
      DropRecords(sub, rg, name, rec.value.secret);
      reply := NoContent;
    }

    // The store half of a deletion: services, secret, the VM itself.
    method DropRecords(sub: string, rg: string, name: string, secret: string)
      requires m.Valid() && ColonFree(["vmsvc", sub, rg, name]) && forall k :: k in m.store.view ==> Clean(k)
      modifies m.store, m.store.flat
      ensures m.Valid()
      ensures m.store.view == old(m.store.view) - Services(old(m.store.view), sub, rg, name)
                - (if secret != "" then {SecretKey(secret)} else {}) - {VmKey(sub, rg, name)}
    {
      UnderServices(m.store.view, sub, rg, name);
      hide Represents, Clean, ColonFree, Under;
      m.store.DeleteByPrefix(["vmsvc", sub, rg, name]);
      ghost var rest := m.store.view;
      if secret != "" {
        var _ := m.store.Delete(SecretKey(secret));
      } else {
        assert rest - {} == rest;
      }
      var _ := m.store.Delete(VmKey(sub, rg, name));
    }

    // ---- Power actions ----

    method StopAll(svcs: seq<SvcRec>, container: string, fails: set<string>) returns (ok: bool)
      modifies m.docker`containers
      ensures ok == Answers(old(m.docker.containers), container, fails)
      ensures m.docker.containers == Stopped(old(m.docker.containers), container, ContainersOf(svcs), fails)
    {
      for i := 0 to |svcs|
        invariant m.docker.containers == Switch(old(m.docker.containers), ContainersOf(svcs[..i]), fails, false)
      {
        assert svcs[..i + 1] == svcs[..i] + [svcs[i]];
        var c := svcs[i].containerName;
        if c != "" { var _ := m.docker.Stop(c, c !in fails); }
      }
      assert svcs[..|svcs|] == svcs;
      ok := m.docker.Stop(container, container !in fails);
    }

    method StartAll(svcs: seq<SvcRec>, container: string, fails: set<string>) returns (ok: bool)
      modifies m.docker`containers
      ensures ok == Answers(old(m.docker.containers), container, fails)
      ensures m.docker.containers == Started(old(m.docker.containers), container, ContainersOf(svcs), fails)
    {
      ok := m.docker.Start(container, container !in fails);
      if !ok { return; }
      for i := 0 to |svcs|
        invariant m.docker.containers == Switch(old(m.docker.containers), ContainersOf(svcs[..i]) + {container}, fails, true)
      {
        assert svcs[..i + 1] == svcs[..i] + [svcs[i]];
        var c := svcs[i].containerName;
        if c != "" { var _ := m.docker.Start(c, c !in fails); }
      }
      assert svcs[..|svcs|] == svcs;
    }

    // A refresh of the stored record.
    method RefreshStored(key: Key, rec: VmRec, blind: set<string>) returns (fresher: VmRec)
      requires m.Valid() && Clean(key) && key.VmKey?
      modifies m.store, m.store.flat
      ensures m.Valid() && fresher == Refreshed(old(m.State()), rec, blind)
      ensures m.store.view == old(m.store.view)[key := VmVal(fresher)]
    {
      hide Represents, Clean, Refreshed;
      fresher := m.Refresh(rec, blind);
      m.store.Set(key, VmVal(fresher));
    }

    method Perform(action: Action, power: string, services: seq<SvcRec>, container: string, env: Env)
      returns (ok: bool)
      modifies m.docker`containers
      ensures ok == (Idle(action, power) || Succeeds(old(m.docker.containers), container, env, action))
      ensures m.docker.containers == if Idle(action, power) then old(m.docker.containers)
                else Acted(old(m.docker.containers), container, ContainersOf(services), env, action)
    {
      ok := true;
      match action {
        case Start => if power != "running" { ok := StartAll(services, container, env.startFails); }
        case PowerOff => if power != "stopped" { ok := StopAll(services, container, env.stopFails); }
        case Restart =>
          var _ := StopAll(services, container, env.stopFails);
          ok := StartAll(services, container, env.startFails);
      }
    }

    // powerAction on a VM that exists, with Docker.
    method ActOn(sub: string, rg: string, name: string, vm: VmRec, action: Action, env: Env) returns (reply: Reply)
      requires m.Valid() && m.dockerAvail && ColonFree([sub, rg, name]) && Clean(VmKey(sub, rg, name))
      requires GetVm(m.store.view, VmKey(sub, rg, name)) == Some(vm)
      modifies m.store, m.store.flat, m.docker
      ensures m.Valid() && (m.State(), reply) == Power(old(m.State()), sub, rg, name, action, env)
    {
      hide VmContainer, SvcContainers, ContainersOf, Represents, Clean, ColonFree, Acted, Succeeds, Idle, Refreshed;
      var container := VmContainer(rg, name);
      var services := m.ServiceRecords(sub, rg, name);
      assert ContainersOf(services) == SvcContainers(m.store.view, Services(m.store.view, sub, rg, name)) by {
        SameContainers(m.store.view, Services(m.store.view, sub, rg, name), services);
      }
      var rec := RefreshStored(VmKey(sub, rg, name), vm, env.blind);
      var ok := Perform(action, rec.power, services, container, env);
      if !ok { return StartFailed; }
      var _ := RefreshStored(VmKey(sub, rg, name), rec, env.blindAfter);
      reply := Success;
    }

    method PowerAction(sub: string, rg: string, name: string, action: Action, env: Env) returns (reply: Reply)
      requires m.Valid()
      modifies m.store, m.store.flat, m.docker
      ensures m.Valid() && (m.State(), reply) == Power(old(m.State()), sub, rg, name, action, env)
    {
      AllClean(m.store.view, m.store.flat.data);
      hide VmContainer, SvcContainers, Services, Represents, Clean, ColonFree, Acted, Succeeds, Idle, Refreshed;
      var found := m.FindVm(VmKey(sub, rg, name));
      if found.None? { return NotFound; }
      if !m.dockerAvail { return DockerUnavailable; }
      WordsAreClean(m.store.view, sub, rg, name);
      reply := ActOn(sub, rg, name, found.value, action, env);
    }
  }

  lemma AllClean(view: map<Key, Value>, data: map<string, Value>)
    requires Represents(view, data)
    ensures forall k :: k in view ==> Clean(k)
  {
  }

  // A key that is in the store has colon-free names.
  lemma WordsAreClean(view: map<Key, Value>, sub: string, rg: string, name: string)
    requires forall k :: k in view ==> Clean(k)
    requires VmKey(sub, rg, name) in view
    ensures Clean(VmKey(sub, rg, name)) && ColonFree([sub, rg, name]) && ColonFree(["vmsvc", sub, rg, name])
  {
    var w := Segs(VmKey(sub, rg, name));
    assert w[1] in w && w[2] in w && w[3] in w;
  }

  lemma VmCleanIff(view: map<Key, Value>, a: VmArgs)
    requires forall k :: k in view ==> Clean(k)
    requires RgKey(a.sub, a.rg) in view && ':' !in a.secret
    ensures Clean(VmKey(a.sub, a.rg, a.name)) <==> ':' !in a.name
    ensures Clean(SecretKey(a.secret))
  {
    var w, x := Segs(RgKey(a.sub, a.rg)), Segs(VmKey(a.sub, a.rg, a.name));
    assert Clean(RgKey(a.sub, a.rg));
    assert w[1] in w && w[2] in w && x[3] in x;
  }

  // Storing two entries, the second under a clean key.
  lemma RecordCleanIff(view: map<Key, Value>, data: map<string, Value>, k: Key, v: Value, l: Key, u: Value)
    requires Represents(view, data) && !k.Other? && Clean(l) && k != l
    ensures Mirrors(view, data) && Unshared(view, k) && Unshared(view[k := v], l)
    ensures Represents(view[k := v][l := u], data[Flat(k) := v][Flat(l) := u]) <==> Clean(k)
  {
    TypedIsUnshared(view, data, k);
    assert forall x :: x in view ==> Clean(x);
    CleanIsUnshared(view[k := v], l);
    if Clean(k) {
      hide Clean, Flat, Represents;
      SetRepresents(view, data, k, v);
      SetRepresents(view[k := v], data[Flat(k) := v], l, u);
    } else {
      hide Clean, Flat;
      assert k in view[k := v][l := u];
    }
    hide Mirrors, Unshared;
  }
}
