/** What a VM request answers and what is found afterwards, told from the outside: by which
    records and containers there are, without the functions that compute them. */
module VmOutcomes {
  import opened Options
  import opened Text
  import opened Keys
  import opened ArmIds
  import opened Worlds
  import opened VmSpec
  import opened Invariant

  // The container runs and can be inspected.
  predicate Seen(w: World, x: string, blind: set<string>) {
    x in w.containers && w.containers[x] && x !in blind
  }

  predicate ServiceOf(j: Key, k: Key) {
    j.SvcKey? && k.VmKey? && j.sub == k.sub && j.rg == k.rg && j.vm == k.name
  }

  // x is the container of VM k or of one of its services.
  ghost predicate Its(w: World, k: Key, x: string)
    requires k.VmKey?
  {
    || x == VmContainer(k.rg, k.name)
    || exists j :: j in w.store && ServiceOf(j, k) && w.store[j].SvcVal? && w.store[j].svc.containerName == x && x != ""
  }

  lemma ItsContainers(w: World, k: Key, x: string)
    requires k.VmKey?
    ensures Its(w, k, x) <==> x == VmContainer(k.rg, k.name) || x in SvcContainers(w.store, Services(w.store, k.sub, k.rg, k.name))
  {
    hide VmContainer;
    if x in SvcContainers(w.store, Services(w.store, k.sub, k.rg, k.name)) {
      var j :| j in Services(w.store, k.sub, k.rg, k.name) && w.store[j].SvcVal? && w.store[j].svc.containerName == x && x != "";
      assert ServiceOf(j, k);
    }
    if j :| j in w.store && ServiceOf(j, k) && w.store[j].SvcVal? && w.store[j].svc.containerName == x && x != "" {
      assert j in Services(w.store, k.sub, k.rg, k.name);
    }
  }

  // A stored VM, in Docker mode, whose record names its container.
  ghost predicate Stands(w: World, k: Key) {
    w.docker && k.VmKey? && k in w.store && w.store[k].VmVal? && w.store[k].vm.containerName == VmContainer(k.rg, k.name)
  }

  lemma TypedStands(w: World, k: Key)
    requires Typed(w.store) && w.docker && k.VmKey? && k in w.store
    ensures Stands(w, k)
  {
    assert WellFiled(k, w.store[k]);
    hide VmContainer, VmArmId;
  }

  // ---- Identity blocks ----

  // The text is an accepted id of a stored identity.
  ghost predicate Refers(store: map<Key, Value>, id: string) {
    exists j :: j in store && store[j].IdVal? && StrictKey(id) == Some(j)
  }

  // The request says nothing of identities, or says there are none.
  predicate NoneAsked(input: IdentityInput) {
    !input.Block? || input.kind == "" || EqualFold(input.kind, "None")
  }

  ghost predicate Acceptable(store: map<Key, Value>, input: IdentityInput) {
    NoneAsked(input) || (EqualFold(input.kind, "UserAssigned") && input.ids != {} && forall id :: id in input.ids ==> Refers(store, id))
  }

  // got holds the ids asked for, each with the ids its stored identity has.
  ghost predicate Carries(store: map<Key, Value>, input: IdentityInput, got: Option<map<string, Assignment>>) {
    if NoneAsked(input) then got.None?
    else
      && got.Some? && got.value.Keys == input.ids
      && forall id :: id in input.ids ==>
           exists j :: j in store && StrictKey(id) == Some(j) && store[j] == IdVal(got.value[id])
  }

  lemma ResolveCarries(store: map<Key, Value>, input: IdentityInput)
    ensures var r := ResolveIdentity(store, input);
      && (r.Refused? <==> !Acceptable(store, input))
      && (!r.Refused? ==> Carries(store, input, Identity(r)))
  {
    hide StrictKey, EqualFold;
    if input.Block? {
      forall id | id in input.ids ensures Assignable(store, id) <==> Refers(store, id) {}
    }
  }

  // ---- Power actions ----

  // The containers after a switch: the VM's and its services' that did not refuse.
  ghost predicate Switched(w: World, w': World, k: Key, fails: set<string>, on: bool)
    requires k.VmKey?
  {
    && w'.containers.Keys == w.containers.Keys
    && forall x :: x in w.containers ==> w'.containers[x] == if Its(w, k, x) && x !in fails then on else w.containers[x]
  }

  // Apart from containers, only the power state of VM k's record is another.
  ghost predicate PowerIs(w: World, w': World, k: Key, running: bool)
    requires Stands(w, k)
  {
    w' == w.(containers := w'.containers,
             store := w.store[k := VmVal(w.store[k].vm.(power := if running then "running" else "stopped"))])
  }

  lemma RefreshSees(w: World, k: Key, blind: set<string>)
    requires Stands(w, k)
    ensures Refreshed(w, w.store[k].vm, blind)
         == w.store[k].vm.(power := if Seen(w, VmContainer(k.rg, k.name), blind) then "running" else "stopped")
  {
    NameKinds();
    assert VmContainer(k.rg, k.name) != "";
    hide VmContainer, KindOf;
  }

  ghost function ServiceContainers(w: World, k: Key): set<string>
    requires k.VmKey?
  {
    SvcContainers(w.store, Services(w.store, k.sub, k.rg, k.name))
  }

  // Power, with the two refreshes read off the containers.
  lemma PowerShape(w: World, k: Key, action: Action, env: Env)
    requires Stands(w, k)
    ensures var (w', reply) := Power(w, k.sub, k.rg, k.name, action, env);
      var c := VmContainer(k.rg, k.name);
      var seen := Seen(w, c, env.blind);
      var idle := Idle(action, if seen then "running" else "stopped");
      var acted := if idle then w.containers else Acted(w.containers, c, ServiceContainers(w, k), env, action);
      var ok := idle || Succeeds(w.containers, c, env, action);
      && reply == (if ok then Success else StartFailed)
      && w'.containers == acted
      && PowerIs(w, w', k, if ok then Seen(w.(containers := acted), c, env.blindAfter) else seen)
  {
    var seen := Seen(w, VmContainer(k.rg, k.name), env.blind);
    var w0 := RefreshVm(w, k, w.store[k].vm, env.blind);
    RefreshIs(w, k, env.blind);
    ActedPower(w, w0, k, action, env);
    hide VmContainer, ServiceContainers, SvcContainers, Services, Acted, Succeeds, Idle, RefreshVm, PowerIs, Seen, Stands;
  }

  lemma RefreshIs(w: World, k: Key, blind: set<string>)
    requires Stands(w, k)
    ensures var w' := RefreshVm(w, k, w.store[k].vm, blind);
      PowerIs(w, w', k, Seen(w, VmContainer(k.rg, k.name), blind)) && w'.containers == w.containers && Stands(w', k)
      && w'.store[k].vm.power == if Seen(w, VmContainer(k.rg, k.name), blind) then "running" else "stopped"
  {
    RefreshSees(w, k, blind);
    hide VmContainer, Refreshed;
  }

  lemma ActedPower(w: World, w0: World, k: Key, action: Action, env: Env)
    requires Stands(w, k) && Stands(w0, k) && w0.containers == w.containers
    requires PowerIs(w, w0, k, w0.store[k].vm.power == "running")
    ensures forall cs: map<string, bool> ::
      var w1 := w0.(containers := cs);
      var w2 := RefreshVm(w1, k, w1.store[k].vm, env.blindAfter);
      && w2.containers == cs
      && PowerIs(w, w2, k, Seen(w.(containers := cs), VmContainer(k.rg, k.name), env.blindAfter))
      && PowerIs(w, w1, k, w0.store[k].vm.power == "running")
  {
    forall cs: map<string, bool>
      ensures var w1 := w0.(containers := cs);
        var w2 := RefreshVm(w1, k, w1.store[k].vm, env.blindAfter);
        && w2.containers == cs
        && PowerIs(w, w2, k, Seen(w.(containers := cs), VmContainer(k.rg, k.name), env.blindAfter))
        && PowerIs(w, w1, k, w0.store[k].vm.power == "running")
    {
      RefreshIs(w0.(containers := cs), k, env.blindAfter);
      hide VmContainer, RefreshVm;
    }
  }

  lemma SwitchIs(w: World, k: Key, fails: set<string>, on: bool)
    requires k.VmKey?
    ensures var t := Switch(w.containers, ServiceContainers(w, k) + {VmContainer(k.rg, k.name)}, fails, on);
      Switched(w, w.(containers := t), k, fails, on)
  {
    forall x { ItsContainers(w, k, x); }
    hide VmContainer, SvcContainers, Services, Its;
  }

  /** powerOff of a VM that is seen to run stops it and its services, all that do not refuse;
      it fails exactly when the VM's own container refuses. Otherwise it does nothing. */
  lemma PowerOffOutcome(w: World, k: Key, env: Env)
    requires Stands(w, k)
    ensures var (w', reply) := Power(w, k.sub, k.rg, k.name, PowerOff, env);
      var c := VmContainer(k.rg, k.name);
      if !Seen(w, c, env.blind) then
        reply == Success && w'.containers == w.containers && PowerIs(w, w', k, Seen(w, c, env.blindAfter))
      else
        && Switched(w, w', k, env.stopFails, false)
        && reply == (if c in env.stopFails then StartFailed else Success)
        && PowerIs(w, w', k, c in env.stopFails)
  {
    PowerShape(w, k, PowerOff, env);
    SwitchIs(w, k, env.stopFails, false);
    hide VmContainer, ServiceContainers, Its, Power, PowerIs;
  }

  /** start of a VM that is not seen to run starts it and then its services, all that do not
      refuse; it fails, and starts nothing, exactly when the VM's own container is missing or
      refuses. Otherwise it does nothing. */
  lemma StartOutcome(w: World, k: Key, env: Env)
    requires Stands(w, k)
    ensures var (w', reply) := Power(w, k.sub, k.rg, k.name, Start, env);
      var c := VmContainer(k.rg, k.name);
      if Seen(w, c, env.blind) then
        reply == Success && w'.containers == w.containers && PowerIs(w, w', k, Seen(w, c, env.blindAfter))
      else if c in w.containers && c !in env.startFails then
        reply == Success && Switched(w, w', k, env.startFails, true) && PowerIs(w, w', k, c !in env.blindAfter)
      else
        reply == StartFailed && w'.containers == w.containers && PowerIs(w, w', k, false)
  {
    PowerShape(w, k, Start, env);
    SwitchIs(w, k, env.startFails, true);
    hide VmContainer, ServiceContainers, Its, Power, PowerIs;
  }

  // The containers after a restart: first all that stop, then all that start.
  ghost predicate Restarted(w: World, w': World, k: Key, env: Env)
    requires k.VmKey?
  {
    && w'.containers.Keys == w.containers.Keys
    && forall x :: x in w.containers ==>
         w'.containers[x] == (if !Its(w, k, x) then w.containers[x]
                              else if x !in env.startFails then true
                              else if x !in env.stopFails then false
                              else w.containers[x])
  }

  /** restart, running or not, stops and starts; it fails exactly when the VM's own container
      is missing or refuses to start, and then everything that could be stopped is. */
  lemma RestartOutcome(w: World, k: Key, env: Env)
    requires Stands(w, k)
    ensures var (w', reply) := Power(w, k.sub, k.rg, k.name, Restart, env);
      var c := VmContainer(k.rg, k.name);
      if c in w.containers && c !in env.startFails then
        reply == Success && Restarted(w, w', k, env) && PowerIs(w, w', k, c !in env.blindAfter)
      else
        reply == StartFailed && Switched(w, w', k, env.stopFails, false) && PowerIs(w, w', k, Seen(w, c, env.blind))
  {
    PowerShape(w, k, Restart, env);
    SwitchIs(w, k, env.stopFails, false);
    var stopped := w.(containers := Stopped(w.containers, VmContainer(k.rg, k.name), ServiceContainers(w, k), env.stopFails));
    assert forall x :: Its(stopped, k, x) <==> Its(w, k, x);
    SwitchIs(stopped, k, env.startFails, true);
    hide VmContainer, ServiceContainers, Its, Power, PowerIs;
  }

  /** Without Docker a power action is refused, without a record it finds nothing. */
  lemma PowerRefused(w: World, k: Key, action: Action, env: Env)
    requires Typed(w.store) && k.VmKey?
    ensures var (w', reply) := Power(w, k.sub, k.rg, k.name, action, env);
      && (reply == NotFound <==> k !in w.store)
      && (reply == DockerUnavailable <==> k in w.store && !w.docker)
      && (reply in {NotFound, DockerUnavailable} ==> w' == w)
  {
    assert k in w.store ==> WellFiled(k, w.store[k]);
    hide VmContainer, SvcContainers, Services, Acted, Succeeds, Idle, Refreshed, WellFiled;
  }

  // ---- Creating and updating ----

  /** What PUT answers: which requests are refused, and that a refused one changes no record
      and one refused for what it says nothing at all. */
  lemma PutVmAnswers(w: World, a: VmArgs, env: Env)
    requires Typed(w.store)
    ensures var (w', reply) := PutVm(w, a, env);
      var k, sound := VmKey(a.sub, a.rg, a.name), a.image.Some? && Acceptable(w.store, a.identity);
      var up := !w.docker || ((env.netOk || VmNetwork(a.rg, a.name) in w.networks) && env.runOk);
      && reply == (if RgKey(a.sub, a.rg) !in w.store then RgNotFound
                   else if !sound then BadRequest
                   else if k in w.store then Success
                   else if up then Created else StartFailed)
      && (reply in {RgNotFound, BadRequest} ==> w' == w)
      && (reply == StartFailed ==> w'.store == w.store)
  {
    var k := VmKey(a.sub, a.rg, a.name);
    ResolveCarries(w.store, a.identity);
    assert k in w.store ==> WellFiled(k, w.store[k]);
    hide VmContainer, VmNetwork, VmArmId, ResolveIdentity, WithVm, UpdatedVm, Acceptable, Carries, Typed, WellFiled;
  }

  /** After Created the record says what was asked for, the secret leads to it, and in Docker
      mode its container runs and its network is there. */
  lemma CreatedOutcome(w: World, a: VmArgs, env: Env)
    requires PutVm(w, a, env).1 == Created
    ensures var w', k := PutVm(w, a, env).0, VmKey(a.sub, a.rg, a.name);
      && k in w'.store && w'.store[k].VmVal?
      && var vm := w'.store[k].vm;
      && vm.id == VmArmId(a.sub, a.rg, a.name) && vm.name == a.name && Some(vm.image) == a.image && vm.secret == a.secret
      && vm.location == (if a.location == "" then "eastus" else a.location)
      && vm.containerName == VmContainer(a.rg, a.name) && vm.power == "running"
      && Carries(w.store, a.identity, vm.identity)
      && SecretKey(a.secret) in w'.store && w'.store[SecretKey(a.secret)] == SecretVal(k)
      && (w.docker ==> Seen(w', VmContainer(a.rg, a.name), {}) && VmNetwork(a.rg, a.name) in w'.networks)
  {
    ResolveCarries(w.store, a.identity);
    hide VmContainer, VmNetwork, VmArmId, ResolveIdentity, Acceptable, Carries, UpdatedVm;
  }

  /** A PUT on an existing VM changes its location if it names one and its identities if it
      says anything of them, brings the power state up to date, and leaves the rest of the
      record and everything else alone: image and container stay. */
  lemma UpdatedOutcome(w: World, a: VmArgs, env: Env)
    requires PutVm(w, a, env).1 == Success
    ensures var w', k := PutVm(w, a, env).0, VmKey(a.sub, a.rg, a.name);
      && k in w.store && w.store[k].VmVal? && k in w'.store && w'.store[k].VmVal?
      && w' == w.(store := w.store[k := w'.store[k]])
      && var before, vm := w.store[k].vm, w'.store[k].vm;
      && vm == before.(location := vm.location, identity := vm.identity, power := vm.power)
      && vm.location == (if a.location == "" then before.location else a.location)
      && (if a.identity.Absent? then vm.identity == before.identity else Carries(w.store, a.identity, vm.identity))
      && vm.power == (if !w.docker || before.containerName == "" then before.power
                      else if Seen(w, before.containerName, env.blind) then "running" else "stopped")
  {
    ResolveCarries(w.store, a.identity);
    hide VmContainer, VmNetwork, VmArmId, ResolveIdentity, Acceptable, Carries, WithVm, Provisioned;
    ProvisionedNeverUpdates(w, a, Identity(ResolveIdentity(w.store, a.identity)), env);
  }

  lemma ProvisionedNeverUpdates(w: World, a: VmArgs, identity: Option<map<string, Assignment>>, env: Env)
    ensures a.image.Some? ==> Provisioned(w, a, identity, env).1 != Success
  {
  }

  // ---- Reading and deleting ----

  /** GET finds exactly the stored VMs and, in Docker mode, puts into the record whether the
      container is seen to run. */
  lemma ReadVmOutcome(w: World, k: Key, env: Env)
    requires Typed(w.store) && k.VmKey?
    ensures var (w', reply) := ReadVm(w, k, env);
      && reply == (if k in w.store then Success else NotFound)
      && (k !in w.store || !w.docker ==> w' == w)
      && (k in w.store && w.docker ==>
            Stands(w, k) && w'.containers == w.containers && PowerIs(w, w', k, Seen(w, VmContainer(k.rg, k.name), env.blind)))
  {
    if k in w.store {
      assert WellFiled(k, w.store[k]);
      if w.docker {
        RefreshIs(w, k, env.blind);
      } else {
        assert w.store[k := VmVal(w.store[k].vm)] == w.store;
      }
    }
    hide VmContainer, VmArmId, WellFiled, Typed, PowerIs;
  }

  /** DELETE finds exactly the stored VMs. What goes is the VM, its services and its secret
      from the store, and in Docker mode its container, its services' and its network;
      nothing else changes. */
  lemma DeleteVmOutcome(w: World, k: Key)
    requires Typed(w.store) && k.VmKey?
    ensures var (w', reply) := DeleteVm(w, k.sub, k.rg, k.name);
      && reply == (if k in w.store then NoContent else NotFound)
      && (k !in w.store ==> w' == w)
      && (k in w.store ==>
           && w.store[k].VmVal?
           && (forall j :: j in w'.store <==> j in w.store && j != k && !ServiceOf(j, k) && j != SecretKey(w.store[k].vm.secret))
           && (forall j :: j in w'.store ==> w'.store[j] == w.store[j])
           && (forall x :: x in w'.containers <==> x in w.containers && !(w.docker && Its(w, k, x)))
           && (forall x :: x in w'.containers ==> w'.containers[x] == w.containers[x])
           && (forall n :: n in w'.networks <==> n in w.networks && !(w.docker && n == VmNetwork(k.rg, k.name))))
  {
    forall x { ItsContainers(w, k, x); }
    assert k in w.store ==> WellFiled(k, w.store[k]);
    hide VmContainer, VmNetwork, VmArmId, SvcContainers, Its, Typed, WellFiled;
    hide SvcContainers;
    if k in w.store { assert VmKey(k.sub, k.rg, k.name) == k; }
  }
}
