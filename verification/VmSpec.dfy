/** What each VM and VM-service request does to the World, as a function of the
    request and of Docker's answers. VmHandler carries these out step by step. */
module VmSpec {
  import opened Options
  import opened Text
  import opened Keys
  import opened Worlds
  import opened ArmIds

  // ---- Identity blocks (resolveIdentityBlock) ----

  // Absent: no "identity" field. NotAnObject: the field is there but not an object.
  datatype IdentityInput = Absent | NotAnObject | Block(kind: string, ids: set<string>)

  datatype Resolution = NoIdentity | Refused | Resolved(roster: map<string, Assignment>)

  predicate Assignable(store: map<Key, Value>, id: string) {
    StrictKey(id).Some? && StrictKey(id).value in store && store[StrictKey(id).value].IdVal?
  }

  function ResolveIdentity(store: map<Key, Value>, input: IdentityInput): Resolution {
    if !input.Block? then NoIdentity
    else if EqualFold(input.kind, "None") || input.kind == "" then NoIdentity
    else if !EqualFold(input.kind, "UserAssigned") then Refused
    else if input.ids == {} then Refused
    else if exists id :: id in input.ids && !Assignable(store, id) then Refused
    else Resolved(map id | id in input.ids :: store[StrictKey(id).value].id)
  }

  function Identity(r: Resolution): Option<map<string, Assignment>> {
    if r.Resolved? then Some(r.roster) else None
  }

  // ---- Virtual machines ----

  // image: None when resolveImage rejects the request.
  datatype VmArgs = VmArgs(sub: string, rg: string, name: string, location: string,
                           image: Option<string>, identity: IdentityInput, secret: string)

  function GetVm(store: map<Key, Value>, k: Key): Option<VmRec> {
    if k in store && store[k].VmVal? then Some(store[k].vm) else None
  }

  predicate Runs(containers: map<string, bool>, c: string) {
    c in containers && containers[c]
  }

  // blind: the containers that cannot be inspected just now.
  predicate SeenRunning(w: World, c: string, blind: set<string>) {
    c !in blind && Runs(w.containers, c)
  }

  function Refreshed(w: World, vm: VmRec, blind: set<string>): VmRec {
    if !w.docker || vm.containerName == "" then vm
    else vm.(power := if SeenRunning(w, vm.containerName, blind) then "running" else "stopped")
  }

  // The record is changed through the reference the store holds, so the refresh
  // shows in the store at once.
  function RefreshVm(w: World, k: Key, vm: VmRec, blind: set<string>): World {
    w.(store := w.store[k := VmVal(Refreshed(w, vm, blind))])
  }

  function NewVm(a: VmArgs, image: string, identity: Option<map<string, Assignment>>): VmRec {
    VmRec(VmArmId(a.sub, a.rg, a.name), a.name, if a.location == "" then "eastus" else a.location, image, a.secret,
          VmContainer(a.rg, a.name), "running", identity)
  }

  function UpdatedVm(w: World, vm: VmRec, a: VmArgs, identity: Option<map<string, Assignment>>, blind: set<string>): VmRec {
    var located := if a.location == "" then vm else vm.(location := a.location);
    Refreshed(w, if a.identity.Absent? then located else located.(identity := identity), blind)
  }

  function PutVm(w: World, a: VmArgs, env: Env): (World, Reply) {
    var k := VmKey(a.sub, a.rg, a.name);
    var resolved := ResolveIdentity(w.store, a.identity);
    if RgKey(a.sub, a.rg) !in w.store then (w, RgNotFound)
    else if a.image.None? then (w, BadRequest)
    else if resolved.Refused? then (w, BadRequest)
    else if GetVm(w.store, k).Some? then
      (w.(store := w.store[k := VmVal(UpdatedVm(w, w.store[k].vm, a, Identity(resolved), env.blind))]), Success)
    else Provisioned(w, a, Identity(resolved), env)
  }

  // The part of it for a VM that does not exist yet.
  function Provisioned(w: World, a: VmArgs, identity: Option<map<string, Assignment>>, env: Env): (World, Reply)
    requires a.image.Some?
  {
    var c, n := VmContainer(a.rg, a.name), VmNetwork(a.rg, a.name);
    if !w.docker then (w.(store := WithVm(w.store, a, identity)), Created)
    else if !env.netOk && n !in w.networks then (w, StartFailed)
    else if !env.runOk then
      (w.(containers := Ran(w.containers - {c}, c, false, env.leftover), networks := w.networks - {n}), StartFailed)
    else (w.(store := WithVm(w.store, a, identity), containers := w.containers[c := true], networks := w.networks + {n}), Created)
  }

  function WithVm(store: map<Key, Value>, a: VmArgs, identity: Option<map<string, Assignment>>): map<Key, Value>
    requires a.image.Some?
  {
    var k := VmKey(a.sub, a.rg, a.name);
    store[k := VmVal(NewVm(a, a.image.value, identity))][SecretKey(a.secret) := SecretVal(k)]
  }

  // GET on a VM refreshes its record.
  function ReadVm(w: World, k: Key, env: Env): (World, Reply) {
    if GetVm(w.store, k).None? then (w, NotFound) else (RefreshVm(w, k, w.store[k].vm, env.blind), Success)
  }

  ghost function Services(store: map<Key, Value>, sub: string, rg: string, vm: string): set<Key> {
    set k | k in store && k.SvcKey? && k.sub == sub && k.rg == rg && k.vm == vm
  }

  ghost function SvcContainers(store: map<Key, Value>, ks: set<Key>): set<string> {
    set k | k in ks && k in store && store[k].SvcVal? && store[k].svc.containerName != "" :: store[k].svc.containerName
  }

  ghost function DeleteVm(w: World, sub: string, rg: string, name: string): (World, Reply) {
    var k := VmKey(sub, rg, name);
    if GetVm(w.store, k).None? then (w, NotFound)
    else
      var services := Services(w.store, sub, rg, name);
      var secrets := if w.store[k].vm.secret != "" then {SecretKey(w.store[k].vm.secret)} else {};
      var w' := w.(store := w.store - services - secrets - {k});
      if !w.docker then (w', NoContent)
      else (w'.(containers := w.containers - SvcContainers(w.store, services) - {VmContainer(rg, name)},
                networks := w.networks - {VmNetwork(rg, name)}), NoContent)
  }

  datatype Action = Start | PowerOff | Restart

  // Every container of cs that exists and answers is switched.
  ghost function Switch(containers: map<string, bool>, cs: set<string>, fails: set<string>, on: bool): map<string, bool> {
    map c | c in containers :: if c in cs && c !in fails then on else containers[c]
  }

  predicate Answers(containers: map<string, bool>, c: string, fails: set<string>) {
    c in containers && c !in fails
  }

  ghost function Stopped(containers: map<string, bool>, vm: string, svcs: set<string>, fails: set<string>): map<string, bool> {
    Switch(containers, svcs + {vm}, fails, false)
  }

  ghost function Started(containers: map<string, bool>, vm: string, svcs: set<string>, fails: set<string>): map<string, bool> {
    if Answers(containers, vm, fails) then Switch(containers, svcs + {vm}, fails, true) else containers
  }

  // Starting what runs and stopping what is stopped do nothing.
  predicate Idle(action: Action, power: string) {
    (action.Start? && power == "running") || (action.PowerOff? && power == "stopped")
  }

  // A restart ignores what the stopping half says.
  ghost function Acted(containers: map<string, bool>, vm: string, svcs: set<string>, env: Env, action: Action)
    : map<string, bool>
  {
    match action
    case Start => Started(containers, vm, svcs, env.startFails)
    case PowerOff => Stopped(containers, vm, svcs, env.stopFails)
    case Restart => Started(Stopped(containers, vm, svcs, env.stopFails), vm, svcs, env.startFails)
  }

  predicate Succeeds(containers: map<string, bool>, vm: string, env: Env, action: Action) {
    Answers(containers, vm, if action.PowerOff? then env.stopFails else env.startFails)
  }

  ghost function Power(w: World, sub: string, rg: string, name: string, action: Action, env: Env): (World, Reply) {
    var k := VmKey(sub, rg, name);
    if GetVm(w.store, k).None? then (w, NotFound)
    else if !w.docker then (w, DockerUnavailable)
    else
      var c, svcs := VmContainer(rg, name), SvcContainers(w.store, Services(w.store, sub, rg, name));
      var w0 := RefreshVm(w, k, w.store[k].vm, env.blind);
      var idle := Idle(action, w0.store[k].vm.power);
      var containers := if idle then w.containers else Acted(w.containers, c, svcs, env, action);
      var w1 := w0.(containers := containers);
      if !idle && !Succeeds(w.containers, c, env, action) then (w1, StartFailed)
      else (RefreshVm(w1, k, w1.store[k].vm, env.blindAfter), Success)
  }

  // ---- Services of a VM ----

  datatype SvcInput = SvcInput(image: string, ports: seq<int>)

  // input: None when parseServiceInput rejects the body.
  datatype SvcArgs = SvcArgs(sub: string, rg: string, vm: string, svc: string, input: Option<SvcInput>)

  // ^[a-z0-9-]{1,40}$
  predicate ServiceName(s: string) {
    1 <= |s| <= 40 && forall c :: c in s ==> 'a' <= c <= 'z' || '0' <= c <= '9' || c == '-'
  }

  // A sibling service, recognised by its record's name, exposes one of the ports.
  ghost predicate Conflict(store: map<Key, Value>, a: SvcArgs, ports: seq<int>) {
    exists k :: k in Services(store, a.sub, a.rg, a.vm) && store[k].SvcVal? && store[k].svc.name != a.svc
             && exists p :: p in store[k].svc.ports && p in ports
  }

  function NewSvc(a: SvcArgs, input: SvcInput): SvcRec {
    SvcRec(a.svc, input.image, SvcContainer(a.rg, a.vm, a.svc), input.ports, "running")
  }

  ghost function PutService(w: World, a: SvcArgs, env: Env): (World, Reply) {
    var k := VmKey(a.sub, a.rg, a.vm);
    if GetVm(w.store, k).None? then (w, NotFound)
    else if !ServiceName(a.svc) then (w, BadRequest)
    else if a.input.None? then (w, BadRequest)
    else if !w.docker then (w, DockerUnavailable)
    else
      var w0 := RefreshVm(w, k, w.store[k].vm, env.blind);
      if w0.store[k].vm.power != "running" then (w0, VmNotRunning)
      else if Conflict(w.store, a, a.input.value.ports) then (w0, PortConflict)
      else Deploy(w0, a, env)
  }

  ghost function Deploy(w: World, a: SvcArgs, env: Env): (World, Reply)
    requires a.input.Some?
  {
    var key, c := SvcKey(a.sub, a.rg, a.vm, a.svc), SvcContainer(a.rg, a.vm, a.svc);
    var replacing := key in w.store;
    var cleared := if replacing then w.containers - {c} else w.containers;
    if !env.runOk || c in cleared then
      (w.(store := w.store - {key}, containers := Ran(cleared, c, env.runOk, env.leftover)), StartFailed)
    else
      (w.(store := w.store[key := SvcVal(NewSvc(a, a.input.value))], containers := cleared[c := true]),
       if replacing then Success else Created)
  }

  function RefreshedSvc(w: World, svc: SvcRec, env: Env): SvcRec {
    if !w.docker || svc.containerName == "" then svc
    else if SeenRunning(w, svc.containerName, env.blind) then svc.(status := "running")
    else if env.exit.Some? && env.exit.value != 0 then svc.(status := "failed")
    else svc.(status := "stopped")
  }

  function ReadService(w: World, k: Key, env: Env): (World, Reply) {
    if k !in w.store || !w.store[k].SvcVal? then (w, NotFound)
    else (w.(store := w.store[k := SvcVal(RefreshedSvc(w, w.store[k].svc, env))]), Success)
  }

  function DeleteService(w: World, k: Key): (World, Reply) {
    if k !in w.store || !w.store[k].SvcVal? then (w, NotFound)
    else
      var c := w.store[k].svc.containerName;
      (w.(store := w.store - {k}, containers := if w.docker && c != "" then w.containers - {c} else w.containers), NoContent)
  }
}
