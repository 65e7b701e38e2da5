/** The data the services share: stored records, the Docker daemon they drive, and
    the whole as one value, the World, on which the services are specified. */
module Worlds {
  import opened Options
  import opened Keys

  datatype Assignment = Assignment(principalId: string, clientId: string)

  datatype VmRec = VmRec(
    id: string, name: string, location: string, image: string, secret: string,
    containerName: string, power: string, identity: Option<map<string, Assignment>>)

  datatype SvcRec = SvcRec(name: string, image: string, containerName: string, ports: seq<int>, status: string)

  datatype TokenRec = TokenRec(identityId: string, vmId: string, clientId: string, expiresOn: int)

  // The index stores the flat key of a VM.
  type VmId = k: Key | k.VmKey? witness VmKey("", "", "")

  datatype Value =
    | RgVal(location: string)
    | VmVal(vm: VmRec)
    | SvcVal(svc: SvcRec)
    | SecretVal(owner: VmId)
    | IdVal(id: Assignment)
    | TokenVal(token: TokenRec)
    | ClusterVal(handle: Option<string>)
    | OtherVal(text: string)

  /** store: the entries by key. containers: every container the daemon knows, with
      whether it runs. docker: the VM handler found Docker at start-up. disabled:
      MINIBLUE_DISABLE_DOCKER is set. probe: the cascade's memoised Docker probe.
      realMode: the AKS handler uses k3s containers. */
  datatype World = World(
    store: map<Key, Value>, containers: map<string, bool>, networks: set<string>,
    docker: bool, disabled: bool, probe: Option<bool>, realMode: bool)

  /** What Docker answers during one request: whether network create and run succeed and
      whether a run that fails leaves its container behind (created, not started, as when a
      port is taken), whether a k3s node gets a port and becomes ready, which containers refuse to
      stop and which to start, which cannot be inspected before and after an action,
      the exit code inspect reports, and what a fresh probe says. */
  datatype Env = Env(netOk: bool, runOk: bool, leftover: bool, portOk: bool, readyOk: bool,
                     stopFails: set<string>, startFails: set<string>, blind: set<string>, blindAfter: set<string>,
                     exit: Option<int>, probe: bool)

  datatype Reply =
    | Created | Success | NoContent | Accepted | BadRequest | NotFound | RgNotFound | StartFailed
    | DockerUnavailable | VmNotRunning | PortConflict | BackendFailed

  // ---- Names of the Docker objects a record owns ----

  function VmContainer(rg: string, name: string): string { "miniblue-vm-" + rg + "-" + name }

  function VmNetwork(rg: string, name: string): string { "miniblue-vmnet-" + rg + "-" + name }

  function SvcContainer(rg: string, vm: string, svc: string): string { "miniblue-vmsvc-" + rg + "-" + vm + "-" + svc }

  datatype Kind = VmKind | NetKind | SvcKind | AksKind | Foreign

  // The part of a name that tells the families of managed objects apart.
  function KindOf(c: string): Kind {
    if |c| >= 12 && c[..12] == "miniblue-vm-" then VmKind
    else if |c| >= 15 && c[..15] == "miniblue-vmnet-" then NetKind
    else if |c| >= 15 && c[..15] == "miniblue-vmsvc-" then SvcKind
    else if |c| >= 13 && c[..13] == "miniblue-aks-" then AksKind
    else Foreign
  }

  lemma NameKinds()
    ensures forall r, n :: KindOf(VmContainer(r, n)) == VmKind
    ensures forall r, n :: KindOf(VmNetwork(r, n)) == NetKind
    ensures forall r, v, n :: KindOf(SvcContainer(r, v, n)) == SvcKind
    ensures KindOf("") == Foreign
  {
    forall r, v, n ensures KindOf(SvcContainer(r, v, n)) == SvcKind {
      var c := SvcContainer(r, v, n);
      assert c[..15] == "miniblue-vmsvc-";
      assert c[..12][11] == c[11] == 's';
    }
    forall r, n ensures KindOf(VmNetwork(r, n)) == NetKind {
      var c := VmNetwork(r, n);
      assert c[..15] == "miniblue-vmnet-";
      assert c[..12][11] == c[11] == 'n';
    }
    forall r, n ensures KindOf(VmContainer(r, n)) == VmKind {
      var c := VmContainer(r, n);
      assert c[..12] == "miniblue-vm-";
    }
  }

  // Two VMs share a container name exactly when they share a network name.
  lemma SameContainerSameNetwork(r1: string, n1: string, r2: string, n2: string)
    ensures VmContainer(r1, n1) == VmContainer(r2, n2) <==> VmNetwork(r1, n1) == VmNetwork(r2, n2)
  {
    var a, b := r1 + "-" + n1, r2 + "-" + n2;
    assert VmContainer(r1, n1) == "miniblue-vm-" + a && VmContainer(r2, n2) == "miniblue-vm-" + b;
    assert VmNetwork(r1, n1) == "miniblue-vmnet-" + a && VmNetwork(r2, n2) == "miniblue-vmnet-" + b;
    assert ("miniblue-vm-" + a)[12..] == a && ("miniblue-vm-" + b)[12..] == b;
    assert ("miniblue-vmnet-" + a)[15..] == a && ("miniblue-vmnet-" + b)[15..] == b;
  }

  // The containers after docker run: a name in use refuses it.
  function Ran(containers: map<string, bool>, name: string, ok: bool, leftover: bool): map<string, bool> {
    if name in containers then containers
    else if ok then containers[name := true]
    else if leftover then containers[name := false]
    else containers
  }

  /** The Docker daemon. Each command but run either happens or changes nothing; removals
      succeed. ok is the environment's answer. */
  class Docker {
    var containers: map<string, bool>
    var networks: set<string>

    constructor ()
      ensures containers == map[] && networks == {}
    {
      containers, networks := map[], {};
    }

    method Run(name: string, ok: bool, leftover: bool) returns (success: bool)
      modifies this`containers
      ensures success == (ok && name !in old(containers))
      ensures containers == Ran(old(containers), name, ok, leftover)
    {
      success := ok && name !in containers;
      if success {
        containers := containers[name := true];
      } else if name !in containers && leftover {
        containers := containers[name := false];
      }
    }

    method Remove(name: string)
      modifies this`containers
      ensures containers == old(containers) - {name}
    {
      containers := containers - {name};
    }

    // "already exists" counts as success.
    method NetworkCreate(name: string, ok: bool) returns (success: bool)
      modifies this`networks
      ensures success == (ok || name in old(networks))
      ensures networks == if success then old(networks) + {name} else old(networks)
    {
      success := ok || name in networks;
      if success { networks := networks + {name}; }
    }

    method NetworkRemove(name: string)
      modifies this`networks
      ensures networks == old(networks) - {name}
    {
      networks := networks - {name};
    }

    // An inspection that fails reads as "not running".
    method InspectRunning(name: string, ok: bool) returns (running: bool)
      ensures running == (ok && name in containers && containers[name])
    {
      running := ok && name in containers && containers[name];
    }

    method Start(name: string, ok: bool) returns (success: bool)
      modifies this`containers
      ensures success == (ok && name in old(containers))
      ensures containers == if success then old(containers)[name := true] else old(containers)
    {
      success := ok && name in containers;
      if success { containers := containers[name := true]; }
    }

    method Stop(name: string, ok: bool) returns (success: bool)
      modifies this`containers
      ensures success == (ok && name in old(containers))
      ensures containers == if success then old(containers)[name := false] else old(containers)
    {
      success := ok && name in containers;
      if success { containers := containers[name := false]; }
    }
  }
}
