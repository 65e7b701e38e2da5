/** Resource groups: creation, and the cascade that empties one. */
module GroupSpec {
  import opened Options
  import opened Text
  import opened Keys
  import opened Worlds
  import opened VmSpec
  import opened AksSpec

  function PutGroup(w: World, sub: string, rg: string, location: Option<string>): (World, Reply) {
    var k := RgKey(sub, rg);
    if location.None? || location.value == "" then (w, BadRequest)
    else (w.(store := w.store[k := RgVal(location.value)]), if k in w.store then Success else Created)
  }

  // The key families the cascade clears, in the order it clears them.
  const BEFORE_CLUSTERS: seq<seq<string>> := [
    ["vnet"], ["subnet"], ["func"], ["acr", "registry"], ["eg", "topic"], ["dns", "zone"], ["dns", "record"], ["redis"],
    ["pgflex", "server"], ["pgflex", "db"], ["dbmysql", "server"], ["dbmysql", "db"], ["sqldb", "server"], ["sqldb", "db"],
    ["aci", "containergroup"]]

  const AFTER_VMS: seq<seq<string>> := [
    ["vm"], ["vmsvc"], ["msi", "identity"], ["nsg"], ["nsgrule"], ["publicip"], ["lb"], ["appgw"], ["blob", "account"],
    ["blob", "armcontainer"], ["cosmos", "account"], ["cosmos", "sqldb"], ["cosmos", "container"], ["sb", "namespace"],
    ["sb", "armqueue"], ["sb", "armtopic"], ["appconfig", "store"]]

  const FAMILIES: seq<seq<string>> := BEFORE_CLUSTERS + [["aks", "cluster"]] + AFTER_VMS

  // k lies under "family:sub:rg:" for one of the families.
  ghost predicate InCascade(fs: seq<seq<string>>, sub: string, rg: string, k: Key) {
    exists i :: 0 <= i < |fs| && ProperPrefix(fs[i] + [sub, rg], Segs(k))
  }

  ghost function VmsIn(store: map<Key, Value>, sub: string, rg: string): set<Key> {
    set k | k in store && k.VmKey? && k.sub == sub && k.rg == rg && store[k].VmVal?
  }

  ghost function SecretsIn(store: map<Key, Value>, sub: string, rg: string): set<Key> {
    set k | k in VmsIn(store, sub, rg) && store[k].vm.secret != "" :: SecretKey(store[k].vm.secret)
  }

  // CleanupVMsInRG finds a VM's Docker objects by the name inside its record.
  ghost function NamedVmsIn(store: map<Key, Value>, sub: string, rg: string): set<Key> {
    set k | k in VmsIn(store, sub, rg) && store[k].vm.name != ""
  }

  ghost function VmContainersIn(store: map<Key, Value>, sub: string, rg: string): set<string> {
    set k | k in NamedVmsIn(store, sub, rg) :: VmContainer(rg, store[k].vm.name)
  }

  ghost function VmNetworksIn(store: map<Key, Value>, sub: string, rg: string): set<string> {
    set k | k in NamedVmsIn(store, sub, rg) :: VmNetwork(rg, store[k].vm.name)
  }

  ghost function SvcContainersIn(store: map<Key, Value>, sub: string, rg: string): set<string> {
    set k, x | k in NamedVmsIn(store, sub, rg) && x in SvcContainers(store, Services(store, sub, rg, store[k].vm.name)) :: x
  }

  // checkDockerCached: the answer, and the memo it leaves.
  function ProbeOnce(disabled: bool, memo: Option<bool>, answer: bool): (bool, Option<bool>) {
    if disabled then (false, memo)
    else if memo.None? then (answer, Some(answer))
    else (memo.value, memo)
  }

  function Probed(w: World, env: Env): (bool, Option<bool>) {
    ProbeOnce(w.disabled, w.probe, env.probe)
  }

  ghost function Cleared(store: map<Key, Value>, sub: string, rg: string): map<Key, Value> {
    map k | k in store && k != RgKey(sub, rg) && !InCascade(FAMILIES, sub, rg, k) && k !in SecretsIn(store, sub, rg) :: store[k]
  }

  ghost function DeleteGroup(w: World, sub: string, rg: string, env: Env): (World, Reply) {
    if RgKey(sub, rg) !in w.store then (w, NotFound)
    else
      var (dockerOk, probe) := Probed(w, env);
      var kept := w.containers - Handles(w.store, ClustersIn(w.store, sub, rg));
      var w' := w.(store := Cleared(w.store, sub, rg), containers := kept, probe := probe);
      if !dockerOk then (w', Accepted)
      else (w'.(containers := kept - SvcContainersIn(w.store, sub, rg) - VmContainersIn(w.store, sub, rg),
                networks := w.networks - VmNetworksIn(w.store, sub, rg)), Accepted)
  }
}
