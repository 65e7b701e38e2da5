# miniblue: a verified model

miniblue emulates Azure on one machine: HTTP handlers keep resources in one flat
string-keyed store and drive a Docker daemon. This project models the parts whose
correctness is not visible in any single function, and proves it.

* **Store** (`MemoryBackend`, `Keys`, `KeyedStore`, `Text`). One string map stands in for
  a nested map. Prefix listing and deletion on the strings are shown equal to filters on
  structured keys, with the exact condition (no colons) under which keys are unambiguous.
* **Virtual machines, services, identities, clusters, resource groups** (`World`,
  `*Spec`, `*Handler`, `*Proofs`, `Invariant`, `Cascade`, `Operations`, `Frames`, `Reach`,
  `StoreRuns`, `System`, `Isolation`, `Witnesses`, `*Outcomes`). The `World` is the
  store together with Docker's containers and networks. Each handler is an imperative
  method on a shared `Machine`, proved equal to a function from World, request and
  Docker's answers (`Env`) to the new World and the reply. On these functions the
  invariant is proved for every request, and then for whole runs, in any order, with
  any failures. Its store half (`StoreRuns`: secrets, references, ports, tokens) holds in
  every mode of the emulator and asks nothing of Docker. Its k3s half (`System`) holds whether
  or not the VM service has Docker: with k3s from the empty system or from the reaping at
  start-up, and with stub clusters from a daemon without k3s containers. Its ownership half
  (`System`) is about runs with Docker. `Reach` and `Isolation` show that a request reaches
  nothing but what it is about, and `Witnesses` reaches the bad cases from the empty system.
  The `*Outcomes` say of every request, without the functions that compute it, what it
  answers and what is found afterwards.
* **File backend** (`FileBackend`, `GoValues`, `Json`). Writers, savers and crashes as interleaved atomic steps.
* **Service Bus** (`ServiceBus`, `Decimal`). The flat store with padded decimal ids refines
  plain FIFO queues, up to an exact numeric bound.
* **Shared Key** (`Whitespace`, `Visiting`, `Canonical`, `Query`, `Base64`, `SharedKey`, `SignedText`).
  The string to sign does not depend on any map's iteration order, and it tells every part of
  the request it is made of; verification undoes signing.
* **Kubeconfig** (`Kubeconfig`), **templates** (`Template`), **public IPs** (`PublicIp`), and
  the regular expressions all of these use (`Patterns`).

Some promises do not hold of the code as it stands. Each of these is proved with its
exact condition, and where it takes a run to get there a run:

* container names that drop the subscription (`VmProofs.PutVmKeeps`, `Witnesses.NameClashHappens`);
* a failed `docker run` that is to leave nothing behind (`VmProofs.PutVmKeeps`,
  `SvcProofs.PutServiceKeeps`, `Witnesses.FailedRunLitters`) and blocks the service from then
  on (`SvcProofs.LeftoverBlocks`, `Witnesses.FailedDeployBlocks`);
* the cascade without Docker or with an unnamed VM (`GroupProofs.DeleteGroupKeeps`,
  `Witnesses.CascadeOrphans`), and keys that read like another family's (`Cascade.CascadeExactly`);
* a failed second PUT of a cluster (`AksProofs.PutClusterLiveIff`, `Witnesses.RePutLosesNode`);
* a cluster record given up by a process without k3s (`AksProofs.DeleteClusterHoldsIff`,
  `AksProofs.PutClusterHoldsIff`, `Witnesses.StubRestartOrphans`);
* names with colons (`Keys.VmKeyUnambiguous`, `ServiceBus.ServiceBusHandler.SendMessage`);
* message ids beyond ten digits (`ServiceBus.HeadFirstIff`, `ServiceBus.SecondOvertakes`);
* reloading Go structs (`FileStore.RestartRestores`);
* an identity with an empty name (`ArmIds.ArmIdRoundTrip`);
* unnamed entries in a kubeconfig list (`Kubeconfig.MergeIdempotentIff`);
* supplied parameters that hold references (`Template.StagingIff`);
* an empty account name (`SharedKey.SignThenVerify`).

Of the function `sanitizeDockerName` alone, without the check in front of it,
`AksSpec.SanitizedStartIff` says when its comment about the first character holds.

What is asked of the surroundings: Docker's `run` starts the container or fails, and a
failed one changes nothing or leaves the container created and not started; `network create`
happens or changes nothing, removals succeed, and nobody else touches the emulator's own
containers; the clock does not run backwards; secrets are fresh; SHA-256 and the token
encoding are injective functions, HMAC any function to 32 bytes, URL decoding and query parsing any
functions; request bodies and YAML files are taken as decoded. A Go map is visited in an
arbitrary order: where the source ranges over a map, the method picks any remaining key.

`dafny verify dfyconfig.toml` checks the whole project.

## Model

Members are written as Module.Member or Module.Class.Member.

| member | source | states |
|---|---|---|
| Memory.MemoryBackend.ListKeysByPrefix | internal/store/memory.go:66-76 | The keys returned are exactly the stored keys with the prefix, each once, whatever order the map is visited in. |
| Memory.MemoryBackend.ListByPrefix | internal/store/memory.go:54-64 | The values returned are those stored under the keys with the prefix, one per key. |
| Memory.MemoryBackend.CountByPrefix | internal/store/memory.go:78-88 | The count is the number of stored keys with the prefix. |
| Memory.MemoryBackend.DeleteByPrefix | internal/store/memory.go:97-108 | Deleting while iterating removes exactly the entries with the prefix, keeps the others unchanged, and returns how many went. |
| Memory.MemoryBackend.Snapshot | internal/store/memory.go:116-124 | The copy equals the whole map. |
| Text.PrefixScan | internal/store/memory.go:54-64 | A scan for p + ":" selects a string if and only if its colon-separated words properly extend the words of p, so no word is matched half way. |
| Text.EqualFoldIff | internal/services/vm/identity.go:24-29 | Two strings fold to the same if and only if they differ in the case of ASCII letters at most. |
| Keys.FlatAsInSource | internal/services/vm/model.go:14-24 | The structured keys print as the strings the source concatenates. |
| Keys.FlatInjective | internal/services/vm/model.go:14-24 | A stored key with colon-free words is the only structured key with its string, even against keys with colons. |
| Keys.VmKeyUnambiguous | internal/services/vm/model.go:14-16 | A VM's key string denotes that VM alone if and only if subscription, group and name hold no colon; otherwise another VM has the same key. |
| Keys.FlatPrefixScan | internal/store/memory.go:54-64 | On clean keys a prefix scan on the flat string equals the filter on the structured key. |
| Keyed.PutRepresents | internal/services/vm/model.go:14-24 | Storing under any typed key, colons or not, keeps the flat map and the structured one equal, and all stored keys colon-free if and only if this one is. |
| Keys.ServicePrefix | internal/services/vm/handler.go:100-109 | The keys under vmsvc:sub:rg:vm: are exactly the services of that VM. |
| Keys.VmPrefix | internal/services/vm/cascade.go:17-17 | The keys under vm:sub:rg: are exactly the VMs of that group. |
| Keyed.KeyedStore.ListByPrefix | internal/store/memory.go:54-64 | Listing a flat prefix returns the values filed under the structured prefix, one per key. |
| Keyed.KeyedStore.DeleteByPrefix | internal/store/memory.go:97-108 | Deleting a flat prefix removes exactly the keys under the structured prefix and keeps the two readings of the store equal. |
| ArmIds.ArmIdRoundTrip | internal/services/vm/identity.go:21-33 | For slash-free words, parsing the printed identity id gives the identity's key back if and only if the name is not empty. |
| Text.TrimIs | internal/services/vm/identity.go:22-22 | Trimming a character leaves the text between two runs of it, which neither begins nor ends with it. |
| ArmIds.StrictKeyIff | internal/services/vm/identity.go:21-33 | A text is accepted as an identity's id if and only if between any slashes around it it is the path of eight slash-free words with the five fixed ones in any case of letters; the key is made of the other three. |
| ArmIds.LooseKeyIff | internal/services/identity/handler.go:305-313 | The other parser takes any eight slash-free words. |
| ArmIds.ParsersAgree | internal/services/identity/handler.go:305-313 | Every id the VM parser accepts gives the same key in the identity parser, which accepts exactly the ids of eight words: the two are not the same parser, although its comment says they are kept in sync. |
| VmHandlers.VmHandler.Resolve | internal/services/vm/identity.go:39-81 | The loop over the assignments, in any order, refuses exactly when some id is malformed or names no identity, and otherwise pairs every id with that identity's principal and client ids. |
| VmHandlers.VmHandler.CreateOrUpdateVm | internal/services/vm/handler.go:136-244 | For any names, the whole new state of store and Docker and the reply, for every answer of Docker: not-found group, bad image or identity, update in place, failed network, failed run with clean-up, success. All stored keys stay colon-free if and only if no VM is created under a name with a colon. |
| VmHandlers.VmHandler.GetVirtualMachine | internal/services/vm/handler.go:246-259 | Reading sets the power state to what an inspection says (a failing one says stopped) and changes nothing else. |
| VmHandlers.VmHandler.DeleteVirtualMachine | internal/services/vm/handler.go:286-314 | Removes the VM, its services, its secret entry, and in Docker mode their containers and the network; nothing else. |
| VmHandlers.VmHandler.PowerAction | internal/services/vm/handler.go:320-382 | The source's order of refreshes, stops and starts, with any containers refusing to stop, any refusing to start and any not inspectable before or after, ends in the World and reply that the three outcomes below describe. |
| VmOutcomes.PowerOffOutcome | internal/services/vm/handler.go:363-367 | powerOff of a VM seen to run stops its container and its services', all that do not refuse, and answers Success with the VM recorded as stopped, or StartFailed exactly when the VM's own container refuses; of a VM not seen to run it switches nothing. |
| VmOutcomes.StartOutcome | internal/services/vm/handler.go:358-362 | start of a VM not seen to run starts its container and then its services', all that do not refuse, and answers Success; if the VM's own container is missing or refuses it answers StartFailed and starts nothing; of a VM seen to run it switches nothing. |
| VmOutcomes.RestartOutcome | internal/services/vm/handler.go:368-376 | restart always stops and starts: each container ends running unless it refuses to start, and then stopped unless it refused to stop too; it fails exactly when the VM's own container is missing or refuses to start, with everything stopped that could be. |
| VmOutcomes.PowerRefused | internal/services/vm/handler.go:320-334 | Without a record the answer is not-found, without Docker unavailable, and nothing changes. |
| VmOutcomes.PutVmAnswers | internal/services/vm/handler.go:136-244 | Which of its five answers PUT gives, for every request, state and behaviour of Docker; a refused request changes nothing, a failed start no record. |
| VmOutcomes.CreatedOutcome | internal/services/vm/handler.go:201-243 | After Created the record holds the image, location, secret and identities asked for (each identity with its stored ids), the secret leads to the VM, and in Docker mode its container runs in its network. |
| VmOutcomes.UpdatedOutcome | internal/services/vm/handler.go:172-199 | PUT on an existing VM changes the location if one is named and the identities if anything is said of them, brings the power state up to date and leaves all else, image and container included, as it was. |
| VmOutcomes.ResolveCarries | internal/services/vm/identity.go:39-81 | An identity block is refused if and only if its type is neither empty, None nor UserAssigned in any case of letters, or it assigns nothing, or some id is no id of a stored identity; otherwise every id assigned carries that identity's principal and client ids. |
| VmOutcomes.ReadVmOutcome | internal/services/vm/handler.go:246-259 | GET finds exactly the stored VMs and reports running if and only if the container is seen to run. |
| VmOutcomes.DeleteVmOutcome | internal/services/vm/handler.go:286-314 | DELETE finds exactly the stored VMs, and which entries, containers and network go, one by one. |
| VmProofs.RestartHalfway | internal/services/vm/handler.go:369-376 | A restart that stops everything and is refused when starting the VM's container is reported as failed and leaves the VM and its services stopped. |
| Machines.Machine.ServiceRecords | internal/services/vm/handler.go:100-109 | Lists exactly the records of that VM's services. |
| Machines.Machine.Refresh | internal/services/vm/handler.go:84-98 | Sets the power state to running exactly when the container can be inspected and runs; without Docker, or without a container name, the record stays. |
| Machines.Machine.TearDown | internal/services/vm/handler.go:297-305 | Removes exactly the containers of that VM's services, its own container and its network. |
| VmProofs.PutVmKeeps | internal/services/vm/handler.go:201-243 | Creating or updating a VM, whatever Docker answers, keeps the invariant if and only if it does not start a VM under a container name another VM already has (the name leaves out the subscription and joins with '-'), and docker run does not fail and leave the container it created: the clean-up removes the network only. |
| VmProofs.ReadVmKeeps | internal/services/vm/handler.go:84-98 | Refreshing keeps the invariant. |
| VmProofs.PowerKeeps | internal/services/vm/handler.go:358-381 | Every power action keeps the invariant, failed ones included. |
| VmProofs.DeleteVmKeeps | internal/services/vm/handler.go:286-314 | Deleting a VM keeps the invariant: none of its containers, networks, secrets or service records is left without its record. |
| SvcHandlers.SvcHandler.PortTaken | internal/services/vm/services.go:135-153 | The triple loop reports a conflict if and only if a service of another name exposes one of the requested ports. |
| SvcHandlers.SvcHandler.CreateOrUpdateService | internal/services/vm/services.go:96-220 | The whole new state and reply: each rejection in order, replacement, failed redeployment that drops the record with the container, success. |
| SvcHandlers.SvcHandler.GetService | internal/services/vm/services.go:68-94 | The status becomes running, failed or stopped as Docker reports; nothing else changes. |
| SvcHandlers.SvcHandler.RemoveService | internal/services/vm/services.go:256-281 | Removes the record and its container, and nothing else. |
| SvcOutcomes.PutServiceAnswers | internal/services/vm/services.go:96-220 | Which of its eight answers a deployment gives: in particular PortConflict exactly when another service of the VM has a record with one of the ports. |
| SvcOutcomes.DeployedOutcome | internal/services/vm/services.go:155-220 | After Created or Success the record holds the name, the image and all the ports asked for, the container runs, and every other container is as before. |
| SvcOutcomes.PortStaysTaken | internal/services/vm/services.go:128-189 | Over whole runs: once a deployment is answered with success, every request for another service of that VM with one of its ports is answered PortConflict while the VM is seen to run, for as long as no request is about the first service. |
| SvcOutcomes.ReadServiceOutcome | internal/services/vm/services.go:68-94 | GET finds exactly the stored services and reports running, failed or stopped by the container's state and exit code. |
| SvcOutcomes.DeleteServiceOutcome | internal/services/vm/services.go:256-281 | DELETE finds exactly the stored services; record and container go. |
| Patterns.ServiceNameFits | internal/services/vm/services.go:22-22 | A service's name is valid if and only if the regular expression takes it. |
| SvcProofs.PutServiceKeeps | internal/services/vm/services.go:155-209 | Deploying keeps the invariant (new, replacing, refused, or under a container name another VM's service has) if and only if docker run does not fail and leave the container it created. |
| SvcProofs.LeavesBlocked | internal/services/vm/services.go:162-178 | A failed deployment of that kind leaves the service's container and no record of the service. |
| SvcProofs.LeftoverBlocks | internal/services/vm/services.go:155-178 | From then on every deployment of that service that gets as far as docker run fails, whatever Docker would have said, and leaves container and store so: only a record makes the handler remove a container. |
| SvcProofs.PortConflictIsExact | internal/services/vm/services.go:128-153 | In every state of the store, with any containers, a request is refused for its ports exactly when the VM runs and a sibling exposes one of them, and the refusal changes nothing but the VM's refreshed power state. |
| SvcProofs.ReadServiceKeeps | internal/services/vm/services.go:222-237 | Reading a service keeps the invariant. |
| SvcProofs.DeleteServiceKeeps | internal/services/vm/services.go:256-281 | Deleting a service keeps the invariant. |
| IdentityHandlers.IdentityHandler.CreateOrUpdateIdentity | internal/services/identity/handler.go:66-126 | For any names: principal and client ids are minted once and stable under updates; a missing group is refused. All stored keys stay colon-free if and only if the stored name has no colon. |
| IdentityHandlers.IdentityHandler.Choose | internal/services/identity/handler.go:222-260 | Over any visiting order an assignment is chosen if and only if there is one to choose, and the chosen one matches; what that means is IdentityOutcomes.TokenOutcome. |
| IdentityHandlers.IdentityHandler.GetToken | internal/services/identity/handler.go:177-303 | The whole new state and reply of the token endpoint; the assignment it goes by is one the request means whenever there is one. |
| IdentityHandlers.IdentityHandler.RemoveIdentity | internal/services/identity/handler.go:148-160 | Removes the identity and nothing else, or reports that there is none. |
| IdentityHandlers.IdentityHandler.IntrospectToken | internal/services/identity/handler.go:335-365 | Active with the filed record, or inactive, deleting an expired record. |
| IdentityProofs.IssuedVouches | internal/services/identity/handler.go:198-292 | A token names a VM that holds the presented secret, and an identity of that VM's assignments which exists in the store, with its principal and client ids. |
| IdentityProofs.SecretIsKnownIff | internal/services/identity/handler.go:198-211 | In every mode a secret is accepted if and only if some stored VM holds it. |
| IdentityOutcomes.TokenOutcome | internal/services/identity/handler.go:198-292 | With a VM's secret a token is issued if and only if the assignment chosen is one the request means (the one with the ARM id asked for, else with the client id, else the VM's only one) and its identity is stored; otherwise the request is refused. The token carries that assignment's ids, the VM's, the resource asked for and a day's validity, and is filed so. |
| IdentityOutcomes.NoHolder | internal/services/identity/handler.go:177-211 | Without a secret the host's token, with a secret no VM holds a refusal; nothing changes. |
| IdentityOutcomes.AssignedIsIssued | internal/services/vm/handler.go:136-244 | Across the two services: a VM created with an identity gets, for its secret and that identity's id in any case of letters, a token with the ids of the stored identity. |
| IdentityOutcomes.DeletedIdentityRefused | internal/services/identity/handler.go:262-267 | A deleted identity is refused although it is still assigned. |
| IdentityOutcomes.PutIdentityOutcome | internal/services/identity/handler.go:66-126 | A new identity gets the minted ids, an existing one keeps its own, and nothing else changes. |
| IdentityOutcomes.DeleteIdentityOutcome | internal/services/identity/handler.go:148-160 | The identity goes and nothing else. |
| IdentityOutcomes.IdsAreStable | internal/services/identity/handler.go:66-126 | Over whole runs an identity keeps its ids, however often it is put again, until it or its group is deleted. |
| IdentityOutcomes.IntrospectOutcome | internal/services/identity/handler.go:335-365 | Active with the filed record up to its expiry; an expired record is deleted, and nothing else changes. |
| IdentityProofs.PutIdentityKeeps | internal/services/identity/handler.go:66-126 | Creating or updating an identity keeps the invariant. |
| IdentityProofs.DeleteIdentityKeeps | internal/services/identity/handler.go:148-160 | So does deleting one, although assignments may dangle. |
| AksHandlers.Sanitize | internal/services/aks/k3s_backend.go:59-80 | The rune loop equals the character-wise rewriting. |
| AksSpec.SanitizedIsLegal | internal/services/aks/k3s_backend.go:57-80 | The result is not empty and consists of lower-case letters, digits, '_', '.' and '-'. |
| AksSpec.SanitizedKeeps | internal/services/aks/k3s_backend.go:57-80 | Such a text that starts with a letter or digit is kept as it is. |
| AksOutcomes.SanitizedAt | internal/services/aks/k3s_backend.go:57-80 | Position by position: letters to lower case, other characters Docker does not allow to '_', an 'x' in front exactly when the first is '-', '_' or '.'. |
| AksOutcomes.ContainerNameFits | internal/services/aks/k3s_backend.go:52-55 | The container's name holds the cluster's name in full, up to 63 characters, and ends in the digest. |
| Patterns.ClusterNameFits | internal/services/aks/handler.go:37-37 | A cluster's name is valid if and only if the regular expression takes it. |
| AksSpec.SanitizedStartIff | internal/services/aks/k3s_backend.go:70-73 | Of the function alone: the first character is a letter or digit, as the comment asks, if and only if the name is empty or starts with a letter, digit, '-', '_' or '.'; any other first character becomes '_'. |
| AksSpec.ClusterNameStart | internal/services/aks/handler.go:118-121 | Every name that passes the check in front of a creation gives such a first character, so no request shows the difference. |
| AksSpec.AksContainerIsLegal | internal/services/aks/k3s_backend.go:52-55 | The container name is one Docker accepts all the same. |
| AksHandlers.AksHandler.Create | internal/services/aks/k3s_backend.go:82-122 | Whatever fails, only the container of that name is touched; it exists afterwards if and only if the creation succeeds, or docker run failed and left it. |
| AksHandlers.AksHandler.CreateOrUpdateCluster | internal/services/aks/handler.go:113-165 | For any names, the whole new state and reply, in k3s and in stub mode. All stored keys stay colon-free if and only if nothing is stored or subscription and group have no colon. |
| AksHandlers.AksHandler.RemoveCluster | internal/services/aks/handler.go:180-202 | Removes the record and, in k3s mode, its container. |
| AksHandlers.AksHandler.ShutDown | internal/services/aks/handler.go:219-251 | Removes every referenced container but those not finished at the deadline. |
| AksHandlers.AksHandler.ReapOrphans | internal/services/aks/k3s_backend.go:209-233 | Removes exactly the k3s containers no record refers to. |
| AksHandlers.CleanupClusters | internal/services/aks/cascade.go:21-33 | Removes exactly the containers the group's cluster records refer to. |
| AksOutcomes.PutClusterOutcome | internal/services/aks/handler.go:113-165 | With k3s: which answer a PUT gives; after success the node runs and the record names it, after a failure no record has changed, and no other container ever. |
| AksOutcomes.PutStubOutcome | internal/services/aks/handler.go:113-165 | Without k3s every valid request succeeds and writes a record without a node. |
| AksOutcomes.DeleteClusterOutcome | internal/services/aks/handler.go:180-202 | DELETE finds exactly the stored clusters; the record goes, and with k3s the node it names, and nothing else. |
| AksProofs.ReapHolds | internal/services/aks/k3s_backend.go:209-233 | After start-up reaping no k3s container lacks a record, and no referenced container was removed, whatever was there before. |
| AksProofs.PutClusterHoldsIff | internal/services/aks/handler.go:145-157 | Creating a cluster, in either mode, leaves no k3s container without a record (a failed second PUT and colliding digests included), except exactly when docker run fails and leaves a container no record refers to, or when, without k3s, the record it overwrites was the only one to refer to a live container. |
| AksProofs.PutClusterKeeps | internal/services/aks/handler.go:145-157 | So the whole invariant is kept if and only if neither happens. |
| AksProofs.DeleteClusterHoldsIff | internal/services/aks/handler.go:185-200 | Deleting a cluster, in either mode, leaves no k3s container without a record, except exactly when the emulator runs without k3s and the record was the only one to refer to a live container: the removal is guarded by the mode, not by the handle. |
| AksProofs.DeleteClusterKeeps | internal/services/aks/handler.go:185-200 | So the whole invariant is kept if and only if that does not happen. |
| AksProofs.ShutdownHolds | internal/services/aks/handler.go:219-251 | Shutdown orphans no k3s container, also when time runs out; when it does not, none is left. |
| AksProofs.ShutdownKeeps | internal/services/aks/handler.go:219-251 | Shutdown keeps the whole invariant. |
| AksProofs.PutClusterLiveIff | internal/services/aks/handler.go:145-157 | The other half, that every record has its container, survives a PUT if and only if the creation ends with a container of that name or no record refers to one: a failed re-PUT leaves a record without a container. |
| GroupHandlers.GroupHandler.CreateOrUpdate | internal/services/resourcegroups/handler.go:56-94 | For any names: creates or overwrites the group; an unreadable body or missing location is refused. All stored keys stay colon-free if and only if nothing is stored or subscription and group have no colon. |
| AksOutcomes.PutGroupOutcome | internal/services/resourcegroups/handler.go:56-94 | A group is stored under the location asked for; a body without one is refused and changes nothing. |
| GroupHandlers.CleanupVms | internal/services/vm/cascade.go:15-38 | Removes the secrets of the group's VMs, and, when the memoised probe found Docker, their containers, networks and service containers. |
| GroupHandlers.GroupHandler.DeleteAll | internal/services/resourcegroups/handler.go:143-192 | The thirty-three prefix deletes and the two clean-ups in between, in the source's order, leave exactly the cleared state. |
| AksOutcomes.DeleteGroupOutcome | internal/services/resourcegroups/handler.go:143-192 | DELETE finds exactly the stored groups; the group is gone afterwards, and Docker is probed only by the first cascade, never where it is disabled. |
| AksOutcomes.ProbeIsFinal | internal/services/vm/cascade.go:15-38 | Over whole runs: what the first cascade's probe said decides for every later one. |
| Cascade.CascadeIsGroup | internal/services/resourcegroups/handler.go:153-192 | For VMs, services, identities, clusters, groups, secrets and tokens, the cascade's string prefixes mean membership in the group: rg1 never touches rg10. |
| Cascade.CascadeExactly | internal/services/resourcegroups/handler.go:153-192 | For a resource of any family t:s:r:..., the cascade takes it if and only if the family is listed and it lies in that subscription and group, or the key is misread: the subscription asked for is a family's second word ("bap"), or the key's own second word completes a family's name (a data-plane entry cosmos:account:s:r:..., or a subscription called "account"). |
| Cascade.ShortKeysKept | internal/services/resourcegroups/handler.go:152-192 | Keys of three words or fewer, such as kv:vault:name, are never taken. |
| Cascade.BackendPoolMisread | internal/services/resourcegroups/handler.go:182-182 | Such a misreading exists: group g of subscription bap takes lb:bap:g:..., a family that is not listed. |
| GroupProofs.DeleteGroupIsExact | internal/services/resourcegroups/handler.go:143-192 | A group deletion removes of these records exactly the group, what is filed under it, and its VMs' secrets; no kept record changes. |
| GroupProofs.DeleteGroupFamilies | internal/services/resourcegroups/handler.go:143-192 | Of every other one- or two-word family it removes exactly the listed families' entries of that subscription and group, and the misread ones. |
| GroupProofs.DeleteGroupSparesShort | internal/services/resourcegroups/handler.go:143-192 | Entries under keys of three words or fewer stay unchanged. |
| GroupProofs.DeleteGroupHolds | internal/services/resourcegroups/handler.go:168-171 | The cascade leaves no k3s container without a record, whatever the VM service's Docker probe says. |
| GroupProofs.DeleteGroupKeeps | internal/services/vm/cascade.go:15-38 | Deleting an existing group keeps the invariant if and only if the group has no VM, or the probe found Docker and no VM of it has an empty name; otherwise a container is orphaned. |
| GroupProofs.PutGroupKeeps | internal/services/resourcegroups/handler.go:56-94 | Creating or updating a group keeps the invariant. |
| StoreRuns.StoreStarts | internal/store/memory.go:16-18 | A system with an empty store satisfies the store's half of the invariant, in every mode and with anything in Docker. |
| StoreRuns.StoreStepSound | internal/services/vm/handler.go:136-382 | In every mode (with or without Docker, k3s or stub clusters, taken container names, unreachable cascades), any request keeps: secret index and VMs inverse; services, VMs and identities resolving to VM and group; disjoint ports of sibling services; token file and issued tokens in step. It asks for a clock that does not run backwards and fresh secrets only. |
| StoreRuns.StoreRunSound | internal/services/vm/handler.go:136-382 | Hence every state of every run does. |
| StoreRuns.ActiveIffIssued | internal/services/identity/handler.go:335-365 | In every such state a token is active if and only if it was issued earlier and has not expired, and the report names the identity and VM it was issued for, which stood as the token says at issue. |
| StoreRuns.DeadSecretStaysDead | internal/services/identity/handler.go:198-211 | Once no VM holds a used secret, no continuation of the run makes the token endpoint accept it again. |
| StoreRuns.DeletedVmSecretIsDead | internal/services/vm/handler.go:307-311 | Deleting a VM puts its secret in that state. |
| StoreRuns.DeletedGroupSecretsAreDead | internal/services/vm/cascade.go:17-25 | So does deleting its resource group. |
| Systems.EffectHeldIff | internal/services/aks/handler.go:113-251 | Whatever the VM service has, with k3s or without, a request of any service keeps every k3s container owned by a record if and only if it is not a cluster PUT or DELETE that leaves one behind in the ways above. |
| Systems.RunK3sSound | internal/services/aks/handler.go:113-251 | Hence so does every run without such a request in which nobody else touches the emulator's containers. |
| Systems.StubRunIsTidy | internal/services/aks/handler.go:36-60 | In the default mode, on a daemon without k3s containers, no run has such a request, and none gets a k3s container. |
| Systems.ReapedRunSound | internal/services/aks/k3s_backend.go:209-233 | Started up with k3s and reaped, whatever containers an earlier process left, the k3s half holds over every such run from then on. |
| Systems.StartsSound | internal/store/memory.go:16-18 | The empty system with Docker satisfies the whole invariant, with k3s or stub clusters. |
| Systems.StepSound | internal/services/vm/handler.go:136-382 | With Docker, in addition: any request, with any answers of Docker but those that leave a container behind, keeps records, containers and networks owning each other one to one. |
| Systems.RunSound | internal/services/vm/handler.go:136-382 | Hence every state of every such run does. |
| Witnesses.NameClashHappens | internal/services/vm/model.go:26-32 | From the empty system: group rg in two subscriptions and a VM in the first; asking for the same name in the second breaks the invariant, whatever Docker answers. |
| Witnesses.CascadeOrphans | internal/services/vm/cascade.go:15-38 | From the empty system: one VM, and a group deletion whose Docker probe fails leaves its container without a record. |
| Witnesses.RePutLosesNode | internal/services/aks/k3s_backend.go:82-122 | From the empty system: a cluster that works, and a second PUT whose node never becomes ready leaves its record without a container. |
| Witnesses.StubRestartOrphans | internal/services/aks/handler.go:191-199 | From the empty system: a cluster that works, and a process started again without k3s, in which deleting the cluster and putting it again each leave its container without a record. |
| Witnesses.FailedRunLitters | internal/services/vm/handler.go:228-236 | From the empty system: a group, and a new VM whose docker run fails and leaves its container, with no record of the VM. |
| Witnesses.FailedDeployBlocks | internal/services/vm/services.go:155-178 | From the empty system: a VM, and a new service whose docker run fails and leaves its container; the same request then fails whatever Docker answers while the VM is seen to run. |
| Reach.EffectOutside | internal/services/vm/handler.go:201-382 | Whatever Docker answers, a request changes no container, running or stopped, and no network outside an explicit set: the VM's and its services', one service's, the group's, or k3s containers. |
| Reach.ForeignUntouched | internal/services/vm/model.go:26-36 | In every mode, no request touches a container or network whose name is not one of the emulator's. |
| Reach.AksUntouched | internal/services/aks/k3s_backend.go:52-55 | Only cluster requests, shutdown, reaping and group deletions create or remove a k3s container. |
| Isolation.RecordStays | internal/services/vm/handler.go:136-382 | In every mode a request changes no VM's or service's record it is not about. |
| Isolation.RunKeepsRecord | internal/services/vm/handler.go:136-382 | In every mode, over any run without a request about a VM or service its record never changes. |
| Isolation.StepIsolates | internal/services/vm/handler.go:136-382 | With Docker, in every reachable state a request leaves each VM and service it is not about as it was: record, container, running state and network, also across subscriptions whose container names clash. |
| Isolation.RunIsolates | internal/services/vm/handler.go:136-382 | With Docker, after such a run it still has its container and network too. |
| FileStore.StepGood | internal/store/file.go:47-66 | No single step of writers, savers or a crash leaves in state.json anything but a complete image of a past memory state, nor moves it back. |
| FileStore.RunGood | internal/store/file.go:45-90 | Nor does any interleaving of any number of them. |
| FileStore.BootRunGood | internal/store/file.go:19-43 | Hence over every run from the empty backend. |
| FileStore.SaveCovers | internal/store/file.go:47-66 | When Save returns without error, the memory state at its call, or a later one, is on disk. |
| GoValues.EncodeDecode | internal/store/file.go:32-41 | A JSON value survives being decoded into an interface value and encoded again. |
| GoValues.RoundTripIff | internal/store/file.go:32-52 | A Go value comes back from JSON as it was if and only if it is nil, bool, float64, plain string, or a generic slice or map of such, all the way down; structs, other numbers, named strings, typed nils and typed slices and maps do not. |
| GoValues.Reloaded | internal/store/file.go:32-52 | What comes back instead: numbers of any type as the same float64, named strings as plain ones, typed nils as nil, slices and maps as generic ones, a struct as the map of its shown fields. |
| FileStore.RestartRestores | internal/store/file.go:27-43 | A restart restores the saved state if and only if all its values are of that kind; its JSON text comes back in any case. |
| FileStore.ReloadSettles | internal/store/file.go:27-43 | Reloading what was reloaded changes nothing more. |
| FileStore.WithoutMutexDiskGoesBack | internal/store/file.go:48-49 | The mutex is needed: without it a run exists in which state.json goes back to an older state. |
| FileStore.FileBackend.ReadBack | internal/store/file.go:27-43 | The load loop fills the memory with the reloaded form of every entry; an absent or torn file gives an empty store. |
| FileStore.FileBackend.Save | internal/store/file.go:47-66 | state.json becomes the current memory on success and stays as it was on every failure. |
| Decimal.PadOrderIff | internal/services/servicebus/handler.go:175-182 | String order of zero-padded ids is numeric order for all ids up to top if and only if top is below 10^10. |
| ServiceBus.HeadSortsFirst | internal/services/servicebus/handler.go:196-206 | Among the keys of a queue's messages the earliest message's key sorts first, for ids below 10^10. |
| ServiceBus.HeadFirstIff | internal/services/servicebus/handler.go:175-206 | A scan finds the earliest message first, for every queue with ids up to top, if and only if top is below 10^10: of the messages 9999999999 and 10000000000 the second is found. |
| ServiceBus.SecondOvertakes | internal/services/servicebus/handler.go:158-206 | Such a queue is reached: on a new handler, after a topic has used the smaller ids, the first of two messages sent to a new queue is overtaken by the second. |
| ServiceBus.ColonsLeak | internal/services/servicebus/handler.go:93-99 | With a colon in a queue's name its messages lie under another queue's prefix. |
| ServiceBus.UnderHost | internal/services/servicebus/handler.go:93-99 | For every queue with a colon in its name there is one queue without, under whose prefix all keys of the first lie and whose messages have none of these keys. |
| ServiceBus.ServiceBusHandler.CreateQueue | internal/services/servicebus/handler.go:101-126 | For any names: adds one empty queue, or refuses an existing one; no other queue changes. One with a colon in its name is stored and shows nowhere. |
| ServiceBus.ServiceBusHandler.DeleteQueue | internal/services/servicebus/handler.go:140-150 | For any names: removes that queue with its messages and no other queue's. |
| ServiceBus.ServiceBusHandler.SendMessage | internal/services/servicebus/handler.go:158-185 | For any names: appends one message with a new id to that queue's list; rejections change nothing. The store goes on standing for separate queues if and only if the queue that accepts the message has no colon in its name: otherwise the message lies under another queue's prefix. |
| ServiceBus.ServiceBusHandler.ReceiveMessage | internal/services/servicebus/handler.go:187-207 | Delivers the stored message whose key sorts least, which is the earliest one sent to the queue since its creation while ids are below 10^10; it does not remove it. Until a message is sent to one, a queue with a colon in its name is empty. |
| ServiceBus.ServiceBusHandler.PublishMessage | internal/services/servicebus/handler.go:448-469 | For any names: topic messages share the counter and disturb no queue. |
| Whitespace.CollapseSpace | internal/storageauth/sharedkey.go:179-198 | The one-pass loop computes the collapsed text. |
| Whitespace.CollapseIsJoinWords | internal/storageauth/sharedkey.go:179-198 | When the only white space is space, tab, LF and CR, collapsing is splitting on these, dropping empty words and joining with single spaces. |
| Whitespace.CollapseIdempotent | internal/storageauth/sharedkey.go:179-198 | Collapsing twice is collapsing once, on every input. |
| Whitespace.CollapseTidy | internal/storageauth/sharedkey.go:179-198 | The result has no tab, line feed or carriage return, no two spaces in a row and no white space at either end. |
| Sorting.SortCanonical | internal/storageauth/sharedkey.go:163-168 | Over a total order sorting ends at the same list for every arrival order. |
| Visiting.VisitsPermute | internal/storageauth/sharedkey.go:154-162 | Two complete visits of one map are permutations of each other. |
| Visiting.GatherPermute | internal/storageauth/sharedkey.go:154-162 | Collecting from a permuted list collects the same multiset. |
| Canonical.HeadersCanonical | internal/storageauth/sharedkey.go:151-177 | The canonical text depends only on the multiset of x-ms- lines, not on the visiting order or on any other header. |
| Canonical.OtherHeadersIgnored | internal/storageauth/sharedkey.go:155-158 | Setting a header that is no x-ms- header does not change the text. |
| Canonical.BuildHeaders | internal/storageauth/sharedkey.go:151-177 | The method, with its arbitrary visiting order, computes one text; what that text tells is SignedText.SameTextIff and SignedText.Layout. |
| Query.GroupingKeepsPairs | internal/storageauth/sharedkey.go:218-233 | Grouping the raw pairs into a map and visiting it loses no pair and repeats none. |
| Query.PairOrderIgnored | internal/storageauth/sharedkey.go:219-246 | Decoded pairs in any order, grouped in any way, give the same text. |
| Query.QueryOrderIgnored | internal/storageauth/sharedkey.go:214-247 | The query text depends only on the multiset of raw query pairs. |
| Query.GroupDecoded | internal/storageauth/sharedkey.go:218-233 | The two nested loops group the decoded pairs of some complete visit. |
| Query.BuildResource | internal/storageauth/sharedkey.go:200-248 | Whatever orders the two maps are walked in, the method computes the text the pairs determine. |
| Base64.DecodeEncode | internal/storageauth/sharedkey.go:42-42 | Decoding undoes encoding on every byte string (section 4 of RFC 4648). |
| Base64.Vectors | internal/storageauth/sharedkey.go:42-42 | Test vectors of section 10 of RFC 4648 and the standard alphabet's last two letters. |
| SharedKey.AuthorizationIgnored | internal/storageauth/sharedkey.go:80-144 | The Authorization header never feeds the string to sign, in either scheme. |
| SharedKey.StringToSignCanonical | internal/storageauth/sharedkey.go:80-144 | The string to sign is a function of the verb, the scheme's standard headers, the path, the multiset of x-ms- lines and the multiset of query pairs. |
| SharedKey.QueryOrderSigns | internal/storageauth/sharedkey.go:214-247 | In particular queries with the same pairs in another order sign to the same string. |
| SharedKey.CredentialSplits | internal/storageauth/sharedkey.go:31-45 | The last colon recovers account and signature for every account, with colons or blanks too. |
| SharedKey.AcceptedIff | internal/storageauth/sharedkey.go:17-54 | A request with a credential made by signing some text is accepted if and only if the account is not empty and is the one asked for, the request's own string builds, and key1 or key2 gives that string the same HMAC. |
| SharedKey.SignThenVerify | internal/storageauth/sharedkey.go:64-78 | Signing then verifying, with the key in either place, succeeds if and only if the account is not empty. |
| SharedKey.TamperingShows | internal/storageauth/sharedkey.go:31-54 | Where the HMAC does not collide, a changed request passes with the old signature if and only if its string to sign is unchanged and the signing key is one of the two. |
| SignedText.PartsTell | internal/storageauth/sharedkey.go:80-144 | Verb, fields, x-ms- lines and resource can be read off the string to sign. |
| SignedText.PairsTell | internal/storageauth/sharedkey.go:232-248 | With no separator in a decoded name or value, path and query pairs can be read off the resource. |
| SignedText.SameTextIff | internal/storageauth/sharedkey.go:80-144 | Two requests have the same string to sign if and only if they agree in verb (but for case), every signed standard header, path, the x-ms- headers with their joined and collapsed values, and the decoded query pairs, names in lower case, in any order. Asked: header names and values, path and account without line feeds, no separators in the decoded query. |
| SignedText.AcceptedIffAlike | internal/storageauth/sharedkey.go:31-54 | Where the HMAC does not collide, a request that carries another's signature is accepted if and only if it agrees with that one in all of these and the signing key is one of the two. |
| SignedText.XmsValueCounts | internal/storageauth/sharedkey.go:159-175 | In particular a request with another value of an x-ms- header does not agree. |
| SignedText.OneHeader | internal/storageauth/sharedkey.go:155-175 | A single header writes its name in lower case, a colon and its values, joined with commas and collapsed, if the name starts with x-ms-, and nothing otherwise. |
| SignedText.Layout | internal/storageauth/sharedkey.go:101-142 | Line by line: verb, the scheme's fields in their order, the x-ms- lines, the path, a line for each query name. |
| SignedText.Ascending | internal/storageauth/sharedkey.go:163-168 | x-ms- lines, query names and the values of a name are in ascending order. |
| SignedText.GetIsFirst | internal/storageauth/sharedkey.go:18-18 | A header counts by its first value, and none or an empty list as the empty text. |
| SignedText.ToUpperIs | internal/storageauth/sharedkey.go:105-105 | Upper case is the same letters, none of them small. |
| SignedText.VerifiesIff | internal/storageauth/sharedkey.go:17-54 | Whatever its Authorization header, a request is accepted if and only if the header is the scheme, the account asked for, not empty, a colon and colon-free base64 of the HMAC of the request's own string under one of the keys. |
| SharedKey.BuildStringToSign | internal/storageauth/sharedkey.go:80-144 | The builder computes the string to sign of either scheme, or fails with the query parser; what that text tells is SignedText.SameTextIff and SignedText.Layout. |
| SharedKey.Request.Sign | internal/storageauth/sharedkey.go:64-78 | Sets only the Authorization header, or changes nothing when the string does not build. |
| SharedKey.Request.Verify | internal/storageauth/sharedkey.go:17-29 | Accepts exactly the verifying requests. |
| SharedKey.SignAndVerify | internal/storageauth/sharedkey.go:17-78 | On one request object, Sign followed by Verify accepts if and only if the account is not empty. |
| Kubeconfig.MergeNamedList | cmd/azlocal/main.go:1401-1428 | The loops give the existing entries incoming does not name, in order, then all of incoming. |
| Kubeconfig.MergedIs | cmd/azlocal/main.go:1401-1428 | A merged list is the existing one without the entries whose name incoming has, in their order, followed by all of incoming. |
| Kubeconfig.MergeAssociative | cmd/azlocal/main.go:1401-1428 | Merging named lists is associative. |
| Kubeconfig.MergeIdentity | cmd/azlocal/main.go:1401-1428 | The empty list is its identity on both sides. |
| Kubeconfig.MergeIdempotentIff | cmd/azlocal/main.go:1401-1428 | Merging the same list again changes nothing if and only if all its entries are named. |
| Kubeconfig.MergedNames | cmd/azlocal/main.go:1401-1428 | A merge defines exactly the names of both lists. |
| Kubeconfig.MergedLookup | cmd/azlocal/main.go:1401-1428 | Afterwards a name stands for incoming's entry, or else for the old one. |
| Kubeconfig.MergedUnique | cmd/azlocal/main.go:1401-1428 | Lists without repeated names merge to one without. |
| Kubeconfig.File.MergeIn | cmd/azlocal/main.go:1381-1392 | Overwrites the three sections and adopts incoming's current-context, apiVersion and kind; every other key stays. |
| Kubeconfig.MergeOtherKeys | cmd/azlocal/main.go:1381-1392 | A merge keeps every other key of the file and takes apiVersion and kind from incoming where it has them. |
| Kubeconfig.MergeKeepsSound | cmd/azlocal/main.go:1366-1395 | Merging one reference-closed file with unique names into another, or into none, gives such a file. |
| Kubeconfig.RunKeepsSound | cmd/azlocal/main.go:1366-1395 | So does any sequence of merges. |
| Kubeconfig.RunResolves | cmd/azlocal/main.go:1366-1395 | Over any sequence each name of a section resolves to the last file that defined it. |
| Kubeconfig.Rewrite | internal/services/aks/k3s_backend.go:140-203 | The in-place loops rename clusters, contexts and users and retarget the server as specified, entry by entry. |
| Kubeconfig.RewrittenFile | internal/services/aks/k3s_backend.go:140-203 | The current context is the cluster's name and every key but the sections stays. |
| Kubeconfig.ClusterSays | internal/services/aks/k3s_backend.go:157-173 | A cluster entry gets the name and the retargeted server and keeps every other key. |
| Kubeconfig.ContextSays | internal/services/aks/k3s_backend.go:174-186 | A context gets the name and refers to the cluster and the user, and keeps every other key. |
| Kubeconfig.UserSays | internal/services/aks/k3s_backend.go:187-195 | A user gets the user's name and keeps every other key. |
| Kubeconfig.RewrittenSoundIff | internal/services/aks/k3s_backend.go:154-196 | The rewritten kubeconfig is closed with unique names if and only if k3s wrote one cluster map, one user map and one context with an inner map. |
| Kubeconfig.CredentialsMerge | cmd/azlocal/main.go:1366-1395 | Credentials of any number of such clusters merge into a sound file, and a cluster's name keeps its own entry until later credentials use that name. |
| Template.FlattenParameters | internal/services/deployments/template.go:10-23 | Keeps exactly the entries that are objects with a value. |
| Template.FlattenedAt | internal/services/deployments/template.go:10-23 | Name by name: a parameter is there if and only if its entry is an object with a value, and is that value. |
| Template.MergeParameterDefaults | internal/services/deployments/template.go:27-42 | A supplied value wins, a default fills in, nothing else appears. |
| Template.ReferenceReplaced | internal/services/deployments/template.go:72-93 | A reference to a parameter or variable that has a value is replaced by that value, and stays otherwise. |
| Template.OtherTextStays | internal/services/deployments/template.go:72-99 | A string that is no such reference stays as it is. |
| Template.ParameterReaches | internal/services/deployments/template.go:10-93 | From request to leaf: a parameter reference becomes the value the deployment gives, or else the declared default, or else stays. |
| Patterns.ReferenceFits | internal/services/deployments/template.go:72-76 | A string refers to a parameter or variable if and only if the regular expression takes it, with the name its group takes. |
| Template.ResolveCompose | internal/services/deployments/template.go:49-68 | Evaluating twice equals one simultaneous evaluation in the composed environments. |
| Template.FixedIff | internal/services/deployments/template.go:49-99 | A tree is left alone if and only if none of its references resolves to something new. |
| Template.StagingIff | internal/services/deployments/template.go:27-99 | For all templates, evaluating with merged parameters equals putting in supplied values first and defaults and variables afterwards, if and only if no supplied value a template can refer to holds a reference the second stage would replace. |
| Template.PlacesKept | internal/services/deployments/template.go:49-68 | Every place of the template is a place of the result and holds its own evaluation. |
| Template.NewPlaces | internal/services/deployments/template.go:49-68 | A place only the result has lies beneath a replaced leaf. |
| PublicIp.SameAddressIff | internal/services/publicip/handler.go:46-49 | Two counter values print the same address if and only if they agree modulo 65536. |
| PublicIp.SameAllocationIff | internal/services/publicip/handler.go:46-49 | So do the i-th and j-th allocation, wherever the uint32 counter started and however often it wrapped. |
| PublicIp.PublicIpHandler.CreateOrUpdate | internal/services/publicip/handler.go:113-141 | Keeps a stored address or takes the next one; created if and only if the key was new. |
| PublicIp.LiveAddressesEqualIff | internal/services/publicip/handler.go:74-77 | Over any run two live records share an address if and only if their allocations are a multiple of 65536 apart. |
| PublicIp.FewAllocationsStayDistinct | internal/services/publicip/handler.go:46-49 | With at most 65536 allocations all live addresses differ. |
| PublicIp.UpdateKeepsAddress | internal/services/publicip/handler.go:121-133 | An update keeps the address and allocates nothing. |
| PublicIp.BoundIsTight | internal/services/publicip/handler.go:46-49 | With 65537 allocations two live records can share an address. |

## Left out

Weaker or conditional contracts:

- VmHandlers.VmHandler.CreateOrUpdateVm: the fresh secret holds no ':', which no UUID does. Requests are specified on stores whose keys hold no ':' (`Machines.Machine.Valid`); the four requests that store a name of the client's choosing say exactly when that is still so afterwards, and `Keys.VmKeyUnambiguous` what goes wrong when it is not. Lookups and deletions take any names: with a colon they simply miss.
- GroupHandlers.GroupHandler.DeleteAll: requires that each VM record carries the name it is filed under, which the invariant provides in every reachable state.
- GroupHandlers.CleanupVms: names are colon-free, as for every stored key.
- IdentityHandlers.IdentityHandler.GetToken: requires token digests without ':', which hexadecimal digits are; which of several matching assignments is used depends on Go's map order and is left open.
- ServiceBus.ServiceBusHandler.SendMessage: once a queue with a colon in its name has accepted a message, nothing is claimed of later requests; `ServiceBus.ColonsLeak` and `ServiceBus.UnderHost` show why.
- ServiceBus.ServiceBusHandler.ReceiveMessage: on the in-memory backend and a store that started empty; a reloaded store restarts the id counter, and other backends list all keys. Both are outside the first-in-first-out claim.
- Systems.StepSound: ownership of VM and service containers is a matter of Docker mode; it is claimed without `/_miniblue/reset`, and for requests that do not start a VM under a taken container name, delete a group whose Docker objects cannot be reached, or end with a container that no record refers to. `VmProofs.PutVmKeeps`, `SvcProofs.PutServiceKeeps`, `AksProofs.PutClusterKeeps`, `AksProofs.DeleteClusterKeeps` and `GroupProofs.DeleteGroupKeeps` show that each proviso is exact. The store's half (`StoreRuns.StoreStepSound`) needs none of them, the k3s half (`Systems.EffectHeldIff`) only the one about clusters.
- Systems.RunK3sSound: for runs without the cluster requests that `Systems.EffectHeldIff` shows to leave a container behind.
- SignedText.SameTextIff: for requests without line feeds in verb, path, account and header values (net/http and net/url let none through), header names that are tokens, and decoded query names and values without the text's own separators; with those, different queries can have one text.
- SharedKey.TamperingShows: assumes the HMAC does not collide on the two texts involved.
- GoValues.RoundTripIff: values that json.Marshal refuses (channels, functions, NaN) make a save fail and are not among the values; types with their own MarshalJSON are structs here; numbers are real numbers, since Go prints a float64 so that it reads back.
- Text.PrefixScan: strings are sequences of characters; invalid UTF-8 is not modelled.

What the repository does and the model does not:

- Handlers are atomic; races between requests, and in-place changes of a stored map by two goroutines, are not modelled. Only the file backend is interleaved.
- Stored records are datatypes instead of `map[string]interface{}`; a change through a reference the store holds is modelled as an immediate store update. The VM profiles, tags, the provision log, failure reasons, service commands and environments, and the responses' other fields are left out.
- `resolveImage`, `parseServiceInput` and body decoding appear as an optional input: present when they accept; the body of a VM request is taken to decode. A non-empty inspect error counts as a non-zero exit code.
- List requests that refresh records on the way (`listVMs`, `ListServices`), PATCH on a group and the read-only requests of groups, identities and clusters.
- The secret index stores the VM's structured key instead of its string.
- Families not in the cascade's list (containerapp, managedenv, containerjob, serverfarm, slot, webapp, deployment, lb:bap, lb:probe, lb:rule, blob:sharedkeyctx): nothing is claimed to remove them.
- The ARM namespace deletion of Service Bus, which leaves messages behind.
- Case folding is ASCII only.
- Power loss: a rename is taken as durable and a crash as the end of the process; `fsync` is not modelled. The Postgres backend, and blob contents that JSON skips.
- An empty k3s.yaml, whose decoded map is nil and makes the rewriting panic; the `NewReplacer` text substitution is any function.
- Port allocation, readiness probing, image pulling, log streaming, `vm ssh`, HTTP routing, headers and status texts; the dispatch of evaluated template resources.
- The remaining handlers are the same get, set and delete wrappers over other key families.
