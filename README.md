# titan-container: the deployment pipeline, modelled in Dafny

titan-container lets tenants run containers on providers that manage
Kubernetes clusters. This model covers the parts that make up its
deterministic core:

- **The manifest compiler.** It turns a tenant `Deployment` into a cluster
  deployment: validation, service naming, unit conversion, expose records and
  environment text. There are two copies: the node tree's
  `node/impl/provider/deployment.go` and the older `provider/deployment.go`.
- **The read-back translator.** It turns listed Kubernetes deployments and
  services back into tenant services and a port map.
- **The workload builder** (`provider/kube/builder/wordload.go`). It covers
  requests and limits under the commit levels, environment parsing, the
  choice of ephemeral storage, volume mounts, ports and persistent-volume
  claims.
- **The upsert engine and the ordered reconcile.** These are
  `provider/kube/apply.go` and `client.Deploy` in
  `node/impl/provider/kube/client.go`, run against a map-backed cluster.
- **Node activity and per-node allocation**
  (`node/impl/provider/kube/resources.go`), and the provider manager's
  statistics and deployment entry points (`node/impl/provider/manager.go`).
- **The manager's provider registry and its heartbeat sweep**
  (`node/impl/manager/sched_provider.go`).
- **The manager's RPC entry points** `ProviderConnect` and
  `UpdateDeployment` (`node/impl/manager/manager.go`).
- **The deployment-list query and the grouping of its rows**
  (`db/deployment.go`).
- **The client address kept by the RPC handler** (`node/handler/handler.go`).
- **The push URL of the RPC client** (`api/client/client.go`).

The modules follow the source files:

| module | source |
|---|---|
| `NodeDeployment` | node/impl/provider/deployment.go |
| `LegacyDeployment` | provider/deployment.go |
| `Workload` | provider/kube/builder/wordload.go |
| `Apply` | provider/kube/apply.go |
| `KubeClient` | node/impl/provider/kube/client.go |
| `NodeResources` | node/impl/provider/kube/resources.go |
| `ProviderManager` | node/impl/provider/manager.go |
| `Scheduler` | node/impl/manager/sched_provider.go |
| `ManagerService` | node/impl/manager/manager.go |
| `DeploymentQuery` | db/deployment.go |
| `Handler` | node/handler/handler.go |
| `RpcClient` | api/client/client.go |

Supporting modules:

- `Base`: `Option` and `Result`.
- `Text`: the Go string functions the core calls: `strings.Split`, `Join`,
  `SplitN`, `TrimSpace`, `TrimSuffix`, `Replace` and `strconv.Itoa`.
- `Types`: the `api/types` records.
- `Manifest`: the manifest records and the `uint32`/`uint64` conversions.
- `Kube`: the Kubernetes objects the core reads and writes.

**How state is modelled.** Code that changes state is modelled as classes
and methods:

- `Apply.Cluster` is the backend. Its maps of objects are updated in place
  and it keeps a log of calls.
- `Scheduler.ProviderScheduler` is the registry.
- `ManagerService.ManagerDB` holds the rows the manager's writes add.
- `ManagerService.Manager` holds the calls sent to remote providers.

Each method is proved against a function of the old state, such as
`UpsertEffect`, `RunPlan`, `Added`, `Swept` or `QueryOf`, or
`GroupOf`. The lemmas state what the source promises about those functions.
Loops in the source are loops here, with their invariants.

**Inputs.** Things the model cannot compute are parameters:

- the clock (`now`, `createdAt`, `updatedAt`);
- the UUID drawn for the i-th service (`uuid(i)`);
- the outcomes of the remote calls and of the database writes;
- the result of `url.Parse`;
- the node and pod listings;
- the builders the source does not show.

**Where the code and the design description disagree, the model follows
the code:**

- **CPU conversion.** The core count is truncated to milli-cores
  (`uint64(cpu*1000)`), not rounded.
- **Workload kind.** The deployment/StatefulSet choice in `Deploy` reads the
  storage attribute under key `"default"` (`StorageClassDefault`), not the
  `"persistent"` key the workload builder uses
  (node/impl/provider/kube/client.go:126).
- **Legacy validation.** The legacy compiler validates nothing. An empty ID,
  no services and an empty image all compile.
- **Legacy expose.** The legacy compiler gives port 0 an expose record.
- **State filter.** `GetDeploymentOption` has no `State` field in
  api/types/deployment.go, but `GetDeployments` reads one. The model follows
  db/deployment.go and gives the option a list of states.
- **Compiler results.** `node/impl/provider/manager.go:76` uses one result of
  the node compiler, which returns two (node/impl/provider/deployment.go:20).
  The model's entry points use the node compiler's `Result`, so a rejection
  is an error before any cluster call.
- **Resource units.** The node compiler calls `NewResourceUnits` with three
  arguments (node/impl/provider/deployment.go:106). The function shown takes
  two (node/impl/provider/kube/manifest/resourceunits.go:11). The third
  argument, the storage bytes, is modelled as one unnamed storage entry with
  no attributes.
- **`ListNodes`.** `GetStatistics` calls `ListNodes` on the kube client
  (node/impl/provider/manager.go:47). The `Client` interface does not declare
  it (node/impl/provider/kube/client.go:21-28), and its implementation is
  commented out (client.go:177-179). The model takes the node listing as an
  input.
- **The lookup in `UpdateDeployment`.** It relies on
  `ProviderScheduler.Get`, which is not part of this model. It is taken to
  return the registered handle, and to fail on an unknown ID.

**Behaviour worth knowing, proved about the code as written:**

- **An IPv6 address.** `ProviderConnect` keeps the remote address only up
  to its first `:`. A bracketed address such as `[::1]:8080` gives `[`
  (`ManagerService.DefaultIPOfIPv6`).
- **Unescaped filter values.** `GetDeployments` pastes the filter values
  into the statement without escaping, so a quote in the owner ends the
  literal early (`DeploymentQuery.OwnerQuoteEndsLiteral`).
- **The policy sent on update.** In `applyNetPolicies` the update branch
  sends the desired policy. The builder's revision of the live object is
  discarded (`Apply.PolicyUpdateSendsDesired`).
- **Policy failures do not stop a deploy.** `Deploy` and the provider
  manager's entry points run `applyNetPolicies` as written. A failed policy
  write is not reported, and the workloads and services are deployed anyway
  (`KubeClient.AsWrittenPolicyFailureContinues`). The corrected plan
  (`KubeClient.CorrectedPlan`) is the first row under "Findings".
- **No undo.** A database failure after a successful remote call in
  `UpdateDeployment` leaves the remote call in place.

## Model

| member | source | states |
|---|---|---|
| Apply.Cluster.Get | provider/kube/apply.go:15 | A read fault gives `Unavailable`, an absent key `NotFound`, otherwise the stored object |
| Apply.Cluster.Create | provider/kube/apply.go:26 | Logs the create call; a write fault or an existing key is an error and stores nothing; otherwise the object is stored |
| Apply.Cluster.Update | provider/kube/apply.go:21 | Logs the update call; a write fault or an absent key is an error; otherwise the object replaces the stored one |
| Apply.Cluster.Delete | node/impl/provider/kube/client.go:169-171 | Logs the delete call; a write fault or an absent key is an error; otherwise the key is removed |
| Apply.Upsert | provider/kube/apply.go:61-79 | The get-then-create-or-update body; the new cluster state and the error are exactly `UpsertEffect` of the old state |
| Apply.ApplyNS | provider/kube/apply.go:14-30 | The upsert of the namespace under its cluster-wide key |
| Apply.ApplyDeployment | provider/kube/apply.go:61-79 | The upsert of the deployment under its namespaced key |
| Apply.ApplyStatefulSet | provider/kube/apply.go:81-99 | The upsert of the StatefulSet under its namespaced key |
| Apply.ApplyService | provider/kube/apply.go:101-117 | The upsert of the service under its namespaced key |
| Apply.UpsertNotFound | provider/kube/apply.go:23-27 | A not-found read leads to exactly one create call and no update; without a write fault the built object is stored and no error returned |
| Apply.UpsertFound | provider/kube/apply.go:18-22 | A successful read leads to exactly one update call carrying `Update(obj)` and no create |
| Apply.UpsertReadFault | provider/kube/apply.go:17-29 | Any other read error is returned unchanged and the store, call log included, is untouched |
| Apply.UpsertBuilderError | provider/kube/apply.go:19-25 | A builder `Create`/`Update` error is returned and nothing is written |
| Apply.UpsertTwiceCreatesOnce | provider/kube/apply.go:14-30 | After a successful upsert the key is present, and a second upsert of it issues no create, only an update when its builder succeeds |
| Apply.PoliciesLoop | provider/kube/apply.go:41-56 | The policy loop's effect and its error are `PoliciesEffect`: the policies in order, stopping at the first failure |
| Apply.ApplyNetPoliciesAsWritten | provider/kube/apply.go:33-59 | A `Create()` error is returned with no backend call; otherwise the loop runs but `nil` is returned whatever it met |
| Apply.ApplyNetPolicies | provider/kube/apply.go:33-59 | The corrected version: the loop's first failure is returned with the state it left |
| Apply.PoliciesEffectAppend | provider/kube/apply.go:41-56 | Running `p + q` is running `p` and, only if it succeeds, `q`; a failure leaves later policies untouched |
| Apply.PolicyUpdateSendsDesired | provider/kube/apply.go:45-49 | In the update branch the stored object is the desired policy, not the builder's revision |
| Apply.NetPolicyErrorDropped | provider/kube/apply.go:42-58 | For one policy whose key refuses writes, the corrected version reports the failure that the written one drops, with the same cluster state |
| KubeClient.RunPlanAppend | node/impl/provider/kube/client.go:97-164 | A plan split in two runs the second half only when the first succeeds |
| KubeClient.ServiceStepsShape | node/impl/provider/kube/client.go:119-163 | A service's first step is a StatefulSet exactly when a `default`-keyed storage attribute is true, else a Deployment; no exposure gives no service step; local precedes global, each present only when `Any()` |
| KubeClient.HasDefaultClassStorageScan | node/impl/provider/kube/client.go:124-130 | The scan's result says whether some storage entry's `default`-keyed attribute parses as true |
| KubeClient.RunUpsert | node/impl/provider/kube/client.go:132-142 | Running one upsert step against the cluster is `RunStep` of the old state |
| KubeClient.DeployService | node/impl/provider/kube/client.go:119-163 | One service's steps run against the cluster are `RunPlan` of its `ServiceSteps` |
| KubeClient.Deploy | node/impl/provider/kube/client.go:84-167 | Missing settings or a validation failure give an error and no cluster change; otherwise the state and error are `RunPlan` of the plan as written: namespace, policies (only a `Create()` error of theirs stops it), then each service |
| KubeClient.AsWrittenPolicyFailureContinues | node/impl/provider/kube/client.go:97-116 | Once the namespace is in place and the policy list is built, the services are deployed from the state the policy loop left, whether or not a policy write failed |
| KubeClient.CorrectedPolicyFailureStops | node/impl/provider/kube/client.go:97-116 | With the corrected policy step the loop's first failure is the reconcile's result and no workload or service step runs; without a failure it agrees with the plan as written |
| KubeClient.FirstErrorAborts | node/impl/provider/kube/client.go:97-164 | Once a stretch of steps fails, nothing after it runs and its result is the plan's |
| KubeClient.NamespaceFailureStopsDeploy | node/impl/provider/kube/client.go:97-101 | A failing namespace step is the whole reconcile's result: no policy, workload or service step runs |
| LegacyDeployment.ServiceNameDropsTag | provider/deployment.go:53-59 | The legacy name of `repo:tag`, and of an untagged `repo`, is `repo`, with no suffix |
| LegacyDeployment.NodeNameExtendsLegacyName | node/impl/provider/deployment.go:92-103 | The node compiler's name is the legacy name, `-`, and the UUID without dashes |
| LegacyDeployment.UnitsAgreeWithNodeCompiler | provider/deployment.go:61-63 | Legacy CPU and memory units equal the node compiler's; no storage entry |
| LegacyDeployment.LegacyServiceShape | provider/deployment.go:40-51 | One replica, exactly one global TCP expose record with port = external port, also for port 0 where the node compiler has none; no args, env or storage |
| LegacyDeployment.DeploymentToManifestGroup | provider/deployment.go:30-38 | One compiled service per input service, in order, nothing rejected |
| LegacyDeployment.ClusterDeploymentFromDeployment | provider/deployment.go:15-28 | Always succeeds; carries the ID and owner, the services in order and one scheduler slot per service |
| ManagerService.ManagerDB.AddNewProvider | node/impl/manager/manager.go:53 | A failed write returns its error and adds nothing; otherwise the provider row is appended; deployments untouched |
| ManagerService.ManagerDB.CreateDeployment | db/deployment.go:12-30 | A failed write returns its error and adds nothing (rolled back); otherwise the deployment row is appended; providers untouched |
| ManagerService.DefaultIP | node/impl/manager/manager.go:47-49 | A set IP is kept; otherwise the result is the longest `:`-free prefix of the remote address, the whole address when it has no `:` |
| ManagerService.DefaultIPOfHostPort | node/impl/manager/manager.go:47-49 | A `host:port` remote address gives the host |
| ManagerService.DefaultIPOfIPv6 | node/impl/manager/manager.go:47-49 | `[::1]:port`-style addresses give `[`; an unbracketed IPv6 address gives its first group |
| ManagerService.ProxiedProviderIP | node/impl/manager/manager.go:32-49 | Behind a proxy, the first `X-Forwarded-For` client becomes the stored provider IP |
| ManagerService.DirectProviderIP | node/impl/manager/manager.go:32-49 | Without usable proxy headers the host of the connection address becomes the provider IP |
| ManagerService.Manager.ProviderConnect | node/impl/manager/manager.go:32-54 | A failed dial returns the wrapped error and touches neither registry nor database; otherwise the provider is registered (first wins) first, then its IP defaulted, both timestamps set and the row written, the write's error returned |
| ManagerService.Manager.UpdateDeployment | node/impl/manager/manager.go:81-98 | The provider comes from `d.providerId`; an unknown one means no remote call and nothing stored; a remote failure stores nothing; otherwise the write's error is returned with the remote call left in place |
| Manifest.Uint32 | node/impl/provider/deployment.go:113 | `uint32(port)`: below 2^32 and equal to the port when in range |
| Manifest.CpuToMilli | node/impl/provider/deployment.go:106 | `uint64(cpu*1000)`: the milli-cores truncated toward zero for non-negative counts |
| Manifest.MegaToBytes | node/impl/provider/deployment.go:106 | `uint64(v*1000000)`: a 64-bit value, equal to the byte count when in range |
| Manifest.Find | provider/kube/builder/wordload.go:128 | The value of the first attribute with the key; no such attribute gives empty |
| Manifest.AsBool | provider/kube/builder/wordload.go:129 | Valid exactly for a true or false spelling, true exactly for a true spelling |
| Manifest.AsString | provider/kube/builder/wordload.go:244 | The text itself, valid exactly when non-empty |
| Kube.Value | node/impl/provider/manager.go:39-44 | `Quantity.Value()`: CPU is rounded up to whole cores, other resources are the stored amount |
| Kube.AddLists | node/impl/provider/kube/resources.go:46-52 | Pointwise sum: every resource's amount is the sum of both lists' amounts |
| NodeDeployment.ServiceNameOfTaggedImage | node/impl/provider/deployment.go:92-103 | `repo:tag` with UUID `u` is named `repo-` and `u` without dashes |
| NodeDeployment.ServiceNameOfUntaggedImage | node/impl/provider/deployment.go:92-103 | An image without `:` is kept whole before the suffix |
| NodeDeployment.UuidDigitGroups | node/impl/provider/deployment.go:99-100 | Removing the dashes of a canonical UUID leaves its five digit groups |
| NodeDeployment.UuidSuffixIsHex | node/impl/provider/deployment.go:99-102 | For a canonical UUID the name suffix is exactly 32 hex digits |
| NodeDeployment.CompiledUnits | node/impl/provider/deployment.go:105-107 | In range, CPU is the truncated milli-cores, memory and storage are value × 10^6, and read-back division by 10^6 returns them |
| NodeDeployment.ScenarioResourceUnits | node/impl/provider/deploy_test.go:1-109 | The test's service (CPU 0.1, memory 100, storage 100) compiles to 100 milli-cores and 10^8 bytes each |
| NodeDeployment.ExposeFromPort | node/impl/provider/deployment.go:109-114 | Port 0 exposes nothing; any other port one global TCP record with equal internal and external `uint32` port |
| NodeDeployment.ExposeList | node/impl/provider/deployment.go:72-78 | The `Expose` list is empty for port 0 and the single record otherwise |
| NodeDeployment.EnvSerialisationSize | node/impl/provider/deployment.go:83-90 | A serialisation has one text per map entry |
| NodeDeployment.EnvSerialisationHasEntries | node/impl/provider/deployment.go:83-90 | Every `k=v` entry of the map appears in it |
| NodeDeployment.EnvToManifestEnv | node/impl/provider/deployment.go:83-90 | The output serialises the map: one `k=v` text per entry, in some key order |
| NodeDeployment.ServiceToManifestService | node/impl/provider/deployment.go:59-81 | Succeeds exactly for a non-empty image, else `EmptyImage`; the compiled service has the generated name, the image, no command, the arguments, the env serialisation, the converted units, one replica, the expose list and no params |
| NodeDeployment.DeploymentToManifestGroup | node/impl/provider/deployment.go:42-57 | No services is `NoServices`, an empty image anywhere `EmptyImage`; otherwise one compiled service per input, in order |
| NodeDeployment.ClusterDeploymentFromDeployment | node/impl/provider/deployment.go:20-40 | An empty ID fails before compiling; success exactly for a non-empty ID, services and images; carries ID/owner and one slot per service |
| NodeDeployment.GetConditionStatus | node/impl/provider/deployment.go:177-185 | `True` ⇔ normal, `False` ⇔ error, anything else ⇔ unknown |
| NodeDeployment.LatestCondition | node/impl/provider/deployment.go:148-153 | The chosen condition has the latest `LastUpdateTime` of all |
| NodeDeployment.K8sDeploymentToService | node/impl/provider/deployment.go:130-158 | No container or no condition is an error; otherwise the first container's image, name, limits (memory and storage ÷ 10^6) and first port, and the latest condition's state and message |
| NodeDeployment.K8sDeploymentsToServices | node/impl/provider/deployment.go:116-128 | Success exactly when every item reads back, one service per item in order; otherwise the first failing item's error |
| NodeDeployment.K8sServiceToPortMap | node/impl/provider/deployment.go:160-175 | The loop builds `PortMapOf` the listed services |
| NodeDeployment.PortMapKeys | node/impl/provider/deployment.go:160-175 | A key is present exactly when some service with ports maps to it (node-port name with the suffix trimmed, else the name) |
| NodeDeployment.PortMapLastWins | node/impl/provider/deployment.go:160-175 | The value under a key is that of the last such service: node port when set, port otherwise |
| NodeResources.NodeIsActive | node/impl/provider/kube/resources.go:66-102 | The two loops compute `IsActive`: ready and no issues |
| NodeResources.AnyReadyExists | node/impl/provider/kube/resources.go:70-75 | Ready exactly when some `Ready` condition has status `True` |
| NodeResources.NoConditionIssues | node/impl/provider/kube/resources.go:76-91 | No condition issue exactly when no pressure or network condition has a status other than `False` |
| NodeResources.NoTaintIssues | node/impl/provider/kube/resources.go:95-99 | No taint issue exactly when no taint has effect `NoSchedule` or `NoExecute` |
| NodeResources.ActiveIff | node/impl/provider/kube/resources.go:66-102 | A node is active exactly when it is ready, has no poor condition and no blocking taint |
| NodeResources.ActiveExamples | node/impl/provider/kube/resources.go:70-101 | An unknown memory pressure deactivates; a `PreferNoSchedule` taint does not; a not-ready node is inactive |
| NodeResources.FetchNodeResources | node/impl/provider/kube/resources.go:13-64 | A node or pod listing error returns no map; otherwise the active nodes with their pods' requests added |
| NodeResources.ActiveNodesKeys | node/impl/provider/kube/resources.go:27-34 | The keys are exactly the names of the active nodes, each starting with no allocation |
| NodeResources.AddRequestsSum | node/impl/provider/kube/resources.go:46-52 | Adding a pod's requests adds their sum per resource |
| NodeResources.AddPodsTotals | node/impl/provider/kube/resources.go:37-57 | The pod pass adds no key and changes no status; each entry grows by the demand of the pods on that node, pods elsewhere contribute nothing |
| NodeResources.FetchTotals | node/impl/provider/kube/resources.go:13-64 | A successful fetch maps each active node to the total container requests plus overhead of its pods |
| ProviderManager.AddUint64 | node/impl/provider/manager.go:55-62 | `+=` on a `uint64`: below 2^64, the exact sum when it fits |
| ProviderManager.GetResources | node/impl/provider/manager.go:39-44 | CPU rounded up to whole cores, memory and storage bytes; a missing entry is zero |
| ProviderManager.GetStatistics | node/impl/provider/manager.go:46-67 | A listing error is returned with no statistics; otherwise the statistics of the nodes |
| ProviderManager.StatisticsTotals | node/impl/provider/manager.go:52-63 | Each counter's max is the `uint64` sum of capacities, its available the sum of allocatable amounts; active and pending stay 0 |
| ProviderManager.DeployDeployment | node/impl/provider/manager.go:76-82 | An empty ID, no services or an empty image is an error with no cluster change; so is a failing validation of the default settings; otherwise the compiled deployment (same ID and owner, one service per input) is reconciled by `RunPlan` of the plan as written, which does not report a failed policy write |
| ProviderManager.CreateDeployment | node/impl/provider/manager.go:69-83 | A rejected deployment is an error with no cluster change; otherwise the services compiled from the input are reconciled with the default settings by `RunPlan` of the plan as written |
| ProviderManager.UpdateDeployment | node/impl/provider/manager.go:85-93 | The same body as `CreateDeployment`: rejection with no cluster change, else the compiled services reconciled by `RunPlan` of the plan as written |
| ProviderManager.CloseDeployment | node/impl/provider/manager.go:95-103 | A rejected deployment or an empty namespace name is an error with no cluster call; otherwise exactly that namespace is deleted |
| ProviderManager.CloseRemovesOnlyNamespace | node/impl/provider/manager.go:95-103 | A successful close issues one delete call, for that namespace's key, and removes only that key from the store |
| RpcClient.PushScheme | api/client/client.go:38-43 | `ws` → `http`, `wss` → `https`, any other scheme kept |
| RpcClient.GetPushUrl | api/client/client.go:33-48 | A parse error is returned; otherwise host and query kept and the scheme switched |
| RpcClient.JoinUpPath | api/client/client.go:46 | Joining `../target` onto a rooted path of plain elements replaces its last element by the target |
| RpcClient.PushSuffixIsUp | api/client/client.go:46 | `../streams/v0/push` is `..` followed by three plain elements |
| RpcClient.PushPathOfPlainPath | api/client/client.go:44-46 | A rooted path of plain elements gets its last element replaced by `streams/v0/push` (`/rpc/v0` → `/rpc/streams/v0/push`) |
| RpcClient.PushUrlOfPlainPath | api/client/client.go:33-48 | The whole push URL for such a path: switched scheme, same host and query, that path |
| Scheduler.ProviderScheduler.constructor | node/impl/manager/sched_provider.go:36-43 | The registry starts empty |
| Scheduler.ProviderScheduler.AddProvider | node/impl/manager/sched_provider.go:45-59 | Never fails; the registry becomes `Added`: a known ID is kept, a new one stored as seen now |
| Scheduler.ProviderScheduler.DelProvider | node/impl/manager/sched_provider.go:61-68 | The ID is removed, nothing else |
| Scheduler.ProviderScheduler.Get | node/impl/manager/manager.go:82-85 | A registered ID gives its handle; an unknown one an error |
| Scheduler.ProviderScheduler.Sweep | node/impl/manager/sched_provider.go:85-100 | One pass over every provider leaves the registry `Swept`: probed ones refreshed, silent expired ones removed, the rest kept |
| Scheduler.AddFirstWins | node/impl/manager/sched_provider.go:49-58 | Registering a known ID again changes nothing; a new ID starts as seen now; other IDs untouched |
| Scheduler.SweepOutcome | node/impl/manager/sched_provider.go:85-100 | A sweep adds no ID; a responding provider keeps its handle with `LastSeen` = now; a silent unexpired one is unchanged; a silent expired one is gone |
| Scheduler.NoExpiredAfterSweep | node/impl/manager/sched_provider.go:85-100 | After a sweep no remaining provider is expired at that time |
| Scheduler.ExpiryHorizon | node/impl/manager/sched_provider.go:11-34 | TTL is three heartbeats (30 s); a provider is expired strictly after it, not at it |
| Scheduler.DelExact | node/impl/manager/sched_provider.go:61-68 | Removing an absent ID is a no-op; the keys lose exactly the ID |
| Text.Split | node/handler/handler.go:52 | `strings.Split`: at least one part, none containing the separator |
| Text.JoinSplit | db/deployment.go:72 | Joining the split parts with the separator gives the text back |
| Text.SplitJoin | db/deployment.go:72 | Splitting a join of separator-free parts gives the parts back |
| Text.BeforeFirstIsPrefix | node/impl/manager/manager.go:48 | `Split(s, sep)[0]` is the longest separator-free prefix: followed by the separator or the end |
| Text.BeforeFirstOfConcat | node/impl/manager/manager.go:48 | The first part of `p sep q` is `p` when `p` has no separator |
| Text.Cut | provider/kube/builder/wordload.go:151 | `SplitN(s, "=", 2)`: the part before the first separator, and the rest when there is one |
| Text.CutOfConcat | provider/kube/builder/wordload.go:151-154 | Cutting `k=v` with a separator-free `k` gives `k` and `v` |
| Text.TrimSpaceTrims | node/handler/handler.go:52-54 | `TrimSpace` leaves the slice between the leading and trailing white space: trimmed, empty exactly when all white space |
| Text.TrimSpaceOfTrimmed | node/handler/handler.go:52 | Trimming a trimmed text changes nothing |
| Text.TrimSuffix | node/impl/provider/deployment.go:166 | The suffix is removed when present, the text kept otherwise |
| Text.RemoveAll | node/impl/provider/deployment.go:100 | `Replace(s, "-", "", -1)`: no dash left, never longer, unchanged when there was none |
| Text.RemoveAllKeepsOthers | node/impl/provider/deployment.go:100 | Every character other than the dash is kept as often as it occurs |
| Text.Itoa | db/deployment.go:70 | `strconv.Itoa`: non-empty, only digits after a leading `-` that appears exactly for negative numbers |
| Text.ItoaRoundTrip | db/deployment.go:70 | Reading the decimal spelling gives the integer back |
| Workload.Int32 | provider/kube/builder/wordload.go:164 | `int32(x)`: in range, congruent to `x` modulo 2^32, `x` itself when it fits |
| Workload.RoundHalfAway | provider/kube/builder/wordload.go:185 | `math.Round`: within ½ of the input, halves away from zero |
| Workload.ComputeCommittedResources | provider/kube/builder/wordload.go:177-197 | Factor ≤ 1 keeps the value; above 1 the result is `round(v/f)` when that is at least 1 and 1 otherwise, so never 0 and never above a value ≥ 1 |
| Workload.CommittedBelowValue | provider/kube/builder/wordload.go:183-190 | Dividing by a factor above 1 and rounding gives a value between 0 and `v` |
| Workload.FirstEphemeral | provider/kube/builder/wordload.go:127-136 | The index of the first non-persistent storage entry, all before it persistent; none exactly when all are persistent |
| Workload.FirstEphemeralAt | provider/kube/builder/wordload.go:127-136 | A scan that stops at entry `i` has found `FirstEphemeral`, and its quantity |
| Workload.CpuAndMemoryLimitsAndRequests | provider/kube/builder/wordload.go:93-125 | CPU and memory limits are the declared values and requests the committed ones, each present exactly when declared |
| Workload.EphemeralStoragePresence | provider/kube/builder/wordload.go:127-136 | Ephemeral storage is present, as limit and request alike, exactly when some entry is not persistent; no persistent-volume resource appears |
| Workload.EphemeralStorageFromFirstNonPersistent | provider/kube/builder/wordload.go:127-136 | The ephemeral limit is the first non-persistent entry's quantity and the request its committed value |
| Workload.RequestsWithinLimits | provider/kube/builder/wordload.go:177-197 | Without overcommit a request equals its limit; with it no request exceeds a limit of at least 1 |
| Workload.ParseEnvVar | provider/kube/builder/wordload.go:150-157 | The name has no `=`; with `=`, name `=` value gives the text back; without, the whole text is the name with an empty value |
| Workload.ParseEnvEntry | provider/kube/builder/wordload.go:150-157 | Parsing `k=v` for an `=`-free `k` gives `k` and `v` |
| Workload.AddEnvVarsForDeployment | provider/kube/builder/wordload.go:199-211 | The list comes back unchanged |
| Workload.ImagePullSecrets | provider/kube/builder/wordload.go:61-67 | Empty exactly when the secret name is empty; otherwise the one name |
| ProviderManager.WorkloadNameIsCompiledName | provider/kube/builder/wordload.go:44-46 | The workload built for service `i` of a compiled deployment is named with the compiled service name: repository, `-`, and the UUID drawn for it without dashes |
| Workload.Replicas | provider/kube/builder/wordload.go:48-53 | `int32(count)`: in the 32-bit signed range, congruent to the count modulo 2^32, the count itself below 2^31 |
| Workload.ContainerResources | provider/kube/builder/wordload.go:93-136 | The resource maps are the declared limits and committed requests |
| Workload.VolumeMounts | provider/kube/builder/wordload.go:138-147 | One mount `service-param` per storage parameter, in order; none without parameters |
| Workload.ContainerEnv | provider/kube/builder/wordload.go:149-160 | One parsed variable per entry, in order |
| Workload.ContainerPorts | provider/kube/builder/wordload.go:162-166 | One `int32` container port per expose record, in order |
| Workload.BuildContainer | provider/kube/builder/wordload.go:69-175 | Name, image, command, args, pull policy, security context, limits, requests, env, ports and mounts as above |
| Workload.PersistentVolumeClaims | provider/kube/builder/wordload.go:213-252 | The loop builds `ClaimsOf` with the class read from the `persistent` key, as written |
| Workload.ClaimsOfMembers | provider/kube/builder/wordload.go:218-249 | A claim is built exactly for the entries whose `persistent` attribute is valid and true |
| Workload.ClaimsOfCount | provider/kube/builder/wordload.go:218-249 | Exactly one claim per such entry |
| Workload.AsWrittenClassIsPersistenceFlag | provider/kube/builder/wordload.go:243-246 | As written every claim's class is the true spelling of its `persistent` attribute |
| Workload.StorageClassCounterexample | provider/kube/builder/wordload.go:243-246 | A persistent entry with class `beta2` asks for class `true` as written, `beta2` when read from the class key |
| Workload.CorrectedClaimClass | provider/kube/builder/wordload.go:224-248 | Read from the class key, each wanted entry's claim is present, named `service-storage`, requesting its quantity, class set exactly when valid and not `default` |
| DeploymentQuery.StateStrings | db/deployment.go:68-71 | One decimal spelling per state, in order |
| DeploymentQuery.SpellStates | db/deployment.go:68-71 | The loop's list is `StateStrings` |
| DeploymentQuery.CollectConditions | db/deployment.go:58-73 | The loop's conditions are those of the present filters, in the order ID, owner, state |
| DeploymentQuery.BuildQuery | db/deployment.go:56-78 | The statement built is `QueryOf` the option |
| DeploymentQuery.NoFilterNoWhere | db/deployment.go:58-78 | No WHERE clause exactly when no filter is set; otherwise one ` WHERE ` followed by the conditions |
| DeploymentQuery.ConditionPositions | db/deployment.go:59-73 | Each empty field gives no condition; each present one gives its condition at its place |
| DeploymentQuery.AllFilters | db/deployment.go:59-77 | With every filter, the WHERE clause is the ID, owner and state conditions joined by ` AND ` |
| DeploymentQuery.StateListRoundTrip | db/deployment.go:67-73 | The list inside `in (...)` splits at its commas into one spelling per state, in order, each reading back as that state |
| DeploymentQuery.OwnerQuoteEndsLiteral | db/deployment.go:63-65 | An owner holding a quote ends the quoted literal early, the rest landing in the statement |
| DeploymentQuery.FirstIndex | db/deployment.go:86-93 | The first position of an ID, or the length when absent |
| DeploymentQuery.GroupRows | db/deployment.go:85-95 | The loop with its ID-to-position map builds `GroupOf` the rows |
| DeploymentQuery.GetDeployments | db/deployment.go:54-98 | A select error returns no list; otherwise the grouping of the rows the statement selects |
| DeploymentQuery.GroupDistinct | db/deployment.go:86-93 | Each deployment ID occurs once in the output |
| DeploymentQuery.GroupIds | db/deployment.go:85-93 | The output IDs are exactly the rows' IDs |
| DeploymentQuery.GroupIdsInRows | db/deployment.go:85-93 | Every output ID is some row's |
| DeploymentQuery.GroupOrder | db/deployment.go:87-93 | The deployments come in the order of their first rows |
| DeploymentQuery.GroupServices | db/deployment.go:94 | Each deployment carries its rows' services, in row order |
| DeploymentQuery.GroupFields | db/deployment.go:88-92 | Each deployment's own fields are those of its first row |
| DeploymentQuery.GroupTotal | db/deployment.go:94 | The total number of services equals the number of rows |
| Handler.GetRemoteAddr | node/handler/handler.go:24-30 | The stored string, or empty when missing or not a string |
| Handler.FirstForwarded | node/handler/handler.go:51-52 | The first comma-separated element, trimmed: no comma, trimmed, empty exactly when that element is all white space |
| Handler.GetClientIP | node/handler/handler.go:50-60 | The first forwarded element when it has content, else the trimmed `X-Real-Ip`; empty exactly when both are blank |
| Handler.ServedRemoteAddr | node/handler/handler.go:39-42 | The header-derived address, or the connection address when that is empty |
| Handler.ServeThenGet | node/handler/handler.go:24-45 | Downstream, `GetRemoteAddr` reads back what `ServeHTTP` stored, non-empty for a non-empty connection address |
| Handler.ForwardedChainGivesClient | node/handler/handler.go:51-52 | A chain `client,proxies…` with a trimmed client gives that client, whatever `X-Real-Ip` says |
| Handler.RealIpFallback | node/handler/handler.go:53-59 | Without `X-Forwarded-For` the trimmed `X-Real-Ip` is used; without either, the connection address is stored |

## Left out

- Kubernetes I/O. The model leaves out kubeconfig loading, client construction, the `DeleteNS`/`GetNS`/`List*` wrappers and the pod pager. The backend is `Apply.Cluster`; the listings are inputs.
- The builders. `BuildNS`, `BuildNetPol`, `NewDeployment`, `BuildStatefulSet`, `BuildService`/`Any`, `ValidateSettings` and `DidNS` are not part of this model. They are the functions of `KubeClient.Toolkit` and `ProviderManager.Wiring`.
- `resource.Quantity`. Quantities are natural numbers in base units: milli-cores for CPU, bytes otherwise. `Value()` rounds CPU up to whole cores, and `AsApproximateFloat64` is an exact division.
- Floating point. Commit factors and core counts are exact reals. `math.Round` rounds half away from zero, and `uint64(cpu*1000)` truncates. IEEE rounding effects are not modelled.
- Randomness. `uuid.NewString()` is an input, `uuid(i)`, for the i-th service.
- Concurrency. The registry's mutex and `AddProvider` releasing it at once are left out, as are the `watch` goroutine and its ticker, the per-pass timeout and the `scancel()` after the first probe. One sweep is a sequential pass whose probe outcomes are the `responding` set, and the sweep visits providers in an unspecified order.
- The clock. `time.Now()` is a parameter: `now` for registration and the sweep. `ProviderConnect` calls it twice, so `createdAt` and `updatedAt` are two separate parameters.
- RPC. The model leaves out `connectRemoteProvider`, the remote provider's `CreateDeployment`, `NewProvider`/`NewCommonRPCV0` and the JSON-RPC client. Their outcomes are parameters, and the remote calls sent are recorded in `Manager.remoteCalls`.
- `url.Parse` and `URL.String`. `RpcClient.GetPushUrl` takes the parsed URL or the parse error, and returns the URL record, not its text.
- RpcClient.PushPathOfPlainPath: the push path is proved for rooted paths made of plain elements, which covers the RPC addresses the system uses. Paths with empty, `.`, `..` or trailing-slash elements are covered only by the general `Clean` definition, with no lemma of their own.
- SQL. The statements' text is modelled, but no database executes them. `ManagerDB` keeps the rows each write appends. `INSERT … ON DUPLICATE KEY UPDATE`, the services insert, transactions, `UpdateDeploymentState`, and the NULL service columns a deployment without services produces in the LEFT JOIN are not modelled. `GetDeployments` takes the database's answer to its statement as a function.
- Logging, the JSON dumps in `container()` and `GetStatistics`, and the debug prints.
- The methods that panic with "implement me" (`UpdateProvider`, `GetProviderList`, `GetTemplateList`, `CreateOrder`, and the manager's `CreateDeployment` and `CloseDeployment`). They do nothing that could be modelled.
- NodeDeployment.LatestCondition: `k8sDeploymentToService` sorts the caller's `Status.Conditions` in place with an unstable `sort.Slice` and takes the last element. The model scans for a condition with the latest `LastUpdateTime` instead. The reordering of the caller's slice, and which of several equally late conditions is taken, are not modelled.
- ProviderManager.CloseRemovesOnlyNamespace: the store is a flat map, so deleting a namespace's key leaves the objects inside it. Kubernetes' cascading deletion of a namespace's contents is not modelled.
- Workload.BuildContainer: the container's labels, resource-list `DeepCopy` and the scaled-quantity encoding are not modelled; the limits and requests are plain amounts.
- The GPU branch of `container()`, which is commented out in the source.
- Dependency injection, CLI and bootstrap code.

## Findings

| source | as written | input that shows it | evidently intended | confidence | as-written member | corrected member |
|---|---|---|---|---|---|---|
| provider/kube/apply.go:34-58 | The loop's `obj, err :=` declares a new `err`, so a failed policy get, create or update is dropped: `applyNetPolicies` returns `nil`, and `Deploy`'s error check at node/impl/provider/kube/client.go:103 never sees it | one policy whose key refuses writes, not yet in the cluster | return the loop's first failure, so that `Deploy` stops before the workloads | high, not executed | Apply.ApplyNetPoliciesAsWritten, Apply.NetPolicyErrorDropped, KubeClient.Deploy, KubeClient.AsWrittenPolicyFailureContinues | Apply.ApplyNetPolicies, KubeClient.CorrectedPolicyFailureStops |
| provider/kube/builder/wordload.go:243-246 | The storage class is read from the `persistent` attribute again, whose valid value is a boolean spelling, so every claim asks for class `true` (or `1`, `T`, …) | a storage entry `persistent: true, class: beta2` | read the class from the storage class attribute | high, not executed | Workload.AsWrittenClassIsPersistenceFlag, Workload.StorageClassCounterexample | Workload.CorrectedClaimClass |
