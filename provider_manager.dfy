/**
 * The provider's manager (node/impl/provider/manager.go): resource
 * statistics over the cluster's nodes, and the deployment entry points that
 * compile a deployment and hand it to the Kubernetes client.
 */
module ProviderManager {
  import opened Base
  import opened Kube
  import Types
  import Manifest
  import NodeDeployment
  import Workload
  import Apply
  import KubeClient

  const Uint64Modulus: nat := 0x1_0000_0000_0000_0000

  /** `+=` on a `uint64` counter. */
  function AddUint64(acc: nat, x: nat): (r: nat)
    ensures r < Uint64Modulus
    ensures acc < Uint64Modulus && acc + x < Uint64Modulus ==> r == acc + x
  {
    (acc + x) % Uint64Modulus
  }

  // ---------------------------------------------------------------------
  // Statistics

  /** `getResources`: whole CPU cores (rounded up from milli-cores), memory
      bytes and ephemeral-storage bytes of a resource list; a missing entry
      counts as zero. */
  function GetResources(list: ResourceList): (r: (nat, nat, nat))
    ensures r.0 * 1000 >= Quantity(list, ResourceCPU) > (r.0 - 1) * 1000
    ensures r.1 == Quantity(list, ResourceMemory)
    ensures r.2 == Quantity(list, ResourceEphemeralStorage)
  {
    (Value(list, ResourceCPU), Value(list, ResourceMemory), Value(list, ResourceEphemeralStorage))
  }

  const ZeroCounters := Types.Counters(0, 0, 0, 0)
  const ZeroStatistics := Types.ResourcesStatistics(ZeroCounters, ZeroCounters, ZeroCounters)

  /** The loop body for one node. */
  function AddNode(s: Types.ResourcesStatistics, node: Node): Types.ResourcesStatistics
  {
    var (cpu, memory, storage) := GetResources(node.status.capacity);
    var (aCpu, aMemory, aStorage) := GetResources(node.status.allocatable);
    s.(cpuCores := s.cpuCores.(max := AddUint64(s.cpuCores.max, cpu), available := AddUint64(s.cpuCores.available, aCpu)),
       memory := s.memory.(max := AddUint64(s.memory.max, memory), available := AddUint64(s.memory.available, aMemory)),
       storage := s.storage.(max := AddUint64(s.storage.max, storage), available := AddUint64(s.storage.available, aStorage)))
  }

  function StatisticsOf(nodes: seq<Node>): Types.ResourcesStatistics
  {
    if |nodes| == 0 then ZeroStatistics else AddNode(StatisticsOf(nodes[..|nodes| - 1]), nodes[|nodes| - 1])
  }

  /** `GetStatistics`, with the node listing given as its result (the
      listing call is not part of the client interface). */
  method GetStatistics(nodes: Result<seq<Node>, string>) returns (r: Result<Types.ResourcesStatistics, string>)
    ensures nodes.Err? ==> r == Err(nodes.error)
    ensures nodes.Ok? ==> r == Ok(StatisticsOf(nodes.value))
  {
    if nodes.Err? {
      return Err(nodes.error);
    }
    var items := nodes.value;
    var statistics := ZeroStatistics;
    for i := 0 to |items|
      invariant statistics == StatisticsOf(items[..i])
    {
      assert items[..i + 1][..i] == items[..i];
      var node := items[i];
      var (cpu, memory, storage) := GetResources(node.status.capacity);
      statistics := statistics.(cpuCores := statistics.cpuCores.(max := AddUint64(statistics.cpuCores.max, cpu)));
      statistics := statistics.(memory := statistics.memory.(max := AddUint64(statistics.memory.max, memory)));
      statistics := statistics.(storage := statistics.storage.(max := AddUint64(statistics.storage.max, storage)));

      var (aCpu, aMemory, aStorage) := GetResources(node.status.allocatable);
      statistics := statistics.(cpuCores := statistics.cpuCores.(available := AddUint64(statistics.cpuCores.available, aCpu)));
      statistics := statistics.(memory := statistics.memory.(available := AddUint64(statistics.memory.available, aMemory)));
      statistics := statistics.(storage := statistics.storage.(available := AddUint64(statistics.storage.available, aStorage)));
    }
    assert items[..|items|] == items;
    return Ok(statistics);
  }

  /** The plain total of one resource (in `getResources` units) over the
      nodes' capacity or allocatable lists. */
  function Total(nodes: seq<Node>, capacity: bool, n: ResourceName): nat
  {
    if |nodes| == 0 then 0
    else
      var node := nodes[|nodes| - 1];
      Total(nodes[..|nodes| - 1], capacity, n) + Value(if capacity then node.status.capacity else node.status.allocatable, n)
  }

  lemma AddWraps(a: nat, b: nat)
    ensures AddUint64(a % Uint64Modulus, b) == (a + b) % Uint64Modulus
  {
    var q := a / Uint64Modulus;
    assert a == q * Uint64Modulus + a % Uint64Modulus;
    assert a + b == q * Uint64Modulus + (a % Uint64Modulus + b);
  }

  /** A counter holding the `uint64` sums, over `nodes`, of the capacities
      (`max`) and allocatable amounts (`available`) of resource `n`, with
      `Active` and `Pending` at 0. */
  predicate CounterTotals(c: Types.Counters, nodes: seq<Node>, n: ResourceName)
  {
    && c.max == Total(nodes, true, n) % Uint64Modulus
    && c.available == Total(nodes, false, n) % Uint64Modulus
    && c.active == 0
    && c.pending == 0
  }

  /** Adding one node's amounts keeps a counter's totals. */
  lemma CounterStep(c: Types.Counters, init: seq<Node>, node: Node, n: ResourceName)
    requires CounterTotals(c, init, n)
    ensures CounterTotals(c.(max := AddUint64(c.max, Value(node.status.capacity, n)),
                             available := AddUint64(c.available, Value(node.status.allocatable, n))), init + [node], n)
  {
    assert (init + [node])[..|init|] == init;
    AddWraps(Total(init, true, n), Value(node.status.capacity, n));
    AddWraps(Total(init, false, n), Value(node.status.allocatable, n));
  }

  /** The maxima are the `uint64` sums of the capacities, the availabilities
      those of the allocatable amounts, and `Active` and `Pending` stay 0. */
  lemma {:induction false} StatisticsTotals(nodes: seq<Node>)
    ensures CounterTotals(StatisticsOf(nodes).cpuCores, nodes, ResourceCPU)
    ensures CounterTotals(StatisticsOf(nodes).memory, nodes, ResourceMemory)
    ensures CounterTotals(StatisticsOf(nodes).storage, nodes, ResourceEphemeralStorage)
    decreases |nodes|
  {
    if |nodes| > 0 {
      var init := nodes[..|nodes| - 1];
      var node := nodes[|nodes| - 1];
      assert nodes == init + [node];
      StatisticsTotals(init);
      var s := StatisticsOf(init);
      CounterStep(s.cpuCores, init, node, ResourceCPU);
      CounterStep(s.memory, init, node, ResourceMemory);
      CounterStep(s.storage, init, node, ResourceEphemeralStorage);
    }
  }


  // ---------------------------------------------------------------------
  // Deployments

  /** The errors of the deployment entry points. */
  datatype ManagerError =
    | CompileFailed(reason: NodeDeployment.CompileError)
    | EmptyServices
    | ClusterFailed(cause: Apply.Error)
    | NoNamespace(id: string, owner: string)

  /** What the manager is wired with: the client's builders, the default
      builder settings it puts in the context, the namespace derivation
      `builder.DidNS`, and the UUID source of the compiler. */
  datatype Wiring = Wiring(
    toolkit: KubeClient.Toolkit,
    defaults: Workload.Settings,
    didNS: Manifest.DeploymentID -> string,
    uuid: nat -> string)

  /** A cluster-client result lifted into the manager's errors. */
  function Lift(r: (Apply.Store, Option<Apply.Error>)): (Apply.Store, Option<ManagerError>)
  {
    (r.0, if r.1.Some? then Some(ClusterFailed(r.1.value)) else None)
  }

  /** The compiler rejects the deployment: empty ID, no services, or an
      empty image. */
  predicate Rejected(d: Types.Deployment)
  {
    d.id == "" || |d.services| == 0 || !NodeDeployment.AllImagesSet(d.services)
  }

  /** The workload `Deploy` builds for service `i` of a compiled deployment
      (`Workload.Name`) carries the compiled service name: the image's
      repository, `-`, and the UUID drawn for that service without dashes. */
  lemma WorkloadNameIsCompiledName(d: Types.Deployment, uuid: nat -> string, g: Manifest.Group, i: nat)
    requires NodeDeployment.AllCompiledFrom(g.services, d.services, uuid) && i < |d.services|
    ensures Workload.Name(g, i) == NodeDeployment.ImageToServiceName(d.services[i].image, uuid(i))
  {
  }

  /** The shared body of `CreateDeployment` and `UpdateDeployment`: compile,
      guard the group, then deploy with the default settings. */
  method DeployDeployment(cluster: Apply.Cluster, w: Wiring, d: Types.Deployment)
    returns (err: Option<ManagerError>, ghost sent: Option<Manifest.ClusterDeployment>)
    modifies cluster
    ensures sent.None? <==> Rejected(d)
    ensures sent.None? ==> err.Some? && cluster.Snapshot() == old(cluster.Snapshot())
    ensures |d.services| == 0 ==> err.Some? && !err.value.ClusterFailed?
    ensures sent.Some? ==>
      && sent.value.did == Manifest.DeploymentID(d.id, d.owner)
      && |sent.value.group.services| == |d.services| > 0
      && NodeDeployment.AllCompiledFrom(sent.value.group.services, d.services, w.uuid)
    ensures sent.Some? && w.toolkit.validateSettings(w.defaults).Some? ==>
      err == Some(ClusterFailed(w.toolkit.validateSettings(w.defaults).value)) && cluster.Snapshot() == old(cluster.Snapshot())
    ensures sent.Some? && w.toolkit.validateSettings(w.defaults).None? ==>
      (cluster.Snapshot(), err) == Lift(KubeClient.RunPlan(old(cluster.Snapshot()), KubeClient.Plan(w.toolkit, w.defaults, sent.value)))
  {
    var compiled := NodeDeployment.ClusterDeploymentFromDeployment(d, w.uuid);
    if compiled.Err? {
      return Some(CompileFailed(compiled.error)), None;
    }
    var k8sDeployment := compiled.value;
    if |k8sDeployment.group.services| == 0 {
      return Some(EmptyServices), None;
    }
    sent := Some(k8sDeployment);
    var e := KubeClient.Deploy(cluster, w.toolkit, Some(w.defaults), k8sDeployment);
    err := if e.Some? then Some(ClusterFailed(e.value)) else None;
  }

  /** `CreateDeployment`. */
  method CreateDeployment(cluster: Apply.Cluster, w: Wiring, d: Types.Deployment)
    returns (err: Option<ManagerError>, ghost sent: Option<Manifest.ClusterDeployment>)
    modifies cluster
    ensures sent.None? <==> Rejected(d)
    ensures sent.None? ==> err.Some? && cluster.Snapshot() == old(cluster.Snapshot())
    ensures sent.Some? ==> NodeDeployment.AllCompiledFrom(sent.value.group.services, d.services, w.uuid)
    ensures sent.Some? && w.toolkit.validateSettings(w.defaults).None? ==>
      (cluster.Snapshot(), err) == Lift(KubeClient.RunPlan(old(cluster.Snapshot()), KubeClient.Plan(w.toolkit, w.defaults, sent.value)))
  {
    err, sent := DeployDeployment(cluster, w, d);
  }

  /** `UpdateDeployment`: the same sequence as `CreateDeployment`; the
      upserts take the update branch for objects that exist. */
  method UpdateDeployment(cluster: Apply.Cluster, w: Wiring, d: Types.Deployment)
    returns (err: Option<ManagerError>, ghost sent: Option<Manifest.ClusterDeployment>)
    modifies cluster
    ensures sent.None? <==> Rejected(d)
    ensures sent.None? ==> err.Some? && cluster.Snapshot() == old(cluster.Snapshot())
    ensures sent.Some? ==> NodeDeployment.AllCompiledFrom(sent.value.group.services, d.services, w.uuid)
    ensures sent.Some? && w.toolkit.validateSettings(w.defaults).None? ==>
      (cluster.Snapshot(), err) == Lift(KubeClient.RunPlan(old(cluster.Snapshot()), KubeClient.Plan(w.toolkit, w.defaults, sent.value)))
  {
    err, sent := DeployDeployment(cluster, w, d);
  }

  /** The cluster-wide key of namespace `ns`. */
  function NamespaceKey(ns: string): Apply.Key
  {
    Apply.Key(Apply.Namespace, "", ns)
  }

  /** `CloseDeployment`: a deployment the compiler rejects, or whose
      namespace name is empty, is an error with no cluster call; otherwise
      exactly that namespace is deleted. */
  method CloseDeployment(cluster: Apply.Cluster, w: Wiring, d: Types.Deployment) returns (err: Option<ManagerError>)
    modifies cluster
    ensures Rejected(d) ==> err.Some? && err.value.CompileFailed? && cluster.Snapshot() == old(cluster.Snapshot())
    ensures !Rejected(d) && w.didNS(Manifest.DeploymentID(d.id, d.owner)) == "" ==>
      err == Some(NoNamespace(d.id, d.owner)) && cluster.Snapshot() == old(cluster.Snapshot())
    ensures !Rejected(d) && w.didNS(Manifest.DeploymentID(d.id, d.owner)) != "" ==>
      (cluster.Snapshot(), err) == Lift(Apply.DeleteEffect(old(cluster.Snapshot()), NamespaceKey(w.didNS(Manifest.DeploymentID(d.id, d.owner)))))
  {
    var compiled := NodeDeployment.ClusterDeploymentFromDeployment(d, w.uuid);
    if compiled.Err? {
      return Some(CompileFailed(compiled.error));
    }
    var did := compiled.value.did;
    var ns := w.didNS(did);
    if |ns| == 0 {
      return Some(NoNamespace(d.id, d.owner));
    }
    var e := cluster.Delete(NamespaceKey(ns));
    err := if e.Some? then Some(ClusterFailed(e.value)) else None;
  }

  /** A successful close removes that one namespace and nothing else, and
      issues one delete call. */
  lemma CloseRemovesOnlyNamespace(st: Apply.Store, ns: string)
    requires Apply.DeleteEffect(st, NamespaceKey(ns)).1.None?
    ensures NamespaceKey(ns) in st.objects
    ensures Apply.DeleteEffect(st, NamespaceKey(ns)).0.objects == st.objects - {NamespaceKey(ns)}
    ensures Apply.DeleteEffect(st, NamespaceKey(ns)).0.calls == st.calls + [Apply.DeleteCall(NamespaceKey(ns))]
  {
  }
}
