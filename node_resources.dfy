/**
 * Node activity and per-node allocation (node/impl/provider/kube/resources.go):
 * which nodes count, and the requests of the pods placed on them.
 */
module NodeResources {
  import opened Base
  import opened Kube

  const NodeReady := "Ready"
  const NodeMemoryPressure := "MemoryPressure"
  const NodeDiskPressure := "DiskPressure"
  const NodePIDPressure := "PIDPressure"
  const NodeNetworkUnavailable := "NetworkUnavailable"
  const ConditionTrue := "True"
  const ConditionFalse := "False"
  const TaintEffectNoSchedule := "NoSchedule"
  const TaintEffectNoExecute := "NoExecute"

  // ---------------------------------------------------------------------
  // nodeIsActive

  /** A condition that reports readiness. */
  predicate IsReadyCondition(c: NodeCondition)
  {
    c.conditionType == NodeReady && c.status == ConditionTrue
  }

  /** A pressure or network condition whose status is not `False`. */
  predicate IsPoorCondition(c: NodeCondition)
  {
    (c.conditionType == NodeMemoryPressure || c.conditionType == NodeDiskPressure
     || c.conditionType == NodePIDPressure || c.conditionType == NodeNetworkUnavailable)
    && c.status != ConditionFalse
  }

  predicate IsBlockingTaint(t: Taint)
  {
    t.effect == TaintEffectNoSchedule || t.effect == TaintEffectNoExecute
  }

  /** Whether some condition of `conds` reports readiness. */
  function AnyReady(conds: seq<NodeCondition>): bool
  {
    if |conds| == 0 then false else AnyReady(conds[..|conds| - 1]) || IsReadyCondition(conds[|conds| - 1])
  }

  /** The number of poor conditions, the `issues` the first loop counts. */
  function ConditionIssues(conds: seq<NodeCondition>): nat
  {
    if |conds| == 0 then 0
    else ConditionIssues(conds[..|conds| - 1]) + (if IsPoorCondition(conds[|conds| - 1]) then 1 else 0)
  }

  /** The number of blocking taints. */
  function TaintIssues(taints: seq<Taint>): nat
  {
    if |taints| == 0 then 0
    else TaintIssues(taints[..|taints| - 1]) + (if IsBlockingTaint(taints[|taints| - 1]) then 1 else 0)
  }

  /** What `nodeIsActive` decides. */
  predicate IsActive(node: Node)
  {
    AnyReady(node.status.conditions) && ConditionIssues(node.status.conditions) + TaintIssues(node.taints) == 0
  }

  /** `nodeIsActive`: one pass over the conditions, one over the taints. */
  method NodeIsActive(node: Node) returns (active: bool)
    ensures active == IsActive(node)
  {
    var ready := false;
    var issues := 0;
    var conds := node.status.conditions;
    for i := 0 to |conds|
      invariant ready == AnyReady(conds[..i])
      invariant issues == ConditionIssues(conds[..i])
    {
      assert conds[..i + 1][..i] == conds[..i];
      var cond := conds[i];
      if cond.conditionType == NodeReady {
        if cond.status == ConditionTrue {
          ready := true;
        }
      } else if cond.conditionType == NodeMemoryPressure || cond.conditionType == NodeDiskPressure
             || cond.conditionType == NodePIDPressure || cond.conditionType == NodeNetworkUnavailable {
        if cond.status != ConditionFalse {
          issues := issues + 1;
        }
      }
    }
    assert conds[..|conds|] == conds;
    var taints := node.taints;
    for j := 0 to |taints|
      invariant issues == ConditionIssues(conds) + TaintIssues(taints[..j])
    {
      assert taints[..j + 1][..j] == taints[..j];
      if taints[j].effect == TaintEffectNoSchedule || taints[j].effect == TaintEffectNoExecute {
        issues := issues + 1;
      }
    }
    assert taints[..|taints|] == taints;
    active := ready && issues == 0;
  }

  lemma {:induction false} AnyReadyExists(conds: seq<NodeCondition>)
    ensures AnyReady(conds) <==> exists i | 0 <= i < |conds| :: IsReadyCondition(conds[i])
    decreases |conds|
  {
    if |conds| > 0 {
      var init := conds[..|conds| - 1];
      AnyReadyExists(init);
      if AnyReady(init) {
        var i :| 0 <= i < |init| && IsReadyCondition(init[i]);
        assert conds[i] == init[i];
      }
      forall i | 0 <= i < |init| ensures init[i] == conds[i] { }
    }
  }

  lemma {:induction false} NoConditionIssues(conds: seq<NodeCondition>)
    ensures ConditionIssues(conds) == 0 <==> forall i | 0 <= i < |conds| :: !IsPoorCondition(conds[i])
    decreases |conds|
  {
    if |conds| > 0 {
      var init := conds[..|conds| - 1];
      NoConditionIssues(init);
      forall i | 0 <= i < |init| ensures init[i] == conds[i] { }
    }
  }

  lemma {:induction false} NoTaintIssues(taints: seq<Taint>)
    ensures TaintIssues(taints) == 0 <==> forall i | 0 <= i < |taints| :: !IsBlockingTaint(taints[i])
    decreases |taints|
  {
    if |taints| > 0 {
      var init := taints[..|taints| - 1];
      NoTaintIssues(init);
      forall i | 0 <= i < |init| ensures init[i] == taints[i] { }
    }
  }

  /** A node is active exactly when some condition is `Ready`/`True`, no
      pressure or network condition has a status other than `False`, and no
      taint has effect `NoSchedule` or `NoExecute`; other condition types
      and other taint effects play no part. */
  lemma ActiveIff(node: Node)
    ensures IsActive(node) <==>
      && (exists i | 0 <= i < |node.status.conditions| :: IsReadyCondition(node.status.conditions[i]))
      && (forall i | 0 <= i < |node.status.conditions| :: !IsPoorCondition(node.status.conditions[i]))
      && (forall j | 0 <= j < |node.taints| :: !IsBlockingTaint(node.taints[j]))
  {
    AnyReadyExists(node.status.conditions);
    NoConditionIssues(node.status.conditions);
    NoTaintIssues(node.taints);
  }

  /** For instance, a ready node with an unknown memory-pressure status is
      inactive, and a `PreferNoSchedule` taint keeps nothing out. */
  lemma ActiveExamples(status: NodeStatus)
    ensures !IsActive(Node("n", status.(conditions := [NodeCondition("Ready", "True"), NodeCondition("MemoryPressure", "Unknown")]), []))
    ensures IsActive(Node("n", status.(conditions := [NodeCondition("Ready", "True"), NodeCondition("DiskPressure", "False")]), [Taint("k", "PreferNoSchedule")]))
    ensures !IsActive(Node("n", status.(conditions := [NodeCondition("Ready", "False")]), []))
  {
    var c1 := [NodeCondition("Ready", "True"), NodeCondition("MemoryPressure", "Unknown")];
    assert c1[..1] == [c1[0]];
    assert IsPoorCondition(c1[1]);
    var c2 := [NodeCondition("Ready", "True"), NodeCondition("DiskPressure", "False")];
    assert c2[..1] == [c2[0]];
    assert AnyReady(c2[..1]);
    assert !IsPoorCondition(c2[1]);
    assert !IsPoorCondition(c2[0]);
    var taints := [Taint("k", "PreferNoSchedule")];
    assert !IsBlockingTaint(taints[0]);
    assert taints[..0] == [];
    var c3 := [NodeCondition("Ready", "False")];
    assert c3[..0] == [];
    assert !IsReadyCondition(c3[0]);
  }

  // ---------------------------------------------------------------------
  // FetchNodeResources

  /** `nodeResource`: a node's status and the requests allocated on it so
      far (its constructor and adder are not part of this model: the
      allocation starts empty and requests add pointwise). */
  datatype NodeResource = NodeResource(status: NodeStatus, allocation: ResourceList)

  function NewNodeResource(status: NodeStatus): NodeResource
  {
    NodeResource(status, map[])
  }

  /** The entries the node loop creates, a later node of the same name
      replacing an earlier one. */
  function ActiveNodes(nodes: seq<Node>): map<string, NodeResource>
  {
    if |nodes| == 0 then map[]
    else
      var m := ActiveNodes(nodes[..|nodes| - 1]);
      var node := nodes[|nodes| - 1];
      if IsActive(node) then m[node.name := NewNodeResource(node.status)] else m
  }

  /** The requests of a pod's containers and then its overhead, added in
      turn to `alloc`. */
  function AddRequests(alloc: ResourceList, requests: seq<ResourceList>): ResourceList
  {
    if |requests| == 0 then alloc else AddLists(AddRequests(alloc, requests[..|requests| - 1]), requests[|requests| - 1])
  }

  /** The total of one resource over a list of requests. */
  function SumOf(requests: seq<ResourceList>, n: ResourceName): nat
  {
    if |requests| == 0 then 0 else SumOf(requests[..|requests| - 1], n) + Quantity(requests[|requests| - 1], n)
  }

  /** What the pod callback does to the map. */
  function AddPod(m: map<string, NodeResource>, pod: Pod): map<string, NodeResource>
  {
    if pod.nodeName !in m then m
    else
      var entry := m[pod.nodeName];
      m[pod.nodeName := entry.(allocation := AddLists(AddRequests(entry.allocation, pod.containerRequests), pod.overhead))]
  }

  function AddPods(m: map<string, NodeResource>, pods: seq<Pod>): map<string, NodeResource>
  {
    if |pods| == 0 then m else AddPod(AddPods(m, pods[..|pods| - 1]), pods[|pods| - 1])
  }

  /** `FetchNodeResources`, with the node list and the paged pod list given
      as the results of their calls: either error returns no map. */
  method FetchNodeResources(nodes: Result<seq<Node>, string>, pods: Result<seq<Pod>, string>)
    returns (r: Result<map<string, NodeResource>, string>)
    ensures nodes.Err? ==> r == Err(nodes.error)
    ensures nodes.Ok? && pods.Err? ==> r == Err(pods.error)
    ensures nodes.Ok? && pods.Ok? ==> r == Ok(AddPods(ActiveNodes(nodes.value), pods.value))
  {
    if nodes.Err? {
      return Err(nodes.error);
    }
    var items := nodes.value;
    var nodeResources: map<string, NodeResource> := map[];
    for i := 0 to |items|
      invariant nodeResources == ActiveNodes(items[..i])
    {
      assert items[..i + 1][..i] == items[..i];
      var active := NodeIsActive(items[i]);
      if active {
        nodeResources := nodeResources[items[i].name := NewNodeResource(items[i].status)];
      }
    }
    assert items[..|items|] == items;
    if pods.Err? {
      return Err(pods.error);
    }
    ghost var base := nodeResources;
    var list := pods.value;
    for p := 0 to |list|
      invariant nodeResources == AddPods(base, list[..p])
    {
      assert list[..p + 1][..p] == list[..p];
      var pod := list[p];
      if pod.nodeName in nodeResources {
        var entry := nodeResources[pod.nodeName];
        var requests := pod.containerRequests;
        for c := 0 to |requests|
          invariant entry == nodeResources[pod.nodeName].(allocation := AddRequests(nodeResources[pod.nodeName].allocation, requests[..c]))
        {
          assert requests[..c + 1][..c] == requests[..c];
          entry := entry.(allocation := AddLists(entry.allocation, requests[c]));
        }
        assert requests[..|requests|] == requests;
        entry := entry.(allocation := AddLists(entry.allocation, pod.overhead));
        nodeResources := nodeResources[pod.nodeName := entry];
      }
    }
    assert list[..|list|] == list;
    return Ok(nodeResources);
  }

  /** The node loop keeps an entry for exactly the active nodes' names, with
      the status of the last active node of that name. */
  lemma {:induction false} ActiveNodesKeys(nodes: seq<Node>, name: string)
    ensures name in ActiveNodes(nodes) <==> exists i | 0 <= i < |nodes| :: nodes[i].name == name && IsActive(nodes[i])
    ensures name in ActiveNodes(nodes) ==> ActiveNodes(nodes)[name].allocation == map[]
    decreases |nodes|
  {
    if |nodes| > 0 {
      var init := nodes[..|nodes| - 1];
      ActiveNodesKeys(init, name);
      forall i | 0 <= i < |init| ensures init[i] == nodes[i] { }
      if name in ActiveNodes(init) {
        var i :| 0 <= i < |init| && init[i].name == name && IsActive(init[i]);
        assert nodes[i] == init[i];
      }
    }
  }

  lemma {:induction false} AddRequestsSum(alloc: ResourceList, requests: seq<ResourceList>, n: ResourceName)
    ensures Quantity(AddRequests(alloc, requests), n) == Quantity(alloc, n) + SumOf(requests, n)
    decreases |requests|
  {
    if |requests| > 0 {
      AddRequestsSum(alloc, requests[..|requests| - 1], n);
    }
  }

  /** The part of one resource a pod adds to its node: its containers'
      requests plus its overhead. */
  function PodDemand(pod: Pod, n: ResourceName): nat
  {
    SumOf(pod.containerRequests, n) + Quantity(pod.overhead, n)
  }

  /** The total demand of the pods placed on `name`. */
  function DemandOn(pods: seq<Pod>, name: string, n: ResourceName): nat
  {
    if |pods| == 0 then 0
    else DemandOn(pods[..|pods| - 1], name, n) + (if pods[|pods| - 1].nodeName == name then PodDemand(pods[|pods| - 1], n) else 0)
  }

  /** The pod pass adds no entry and changes no status; each entry's
      allocation grows by exactly the demand of the pods on that node, so a
      pod on a node outside the map contributes nothing. */
  lemma {:induction false} AddPodsTotals(m: map<string, NodeResource>, pods: seq<Pod>, name: string, n: ResourceName)
    ensures AddPods(m, pods).Keys == m.Keys
    ensures name in m ==> AddPods(m, pods)[name].status == m[name].status
    ensures name in m ==> Quantity(AddPods(m, pods)[name].allocation, n) == Quantity(m[name].allocation, n) + DemandOn(pods, name, n)
    decreases |pods|
  {
    if |pods| > 0 {
      var init := pods[..|pods| - 1];
      AddPodsTotals(m, init, name, n);
      var pod := pods[|pods| - 1];
      var m1 := AddPods(m, init);
      if pod.nodeName in m1 {
        AddRequestsSum(m1[pod.nodeName].allocation, pod.containerRequests, n);
      }
    }
  }

  /** Together: a successful fetch maps each active node's name to the total
      demand of the pods scheduled on it. */
  lemma FetchTotals(nodes: seq<Node>, pods: seq<Pod>, name: string, n: ResourceName)
    ensures var r := AddPods(ActiveNodes(nodes), pods);
      && (name in r <==> exists i | 0 <= i < |nodes| :: nodes[i].name == name && IsActive(nodes[i]))
      && (name in r ==> Quantity(r[name].allocation, n) == DemandOn(pods, name, n))
  {
    ActiveNodesKeys(nodes, name);
    AddPodsTotals(ActiveNodes(nodes), pods, name, n);
  }
}
