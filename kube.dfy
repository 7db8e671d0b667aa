/**
 * The Kubernetes API values the core emits and reads back, reduced to the
 * fields it touches. A resource quantity is a natural number: CPU in
 * milli-cores, every other resource in bytes.
 */
module Kube {
  import opened Base

  datatype ResourceName = ResourceCPU | ResourceMemory | ResourceEphemeralStorage | ResourceStorage

  /** `corev1.ResourceList`. */
  type ResourceList = map<ResourceName, nat>

  /** The quantity stored under `name`, or the zero quantity when absent. */
  function Quantity(list: ResourceList, name: ResourceName): nat
  {
    if name in list then list[name] else 0
  }

  /** `resource.Quantity.Value()` of a quantity of `name`: the value in whole
      base units, rounded up (CPU is held in milli-cores). */
  function Value(list: ResourceList, name: ResourceName): (v: nat)
    ensures name != ResourceCPU ==> v == Quantity(list, name)
    ensures name == ResourceCPU ==> v * 1000 >= Quantity(list, name) > (v - 1) * 1000
  {
    var q := Quantity(list, name);
    if name == ResourceCPU then (q + 999) / 1000 else q
  }

  /** Pointwise sum of two resource lists. */
  function AddLists(a: ResourceList, b: ResourceList): (r: ResourceList)
    ensures r.Keys == a.Keys + b.Keys
    ensures forall n :: Quantity(r, n) == Quantity(a, n) + Quantity(b, n)
  {
    map n | n in a.Keys + b.Keys :: Quantity(a, n) + Quantity(b, n)
  }

  /** `corev1.EnvVar`. */
  datatype EnvVar = EnvVar(name: string, value: string)

  /** `corev1.VolumeMount`. */
  datatype VolumeMount = VolumeMount(name: string, readOnly: bool, mountPath: string)

  /** The fixed security context every container gets. */
  datatype SecurityContext = SecurityContext(runAsNonRoot: bool, privileged: bool, allowPrivilegeEscalation: bool)

  datatype PullPolicy = PullAlways | PullNever | PullIfNotPresent

  /** `corev1.Container`, as built by the workload builder and read back. */
  datatype Container = Container(
    name: string,
    image: string,
    command: seq<string>,
    args: seq<string>,
    requests: ResourceList,
    limits: ResourceList,
    env: seq<EnvVar>,
    ports: seq<int>,
    volumeMounts: seq<VolumeMount>,
    imagePullPolicy: PullPolicy,
    securityContext: SecurityContext)

  /** `corev1.PersistentVolumeClaim`: a `ReadWriteOnce` file-system claim. */
  datatype PersistentVolumeClaim = PersistentVolumeClaim(name: string, storageRequest: nat, storageClassName: Option<string>)

  /** `appsv1.DeploymentCondition`; `status` is the condition's status text
      and `lastUpdateTime` its `LastUpdateTime`. */
  datatype DeploymentCondition = DeploymentCondition(status: string, lastUpdateTime: int, message: string)

  /** `appsv1.Deployment` as listed back from the backend. */
  datatype Deployment = Deployment(containers: seq<Container>, conditions: seq<DeploymentCondition>)

  /** `corev1.ServicePort`. */
  datatype ServicePort = ServicePort(port: int, nodePort: int)

  /** `corev1.Service` as listed back from the backend. */
  datatype Service = Service(name: string, ports: seq<ServicePort>)

  /** `corev1.NodeCondition`: the condition type and its status text. */
  datatype NodeCondition = NodeCondition(conditionType: string, status: string)

  /** `corev1.Taint`, reduced to its effect. */
  datatype Taint = Taint(key: string, effect: string)

  /** `corev1.NodeStatus`. */
  datatype NodeStatus = NodeStatus(capacity: ResourceList, allocatable: ResourceList, conditions: seq<NodeCondition>)

  /** `corev1.Node`. */
  datatype Node = Node(name: string, status: NodeStatus, taints: seq<Taint>)

  /** `corev1.Pod`: its node, its containers' requests and its overhead. */
  datatype Pod = Pod(nodeName: string, containerRequests: seq<ResourceList>, overhead: ResourceList)
}
