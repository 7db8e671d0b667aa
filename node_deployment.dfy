/**
 * The provider's manifest compiler and read-back translator
 * (node/impl/provider/deployment.go): a tenant deployment becomes a cluster
 * deployment, and listed Kubernetes deployments and services become tenant
 * services and a port map.
 *
 * `uuid.NewString()` is an input: `uuid(i)` is the text drawn for the i-th
 * service.
 */
module NodeDeployment {
  import opened Base
  import opened Text
  import Types
  import Kube
  import opened Manifest

  /** `podReplicas`: every compiled service asks for one replica. */
  const PodReplicas: nat := 1

  /** The three validation failures of the compiler. */
  datatype CompileError = EmptyDeploymentId | NoServices | EmptyImage

  /** The two data-integrity failures of the read-back. */
  datatype ReadBackError = NoContainers | NoConditions

  // ---------------------------------------------------------------------
  // Names

  /** `imageToServiceName`: the image text before the first `:`, a `-`, and
      the UUID with every dash removed. */
  function ImageToServiceName(image: string, uuid: string): string
  {
    BeforeFirst(image, ':') + "-" + RemoveAll(uuid, '-')
  }

  /** A tagged image `repo:tag` loses its tag. */
  lemma ServiceNameOfTaggedImage(repo: string, tag: string, uuid: string)
    requires ':' !in repo
    ensures ImageToServiceName(repo + ":" + tag, uuid) == repo + "-" + RemoveAll(uuid, '-')
  {
    assert repo + ":" + tag == repo + [':'] + tag;
    BeforeFirstOfConcat(repo, ':', tag);
  }

  /** An untagged image is kept whole. */
  lemma ServiceNameOfUntaggedImage(image: string, uuid: string)
    requires ':' !in image
    ensures ImageToServiceName(image, uuid) == image + "-" + RemoveAll(uuid, '-')
  {
    BeforeFirstIsPrefix(image, ':');
  }

  predicate IsHex(c: char)
  {
    ('0' <= c <= '9') || ('a' <= c <= 'f') || ('A' <= c <= 'F')
  }

  predicate AllHex(s: string)
  {
    forall i | 0 <= i < |s| :: IsHex(s[i])
  }

  /** The canonical 8-4-4-4-12 text form `uuid.NewString()` produces, from
      its five groups of hex digits. */
  function UuidText(a: string, b: string, c: string, d: string, e: string): string
  {
    a + "-" + (b + "-" + (c + "-" + (d + "-" + e)))
  }

  predicate AreUuidGroups(a: string, b: string, c: string, d: string, e: string)
  {
    && |a| == 8 && |b| == 4 && |c| == 4 && |d| == 4 && |e| == 12
    && AllHex(a) && AllHex(b) && AllHex(c) && AllHex(d) && AllHex(e)
  }

  lemma {:induction false} RemoveAllConcat(a: string, b: string, c: char)
    ensures RemoveAll(a + b, c) == RemoveAll(a, c) + RemoveAll(b, c)
    decreases |a|
  {
    if |a| > 0 {
      assert (a + b)[1..] == a[1..] + b;
      RemoveAllConcat(a[1..], b, c);
    } else {
      assert a + b == b;
    }
  }

  lemma HexHasNoDash(s: string)
    requires AllHex(s)
    ensures RemoveAll(s, '-') == s
  {
    assert '-' !in s by {
      forall i | 0 <= i < |s| ensures s[i] != '-' { assert IsHex(s[i]); }
    }
  }

  /** Removing the dashes of `a-rest` where `a` is hex digits. */
  lemma PeelDash(a: string, rest: string)
    requires AllHex(a)
    ensures RemoveAll(a + "-" + rest, '-') == a + RemoveAll(rest, '-')
  {
    RemoveAllConcat(a, "-" + rest, '-');
    assert a + "-" + rest == a + ("-" + rest);
    HexHasNoDash(a);
    assert ("-" + rest)[1..] == rest;
  }

  lemma AllHexConcat(a: string, b: string)
    requires AllHex(a) && AllHex(b)
    ensures AllHex(a + b)
  {
    forall i | 0 <= i < |a + b| ensures IsHex((a + b)[i]) {
      if i < |a| { assert (a + b)[i] == a[i]; } else { assert (a + b)[i] == b[i - |a|]; }
    }
  }

  /** Removing the dashes of a canonical UUID leaves its five digit groups. */
  lemma UuidDigitGroups(a: string, b: string, c: string, d: string, e: string)
    requires AreUuidGroups(a, b, c, d, e)
    ensures RemoveAll(UuidText(a, b, c, d, e), '-') == a + (b + (c + (d + e)))
  {
    PeelDash(a, b + "-" + (c + "-" + (d + "-" + e)));
    PeelDash(b, c + "-" + (d + "-" + e));
    PeelDash(c, d + "-" + e);
    PeelDash(d, e);
    HexHasNoDash(e);
  }

  /** For a canonical UUID the name suffix is exactly its 32 hex digits. */
  lemma UuidSuffixIsHex(a: string, b: string, c: string, d: string, e: string)
    requires AreUuidGroups(a, b, c, d, e)
    ensures |RemoveAll(UuidText(a, b, c, d, e), '-')| == 32
    ensures AllHex(RemoveAll(UuidText(a, b, c, d, e), '-'))
  {
    UuidDigitGroups(a, b, c, d, e);
    AllHexConcat(d, e);
    AllHexConcat(c, d + e);
    AllHexConcat(b, c + (d + e));
    AllHexConcat(a, b + (c + (d + e)));
  }

  // ---------------------------------------------------------------------
  // Resource units

  /** `resourceToManifestResource`: CPU in milli-cores, memory and storage in
      bytes; the storage quantity is the one unnamed storage entry. */
  function ResourceToManifestResource(res: Types.ComputeResources): ResourceUnits
  {
    ResourceUnits(Some(CpuToMilli(res.cpu)), Some(MegaToBytes(res.memory)), [StorageUnit("", MegaToBytes(res.storage), [])])
  }

  /** Within range, the compiled units are the truncated milli-cores and the
      exact byte counts, and dividing the bytes by 10^6 gives the megabytes
      back. */
  lemma CompiledUnits(res: Types.ComputeResources)
    requires 0.0 <= res.cpu
    requires 0 <= res.memory && res.memory * 1000000 < 0x1_0000_0000_0000_0000
    requires 0 <= res.storage && res.storage * 1000000 < 0x1_0000_0000_0000_0000
    ensures var r := ResourceToManifestResource(res);
      && r.cpu.Some? && r.cpu.value as real <= res.cpu * 1000.0 < r.cpu.value as real + 1.0
      && r.memory == Some(res.memory * 1000000) && r.memory.value / 1000000 == res.memory
      && |r.storage| == 1 && r.storage[0].quantity == res.storage * 1000000
      && r.storage[0].quantity / 1000000 == res.storage
  {
  }

  /** The compiled units of the scenario service `cpu 0.1, memory 100, storage 100`. */
  lemma ScenarioResourceUnits()
    ensures ResourceToManifestResource(Types.ComputeResources(0.1, 100, 100))
         == ResourceUnits(Some(100), Some(100_000_000), [StorageUnit("", 100_000_000, [])])
  {
    assert (0.1 * 1000.0).Floor == 100;
  }

  // ---------------------------------------------------------------------
  // Exposure

  /** `exposeFromPort`: port 0 exposes nothing; any other port one global TCP
      record with the same internal and external port. */
  function ExposeFromPort(port: int): (r: Option<ServiceExpose>)
    ensures r.None? <==> port == 0
    ensures r.Some? ==> r.value.port == r.value.externalPort == Uint32(port)
    ensures r.Some? ==> r.value.proto == TCP && r.value.global
  {
    if port == 0 then None
    else Some(ServiceExpose(Uint32(port), Uint32(port), TCP, true))
  }

  /** The `Expose` list a compiled service carries for `port`. */
  function ExposeList(port: int): (r: seq<ServiceExpose>)
    ensures port == 0 ==> r == []
    ensures port != 0 ==> r == [ServiceExpose(Uint32(port), Uint32(port), TCP, true)]
  {
    match ExposeFromPort(port)
    case None => []
    case Some(e) => [e]
  }

  // ---------------------------------------------------------------------
  // Environment

  /** `envs` holds one `"k=v"` text per entry of `env`, in some key order:
      its last text is the entry of some key `k`, and the texts before it
      serialise the rest of the map. */
  ghost predicate IsEnvSerialisation(envs: seq<string>, env: map<string, string>)
    decreases |envs|
  {
    if |envs| == 0 then env == map[]
    else exists k | k in env ::
           envs[|envs| - 1] == EnvEntry(k, env[k]) && IsEnvSerialisation(envs[..|envs| - 1], env - {k})
  }

  /** A serialisation has one text per entry. */
  lemma {:induction false} EnvSerialisationSize(envs: seq<string>, env: map<string, string>)
    requires IsEnvSerialisation(envs, env)
    ensures |envs| == |env|
    decreases |envs|
  {
    if |envs| > 0 {
      var k :| k in env && envs[|envs| - 1] == EnvEntry(k, env[k]) && IsEnvSerialisation(envs[..|envs| - 1], env - {k});
      EnvSerialisationSize(envs[..|envs| - 1], env - {k});
    }
  }

  /** Every entry of the map appears in its serialisation. */
  lemma {:induction false} EnvSerialisationHasEntries(envs: seq<string>, env: map<string, string>, k: string)
    requires IsEnvSerialisation(envs, env) && k in env
    ensures EnvEntry(k, env[k]) in envs
    decreases |envs|
  {
    var k' :| k' in env && envs[|envs| - 1] == EnvEntry(k', env[k']) && IsEnvSerialisation(envs[..|envs| - 1], env - {k'});
    if k != k' {
      EnvSerialisationHasEntries(envs[..|envs| - 1], env - {k'}, k);
      assert envs == envs[..|envs| - 1] + [envs[|envs| - 1]];
    }
  }

  /** `envToManifestEnv`: ranges over the map in an unspecified order and
      appends `"k=v"` for each entry. */
  method EnvToManifestEnv(env: map<string, string>) returns (envs: seq<string>)
    ensures IsEnvSerialisation(envs, env)
  {
    envs := [];
    var done: map<string, string> := map[];
    var rest := env.Keys;
    while rest != {}
      invariant rest <= env.Keys
      invariant forall k :: k in env <==> k in rest || k in done
      invariant forall k | k in done :: k !in rest && done[k] == env[k]
      invariant IsEnvSerialisation(envs, done)
      decreases rest
    {
      var k :| k in rest;
      var done' := done[k := env[k]];
      assert done' - {k} == done;
      envs := envs + [EnvEntry(k, env[k])];
      done := done';
      rest := rest - {k};
    }
    assert done == env;
  }

  // ---------------------------------------------------------------------
  // Compilation

  /** `s` is the manifest service compiled from `svc` with UUID `uuid`. */
  ghost predicate IsCompiledFrom(s: Service, svc: Types.Service, uuid: string)
  {
    && s.name == ImageToServiceName(svc.image, uuid)
    && s.image == svc.image
    && s.command == []
    && s.args == svc.arguments
    && IsEnvSerialisation(s.env, svc.env)
    && s.resources == ResourceToManifestResource(svc.resources)
    && s.count == PodReplicas
    && s.expose == ExposeList(svc.port)
    && s.params == None
  }

  /** `serviceToManifestService`: an empty image is an error; otherwise the
      compiled service. */
  method ServiceToManifestService(svc: Types.Service, uuid: string) returns (r: Result<Service, CompileError>)
    ensures r.Ok? <==> |svc.image| > 0
    ensures r.Err? ==> r.error == EmptyImage
    ensures r.Ok? ==> IsCompiledFrom(r.value, svc, uuid)
  {
    if |svc.image| == 0 {
      return Err(EmptyImage);
    }
    var name := ImageToServiceName(svc.image, uuid);
    var resource := ResourceToManifestResource(svc.resources);
    var expose := ExposeFromPort(svc.port);
    var env := EnvToManifestEnv(svc.env);
    var s := Service(name, svc.image, [], svc.arguments, env, resource, PodReplicas, [], None);
    if expose.Some? {
      s := s.(expose := s.expose + [expose.value]);
    }
    return Ok(s);
  }

  /** Every service of `services` has a non-empty image. */
  predicate AllImagesSet(services: seq<Types.Service>)
  {
    forall i | 0 <= i < |services| :: |services[i].image| > 0
  }

  /** `services` are the services of `svcs` compiled one by one, the j-th
      with `uuid(j)`. */
  ghost predicate AllCompiledFrom(services: seq<Service>, svcs: seq<Types.Service>, uuid: nat -> string)
  {
    |services| == |svcs| && forall j | 0 <= j < |svcs| :: IsCompiledFrom(services[j], svcs[j], uuid(j))
  }

  lemma AllCompiledFromStep(services: seq<Service>, svcs: seq<Types.Service>, uuid: nat -> string, s: Service, svc: Types.Service)
    requires AllCompiledFrom(services, svcs, uuid)
    requires IsCompiledFrom(s, svc, uuid(|svcs|))
    ensures AllCompiledFrom(services + [s], svcs + [svc], uuid)
  {
    forall j | 0 <= j < |svcs| + 1
      ensures IsCompiledFrom((services + [s])[j], (svcs + [svc])[j], uuid(j))
    {
      if j < |svcs| {
        assert (services + [s])[j] == services[j] && (svcs + [svc])[j] == svcs[j];
      }
    }
  }

  /** `deploymentToManifestGroup`: no services is an error; otherwise each
      service is compiled in order and the first failure aborts the group. */
  method DeploymentToManifestGroup(d: Types.Deployment, uuid: nat -> string) returns (r: Result<Group, CompileError>)
    ensures r.Ok? <==> |d.services| > 0 && AllImagesSet(d.services)
    ensures r.Err? ==> r.error == (if |d.services| == 0 then NoServices else EmptyImage)
    ensures r.Ok? ==> AllCompiledFrom(r.value.services, d.services, uuid)
  {
    if |d.services| == 0 {
      return Err(NoServices);
    }
    var services: seq<Service> := [];
    var i := 0;
    while i < |d.services|
      invariant 0 <= i <= |d.services|
      invariant AllImagesSet(d.services[..i])
      invariant AllCompiledFrom(services, d.services[..i], uuid)
    {
      var s := ServiceToManifestService(d.services[i], uuid(i));
      if s.Err? {
        return Err(s.error);
      }
      AllCompiledFromStep(services, d.services[..i], uuid, s.value, d.services[i]);
      assert d.services[..i] + [d.services[i]] == d.services[..i + 1];
      services := services + [s.value];
      i := i + 1;
    }
    assert d.services[..i] == d.services;
    return Ok(Group(services));
  }

  /** `ClusterDeploymentFromDeployment`: an empty ID is rejected before
      anything is compiled; the result carries one scheduler-parameter slot
      per compiled service. */
  method ClusterDeploymentFromDeployment(d: Types.Deployment, uuid: nat -> string)
    returns (r: Result<ClusterDeployment, CompileError>)
    ensures d.id == "" ==> r == Err(EmptyDeploymentId)
    ensures r.Ok? <==> d.id != "" && |d.services| > 0 && AllImagesSet(d.services)
    ensures d.id != "" && r.Err? ==> r.error == (if |d.services| == 0 then NoServices else EmptyImage)
    ensures r.Ok? ==> r.value.did == DeploymentID(d.id, d.owner)
    ensures r.Ok? ==> r.value.schedulerParamSlots == |d.services|
    ensures r.Ok? ==> AllCompiledFrom(r.value.group.services, d.services, uuid)
  {
    if |d.id| == 0 {
      return Err(EmptyDeploymentId);
    }
    var group := DeploymentToManifestGroup(d, uuid);
    if group.Err? {
      return Err(group.error);
    }
    return Ok(ClusterDeployment(DeploymentID(d.id, d.owner), group.value, |group.value.services|));
  }

  // ---------------------------------------------------------------------
  // Read-back

  /** `getConditionStatus`: True is normal, False is an error, anything else
      is unknown. */
  function GetConditionStatus(c: Kube.DeploymentCondition): (s: Types.ServiceState)
    ensures s == Types.ServiceStateNormal <==> c.status == "True"
    ensures s == Types.ServiceStateError <==> c.status == "False"
    ensures s == Types.ServiceStateUnknown <==> c.status != "True" && c.status != "False"
  {
    if c.status == "True" then Types.ServiceStateNormal
    else if c.status == "False" then Types.ServiceStateError
    else Types.ServiceStateUnknown
  }

  /** `conds[k]` has the latest `LastUpdateTime` of all conditions. */
  predicate IsLatest(conds: seq<Kube.DeploymentCondition>, k: int)
  {
    0 <= k < |conds| && forall j | 0 <= j < |conds| :: conds[j].lastUpdateTime <= conds[k].lastUpdateTime
  }

  /** The element that ends up last once the conditions are sorted by
      `LastUpdateTime`: one with the latest time (which one among equal times
      is unspecified, the sort being unstable). */
  method LatestCondition(conds: seq<Kube.DeploymentCondition>) returns (k: nat)
    requires |conds| > 0
    ensures IsLatest(conds, k)
  {
    k := 0;
    var i := 1;
    while i < |conds|
      invariant 1 <= i <= |conds| && k < i
      invariant forall j | 0 <= j < i :: conds[j].lastUpdateTime <= conds[k].lastUpdateTime
    {
      if !(conds[i].lastUpdateTime < conds[k].lastUpdateTime) {
        k := i;
      }
      i := i + 1;
    }
  }

  /** `s` is what the read-back makes of the backend deployment `dep`. */
  ghost predicate IsReadBack(dep: Kube.Deployment, s: Types.Service)
  {
    && |dep.containers| > 0
    && |dep.conditions| > 0
    && var c := dep.containers[0];
       && s.image == c.image
       && s.name == c.name
       && s.resources == Types.ComputeResources(
            Kube.Quantity(c.limits, Kube.ResourceCPU) as real / 1000.0,
            Kube.Quantity(c.limits, Kube.ResourceMemory) / 1000000,
            Kube.Quantity(c.limits, Kube.ResourceEphemeralStorage) / 1000000)
       && s.port == (if |c.ports| > 0 then c.ports[0] else 0)
       && s.env == map[] && s.arguments == []
       && exists k | IsLatest(dep.conditions, k) ::
            s.state == GetConditionStatus(dep.conditions[k]) && s.errorMessage == dep.conditions[k].message
  }

  /** `k8sDeploymentToService`: no container or no condition is an error;
      otherwise the first container's image, name, limits and first port,
      and the state and message of the latest condition. */
  method K8sDeploymentToService(dep: Kube.Deployment) returns (r: Result<Types.Service, ReadBackError>)
    ensures |dep.containers| == 0 ==> r == Err(NoContainers)
    ensures |dep.containers| > 0 && |dep.conditions| == 0 ==> r == Err(NoConditions)
    ensures r.Ok? <==> |dep.containers| > 0 && |dep.conditions| > 0
    ensures r.Ok? ==> IsReadBack(dep, r.value)
  {
    if |dep.containers| == 0 {
      return Err(NoContainers);
    }
    var c := dep.containers[0];
    var cpu := Kube.Quantity(c.limits, Kube.ResourceCPU) as real / 1000.0;
    var memory := Kube.Quantity(c.limits, Kube.ResourceMemory) / 1000000;
    var storage := Kube.Quantity(c.limits, Kube.ResourceEphemeralStorage) / 1000000;
    var port := 0;
    if |c.ports| > 0 {
      port := c.ports[0];
    }
    if |dep.conditions| == 0 {
      return Err(NoConditions);
    }
    var k := LatestCondition(dep.conditions);
    var last := dep.conditions[k];
    var s := Types.Service(c.name, c.image, port, map[], [], Types.ComputeResources(cpu, memory, storage),
                           GetConditionStatus(last), last.message);
    return Ok(s);
  }

  /** The read-back of `dep` succeeds. */
  predicate ReadsBack(dep: Kube.Deployment)
  {
    |dep.containers| > 0 && |dep.conditions| > 0
  }

  /** `k8sDeploymentsToServices`: each listed deployment in order; the first
      failure is returned with no list. */
  method K8sDeploymentsToServices(items: seq<Kube.Deployment>) returns (r: Result<seq<Types.Service>, ReadBackError>)
    ensures r.Ok? <==> forall i | 0 <= i < |items| :: ReadsBack(items[i])
    ensures r.Ok? ==> |r.value| == |items| && forall i | 0 <= i < |items| :: IsReadBack(items[i], r.value[i])
    ensures r.Err? ==> exists i | 0 <= i < |items| ::
              && !ReadsBack(items[i])
              && (forall j | 0 <= j < i :: ReadsBack(items[j]))
              && r.error == (if |items[i].containers| == 0 then NoContainers else NoConditions)
  {
    var services: seq<Types.Service> := [];
    var i := 0;
    while i < |items|
      invariant 0 <= i <= |items| && |services| == i
      invariant forall j | 0 <= j < i :: ReadsBack(items[j]) && IsReadBack(items[j], services[j])
    {
      var s := K8sDeploymentToService(items[i]);
      if s.Err? {
        return Err(s.error);
      }
      services := services + [s.value];
      i := i + 1;
    }
    return Ok(services);
  }

  // ---------------------------------------------------------------------
  // Port map

  /** The key a listed service with ports is stored under: a node-port
      service loses the node-port name suffix. */
  function PortKey(svc: Kube.Service, suffix: string): string
    requires |svc.ports| > 0
  {
    if svc.ports[0].nodePort != 0 then TrimSuffix(svc.name, suffix) else svc.name
  }

  /** The value stored for a listed service with ports: its node port when
      set, its port otherwise. */
  function PortValue(svc: Kube.Service): int
    requires |svc.ports| > 0
  {
    if svc.ports[0].nodePort != 0 then svc.ports[0].nodePort else svc.ports[0].port
  }

  /** The port map after processing `items` in order. */
  function PortMapOf(items: seq<Kube.Service>, suffix: string): map<string, int>
  {
    if |items| == 0 then map[]
    else
      var m := PortMapOf(items[..|items| - 1], suffix);
      var last := items[|items| - 1];
      if |last.ports| == 0 then m else m[PortKey(last, suffix) := PortValue(last)]
  }

  /** `k8sServiceToPortMap`: one loop over the listed services. */
  method K8sServiceToPortMap(items: seq<Kube.Service>, suffix: string) returns (portMap: map<string, int>)
    ensures portMap == PortMapOf(items, suffix)
  {
    portMap := map[];
    var i := 0;
    while i < |items|
      invariant 0 <= i <= |items|
      invariant portMap == PortMapOf(items[..i], suffix)
    {
      var svc := items[i];
      if |svc.ports| > 0 {
        var servicePort := svc.ports[0];
        if servicePort.nodePort != 0 {
          var serviceName := TrimSuffix(svc.name, suffix);
          portMap := portMap[serviceName := servicePort.nodePort];
        } else {
          portMap := portMap[svc.name := servicePort.port];
        }
      }
      assert items[..i + 1][..i] == items[..i];
      i := i + 1;
    }
    assert items[..i] == items;
  }

  /** The key `k` is stored exactly when some listed service with ports maps
      to it; services without ports contribute nothing. */
  lemma {:induction false} PortMapKeys(items: seq<Kube.Service>, suffix: string, k: string)
    ensures k in PortMapOf(items, suffix) <==>
            exists i | 0 <= i < |items| :: |items[i].ports| > 0 && PortKey(items[i], suffix) == k
    decreases |items|
  {
    if |items| > 0 {
      var init := items[..|items| - 1];
      PortMapKeys(init, suffix, k);
      assert forall i | 0 <= i < |init| :: init[i] == items[i];
    }
  }

  /** The stored value for a key comes from the LAST listed service with
      ports that maps to it: later items overwrite earlier ones. */
  lemma {:induction false} PortMapLastWins(items: seq<Kube.Service>, suffix: string, i: nat)
    requires i < |items| && |items[i].ports| > 0
    requires forall j | i < j < |items| :: |items[j].ports| == 0 || PortKey(items[j], suffix) != PortKey(items[i], suffix)
    ensures PortKey(items[i], suffix) in PortMapOf(items, suffix)
    ensures PortMapOf(items, suffix)[PortKey(items[i], suffix)] == PortValue(items[i])
    decreases |items|
  {
    if i < |items| - 1 {
      var init := items[..|items| - 1];
      assert init[i] == items[i];
      forall j | i < j < |init| ensures |init[j].ports| == 0 || PortKey(init[j], suffix) != PortKey(init[i], suffix) {
        assert init[j] == items[j];
      }
      PortMapLastWins(init, suffix, i);
    }
  }
}
