/**
 * The container and persistent-volume-claim builder of one service
 * (provider/kube/builder/wordload.go): requests versus limits under the
 * overcommit factors, environment parsing, storage selection, volume
 * mounts and ports.
 */
module Workload {
  import opened Base
  import opened Text
  import opened Manifest
  import opened Kube

  /** `StorageAttributePersistent`. */
  const StorageAttributePersistent: string := "persistent"
  /** `StorageClassDefault`. */
  const StorageClassDefault: string := "default"
  /** The attribute naming a storage class in the SDL the builder derives
      from. provider/kube/builder/wordload.go never reads it: the
      storage-class row under "Findings" in README.md uses it for the
      corrected claims. */
  const StorageAttributeClass: string := "class"

  /** The builder settings the workload reads. */
  datatype Settings = Settings(
    cpuCommitLevel: real,
    memoryCommitLevel: real,
    storageCommitLevel: real,
    dockerImagePullSecretsName: string)

  // ---------------------------------------------------------------------
  // Go conversions

  /** `int32(x)` of an unsigned value: wrap-around into [-2^31, 2^31). */
  function Int32(x: int): (r: int)
    ensures -0x8000_0000 <= r < 0x8000_0000
    ensures (r - x) % 0x1_0000_0000 == 0
    ensures 0 <= x < 0x8000_0000 ==> r == x
  {
    (x + 0x8000_0000) % 0x1_0000_0000 - 0x8000_0000
  }

  /** `math.Round`: the nearest integer, halves rounded away from zero. */
  function RoundHalfAway(x: real): (r: int)
    ensures x - 0.5 <= r as real <= x + 0.5
    ensures r as real - x == 0.5 ==> x >= 0.0
    ensures x - r as real == 0.5 ==> x < 0.0
  {
    if x >= 0.0 then (x + 0.5).Floor else -((-x + 0.5).Floor)
  }

  // ---------------------------------------------------------------------
  // Commit levels

  /** `computeCommittedResources`: with a factor of at most 1 the value is
      kept; otherwise it is divided by the factor, rounded to the nearest
      integer, and raised to 1 when that gives 0. */
  function ComputeCommittedResources(factor: real, v: nat): (r: nat)
    ensures factor <= 1.0 ==> r == v
    ensures factor > 1.0 ==> r >= 1
    ensures factor > 1.0 && RoundHalfAway(v as real / factor) >= 1 ==> r == RoundHalfAway(v as real / factor)
    ensures factor > 1.0 && v >= 1 ==> r <= v
    ensures factor > 1.0 && RoundHalfAway(v as real / factor) < 1 ==> r == 1
  {
    if factor <= 1.0 then v
    else
      var committed := RoundHalfAway(v as real * (1.0 / factor));
      assert v as real * (1.0 / factor) == v as real / factor;
      CommittedBelowValue(factor, v);
      if committed <= 0 then 1 else committed
  }

  /** Dividing by a factor above 1 and rounding never exceeds the value. */
  lemma CommittedBelowValue(factor: real, v: nat)
    requires factor > 1.0
    ensures 0 <= RoundHalfAway(v as real / factor)
    ensures v >= 1 ==> RoundHalfAway(v as real / factor) <= v
  {
    var x := v as real / factor;
    assert 0.0 <= x;
    if v >= 1 {
      assert x * factor == v as real;
      assert x < v as real;
    }
  }

  // ---------------------------------------------------------------------
  // Resources

  /** The storage entry is marked persistent: its `persistent` attribute
      parses as true (an invalid attribute reads as false). */
  predicate IsPersistent(su: StorageUnit)
  {
    AsBool(Find(su.attributes, StorageAttributePersistent)).0
  }

  /** The first `k` storage entries are all persistent. */
  predicate PersistentBefore(storage: seq<StorageUnit>, k: nat)
    requires k <= |storage|
  {
    forall j | 0 <= j < k :: IsPersistent(storage[j])
  }

  lemma PersistentBeforeStep(storage: seq<StorageUnit>, k: nat)
    requires k < |storage|
    ensures PersistentBefore(storage, k + 1) <==> IsPersistent(storage[0]) && PersistentBefore(storage[1..], k)
  {
    assert forall j | 0 <= j < k :: storage[1..][j] == storage[j + 1];
  }

  /** The index of the first storage entry that is not persistent. */
  function FirstEphemeral(storage: seq<StorageUnit>): (r: Option<nat>)
    ensures r.Some? ==> r.value < |storage| && !IsPersistent(storage[r.value]) && PersistentBefore(storage, r.value)
    ensures r.None? <==> PersistentBefore(storage, |storage|)
  {
    if |storage| == 0 then None
    else if !IsPersistent(storage[0]) then Some(0)
    else
      var rest := FirstEphemeral(storage[1..]);
      PersistentBeforeStep(storage, |storage| - 1);
      match rest
      case None => None
      case Some(i) =>
        PersistentBeforeStep(storage, i);
        assert storage[1..][i] == storage[i + 1];
        Some(i + 1)
  }

  /** The first non-persistent entry found by a scan is FirstEphemeral. */
  lemma {:induction false} FirstEphemeralAt(storage: seq<StorageUnit>, i: nat)
    requires i < |storage| && !IsPersistent(storage[i])
    requires forall j | 0 <= j < i :: IsPersistent(storage[j])
    ensures FirstEphemeral(storage) == Some(i)
    ensures EphemeralQuantity(storage) == Some(storage[i].quantity)
    decreases i
  {
    if i > 0 {
      assert IsPersistent(storage[0]);
      var rest := storage[1..];
      assert rest[i - 1] == storage[i];
      assert forall j | 0 <= j < i - 1 :: rest[j] == storage[j + 1];
      FirstEphemeralAt(rest, i - 1);
    }
  }

  /** The quantity of the ephemeral storage entry, if any. */
  function EphemeralQuantity(storage: seq<StorageUnit>): Option<nat>
  {
    match FirstEphemeral(storage)
    case None => None
    case Some(i) => Some(storage[i].quantity)
  }

  function Commit(factor: real, q: Option<nat>): Option<nat>
  {
    match q
    case None => None
    case Some(v) => Some(ComputeCommittedResources(factor, v))
  }

  /** A resource list with the given CPU, memory and ephemeral-storage
      entries, each one present only when set. */
  function Put(list: ResourceList, name: ResourceName, q: Option<nat>): ResourceList
  {
    if q.Some? then list[name := q.value] else list
  }

  function Entries(cpu: Option<nat>, memory: Option<nat>, ephemeral: Option<nat>): ResourceList
  {
    Put(Put(Put(map[], ResourceCPU, cpu), ResourceMemory, memory), ResourceEphemeralStorage, ephemeral)
  }

  /** The container limits: the declared quantities. */
  function DeclaredLimits(res: ResourceUnits): ResourceList
  {
    Entries(res.cpu, res.memory, EphemeralQuantity(res.storage))
  }

  /** The container requests: the declared quantities under the commit
      levels. */
  function CommittedRequests(settings: Settings, res: ResourceUnits): ResourceList
  {
    Entries(Commit(settings.cpuCommitLevel, res.cpu), Commit(settings.memoryCommitLevel, res.memory),
            Commit(settings.storageCommitLevel, EphemeralQuantity(res.storage)))
  }

  /** CPU and memory limits are the declared quantities and their requests
      the committed ones; each is present exactly when declared. */
  lemma CpuAndMemoryLimitsAndRequests(settings: Settings, res: ResourceUnits)
    ensures ResourceCPU in DeclaredLimits(res) <==> res.cpu.Some?
    ensures ResourceCPU in CommittedRequests(settings, res) <==> res.cpu.Some?
    ensures res.cpu.Some? ==> DeclaredLimits(res)[ResourceCPU] == res.cpu.value
    ensures res.cpu.Some? ==> CommittedRequests(settings, res)[ResourceCPU] == ComputeCommittedResources(settings.cpuCommitLevel, res.cpu.value)
    ensures ResourceMemory in DeclaredLimits(res) <==> res.memory.Some?
    ensures ResourceMemory in CommittedRequests(settings, res) <==> res.memory.Some?
    ensures res.memory.Some? ==> DeclaredLimits(res)[ResourceMemory] == res.memory.value
    ensures res.memory.Some? ==> CommittedRequests(settings, res)[ResourceMemory] == ComputeCommittedResources(settings.memoryCommitLevel, res.memory.value)
  {
  }

  /** Ephemeral storage is present exactly when some storage entry is not
      persistent, as a limit and as a request alike; the persistent-volume
      resource never appears in a container. */
  lemma EphemeralStoragePresence(settings: Settings, res: ResourceUnits)
    ensures ResourceEphemeralStorage in DeclaredLimits(res) <==> exists j | 0 <= j < |res.storage| :: !IsPersistent(res.storage[j])
    ensures ResourceEphemeralStorage in CommittedRequests(settings, res) <==> ResourceEphemeralStorage in DeclaredLimits(res)
    ensures ResourceStorage !in DeclaredLimits(res) && ResourceStorage !in CommittedRequests(settings, res)
  {
  }

  /** Ephemeral storage is taken from the first storage entry that is not
      persistent: its quantity is the limit, and committed, the request. */
  lemma EphemeralStorageFromFirstNonPersistent(settings: Settings, res: ResourceUnits, i: nat)
    requires i < |res.storage| && !IsPersistent(res.storage[i])
    requires forall j | 0 <= j < i :: IsPersistent(res.storage[j])
    ensures DeclaredLimits(res)[ResourceEphemeralStorage] == res.storage[i].quantity
    ensures CommittedRequests(settings, res)[ResourceEphemeralStorage] == ComputeCommittedResources(settings.storageCommitLevel, res.storage[i].quantity)
  {
    FirstEphemeralAt(res.storage, i);
  }

  /** With no overcommit every request equals its limit; with overcommit no
      request exceeds a limit of at least 1. */
  lemma RequestsWithinLimits(settings: Settings, res: ResourceUnits, n: ResourceName)
    requires n in DeclaredLimits(res)
    ensures n in CommittedRequests(settings, res)
    ensures (settings.cpuCommitLevel <= 1.0 && settings.memoryCommitLevel <= 1.0 && settings.storageCommitLevel <= 1.0) ==>
              CommittedRequests(settings, res)[n] == DeclaredLimits(res)[n]
    ensures DeclaredLimits(res)[n] >= 1 ==> CommittedRequests(settings, res)[n] <= DeclaredLimits(res)[n]
  {
  }

  // ---------------------------------------------------------------------
  // Environment

  /** One `strings.SplitN(env, "=", 2)` entry as an environment variable:
      the name before the first `=` and the value after it, or an empty
      value when there is no `=`. */
  function ParseEnvVar(s: string): (r: EnvVar)
    ensures '=' !in r.name
    ensures '=' in s ==> r.name + "=" + r.value == s
    ensures '=' !in s ==> r == EnvVar(s, "")
  {
    var (name, value) := Cut(s, '=');
    assert value.Some? ==> name + "=" + value.value == name + ['='] + value.value;
    if value.Some? then EnvVar(name, value.value) else EnvVar(name, "")
  }

  /** Parsing a `"k=v"` text gives `k` and `v` back when `k` has no `=`. */
  lemma ParseEnvEntry(k: string, v: string)
    requires '=' !in k
    ensures ParseEnvVar(EnvEntry(k, v)) == EnvVar(k, v)
  {
    assert EnvEntry(k, v) == k + ['='] + v;
    CutOfConcat(k, '=', v);
  }

  /** `addEnvVarsForDeployment`: every addition is disabled, so the list
      comes back as it went in. */
  function AddEnvVarsForDeployment(alreadyAdded: map<string, int>, env: seq<EnvVar>): (r: seq<EnvVar>)
    ensures r == env
  {
    env
  }

  // ---------------------------------------------------------------------
  // Pull secrets, name, replicas

  /** `imagePullSecrets`: none without a secret name, else one reference. */
  function ImagePullSecrets(settings: Settings): (r: seq<string>)
    ensures settings.dockerImagePullSecretsName == "" <==> r == []
    ensures r != [] ==> r == [settings.dockerImagePullSecretsName]
  {
    if settings.dockerImagePullSecretsName == "" then [] else [settings.dockerImagePullSecretsName]
  }

  /** `Workload.Name`: the name of the service at `serviceIdx`. */
  function Name(group: Group, serviceIdx: nat): (r: string)
    requires serviceIdx < |group.services|
    ensures r == group.services[serviceIdx].name
  {
    group.services[serviceIdx].name
  }

  /** `Workload.replicas`: the replica count as an `int32`. */
  function Replicas(group: Group, serviceIdx: nat): (r: int)
    requires serviceIdx < |group.services|
    ensures -0x8000_0000 <= r < 0x8000_0000
    ensures (r - group.services[serviceIdx].count) % 0x1_0000_0000 == 0
    ensures group.services[serviceIdx].count < 0x8000_0000 ==> r == group.services[serviceIdx].count
  {
    Int32(group.services[serviceIdx].count)
  }

  // ---------------------------------------------------------------------
  // Container

  /** The mount of storage parameter `p` of service `name`; its name
      matches the claim name. */
  function MountOf(name: string, p: StorageParams): VolumeMount
  {
    VolumeMount(name + "-" + p.name, p.readOnly, p.mount)
  }

  /** The requests and limits `Workload.container` fills in: CPU, then
      memory, then the first non-persistent storage entry, after which the
      scan stops. */
  method ContainerResources(settings: Settings, res: ResourceUnits) returns (requests: ResourceList, limits: ResourceList)
    ensures limits == DeclaredLimits(res)
    ensures requests == CommittedRequests(settings, res)
  {
    requests := map[];
    limits := map[];
    if res.cpu.Some? {
      requests := requests[ResourceCPU := ComputeCommittedResources(settings.cpuCommitLevel, res.cpu.value)];
      limits := limits[ResourceCPU := res.cpu.value];
    }
    if res.memory.Some? {
      requests := requests[ResourceMemory := ComputeCommittedResources(settings.memoryCommitLevel, res.memory.value)];
      limits := limits[ResourceMemory := res.memory.value];
    }
    assert requests == Put(Put(map[], ResourceCPU, Commit(settings.cpuCommitLevel, res.cpu)), ResourceMemory, Commit(settings.memoryCommitLevel, res.memory));
    assert limits == Put(Put(map[], ResourceCPU, res.cpu), ResourceMemory, res.memory);
    ghost var requests0, limits0 := requests, limits;
    var i := 0;
    while i < |res.storage|
      invariant 0 <= i <= |res.storage|
      invariant forall j | 0 <= j < i :: IsPersistent(res.storage[j])
      invariant requests == requests0 && limits == limits0
    {
      var attr := Find(res.storage[i].attributes, StorageAttributePersistent);
      var (persistent, _) := AsBool(attr);
      if !persistent {
        FirstEphemeralAt(res.storage, i);
        EntriesWithEphemeral(settings, res, res.storage[i].quantity);
        requests := requests[ResourceEphemeralStorage := ComputeCommittedResources(settings.storageCommitLevel, res.storage[i].quantity)];
        limits := limits[ResourceEphemeralStorage := res.storage[i].quantity];
        return;
      }
      i := i + 1;
    }
    assert PersistentBefore(res.storage, |res.storage|);
    EntriesWithoutEphemeral(settings, res);
  }

  /** The resource lists once CPU and memory are in place and the scan has
      found an ephemeral storage quantity `q`. */
  lemma EntriesWithEphemeral(settings: Settings, res: ResourceUnits, q: nat)
    requires EphemeralQuantity(res.storage) == Some(q)
    ensures Put(Put(map[], ResourceCPU, res.cpu), ResourceMemory, res.memory)[ResourceEphemeralStorage := q] == DeclaredLimits(res)
    ensures Put(Put(map[], ResourceCPU, Commit(settings.cpuCommitLevel, res.cpu)), ResourceMemory, Commit(settings.memoryCommitLevel, res.memory))
              [ResourceEphemeralStorage := ComputeCommittedResources(settings.storageCommitLevel, q)] == CommittedRequests(settings, res)
  {
  }

  /** The resource lists once CPU and memory are in place and the scan has
      found no ephemeral storage. */
  lemma EntriesWithoutEphemeral(settings: Settings, res: ResourceUnits)
    requires PersistentBefore(res.storage, |res.storage|)
    ensures Put(Put(map[], ResourceCPU, res.cpu), ResourceMemory, res.memory) == DeclaredLimits(res)
    ensures Put(Put(map[], ResourceCPU, Commit(settings.cpuCommitLevel, res.cpu)), ResourceMemory, Commit(settings.memoryCommitLevel, res.memory))
              == CommittedRequests(settings, res)
  {
  }

  /** The volume mounts: one per storage parameter, in order. */
  method VolumeMounts(service: Manifest.Service) returns (mounts: seq<VolumeMount>)
    ensures service.params.None? ==> mounts == []
    ensures service.params.Some? ==> |mounts| == |service.params.value|
    ensures service.params.Some? ==> forall i | 0 <= i < |service.params.value| ::
              mounts[i] == MountOf(service.name, service.params.value[i])
  {
    mounts := [];
    if service.params.Some? {
      var ps := service.params.value;
      for k := 0 to |ps|
        invariant |mounts| == k
        invariant forall j | 0 <= j < k :: mounts[j] == MountOf(service.name, ps[j])
      {
        mounts := mounts + [VolumeMount(service.name + "-" + ps[k].name, ps[k].readOnly, ps[k].mount)];
      }
    }
  }

  /** The environment: each entry parsed in order, then the (disabled)
      deployment variables added. */
  method ContainerEnv(envs: seq<string>) returns (env: seq<EnvVar>)
    ensures |env| == |envs| && forall i | 0 <= i < |envs| :: env[i] == ParseEnvVar(envs[i])
  {
    env := [];
    var envVarsAdded: map<string, int> := map[];
    for k := 0 to |envs|
      invariant |env| == k
      invariant forall j | 0 <= j < k :: env[j] == ParseEnvVar(envs[j])
    {
      var parsed := ParseEnvVar(envs[k]);
      env := env + [parsed];
      envVarsAdded := envVarsAdded[parsed.name := 0];
    }
    env := AddEnvVarsForDeployment(envVarsAdded, env);
  }

  /** The container ports: one per expose record, in order. */
  method ContainerPorts(expose: seq<ServiceExpose>) returns (ports: seq<int>)
    ensures |ports| == |expose| && forall i | 0 <= i < |expose| :: ports[i] == Int32(expose[i].port)
  {
    ports := [];
    for k := 0 to |expose|
      invariant |ports| == k
      invariant forall j | 0 <= j < k :: ports[j] == Int32(expose[j].port)
    {
      ports := ports + [Int32(expose[k].port)];
    }
  }

  /** `Workload.container`. */
  method BuildContainer(settings: Settings, service: Manifest.Service) returns (c: Container)
    ensures c.name == service.name && c.image == service.image
    ensures c.command == service.command && c.args == service.args
    ensures c.imagePullPolicy == PullIfNotPresent
    ensures c.securityContext == SecurityContext(false, false, false)
    ensures c.limits == DeclaredLimits(service.resources)
    ensures c.requests == CommittedRequests(settings, service.resources)
    ensures |c.env| == |service.env| && forall i | 0 <= i < |service.env| :: c.env[i] == ParseEnvVar(service.env[i])
    ensures |c.ports| == |service.expose| && forall i | 0 <= i < |service.expose| :: c.ports[i] == Int32(service.expose[i].port)
    ensures service.params.None? ==> c.volumeMounts == []
    ensures service.params.Some? ==> |c.volumeMounts| == |service.params.value|
    ensures service.params.Some? ==> forall i | 0 <= i < |service.params.value| ::
              c.volumeMounts[i] == MountOf(service.name, service.params.value[i])
  {
    var requests, limits := ContainerResources(settings, service.resources);
    var mounts := VolumeMounts(service);
    var env := ContainerEnv(service.env);
    var ports := ContainerPorts(service.expose);
    c := Container(service.name, service.image, service.command, service.args, requests, limits,
                   env, ports, mounts, PullIfNotPresent, SecurityContext(false, false, false));
  }

  // ---------------------------------------------------------------------
  // Persistent volume claims

  /** The storage entry asks for a claim: its `persistent` attribute is
      valid and true. */
  predicate WantsClaim(su: StorageUnit)
  {
    var (persistent, valid) := AsBool(Find(su.attributes, StorageAttributePersistent));
    valid && persistent
  }

  /** The storage class read from attribute `classKey`: its text when valid
      and not `"default"`, else none. */
  function StorageClassOf(attrs: seq<Attribute>, classKey: string): Option<string>
  {
    var (className, valid) := AsString(Find(attrs, classKey));
    if valid && className != StorageClassDefault then Some(className) else None
  }

  /** The claim of storage entry `su` of service `name`. */
  function ClaimOf(name: string, su: StorageUnit, classKey: string): PersistentVolumeClaim
  {
    PersistentVolumeClaim(name + "-" + su.name, su.quantity, StorageClassOf(su.attributes, classKey))
  }

  /** The claims of the storage entries that ask for one, in order, the
      class being read from attribute `classKey`. */
  function ClaimsOf(name: string, storage: seq<StorageUnit>, classKey: string): seq<PersistentVolumeClaim>
  {
    if |storage| == 0 then []
    else
      var init := ClaimsOf(name, storage[..|storage| - 1], classKey);
      var last := storage[|storage| - 1];
      if WantsClaim(last) then init + [ClaimOf(name, last, classKey)] else init
  }

  /** `persistentVolumeClaims`, as written: the class is read from the
      `persistent` attribute. */
  method PersistentVolumeClaims(service: Manifest.Service) returns (pvcs: seq<PersistentVolumeClaim>)
    ensures pvcs == ClaimsOf(service.name, service.resources.storage, StorageAttributePersistent)
  {
    pvcs := [];
    var storage := service.resources.storage;
    for i := 0 to |storage|
      invariant pvcs == ClaimsOf(service.name, storage[..i], StorageAttributePersistent)
    {
      assert storage[..i + 1][..i] == storage[..i];
      var attr := Find(storage[i].attributes, StorageAttributePersistent);
      var (persistent, valid) := AsBool(attr);
      if valid && persistent {
        var pvc := PersistentVolumeClaim(service.name + "-" + storage[i].name, storage[i].quantity, None);
        attr := Find(storage[i].attributes, StorageAttributePersistent);
        var (className, valid') := AsString(attr);
        if valid' && className != StorageClassDefault {
          pvc := pvc.(storageClassName := Some(className));
        }
        pvcs := pvcs + [pvc];
      }
    }
    assert storage[..|storage|] == storage;
  }

  /** `c` is the claim of some entry of `storage` that asks for one. */
  predicate FromEntry(name: string, storage: seq<StorageUnit>, classKey: string, c: PersistentVolumeClaim)
  {
    exists i | 0 <= i < |storage| :: WantsClaim(storage[i]) && c == ClaimOf(name, storage[i], classKey)
  }

  lemma FromEntrySnoc(name: string, init: seq<StorageUnit>, last: StorageUnit, classKey: string, c: PersistentVolumeClaim)
    ensures FromEntry(name, init + [last], classKey, c) <==>
            FromEntry(name, init, classKey, c) || (WantsClaim(last) && c == ClaimOf(name, last, classKey))
  {
    var all := init + [last];
    if FromEntry(name, all, classKey, c) {
      var i :| 0 <= i < |all| && WantsClaim(all[i]) && c == ClaimOf(name, all[i], classKey);
      if i < |init| {
        assert all[i] == init[i];
      }
    }
    if FromEntry(name, init, classKey, c) {
      var i :| 0 <= i < |init| && WantsClaim(init[i]) && c == ClaimOf(name, init[i], classKey);
      assert all[i] == init[i];
    }
    assert all[|init|] == last;
  }

  /** Every entry that asks for a claim gets one, and every claim comes
      from such an entry. */
  lemma {:induction false} ClaimsOfMembers(name: string, storage: seq<StorageUnit>, classKey: string, c: PersistentVolumeClaim)
    ensures c in ClaimsOf(name, storage, classKey) <==> FromEntry(name, storage, classKey, c)
    decreases |storage|
  {
    if |storage| > 0 {
      var init := storage[..|storage| - 1];
      var last := storage[|storage| - 1];
      assert storage == init + [last];
      ClaimsOfMembers(name, init, classKey, c);
      FromEntrySnoc(name, init, last, classKey, c);
    }
  }

  /** The number of entries that ask for a claim. */
  function CountWanting(storage: seq<StorageUnit>): nat
  {
    if |storage| == 0 then 0
    else CountWanting(storage[..|storage| - 1]) + (if WantsClaim(storage[|storage| - 1]) then 1 else 0)
  }

  /** Exactly one claim per entry that asks for one. */
  lemma {:induction false} ClaimsOfCount(name: string, storage: seq<StorageUnit>, classKey: string)
    ensures |ClaimsOf(name, storage, classKey)| == CountWanting(storage)
    decreases |storage|
  {
    if |storage| > 0 {
      ClaimsOfCount(name, storage[..|storage| - 1], classKey);
    }
  }

  /** As written, the class lookup reuses the `persistent` key, whose valid
      text is a true spelling: every claim gets that spelling as its class. */
  lemma {:induction false} AsWrittenClassIsPersistenceFlag(name: string, storage: seq<StorageUnit>, c: PersistentVolumeClaim)
    requires c in ClaimsOf(name, storage, StorageAttributePersistent)
    ensures c.storageClassName.Some? && IsTrueText(c.storageClassName.value)
  {
    ClaimsOfMembers(name, storage, StorageAttributePersistent, c);
    var i :| 0 <= i < |storage| && WantsClaim(storage[i]) && c == ClaimOf(name, storage[i], StorageAttributePersistent);
    var v := Find(storage[i].attributes, StorageAttributePersistent);
    assert IsTrueText(v);
  }

  /** A concrete entry: persistent, with class `beta2`. As written its claim
      asks for class `true`; read from the class attribute it asks for
      `beta2`. */
  lemma StorageClassCounterexample()
    ensures var su := StorageUnit("data", 1000, [Attribute("persistent", "true"), Attribute("class", "beta2")]);
      && ClaimsOf("web", [su], StorageAttributePersistent) == [PersistentVolumeClaim("web-data", 1000, Some("true"))]
      && ClaimsOf("web", [su], StorageAttributeClass) == [PersistentVolumeClaim("web-data", 1000, Some("beta2"))]
  {
    var attrs := [Attribute("persistent", "true"), Attribute("class", "beta2")];
    var su := StorageUnit("data", 1000, attrs);
    assert [su][..0] == [];
    assert Find(attrs, StorageAttributePersistent) == "true";
    assert "persistent"[0] != "class"[0];
    assert attrs[1..] == [Attribute("class", "beta2")];
    assert Find(attrs, StorageAttributeClass) == "beta2";
    assert WantsClaim(su);
    assert "true" != StorageClassDefault && "beta2" != StorageClassDefault;
    assert "web" + "-" + "data" == "web-data";
    assert StorageClassOf(attrs, StorageAttributePersistent) == Some("true");
    assert StorageClassOf(attrs, StorageAttributeClass) == Some("beta2");
    assert ClaimsOf("web", [su], StorageAttributePersistent) == [ClaimOf("web", su, StorageAttributePersistent)];
    assert ClaimsOf("web", [su], StorageAttributeClass) == [ClaimOf("web", su, StorageAttributeClass)];
  }

  /** With the class read from the class attribute, a claim asks for the
      named class, and for none when the attribute is absent or names the
      default class. */
  lemma CorrectedClaimClass(name: string, storage: seq<StorageUnit>, i: nat)
    requires i < |storage| && WantsClaim(storage[i])
    ensures var c := ClaimOf(name, storage[i], StorageAttributeClass);
      && c in ClaimsOf(name, storage, StorageAttributeClass)
      && c.name == name + "-" + storage[i].name && c.storageRequest == storage[i].quantity
      && (c.storageClassName.Some? <==>
            Find(storage[i].attributes, StorageAttributeClass) != "" && Find(storage[i].attributes, StorageAttributeClass) != StorageClassDefault)
      && (c.storageClassName.Some? ==> c.storageClassName.value == Find(storage[i].attributes, StorageAttributeClass))
  {
    ClaimsOfMembers(name, storage, StorageAttributeClass, ClaimOf(name, storage[i], StorageAttributeClass));
  }
}
