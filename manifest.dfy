/**
 * The compiled, backend-ready form of a deployment (the `manifest` packages):
 * a group of services with resource units, exposure records and storage
 * attributes, plus the attribute lookups the builders perform.
 */
module Manifest {
  import opened Base

  datatype Protocol = TCP | UDP

  /** `manifest.ServiceExpose`: ports are `uint32` in Go. */
  datatype ServiceExpose = ServiceExpose(port: nat, externalPort: nat, proto: Protocol, global: bool)

  /** One key/value storage attribute. */
  datatype Attribute = Attribute(key: string, value: string)

  /** One storage entry of a service's resources: a quantity in bytes. */
  datatype StorageUnit = StorageUnit(name: string, quantity: nat, attributes: seq<Attribute>)

  /** `manifest.ResourceUnits`: CPU milli-cores and memory bytes, each possibly
      absent (a nil value), and the storage entries. */
  datatype ResourceUnits = ResourceUnits(cpu: Option<nat>, memory: Option<nat>, storage: seq<StorageUnit>)

  /** A storage mount of a service's parameters. */
  datatype StorageParams = StorageParams(name: string, mount: string, readOnly: bool)

  /** `manifest.Service`. */
  datatype Service = Service(
    name: string,
    image: string,
    command: seq<string>,
    args: seq<string>,
    env: seq<string>,
    resources: ResourceUnits,
    count: nat,
    expose: seq<ServiceExpose>,
    params: Option<seq<StorageParams>>)

  /** `manifest.Group`. */
  datatype Group = Group(services: seq<Service>)

  /** `manifest.DeploymentID`. */
  datatype DeploymentID = DeploymentID(id: string, owner: string)

  /** `builder.ClusterDeployment`: the deployment ID, its group and the
      number of (nil) scheduler-parameter slots. */
  datatype ClusterDeployment = ClusterDeployment(did: DeploymentID, group: Group, schedulerParamSlots: nat)

  /** The `"KEY=VALUE"` text of one environment entry. */
  function EnvEntry(key: string, value: string): string
  {
    key + "=" + value
  }

  /** `uint32(x)` of a Go `int`: wrap-around modulo 2^32. */
  function Uint32(x: int): (r: nat)
    ensures r < 0x1_0000_0000
    ensures 0 <= x < 0x1_0000_0000 ==> r == x
  {
    x % 0x1_0000_0000
  }

  /** `uint64(cpu * 1000)` of a float core count: truncation toward zero
      (a negative product converts to 0 here). */
  function CpuToMilli(cpu: real): (m: nat)
    ensures cpu >= 0.0 ==> m as real <= cpu * 1000.0 < m as real + 1.0
    ensures cpu < 0.0 ==> m == 0
  {
    if cpu < 0.0 then 0 else (cpu * 1000.0).Floor
  }

  /** `uint64(v * 1000000)` of an `int64` megabyte count: the `int64`
      product wraps, and the conversion reinterprets it modulo 2^64. */
  function MegaToBytes(v: int): (r: nat)
    ensures r < 0x1_0000_0000_0000_0000
    ensures 0 <= v * 1000000 < 0x1_0000_0000_0000_0000 ==> r == v * 1000000
  {
    (v * 1000000) % 0x1_0000_0000_0000_0000
  }

  /** `Attributes.Find(key)`: the value of the first attribute with that key;
      the empty text stands for "no such attribute". */
  function Find(attrs: seq<Attribute>, key: string): (v: string)
    ensures v != "" ==> exists i | 0 <= i < |attrs| :: attrs[i].key == key && attrs[i].value == v
    ensures (forall i | 0 <= i < |attrs| :: attrs[i].key != key) ==> v == ""
    ensures forall i | 0 <= i < |attrs| && attrs[i].key == key && (forall j | 0 <= j < i :: attrs[j].key != key) :: v == attrs[i].value
  {
    if |attrs| == 0 then ""
    else if attrs[0].key == key then attrs[0].value
    else Find(attrs[1..], key)
  }

  /** The spellings `strconv.ParseBool` accepts as true and as false. */
  predicate IsTrueText(s: string)
  {
    s == "1" || s == "t" || s == "T" || s == "TRUE" || s == "true" || s == "True"
  }

  predicate IsFalseText(s: string)
  {
    s == "0" || s == "f" || s == "F" || s == "FALSE" || s == "false" || s == "False"
  }

  /** `AttributeValue.AsBool()`: (value, valid). Empty or unparsable text is
      invalid and reads as false. */
  function AsBool(v: string): (r: (bool, bool))
    ensures r.1 <==> IsTrueText(v) || IsFalseText(v)
    ensures r.0 <==> IsTrueText(v)
  {
    if IsTrueText(v) then (true, true)
    else if IsFalseText(v) then (false, true)
    else (false, false)
  }

  /** `AttributeValue.AsString()`: (text, valid); only an empty value is invalid. */
  function AsString(v: string): (r: (string, bool))
    ensures r.1 <==> v != ""
    ensures r.0 == v
  {
    (v, v != "")
  }
}
