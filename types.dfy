/**
 * The tenant-facing records of the `api/types` package: deployments, their
 * services, providers and the statistics a provider reports. Timestamps are
 * nanosecond counts; a Go `time.Time` is only ever compared or stored here.
 */
module Types {

  /** `types.DeploymentState` values (an `int` in Go, so any value can occur). */
  const DeploymentStateActive: int := 1
  const DeploymentStateInActive: int := 2
  const DeploymentStateClose: int := 3

  /** `types.ServiceState`, derived from a backend condition. */
  datatype ServiceState = ServiceStateNormal | ServiceStateError | ServiceStateUnknown

  /** `types.ComputeResources`: fractional CPU cores, memory and storage in
      megabyte units (`int64` in Go, so they may be negative). */
  datatype ComputeResources = ComputeResources(cpu: real, memory: int, storage: int)

  /** `types.Service`: one container of a deployment, with the read-back
      fields (`Name`, `State`, `ErrorMessage`) the provider fills in. */
  datatype Service = Service(
    name: string,
    image: string,
    port: int,
    env: map<string, string>,
    arguments: seq<string>,
    resources: ComputeResources,
    state: ServiceState,
    errorMessage: string)

  /** `types.Deployment`, restricted to the fields the core reads or writes. */
  datatype Deployment = Deployment(
    id: string,
    name: string,
    owner: string,
    state: int,
    providerId: string,
    services: seq<Service>,
    createdAt: int,
    updatedAt: int)

  /** `types.Provider`. */
  datatype Provider = Provider(
    id: string,
    owner: string,
    hostUri: string,
    ip: string,
    createdAt: int,
    updatedAt: int)

  /** `types.GetDeploymentOption`: the filters of a deployment listing. */
  datatype GetDeploymentOption = GetDeploymentOption(deploymentId: string, owner: string, states: seq<int>)

  /** One resource class of `types.ResourcesStatistics` (`uint64` counters). */
  datatype Counters = Counters(max: nat, available: nat, active: nat, pending: nat)

  /** `types.ResourcesStatistics`. */
  datatype ResourcesStatistics = ResourcesStatistics(cpuCores: Counters, memory: Counters, storage: Counters)
}
