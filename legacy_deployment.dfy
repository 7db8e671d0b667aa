/**
 * The older manifest compiler (provider/deployment.go): no validation, no
 * name suffix, an expose record for every port, no storage units, and no
 * arguments or environment carried over.
 */
module LegacyDeployment {
  import opened Base
  import opened Text
  import Types
  import opened Manifest
  import NodeDeployment

  /** `podReplicas`. */
  const PodReplicas: nat := 1

  /** `imageToServiceName`: the image text before the first `:` (the length
      guard in the source always holds, `strings.Split` never returning an
      empty slice). */
  function ImageToServiceName(image: string): string
  {
    BeforeFirst(image, ':')
  }

  /** The legacy name is exactly the image with its tag removed. */
  lemma ServiceNameDropsTag(repo: string, tag: string)
    requires ':' !in repo
    ensures ImageToServiceName(repo + ":" + tag) == repo
    ensures ImageToServiceName(repo) == repo
  {
    assert repo + ":" + tag == repo + [':'] + tag;
    BeforeFirstOfConcat(repo, ':', tag);
    BeforeFirstIsPrefix(repo, ':');
  }

  /** The node compiler's name is the legacy name with a UUID suffix. */
  lemma NodeNameExtendsLegacyName(image: string, uuid: string)
    ensures NodeDeployment.ImageToServiceName(image, uuid) == ImageToServiceName(image) + "-" + RemoveAll(uuid, '-')
  {
  }

  /** `resourceToManifestResource`: the two-argument `NewResourceUnits`, so
      no storage entry. */
  function ResourceToManifestResource(res: Types.ComputeResources): ResourceUnits
  {
    ResourceUnits(Some(CpuToMilli(res.cpu)), Some(MegaToBytes(res.memory)), [])
  }

  /** The legacy units agree with the node compiler's on CPU and memory and
      drop the storage quantity. */
  lemma UnitsAgreeWithNodeCompiler(res: Types.ComputeResources)
    ensures ResourceToManifestResource(res).cpu == NodeDeployment.ResourceToManifestResource(res).cpu
    ensures ResourceToManifestResource(res).memory == NodeDeployment.ResourceToManifestResource(res).memory
    ensures ResourceToManifestResource(res).storage == []
  {
  }

  /** `exposeFromPort`: always one global TCP record, port 0 included. */
  function ExposeFromPort(port: int): ServiceExpose
  {
    ServiceExpose(Uint32(port), Uint32(port), TCP, true)
  }

  /** `serviceToManifestService`: total; only name, image, resources, the
      single expose record and the replica count are set. */
  function ServiceToManifestService(svc: Types.Service): Service
  {
    Service(ImageToServiceName(svc.image), svc.image, [], [], [],
            ResourceToManifestResource(svc.resources), PodReplicas, [ExposeFromPort(svc.port)], None)
  }

  /** Every legacy service has one replica and exactly one expose record,
      even for port 0 where the node compiler has none; arguments and
      environment are dropped. */
  lemma LegacyServiceShape(svc: Types.Service)
    ensures var s := ServiceToManifestService(svc);
      && s.count == 1
      && |s.expose| == 1
      && s.expose[0].proto == TCP && s.expose[0].global
      && (0 <= svc.port < 0x1_0000_0000 ==> s.expose[0].port == s.expose[0].externalPort == svc.port)
      && s.args == [] && s.env == [] && s.resources.storage == []
    ensures svc.port == 0 ==> NodeDeployment.ExposeList(svc.port) == [] != ServiceToManifestService(svc).expose
  {
  }

  /** `deploymentToManifestGroup`: one compiled service per input service, in
      order; nothing is rejected. */
  method DeploymentToManifestGroup(d: Types.Deployment) returns (g: Group)
    ensures |g.services| == |d.services|
    ensures forall i | 0 <= i < |d.services| :: g.services[i] == ServiceToManifestService(d.services[i])
  {
    var services: seq<Service> := [];
    for i := 0 to |d.services|
      invariant |services| == i
      invariant forall j | 0 <= j < i :: services[j] == ServiceToManifestService(d.services[j])
    {
      services := services + [ServiceToManifestService(d.services[i])];
    }
    g := Group(services);
  }

  /** `ClusterDeploymentFromDeployment`: always succeeds, even for an empty
      ID, no services or an empty image. */
  method ClusterDeploymentFromDeployment(d: Types.Deployment) returns (c: ClusterDeployment)
    ensures c.did == DeploymentID(d.id, d.owner)
    ensures |c.group.services| == |d.services| == c.schedulerParamSlots
    ensures forall i | 0 <= i < |d.services| :: c.group.services[i] == ServiceToManifestService(d.services[i])
  {
    var group := DeploymentToManifestGroup(d);
    c := ClusterDeployment(DeploymentID(d.id, d.owner), group, |group.services|);
  }
}
