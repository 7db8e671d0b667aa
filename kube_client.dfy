/**
 * `client.Deploy` (node/impl/provider/kube/client.go): the ordered
 * reconcile of one cluster deployment: the namespace, its network policies,
 * then per service its workload and its local and global services, each
 * step an upsert, the first reported error aborting the rest. As written,
 * the network-policy step reports only its builder's error, so a failed
 * policy write does not stop the reconcile; `CorrectedPlan` is the
 * reconcile where it does.
 *
 * The builders (`BuildNS`, `BuildNetPol`, `NewDeployment`,
 * `BuildStatefulSet`, `BuildService` with `Any`, `ValidateSettings`) are not
 * part of this model: a `Toolkit` supplies them as functions.
 */
module KubeClient {
  import opened Base
  import opened Manifest
  import Workload
  import opened Apply

  /** `builder.NewWorkload(settings, deployment, svcIdx)`. */
  datatype WorkloadRef = WorkloadRef(settings: Workload.Settings, deployment: ClusterDeployment, serviceIdx: nat)

  /** A `builder.Service` and what its `Any()` reports. */
  datatype ServiceBuilder = ServiceBuilder(builder: Builder, any: bool)

  /** The builders `Deploy` calls. */
  datatype Toolkit = Toolkit(
    validateSettings: Workload.Settings -> Option<Error>,
    buildNS: (Workload.Settings, ClusterDeployment) -> Builder,
    buildNetPol: (Workload.Settings, ClusterDeployment) -> NetPolBuilder,
    newDeployment: WorkloadRef -> Builder,
    buildStatefulSet: WorkloadRef -> Builder,
    buildService: (WorkloadRef, bool) -> ServiceBuilder)

  /** The error for a context without builder settings. */
  const NotConfigured: Error := Invalid("kube client: not configured with settings in the context passed to function")

  // ---------------------------------------------------------------------
  // The plan

  /** One step of the reconcile. `NetPolStep` is `applyNetPolicies` as
      written, which reports only a `Create()` error; `CorrectedNetPolStep`
      also reports the first failure of its loop. */
  datatype Step = UpsertStep(kind: Kind, b: Builder) | NetPolStep(np: NetPolBuilder) | CorrectedNetPolStep(np: NetPolBuilder)

  function RunStep(st: Store, s: Step): (Store, Option<Error>)
  {
    match s
    case UpsertStep(kind, b) => UpsertEffect(st, KeyOf(kind, b), b)
    case NetPolStep(np) => NetPoliciesEffectAsWritten(st, np)
    case CorrectedNetPolStep(np) => NetPoliciesEffect(st, np)
  }

  /** The steps run in order; the first error is returned and nothing after
      it runs. */
  function RunPlan(st: Store, plan: seq<Step>): (Store, Option<Error>)
    decreases |plan|
  {
    if |plan| == 0 then (st, None)
    else
      var (st1, e) := RunStep(st, plan[0]);
      if e.Some? then (st1, e) else RunPlan(st1, plan[1..])
  }

  /** Some storage entry's attribute under `StorageClassDefault` parses as
      true (the key used here, not `persistent`). */
  predicate HasDefaultClassStorage(storage: seq<StorageUnit>)
  {
    exists i | 0 <= i < |storage| :: AsBool(Find(storage[i].attributes, Workload.StorageClassDefault)).0
  }

  /** The workload step of a service: a StatefulSet when it has such a
      storage entry, a Deployment otherwise. */
  function WorkloadStep(tk: Toolkit, w: WorkloadRef, svc: Manifest.Service): Step
  {
    if HasDefaultClassStorage(svc.resources.storage) then UpsertStep(StatefulSet, tk.buildStatefulSet(w))
    else UpsertStep(Deployment, tk.newDeployment(w))
  }

  /** The service steps: none without exposure; otherwise the local service
      when it has any port, then the global one when it has any. */
  function ExposureSteps(tk: Toolkit, w: WorkloadRef, svc: Manifest.Service): seq<Step>
  {
    if |svc.expose| == 0 then []
    else
      var local := tk.buildService(w, false);
      var global := tk.buildService(w, true);
      (if local.any then [UpsertStep(Kind.Service, local.builder)] else [])
      + (if global.any then [UpsertStep(Kind.Service, global.builder)] else [])
  }

  /** The steps of service `i`. */
  function ServiceSteps(tk: Toolkit, settings: Workload.Settings, d: ClusterDeployment, i: nat): seq<Step>
    requires i < |d.group.services|
  {
    var w := WorkloadRef(settings, d, i);
    [WorkloadStep(tk, w, d.group.services[i])] + ExposureSteps(tk, w, d.group.services[i])
  }

  /** The steps of services `i` onwards. */
  function StepsFrom(tk: Toolkit, settings: Workload.Settings, d: ClusterDeployment, i: nat): seq<Step>
    decreases |d.group.services| - i
  {
    if i >= |d.group.services| then []
    else ServiceSteps(tk, settings, d, i) + StepsFrom(tk, settings, d, i + 1)
  }

  /** The whole reconcile as written: namespace, network policies, then
      each service. */
  function Plan(tk: Toolkit, settings: Workload.Settings, d: ClusterDeployment): seq<Step>
  {
    [UpsertStep(Namespace, tk.buildNS(settings, d)), NetPolStep(tk.buildNetPol(settings, d))] + StepsFrom(tk, settings, d, 0)
  }

  /** The reconcile with the corrected `applyNetPolicies`, whose failures
      reach the error check after it. */
  function CorrectedPlan(tk: Toolkit, settings: Workload.Settings, d: ClusterDeployment): seq<Step>
  {
    [UpsertStep(Namespace, tk.buildNS(settings, d)), CorrectedNetPolStep(tk.buildNetPol(settings, d))] + StepsFrom(tk, settings, d, 0)
  }

  lemma RunPlanCons(st: Store, s: Step, rest: seq<Step>)
    ensures RunPlan(st, [s] + rest) == (var (st1, e) := RunStep(st, s); if e.Some? then (st1, e) else RunPlan(st1, rest))
  {
    assert ([s] + rest)[0] == s && ([s] + rest)[1..] == rest;
  }

  /** Running `p + q` is running `p` and, only when it succeeds, `q` from
      where it left off. */
  lemma {:induction false} RunPlanAppend(st: Store, p: seq<Step>, q: seq<Step>)
    ensures RunPlan(st, p + q) == (var (st1, e) := RunPlan(st, p); if e.Some? then (st1, e) else RunPlan(st1, q))
    decreases |p|
  {
    if |p| == 0 {
      assert p + q == q;
    } else {
      assert p + q == [p[0]] + (p[1..] + q);
      assert p == [p[0]] + p[1..];
      RunPlanCons(st, p[0], p[1..] + q);
      RunPlanCons(st, p[0], p[1..]);
      var (st1, e) := RunStep(st, p[0]);
      if e.None? {
        RunPlanAppend(st1, p[1..], q);
      }
    }
  }

  /** A service's workload kind follows the `default`-keyed attribute, and
      its exposure steps come after it, local before global. */
  lemma ServiceStepsShape(tk: Toolkit, settings: Workload.Settings, d: ClusterDeployment, i: nat)
    requires i < |d.group.services|
    ensures var steps := ServiceSteps(tk, settings, d, i);
      var svc := d.group.services[i];
      var w := WorkloadRef(settings, d, i);
      && 1 <= |steps| <= 3
      && steps[0].UpsertStep?
      && (steps[0].kind == StatefulSet <==> HasDefaultClassStorage(svc.resources.storage))
      && (steps[0].kind == Deployment <==> !HasDefaultClassStorage(svc.resources.storage))
      && (|svc.expose| == 0 ==> |steps| == 1)
      && (forall k | 1 <= k < |steps| :: steps[k] == UpsertStep(Kind.Service, steps[k].b))
      && (|svc.expose| > 0 ==> |steps| == 1 + (if tk.buildService(w, false).any then 1 else 0) + (if tk.buildService(w, true).any then 1 else 0))
      && (|svc.expose| > 0 && tk.buildService(w, false).any ==> steps[1].b == tk.buildService(w, false).builder)
      && (|svc.expose| > 0 && tk.buildService(w, true).any ==> steps[|steps| - 1].b == tk.buildService(w, true).builder)
  {
  }

  // ---------------------------------------------------------------------
  // Deploy

  /** The scan for a `default`-keyed storage attribute that is true. */
  method HasDefaultClassStorageScan(storage: seq<StorageUnit>) returns (persistent: bool)
    ensures persistent == HasDefaultClassStorage(storage)
  {
    persistent := false;
    var i := 0;
    while i < |storage|
      invariant 0 <= i <= |storage|
      invariant forall j | 0 <= j < i :: !AsBool(Find(storage[j].attributes, Workload.StorageClassDefault)).0
    {
      var attrVal := Find(storage[i].attributes, Workload.StorageClassDefault);
      persistent := AsBool(attrVal).0;
      if persistent {
        return;
      }
      i := i + 1;
    }
  }

  /** One upsert step, run against the cluster. */
  method RunUpsert(cluster: Cluster, kind: Kind, b: Builder) returns (err: Option<Error>)
    modifies cluster
    ensures (cluster.Snapshot(), err) == RunStep(old(cluster.Snapshot()), UpsertStep(kind, b))
  {
    match kind {
      case Namespace => err := ApplyNS(cluster, b);
      case Deployment => err := ApplyDeployment(cluster, b);
      case StatefulSet => err := ApplyStatefulSet(cluster, b);
      case Service => err := ApplyService(cluster, b);
      case NetworkPolicy => err := Upsert(cluster, KeyOf(NetworkPolicy, b), b);
    }
  }

  /** The steps of one service, run against the cluster. */
  method DeployService(cluster: Cluster, tk: Toolkit, settings: Workload.Settings, d: ClusterDeployment, svcIdx: nat)
    returns (err: Option<Error>)
    requires svcIdx < |d.group.services|
    modifies cluster
    ensures (cluster.Snapshot(), err) == RunPlan(old(cluster.Snapshot()), ServiceSteps(tk, settings, d, svcIdx))
  {
    var workload := WorkloadRef(settings, d, svcIdx);
    var service := d.group.services[svcIdx];
    ghost var st0 := cluster.Snapshot();
    var local := tk.buildService(workload, false);
    var global := tk.buildService(workload, true);
    ghost var l: seq<Step> := if local.any then [UpsertStep(Kind.Service, local.builder)] else [];
    ghost var g: seq<Step> := if global.any then [UpsertStep(Kind.Service, global.builder)] else [];

    var persistent := HasDefaultClassStorageScan(service.resources.storage);
    ghost var ws := WorkloadStep(tk, workload, service);
    if persistent {
      err := RunUpsert(cluster, StatefulSet, tk.buildStatefulSet(workload));
    } else {
      err := RunUpsert(cluster, Deployment, tk.newDeployment(workload));
    }
    RunPlanCons(st0, ws, ExposureSteps(tk, workload, service));
    if err.Some? || |service.expose| == 0 {
      return;
    }
    assert ExposureSteps(tk, workload, service) == l + g;

    ghost var st1 := cluster.Snapshot();
    if local.any {
      err := RunUpsert(cluster, Kind.Service, local.builder);
      RunPlanCons(st1, UpsertStep(Kind.Service, local.builder), g);
      if err.Some? {
        return;
      }
    } else {
      assert l + g == g;
    }

    ghost var st2 := cluster.Snapshot();
    if global.any {
      err := RunUpsert(cluster, Kind.Service, global.builder);
      RunPlanCons(st2, UpsertStep(Kind.Service, global.builder), []);
      assert [UpsertStep(Kind.Service, global.builder)] + [] == g;
    }
  }

  /** `client.Deploy`: no settings in the context, or settings that do not
      validate, fail before any cluster call; otherwise the plan runs. */
  method Deploy(cluster: Cluster, tk: Toolkit, ctxSettings: Option<Workload.Settings>, d: ClusterDeployment)
    returns (err: Option<Error>)
    modifies cluster
    ensures ctxSettings.None? ==> err == Some(NotConfigured) && cluster.Snapshot() == old(cluster.Snapshot())
    ensures ctxSettings.Some? && tk.validateSettings(ctxSettings.value).Some? ==>
              err == tk.validateSettings(ctxSettings.value) && cluster.Snapshot() == old(cluster.Snapshot())
    ensures ctxSettings.Some? && tk.validateSettings(ctxSettings.value).None? ==>
              (cluster.Snapshot(), err) == RunPlan(old(cluster.Snapshot()), Plan(tk, ctxSettings.value, d))
  {
    if ctxSettings.None? {
      return Some(NotConfigured);
    }
    var settings := ctxSettings.value;
    var invalid := tk.validateSettings(settings);
    if invalid.Some? {
      return invalid;
    }
    ghost var st0 := cluster.Snapshot();
    ghost var nsStep := UpsertStep(Namespace, tk.buildNS(settings, d));
    ghost var npStep := NetPolStep(tk.buildNetPol(settings, d));
    assert Plan(tk, settings, d) == [nsStep] + ([npStep] + StepsFrom(tk, settings, d, 0));

    err := ApplyNS(cluster, tk.buildNS(settings, d));
    RunPlanCons(st0, nsStep, [npStep] + StepsFrom(tk, settings, d, 0));
    if err.Some? {
      return;
    }
    ghost var st1 := cluster.Snapshot();
    err := ApplyNetPoliciesAsWritten(cluster, tk.buildNetPol(settings, d));
    RunPlanCons(st1, npStep, StepsFrom(tk, settings, d, 0));
    if err.Some? {
      return;
    }

    var services := d.group.services;
    for svcIdx := 0 to |services|
      invariant RunPlan(st0, Plan(tk, settings, d)) == RunPlan(cluster.Snapshot(), StepsFrom(tk, settings, d, svcIdx))
      invariant err == None
    {
      ghost var stA := cluster.Snapshot();
      err := DeployService(cluster, tk, settings, d, svcIdx);
      RunPlanAppend(stA, ServiceSteps(tk, settings, d, svcIdx), StepsFrom(tk, settings, d, svcIdx + 1));
      if err.Some? {
        return;
      }
    }
  }

  /** A step that fails ends the reconcile: what follows the failing
      stretch never runs, and the result is that of the stretch. */
  lemma FirstErrorAborts(st: Store, p: seq<Step>, q: seq<Step>)
    requires RunPlan(st, p).1.Some?
    ensures RunPlan(st, p + q) == RunPlan(st, p)
  {
    RunPlanAppend(st, p, q);
  }

  /** A failing namespace step means no network policy, workload or service
      step runs, and its error is returned. */
  lemma NamespaceFailureStopsDeploy(st: Store, tk: Toolkit, settings: Workload.Settings, d: ClusterDeployment)
    requires UpsertEffect(st, KeyOf(Namespace, tk.buildNS(settings, d)), tk.buildNS(settings, d)).1.Some?
    ensures RunPlan(st, Plan(tk, settings, d)) == UpsertEffect(st, KeyOf(Namespace, tk.buildNS(settings, d)), tk.buildNS(settings, d))
  {
    var ns := UpsertStep(Namespace, tk.buildNS(settings, d));
    RunPlanCons(st, ns, [NetPolStep(tk.buildNetPol(settings, d))] + StepsFrom(tk, settings, d, 0));
    assert Plan(tk, settings, d) == [ns] + ([NetPolStep(tk.buildNetPol(settings, d))] + StepsFrom(tk, settings, d, 0));
  }

  /** As written, a failing policy write does not stop the reconcile: once
      the namespace is in place and the policy list is built, the services
      are deployed from whatever state the policy loop left, failed or not. */
  lemma AsWrittenPolicyFailureContinues(st: Store, tk: Toolkit, settings: Workload.Settings, d: ClusterDeployment)
    requires UpsertEffect(st, KeyOf(Namespace, tk.buildNS(settings, d)), tk.buildNS(settings, d)).1.None?
    requires tk.buildNetPol(settings, d).create.Ok?
    ensures var st1 := UpsertEffect(st, KeyOf(Namespace, tk.buildNS(settings, d)), tk.buildNS(settings, d)).0;
      var np := tk.buildNetPol(settings, d);
      RunPlan(st, Plan(tk, settings, d)) == RunPlan(PoliciesEffect(st1, np.ns, np.update, np.create.value).0, StepsFrom(tk, settings, d, 0))
  {
    var ns := UpsertStep(Namespace, tk.buildNS(settings, d));
    var np := NetPolStep(tk.buildNetPol(settings, d));
    var rest := StepsFrom(tk, settings, d, 0);
    assert Plan(tk, settings, d) == [ns] + ([np] + rest);
    RunPlanCons(st, ns, [np] + rest);
    RunPlanCons(RunStep(st, ns).0, np, rest);
  }

  /** With the corrected step, the first failure of the policy loop is the
      reconcile's result and no workload or service step runs; without a
      failure the services are deployed as in the written plan. */
  lemma CorrectedPolicyFailureStops(st: Store, tk: Toolkit, settings: Workload.Settings, d: ClusterDeployment)
    requires UpsertEffect(st, KeyOf(Namespace, tk.buildNS(settings, d)), tk.buildNS(settings, d)).1.None?
    requires tk.buildNetPol(settings, d).create.Ok?
    ensures var st1 := UpsertEffect(st, KeyOf(Namespace, tk.buildNS(settings, d)), tk.buildNS(settings, d)).0;
      var np := tk.buildNetPol(settings, d);
      var loop := PoliciesEffect(st1, np.ns, np.update, np.create.value);
      && (loop.1.Some? ==> RunPlan(st, CorrectedPlan(tk, settings, d)) == loop)
      && (loop.1.None? ==> RunPlan(st, CorrectedPlan(tk, settings, d)) == RunPlan(st, Plan(tk, settings, d)))
  {
    var ns := UpsertStep(Namespace, tk.buildNS(settings, d));
    var np := CorrectedNetPolStep(tk.buildNetPol(settings, d));
    var rest := StepsFrom(tk, settings, d, 0);
    assert CorrectedPlan(tk, settings, d) == [ns] + ([np] + rest);
    RunPlanCons(st, ns, [np] + rest);
    RunPlanCons(RunStep(st, ns).0, np, rest);
    AsWrittenPolicyFailureContinues(st, tk, settings, d);
  }
}
