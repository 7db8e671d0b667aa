/**
 * The get-then-create-or-update protocol (provider/kube/apply.go) against
 * a map-backed cluster. A read either finds the object, reports it missing,
 * or fails; the keys whose reads or writes fail are fixed per cluster.
 * The objects' bodies and the builders that make and revise them are not
 * part of the model: a builder is its key plus two given outcomes.
 */
module Apply {
  import opened Base

  datatype Kind = Namespace | NetworkPolicy | Deployment | StatefulSet | Service

  /** Where an object lives: its kind, namespace and name. */
  datatype Key = Key(kind: Kind, ns: string, name: string)

  /** An object: its name and an uninterpreted body. */
  datatype Object = Object(name: string, body: string)

  /** The errors a write or read can report, plus a builder's own error. */
  datatype Error = NotFound(key: Key) | AlreadyExists(key: Key) | Unavailable(key: Key) | Invalid(reason: string)

  /** One write issued to the cluster, successful or not. */
  datatype Call = CreateCall(key: Key) | UpdateCall(key: Key) | DeleteCall(key: Key)

  /** A snapshot of the cluster: its objects, the writes issued so far, and
      the keys whose reads and whose writes fail. */
  datatype Store = Store(objects: map<Key, Object>, calls: seq<Call>, readFaults: set<Key>, writeFaults: set<Key>)

  /** A builder (`builder.NS`, `builder.Deployment`, ...): its namespace and
      name, what `Create()` returns and what `Update(obj)` returns. */
  datatype Builder = Builder(ns: string, name: string, create: Result<Object, Error>, update: Object -> Result<Object, Error>)

  /** `builder.NetPol`: its namespace, what `Create()` returns (the policy
      list) and what `Update(obj)` returns. */
  datatype NetPolBuilder = NetPolBuilder(ns: string, create: Result<seq<Object>, Error>, update: Object -> Result<Object, Error>)

  // ---------------------------------------------------------------------
  // Backend semantics

  /** A read: a read fault, the stored object, or not found. */
  function Read(st: Store, key: Key): Result<Object, Error>
  {
    if key in st.readFaults then Err(Unavailable(key))
    else if key in st.objects then Ok(st.objects[key])
    else Err(NotFound(key))
  }

  function CreateEffect(st: Store, key: Key, obj: Object): (Store, Option<Error>)
  {
    var logged := st.(calls := st.calls + [CreateCall(key)]);
    if key in st.writeFaults then (logged, Some(Unavailable(key)))
    else if key in st.objects then (logged, Some(AlreadyExists(key)))
    else (logged.(objects := st.objects[key := obj]), None)
  }

  function UpdateEffect(st: Store, key: Key, obj: Object): (Store, Option<Error>)
  {
    var logged := st.(calls := st.calls + [UpdateCall(key)]);
    if key in st.writeFaults then (logged, Some(Unavailable(key)))
    else if key !in st.objects then (logged, Some(NotFound(key)))
    else (logged.(objects := st.objects[key := obj]), None)
  }

  function DeleteEffect(st: Store, key: Key): (Store, Option<Error>)
  {
    var logged := st.(calls := st.calls + [DeleteCall(key)]);
    if key in st.writeFaults then (logged, Some(Unavailable(key)))
    else if key !in st.objects then (logged, Some(NotFound(key)))
    else (logged.(objects := st.objects - {key}), None)
  }

  /** The map-backed cluster the apply functions talk to. */
  class Cluster {
    var objects: map<Key, Object>
    var calls: seq<Call>
    const readFaults: set<Key>
    const writeFaults: set<Key>

    constructor (objects: map<Key, Object>, readFaults: set<Key>, writeFaults: set<Key>)
      ensures Snapshot() == Store(objects, [], readFaults, writeFaults)
    {
      this.objects := objects;
      this.calls := [];
      this.readFaults := readFaults;
      this.writeFaults := writeFaults;
    }

    function Snapshot(): Store
      reads this
    {
      Store(objects, calls, readFaults, writeFaults)
    }

    method Get(key: Key) returns (r: Result<Object, Error>)
      ensures r == Read(Snapshot(), key)
    {
      if key in readFaults {
        return Err(Unavailable(key));
      }
      if key in objects {
        return Ok(objects[key]);
      }
      return Err(NotFound(key));
    }

    method Create(key: Key, obj: Object) returns (err: Option<Error>)
      modifies this
      ensures (Snapshot(), err) == CreateEffect(old(Snapshot()), key, obj)
    {
      calls := calls + [CreateCall(key)];
      if key in writeFaults {
        return Some(Unavailable(key));
      }
      if key in objects {
        return Some(AlreadyExists(key));
      }
      objects := objects[key := obj];
      return None;
    }

    method Update(key: Key, obj: Object) returns (err: Option<Error>)
      modifies this
      ensures (Snapshot(), err) == UpdateEffect(old(Snapshot()), key, obj)
    {
      calls := calls + [UpdateCall(key)];
      if key in writeFaults {
        return Some(Unavailable(key));
      }
      if key !in objects {
        return Some(NotFound(key));
      }
      objects := objects[key := obj];
      return None;
    }

    method Delete(key: Key) returns (err: Option<Error>)
      modifies this
      ensures (Snapshot(), err) == DeleteEffect(old(Snapshot()), key)
    {
      calls := calls + [DeleteCall(key)];
      if key in writeFaults {
        return Some(Unavailable(key));
      }
      if key !in objects {
        return Some(NotFound(key));
      }
      objects := objects - {key};
      return None;
    }
  }

  // ---------------------------------------------------------------------
  // Upsert

  /** The effect of one upsert of builder `b` under `key`. */
  function UpsertEffect(st: Store, key: Key, b: Builder): (Store, Option<Error>)
  {
    match Read(st, key)
    case Ok(obj) =>
      (match b.update(obj)
       case Err(e) => (st, Some(e))
       case Ok(o) => UpdateEffect(st, key, o))
    case Err(e) =>
      if e.NotFound? then
        (match b.create
         case Err(e') => (st, Some(e'))
         case Ok(o) => CreateEffect(st, key, o))
      else (st, Some(e))
  }

  /** The shared body of `applyNS`, `applyDeployment`, `applyStatefulSet` and
      `applyService`. */
  method Upsert(cluster: Cluster, key: Key, b: Builder) returns (err: Option<Error>)
    modifies cluster
    ensures (cluster.Snapshot(), err) == UpsertEffect(old(cluster.Snapshot()), key, b)
  {
    var got := cluster.Get(key);
    match got {
      case Ok(obj) =>
        var updated := b.update(obj);
        if updated.Err? {
          return Some(updated.error);
        }
        err := cluster.Update(key, updated.value);
      case Err(e) =>
        if !e.NotFound? {
          return Some(e);
        }
        var created := b.create;
        if created.Err? {
          return Some(created.error);
        }
        err := cluster.Create(key, created.value);
    }
  }

  /** The keys the four apply functions use: a namespace is cluster-wide. */
  function KeyOf(kind: Kind, b: Builder): Key
  {
    if kind == Namespace then Key(Namespace, "", b.name) else Key(kind, b.ns, b.name)
  }

  /** `applyNS`. */
  method ApplyNS(cluster: Cluster, b: Builder) returns (err: Option<Error>)
    modifies cluster
    ensures (cluster.Snapshot(), err) == UpsertEffect(old(cluster.Snapshot()), KeyOf(Namespace, b), b)
  {
    err := Upsert(cluster, KeyOf(Namespace, b), b);
  }

  /** `applyDeployment`. */
  method ApplyDeployment(cluster: Cluster, b: Builder) returns (err: Option<Error>)
    modifies cluster
    ensures (cluster.Snapshot(), err) == UpsertEffect(old(cluster.Snapshot()), KeyOf(Deployment, b), b)
  {
    err := Upsert(cluster, KeyOf(Deployment, b), b);
  }

  /** `applyStatefulSet`. */
  method ApplyStatefulSet(cluster: Cluster, b: Builder) returns (err: Option<Error>)
    modifies cluster
    ensures (cluster.Snapshot(), err) == UpsertEffect(old(cluster.Snapshot()), KeyOf(StatefulSet, b), b)
  {
    err := Upsert(cluster, KeyOf(StatefulSet, b), b);
  }

  /** `applyService`. */
  method ApplyService(cluster: Cluster, b: Builder) returns (err: Option<Error>)
    modifies cluster
    ensures (cluster.Snapshot(), err) == UpsertEffect(old(cluster.Snapshot()), KeyOf(Service, b), b)
  {
    err := Upsert(cluster, KeyOf(Service, b), b);
  }

  /** A missing object is built with `Create` and created: one create call,
      no update call, and on success the object is stored. */
  lemma UpsertNotFound(st: Store, key: Key, b: Builder)
    requires key !in st.readFaults && key !in st.objects
    requires b.create.Ok?
    ensures UpsertEffect(st, key, b).0.calls == st.calls + [CreateCall(key)]
    ensures key !in st.writeFaults ==> UpsertEffect(st, key, b) == (st.(objects := st.objects[key := b.create.value], calls := st.calls + [CreateCall(key)]), None)
    ensures key in st.writeFaults ==> UpsertEffect(st, key, b).1 == Some(Unavailable(key))
  {
  }

  /** An existing object is revised with `Update(obj)` and updated: one
      update call, no create call. */
  lemma UpsertFound(st: Store, key: Key, b: Builder)
    requires key !in st.readFaults && key in st.objects
    requires b.update(st.objects[key]).Ok?
    ensures UpsertEffect(st, key, b).0.calls == st.calls + [UpdateCall(key)]
    ensures key !in st.writeFaults ==>
              UpsertEffect(st, key, b) == (st.(objects := st.objects[key := b.update(st.objects[key]).value], calls := st.calls + [UpdateCall(key)]), None)
  {
  }

  /** A failed read is returned unchanged and nothing is written. */
  lemma UpsertReadFault(st: Store, key: Key, b: Builder)
    requires key in st.readFaults
    ensures UpsertEffect(st, key, b) == (st, Some(Unavailable(key)))
  {
  }

  /** A builder error is returned and nothing is written. */
  lemma UpsertBuilderError(st: Store, key: Key, b: Builder)
    requires key !in st.readFaults
    requires key in st.objects ==> b.update(st.objects[key]).Err?
    requires key !in st.objects ==> b.create.Err?
    ensures UpsertEffect(st, key, b).0 == st
    ensures UpsertEffect(st, key, b).1 == Some(if key in st.objects then b.update(st.objects[key]).error else b.create.error)
  {
  }

  /** Upserting the same key again after a success takes the update branch:
      no second create is issued. */
  lemma UpsertTwiceCreatesOnce(st: Store, key: Key, b: Builder, b': Builder)
    requires key !in st.readFaults
    requires UpsertEffect(st, key, b).1.None?
    ensures var st1 := UpsertEffect(st, key, b).0;
      && key in st1.objects
      && |st1.calls| <= |UpsertEffect(st1, key, b').0.calls|
      && CreateCall(key) !in UpsertEffect(st1, key, b').0.calls[|st1.calls|..]
      && (b'.update(st1.objects[key]).Ok? ==> UpsertEffect(st1, key, b').0.calls == st1.calls + [UpdateCall(key)])
  {
    var st1 := UpsertEffect(st, key, b).0;
    assert st1.readFaults == st.readFaults;
    var st2 := UpsertEffect(st1, key, b').0;
    assert st2.calls == st1.calls || st2.calls == st1.calls + [UpdateCall(key)];
    assert st2.calls[|st1.calls|..] == [] || st2.calls[|st1.calls|..] == [UpdateCall(key)];
  }

  // ---------------------------------------------------------------------
  // Network policies

  /** One iteration of the `applyNetPolicies` loop: the desired `pol` is
      sent in both branches; the result of `Update(obj)` only decides whether
      the update is issued. */
  function PolicyEffect(st: Store, ns: string, update: Object -> Result<Object, Error>, pol: Object): (Store, Option<Error>)
  {
    var key := Key(NetworkPolicy, ns, pol.name);
    match Read(st, key)
    case Ok(obj) =>
      if update(obj).Err? then (st, Some(update(obj).error)) else UpdateEffect(st, key, pol)
    case Err(e) =>
      if e.NotFound? then CreateEffect(st, key, pol) else (st, Some(e))
  }

  /** The loop over the policies: in order, stopping at the first failure. */
  function PoliciesEffect(st: Store, ns: string, update: Object -> Result<Object, Error>, pols: seq<Object>): (Store, Option<Error>)
    decreases |pols|
  {
    if |pols| == 0 then (st, None)
    else
      var (st1, e) := PolicyEffect(st, ns, update, pols[0]);
      if e.Some? then (st1, e) else PoliciesEffect(st1, ns, update, pols[1..])
  }

  /** What the policy loop of `applyNetPolicies` does, whatever it returns. */
  method PoliciesLoop(cluster: Cluster, b: NetPolBuilder, policies: seq<Object>) returns (loopErr: Option<Error>)
    modifies cluster
    ensures (cluster.Snapshot(), loopErr) == PoliciesEffect(old(cluster.Snapshot()), b.ns, b.update, policies)
  {
    ghost var st0 := cluster.Snapshot();
    loopErr := None;
    var i := 0;
    while i < |policies|
      invariant 0 <= i <= |policies|
      invariant PoliciesEffect(st0, b.ns, b.update, policies) == PoliciesEffect(cluster.Snapshot(), b.ns, b.update, policies[i..])
      invariant loopErr == None
    {
      var pol := policies[i];
      var key := Key(NetworkPolicy, b.ns, pol.name);
      var got := cluster.Get(key);
      var err: Option<Error>;
      match got {
        case Ok(obj) =>
          var updated := b.update(obj);
          if updated.Err? {
            err := Some(updated.error);
          } else {
            err := cluster.Update(key, pol);
          }
        case Err(e) =>
          if e.NotFound? {
            err := cluster.Create(key, pol);
          } else {
            err := Some(e);
          }
      }
      assert policies[i..][1..] == policies[i + 1..];
      if err.Some? {
        return err;
      }
      i := i + 1;
    }
  }

  /** `applyNetPolicies` AS WRITTEN: a `Create()` error is returned before
      any backend call; otherwise the loop runs, but its error lives in the
      loop's own `err` (declared by `:=` inside it) and is not returned. */
  method ApplyNetPoliciesAsWritten(cluster: Cluster, b: NetPolBuilder) returns (err: Option<Error>)
    modifies cluster
    ensures b.create.Err? ==> err == Some(b.create.error) && cluster.Snapshot() == old(cluster.Snapshot())
    ensures b.create.Ok? ==> err == None && cluster.Snapshot() == PoliciesEffect(old(cluster.Snapshot()), b.ns, b.update, b.create.value).0
    ensures (cluster.Snapshot(), err) == NetPoliciesEffectAsWritten(old(cluster.Snapshot()), b)
  {
    if b.create.Err? {
      return Some(b.create.error);
    }
    var _ := PoliciesLoop(cluster, b, b.create.value);
    return None;
  }

  /** `applyNetPolicies` with the loop's error returned, as the caller's
      error check evidently expects. */
  method ApplyNetPolicies(cluster: Cluster, b: NetPolBuilder) returns (err: Option<Error>)
    modifies cluster
    ensures (cluster.Snapshot(), err) == NetPoliciesEffect(old(cluster.Snapshot()), b)
  {
    if b.create.Err? {
      return Some(b.create.error);
    }
    err := PoliciesLoop(cluster, b, b.create.value);
  }

  /** The effect of the corrected `applyNetPolicies`. */
  function NetPoliciesEffect(st: Store, b: NetPolBuilder): (Store, Option<Error>)
  {
    if b.create.Err? then (st, Some(b.create.error)) else PoliciesEffect(st, b.ns, b.update, b.create.value)
  }

  /** The effect of `applyNetPolicies` as written: the loop's changes to
      the cluster, with only a `Create()` error reported. */
  function NetPoliciesEffectAsWritten(st: Store, b: NetPolBuilder): (Store, Option<Error>)
  {
    (NetPoliciesEffect(st, b).0, if b.create.Err? then Some(b.create.error) else None)
  }

  /** A failing policy stops the loop: the policies after it are not
      touched, and the failure is what the loop reports. */
  lemma {:induction false} PoliciesEffectAppend(st: Store, ns: string, update: Object -> Result<Object, Error>, p: seq<Object>, q: seq<Object>)
    ensures var (st1, e) := PoliciesEffect(st, ns, update, p);
      PoliciesEffect(st, ns, update, p + q) == (if e.Some? then (st1, e) else PoliciesEffect(st1, ns, update, q))
    decreases |p|
  {
    if |p| > 0 {
      assert (p + q)[0] == p[0] && (p + q)[1..] == p[1..] + q;
      var (st1, e) := PolicyEffect(st, ns, update, p[0]);
      if e.None? {
        PoliciesEffectAppend(st1, ns, update, p[1..], q);
      }
    } else {
      assert p + q == q;
    }
  }

  /** In the update branch the desired policy is stored, not the builder's
      revision of the live object. */
  lemma PolicyUpdateSendsDesired(st: Store, ns: string, update: Object -> Result<Object, Error>, pol: Object)
    requires var key := Key(NetworkPolicy, ns, pol.name);
      key !in st.readFaults && key !in st.writeFaults && key in st.objects && update(st.objects[key]).Ok?
    ensures PolicyEffect(st, ns, update, pol).1 == None
    ensures PolicyEffect(st, ns, update, pol).0.objects == st.objects[Key(NetworkPolicy, ns, pol.name) := pol]
  {
  }

  /** As written, a policy write that fails is not reported: for one
      policy whose key refuses writes, the corrected version returns the
      failure while the written one returns no error. */
  lemma NetPolicyErrorDropped(pol: Object)
    ensures var key := Key(NetworkPolicy, "ns", pol.name);
      var st := Store(map[], [], {}, {key});
      var b := NetPolBuilder("ns", Ok([pol]), (o: Object) => Ok(o));
      && NetPoliciesEffect(st, b).1 == Some(Unavailable(key))
      && PoliciesEffect(st, b.ns, b.update, b.create.value).0 == NetPoliciesEffect(st, b).0
      && NetPoliciesEffectAsWritten(st, b) == (NetPoliciesEffect(st, b).0, None)
  {
    var key := Key(NetworkPolicy, "ns", pol.name);
    var st := Store(map[], [], {}, {key});
    assert Read(st, key) == Err(NotFound(key));
  }
}
