/**
 * The deployment listing of the manager's database (db/deployment.go,
 * `GetDeployments`): the SELECT statement with its optional WHERE clause
 * built from the filters, and the grouping of the joined rows, one per
 * service, into deployments that carry their services.
 */
module DeploymentQuery {
  import opened Base
  import opened Text
  import opened Types

  // ---------------------------------------------------------------------
  // The query text

  /** The statement without filters: every deployment joined with its
      services and its provider's host. */
  const SelectDeployments := "SELECT d.*, s.image, s.cpu, s.memory,s.storage, s.port, p.host_uri AS provider_expose_ip FROM deployments d LEFT JOIN services s ON d.id = s.deployment_id LEFT JOIN providers p ON d.provider_id = p.id"

  /** The condition on the deployment ID, the value quoted as it is. */
  function IdCondition(id: string): string
  {
    "d.id = '" + id + "'"
  }

  /** The condition on the owner, the value quoted as it is. */
  function OwnerCondition(owner: string): string
  {
    "d.owner = '" + owner + "'"
  }

  /** The decimal spelling of each state, in order. */
  function StateStrings(states: seq<int>): (r: seq<string>)
    ensures |r| == |states|
    ensures forall i | 0 <= i < |r| :: r[i] == Itoa(states[i])
  {
    if |states| == 0 then [] else StateStrings(states[..|states| - 1]) + [Itoa(states[|states| - 1])]
  }

  /** The condition on the state: membership in the listed values. */
  function StateCondition(states: seq<int>): string
  {
    "d.state in (" + Join(StateStrings(states), ",") + ")"
  }

  /** The conditions of the present filters, in the order ID, owner,
      state; an empty field adds none. */
  function Conditions(opt: GetDeploymentOption): seq<string>
  {
    (if opt.deploymentId != "" then [IdCondition(opt.deploymentId)] else [])
    + (if opt.owner != "" then [OwnerCondition(opt.owner)] else [])
    + (if |opt.states| > 0 then [StateCondition(opt.states)] else [])
  }

  /** The statement `GetDeployments` sends. */
  function QueryOf(opt: GetDeploymentOption): string
  {
    var condition := Conditions(opt);
    if |condition| > 0 then SelectDeployments + " WHERE " + Join(condition, " AND ") else SelectDeployments
  }

  /** The loop that spells the states. */
  method SpellStates(states: seq<int>) returns (r: seq<string>)
    ensures r == StateStrings(states)
  {
    r := [];
    for i := 0 to |states|
      invariant r == StateStrings(states[..i])
    {
      assert states[..i + 1][..i] == states[..i];
      r := r + [Itoa(states[i])];
    }
    assert states[..|states|] == states;
  }

  /** The conditions `GetDeployments` collects. */
  method CollectConditions(opt: GetDeploymentOption) returns (condition: seq<string>)
    ensures condition == Conditions(opt)
  {
    condition := [];
    if opt.deploymentId != "" {
      condition := condition + [IdCondition(opt.deploymentId)];
    }
    if opt.owner != "" {
      condition := condition + [OwnerCondition(opt.owner)];
    }
    if |opt.states| > 0 {
      var states := SpellStates(opt.states);
      condition := condition + ["d.state in (" + Join(states, ",") + ")"];
    }
  }

  /** The query construction of `GetDeployments`. */
  method BuildQuery(opt: GetDeploymentOption) returns (qry: string)
    ensures qry == QueryOf(opt)
  {
    var condition := CollectConditions(opt);
    qry := SelectDeployments;
    if |condition| > 0 {
      qry := qry + " WHERE ";
      qry := qry + Join(condition, " AND ");
    }
  }

  /** The query has no WHERE clause exactly when no filter is set. */
  lemma NoFilterNoWhere(opt: GetDeploymentOption)
    ensures QueryOf(opt) == SelectDeployments <==> opt.deploymentId == "" && opt.owner == "" && |opt.states| == 0
    ensures |Conditions(opt)| > 0 ==> QueryOf(opt)[..|SelectDeployments| + 7] == SelectDeployments + " WHERE "
  {
    if |Conditions(opt)| > 0 {
      assert |QueryOf(opt)| > |SelectDeployments|;
      assert QueryOf(opt) == (SelectDeployments + " WHERE ") + Join(Conditions(opt), " AND ");
    }
  }

  /** Each filter contributes one condition, at the place the order ID,
      owner, state gives it. */
  lemma ConditionPositions(opt: GetDeploymentOption)
    ensures |Conditions(opt)| == (if opt.deploymentId != "" then 1 else 0) + (if opt.owner != "" then 1 else 0) + (if |opt.states| > 0 then 1 else 0)
    ensures opt.deploymentId != "" ==> Conditions(opt)[0] == IdCondition(opt.deploymentId)
    ensures opt.owner != "" ==> Conditions(opt)[if opt.deploymentId != "" then 1 else 0] == OwnerCondition(opt.owner)
    ensures |opt.states| > 0 ==> Conditions(opt)[|Conditions(opt)| - 1] == StateCondition(opt.states)
  {
  }

  lemma AllFiltersJoin(id: string, owner: string, states: seq<int>)
    requires id != "" && owner != "" && |states| > 0
    ensures Join(Conditions(GetDeploymentOption(id, owner, states)), " AND ")
      == IdCondition(id) + " AND " + OwnerCondition(owner) + " AND " + StateCondition(states)
  {
    var c := Conditions(GetDeploymentOption(id, owner, states));
    assert c == [IdCondition(id), OwnerCondition(owner), StateCondition(states)];
    assert c[1..][1..] == [StateCondition(states)];
    assert Join(c[1..][1..], " AND ") == StateCondition(states);
    assert Join(c[1..], " AND ") == OwnerCondition(owner) + " AND " + StateCondition(states);
  }

  /** With every filter set, the WHERE clause is the three conditions
      joined by ` AND `. */
  lemma AllFilters(id: string, owner: string, states: seq<int>)
    requires id != "" && owner != "" && |states| > 0
    ensures QueryOf(GetDeploymentOption(id, owner, states))
      == SelectDeployments + " WHERE " + (IdCondition(id) + " AND " + OwnerCondition(owner) + " AND " + StateCondition(states))
  {
    AllFiltersJoin(id, owner, states);
  }

  /** The list inside `in (...)` splits at its commas into one entry per
      state, in the given order, each reading back as that state. */
  lemma StateListRoundTrip(states: seq<int>)
    requires |states| > 0
    ensures |Split(Join(StateStrings(states), ","), ',')| == |states|
    ensures forall i | 0 <= i < |states| :: Split(Join(StateStrings(states), ","), ',')[i] == Itoa(states[i])
    ensures forall i | 0 <= i < |states| :: DecimalToInt(Split(Join(StateStrings(states), ","), ',')[i]) == states[i]
  {
    var parts := StateStrings(states);
    assert forall i | 0 <= i < |parts| :: ',' !in parts[i];
    SplitJoin(parts, ',');
    forall i | 0 <= i < |states| ensures DecimalToInt(parts[i]) == states[i] {
      ItoaRoundTrip(states[i]);
    }
  }

  /** A quote inside a filter value closes the quoted literal early: the
      values are not escaped. */
  lemma OwnerQuoteEndsLiteral(owner: string, rest: string)
    ensures OwnerCondition(owner + "'" + rest)[..|OwnerCondition(owner)|] == OwnerCondition(owner)
  {
    assert OwnerCondition(owner + "'" + rest) == OwnerCondition(owner) + rest + "'";
  }

  // ---------------------------------------------------------------------
  // Grouping the rows

  /** One row of the join: a deployment's columns and one service's. */
  datatype Row = Row(deployment: Deployment, service: Service)

  /** The first position of `id` in `ids`, or `|ids|` when absent. */
  function FirstIndex(ids: seq<string>, id: string): (k: nat)
    ensures k <= |ids|
    ensures k < |ids| ==> ids[k] == id
    ensures forall j | 0 <= j < k :: ids[j] != id
  {
    if |ids| == 0 then 0 else if ids[0] == id then 0 else 1 + FirstIndex(ids[1..], id)
  }

  /** The IDs of the grouped deployments, in order. */
  function Ids(out: seq<Deployment>): (r: seq<string>)
    ensures |r| == |out| && forall k | 0 <= k < |out| :: r[k] == out[k].id
  {
    seq(|out|, k requires 0 <= k < |out| => out[k].id)
  }

  /** The deployment IDs of the rows, in row order. */
  function RowIds(rows: seq<Row>): (r: seq<string>)
    ensures |r| == |rows| && forall j | 0 <= j < |rows| :: r[j] == rows[j].deployment.id
  {
    seq(|rows|, j requires 0 <= j < |rows| => rows[j].deployment.id)
  }

  /** One loop turn: a row of a known deployment appends its service to
      it; a row of a new one starts that deployment with its service. */
  function AddRow(out: seq<Deployment>, r: Row): seq<Deployment>
  {
    var k := FirstIndex(Ids(out), r.deployment.id);
    if k < |out| then out[k := out[k].(services := out[k].services + [r.service])]
    else out + [r.deployment.(services := [r.service])]
  }

  /** The deployments `GetDeployments` returns for `rows`. */
  function GroupOf(rows: seq<Row>): seq<Deployment>
  {
    if |rows| == 0 then [] else AddRow(GroupOf(rows[..|rows| - 1]), rows[|rows| - 1])
  }

  predicate DistinctIds(out: seq<Deployment>)
  {
    forall i, j | 0 <= i < j < |out| :: out[i].id != out[j].id
  }

  /** The positions the `deploymentToServices` map records. */
  predicate IndexOf(index: map<string, nat>, out: seq<Deployment>)
  {
    && (forall id | id in index :: index[id] < |out| && out[index[id]].id == id)
    && (forall k | 0 <= k < |out| :: out[k].id in index)
  }

  /** `FirstIndex` finds the only position of an ID. */
  lemma FirstIndexOfDistinct(out: seq<Deployment>, k: nat)
    requires DistinctIds(out) && k < |out|
    ensures FirstIndex(Ids(out), out[k].id) == k
  {
  }

  /** A new ID is appended; a known one stays distinct from the others. */
  lemma AddRowDistinct(out: seq<Deployment>, r: Row)
    requires DistinctIds(out)
    ensures DistinctIds(AddRow(out, r))
  {
    var k := FirstIndex(Ids(out), r.deployment.id);
    if k == |out| {
      forall j | 0 <= j < |out| ensures out[j].id != r.deployment.id {
        assert Ids(out)[j] == out[j].id;
      }
    }
  }

  /** One turn of the loop, read through the index map: a known ID updates
      the recorded position, a new one is appended empty and then given its
      service; the map keeps tracking the positions. */
  lemma AddRowIndexed(out: seq<Deployment>, index: map<string, nat>, r: Row)
    requires DistinctIds(out) && IndexOf(index, out)
    ensures r.deployment.id in index ==>
      && index[r.deployment.id] < |out|
      && AddRow(out, r) == out[index[r.deployment.id] := out[index[r.deployment.id]].(services := out[index[r.deployment.id]].services + [r.service])]
    ensures r.deployment.id !in index ==>
      var grown := out + [r.deployment.(services := [])];
      AddRow(out, r) == grown[|out| := grown[|out|].(services := grown[|out|].services + [r.service])]
    ensures IndexOf(if r.deployment.id in index then index else index[r.deployment.id := |out|], AddRow(out, r))
  {
    var id := r.deployment.id;
    if id in index {
      FirstIndexOfDistinct(out, index[id]);
    } else {
      assert FirstIndex(Ids(out), id) == |out|;
      assert [] + [r.service] == [r.service];
    }
  }

  /** The grouping loop of `GetDeployments`. */
  method GroupRows(rows: seq<Row>) returns (out: seq<Deployment>)
    ensures out == GroupOf(rows)
  {
    out := [];
    var deploymentToServices: map<string, nat> := map[];
    for i := 0 to |rows|
      invariant out == GroupOf(rows[..i])
      invariant DistinctIds(out)
      invariant IndexOf(deploymentToServices, out)
    {
      assert rows[..i + 1][..i] == rows[..i];
      var d := rows[i];
      AddRowIndexed(out, deploymentToServices, d);
      AddRowDistinct(out, d);
      if d.deployment.id !in deploymentToServices {
        deploymentToServices := deploymentToServices[d.deployment.id := |out|];
        out := out + [d.deployment.(services := [])];
      }
      var k := deploymentToServices[d.deployment.id];
      out := out[k := out[k].(services := out[k].services + [d.service])];
    }
    assert rows[..|rows|] == rows;
  }

  /** `GetDeployments`, with the database's answer to a statement given as
      `selectRows`: a failed select yields the error and no list. */
  method GetDeployments(opt: GetDeploymentOption, selectRows: string -> Result<seq<Row>, string>)
    returns (r: Result<seq<Deployment>, string>)
    ensures selectRows(QueryOf(opt)).Err? ==> r == Err(selectRows(QueryOf(opt)).error)
    ensures selectRows(QueryOf(opt)).Ok? ==> r == Ok(GroupOf(selectRows(QueryOf(opt)).value))
  {
    var qry := BuildQuery(opt);
    var ds := selectRows(qry);
    if ds.Err? {
      return Err(ds.error);
    }
    var out := GroupRows(ds.value);
    return Ok(out);
  }

  // ---------------------------------------------------------------------
  // Properties of the grouping

  /** Each deployment ID occurs once. */
  lemma {:induction false} GroupDistinct(rows: seq<Row>)
    ensures DistinctIds(GroupOf(rows))
  {
    if |rows| > 0 {
      GroupDistinct(rows[..|rows| - 1]);
      AddRowDistinct(GroupOf(rows[..|rows| - 1]), rows[|rows| - 1]);
    }
  }

  /** The grouped IDs are exactly the rows' IDs. */
  lemma {:induction false} GroupIds(rows: seq<Row>)
    ensures forall id :: id in Ids(GroupOf(rows)) <==> id in RowIds(rows)
  {
    if |rows| > 0 {
      var prefix := rows[..|rows| - 1];
      GroupIds(prefix);
      var out := GroupOf(prefix);
      var r := rows[|rows| - 1];
      assert RowIds(rows) == RowIds(prefix) + [r.deployment.id];
      var k := FirstIndex(Ids(out), r.deployment.id);
      if k < |out| {
        assert Ids(GroupOf(rows)) == Ids(out)[k := r.deployment.id];
        assert Ids(GroupOf(rows)) == Ids(out);
      } else {
        assert Ids(GroupOf(rows)) == Ids(out) + [r.deployment.id];
      }
    }
  }

  /** Appending a row extends the row IDs by its ID. */
  lemma RowIdsSnoc(prefix: seq<Row>, r: Row)
    ensures RowIds(prefix + [r]) == RowIds(prefix) + [r.deployment.id]
  {
  }

  /** The first position of an ID in a sequence grown at the end: as before
      when it was there, the new last position when it was not. */
  lemma FirstIndexSnoc(a: seq<string>, x: string, id: string)
    ensures id in a ==> FirstIndex(a + [x], id) == FirstIndex(a, id)
    ensures id !in a && id == x ==> FirstIndex(a + [x], id) == |a|
  {
    if id in a {
      FirstIndexOfPrefix(a, [x], id);
    } else if id == x {
      var k := FirstIndex(a + [x], id);
      assert (a + [x])[|a|] == x;
    }
  }

  /** Every grouped ID is the ID of some row. */
  lemma GroupIdsInRows(rows: seq<Row>)
    ensures forall i | 0 <= i < |GroupOf(rows)| :: GroupOf(rows)[i].id in RowIds(rows)
  {
    GroupIds(rows);
    forall i | 0 <= i < |GroupOf(rows)| ensures GroupOf(rows)[i].id in RowIds(rows) {
      assert Ids(GroupOf(rows))[i] == GroupOf(rows)[i].id;
    }
  }

  /** A row whose ID the grouping has not seen belongs to no earlier row. */
  lemma NewIdNotInRows(prefix: seq<Row>, r: Row)
    requires FirstIndex(Ids(GroupOf(prefix)), r.deployment.id) == |GroupOf(prefix)|
    ensures r.deployment.id !in RowIds(prefix)
  {
    GroupIds(prefix);
  }

  /** The grouping of `prefix + [r]` is one turn after that of `prefix`. */
  lemma GroupOfSnoc(prefix: seq<Row>, r: Row)
    ensures GroupOf(prefix + [r]) == AddRow(GroupOf(prefix), r)
  {
    assert (prefix + [r])[..|prefix|] == prefix;
  }

  /** The IDs of `out` stand at increasing first rows of `rows`. */
  predicate InFirstRowOrder(out: seq<Deployment>, rows: seq<Row>)
  {
    forall i, j | 0 <= i < j < |out| :: FirstIndex(RowIds(rows), out[i].id) < FirstIndex(RowIds(rows), out[j].id) < |rows|
  }

  /** A turn keeps every ID in place and appends at most one: the row's. */
  lemma AddRowIds(out: seq<Deployment>, r: Row)
    ensures |AddRow(out, r)| == |out| || |AddRow(out, r)| == |out| + 1
    ensures forall i | 0 <= i < |out| :: AddRow(out, r)[i].id == out[i].id
    ensures |AddRow(out, r)| == |out| + 1 <==> FirstIndex(Ids(out), r.deployment.id) == |out|
    ensures |AddRow(out, r)| == |out| + 1 ==> AddRow(out, r)[|out|].id == r.deployment.id
  {
  }

  lemma OrderStep(prefix: seq<Row>, r: Row)
    requires InFirstRowOrder(GroupOf(prefix), prefix)
    ensures InFirstRowOrder(AddRow(GroupOf(prefix), r), prefix + [r])
  {
    var out := GroupOf(prefix);
    var ids := RowIds(prefix + [r]);
    var g := AddRow(out, r);
    RowIdsSnoc(prefix, r);
    GroupIdsInRows(prefix);
    AddRowIds(out, r);
    forall i | 0 <= i < |out| ensures FirstIndex(ids, out[i].id) == FirstIndex(RowIds(prefix), out[i].id) < |prefix| {
      FirstIndexSnoc(RowIds(prefix), r.deployment.id, out[i].id);
    }
    if |g| == |out| + 1 {
      NewIdNotInRows(prefix, r);
      FirstIndexSnoc(RowIds(prefix), r.deployment.id, r.deployment.id);
    }
    forall i, j | 0 <= i < j < |g| ensures FirstIndex(ids, g[i].id) < FirstIndex(ids, g[j].id) < |prefix + [r]| {
      if j < |out| {
        assert g[i].id == out[i].id && g[j].id == out[j].id;
      } else {
        assert g[i].id == out[i].id && g[j].id == r.deployment.id;
      }
    }
  }

  /** The deployments come in the order of their first rows. */
  lemma {:induction false} GroupOrder(rows: seq<Row>)
    ensures InFirstRowOrder(GroupOf(rows), rows)
  {
    if |rows| > 0 {
      var prefix := rows[..|rows| - 1];
      assert rows == prefix + [rows[|rows| - 1]];
      GroupOrder(prefix);
      OrderStep(prefix, rows[|rows| - 1]);
      GroupOfSnoc(prefix, rows[|rows| - 1]);
    }
  }

  lemma {:induction false} FirstIndexOfPrefix(a: seq<string>, b: seq<string>, id: string)
    requires id in a
    ensures FirstIndex(a + b, id) == FirstIndex(a, id)
  {
    if a[0] != id {
      assert (a + b)[1..] == a[1..] + b;
      FirstIndexOfPrefix(a[1..], b, id);
    }
  }

  /** The services of the rows of deployment `id`, in row order. */
  function ServicesOf(rows: seq<Row>, id: string): seq<Service>
  {
    if |rows| == 0 then []
    else ServicesOf(rows[..|rows| - 1], id) + (if rows[|rows| - 1].deployment.id == id then [rows[|rows| - 1].service] else [])
  }

  lemma {:induction false} NoServicesOfAbsent(rows: seq<Row>, id: string)
    requires id !in RowIds(rows)
    ensures ServicesOf(rows, id) == []
  {
    if |rows| > 0 {
      var prefix := rows[..|rows| - 1];
      assert RowIds(rows) == RowIds(prefix) + [rows[|rows| - 1].deployment.id];
      NoServicesOfAbsent(prefix, id);
    }
  }

  /** Every deployment carries the services of its rows, in row order. */
  lemma {:induction false} GroupServices(rows: seq<Row>)
    ensures forall k | 0 <= k < |GroupOf(rows)| :: GroupOf(rows)[k].services == ServicesOf(rows, GroupOf(rows)[k].id)
  {
    if |rows| > 0 {
      var prefix := rows[..|rows| - 1];
      GroupServices(prefix);
      GroupIds(prefix);
      var out := GroupOf(prefix);
      var r := rows[|rows| - 1];
      var k := FirstIndex(Ids(out), r.deployment.id);
      if k == |out| {
        assert r.deployment.id !in Ids(out);
        NoServicesOfAbsent(prefix, r.deployment.id);
        var g := out + [r.deployment.(services := [r.service])];
        assert GroupOf(rows) == g;
        forall i | 0 <= i < |g| ensures g[i].services == ServicesOf(rows, g[i].id) {
          if i < |out| {
            assert Ids(out)[i] == out[i].id;
            assert out[i].id != r.deployment.id;
          } else {
            assert ServicesOf(rows, r.deployment.id) == [] + [r.service];
          }
        }
      } else {
        GroupDistinct(prefix);
        var g := out[k := out[k].(services := out[k].services + [r.service])];
        assert GroupOf(rows) == g;
        forall i | 0 <= i < |g| ensures g[i].services == ServicesOf(rows, g[i].id) {
          if i != k {
            assert out[i].id != out[k].id;
          }
        }
      }
    }
  }

  /** Each deployment of `out`, services aside, is the deployment of its
      first row. */
  predicate FieldsOfFirstRow(out: seq<Deployment>, rows: seq<Row>)
  {
    forall k | 0 <= k < |out| ::
      FirstIndex(RowIds(rows), out[k].id) < |rows| &&
      out[k].(services := []) == rows[FirstIndex(RowIds(rows), out[k].id)].deployment.(services := [])
  }

  lemma FieldsStep(prefix: seq<Row>, r: Row)
    requires FieldsOfFirstRow(GroupOf(prefix), prefix)
    ensures FieldsOfFirstRow(AddRow(GroupOf(prefix), r), prefix + [r])
  {
    var out := GroupOf(prefix);
    var rows := prefix + [r];
    var ids := RowIds(rows);
    RowIdsSnoc(prefix, r);
    GroupIdsInRows(prefix);
    forall i | 0 <= i < |out| ensures FirstIndex(ids, out[i].id) == FirstIndex(RowIds(prefix), out[i].id) {
      FirstIndexSnoc(RowIds(prefix), r.deployment.id, out[i].id);
    }
    if FirstIndex(Ids(out), r.deployment.id) == |out| {
      NewIdNotInRows(prefix, r);
      FirstIndexSnoc(RowIds(prefix), r.deployment.id, r.deployment.id);
    }
    var g := AddRow(out, r);
    forall k | 0 <= k < |g|
      ensures FirstIndex(ids, g[k].id) < |rows| && g[k].(services := []) == rows[FirstIndex(ids, g[k].id)].deployment.(services := [])
    {
      if k < |out| {
        assert rows[FirstIndex(ids, out[k].id)] == prefix[FirstIndex(RowIds(prefix), out[k].id)];
      }
    }
  }

  /** Every deployment's own fields are those of its first row. */
  lemma {:induction false} GroupFields(rows: seq<Row>)
    ensures FieldsOfFirstRow(GroupOf(rows), rows)
  {
    if |rows| > 0 {
      var prefix := rows[..|rows| - 1];
      assert rows == prefix + [rows[|rows| - 1]];
      GroupFields(prefix);
      FieldsStep(prefix, rows[|rows| - 1]);
      GroupOfSnoc(prefix, rows[|rows| - 1]);
    }
  }

  /** The number of services over all deployments. */
  function TotalServices(out: seq<Deployment>): nat
  {
    if |out| == 0 then 0 else TotalServices(out[..|out| - 1]) + |out[|out| - 1].services|
  }

  lemma {:induction false} TotalServicesUpdate(out: seq<Deployment>, k: nat, d: Deployment)
    requires k < |out|
    ensures TotalServices(out[k := d]) + |out[k].services| == TotalServices(out) + |d.services|
    decreases |out|
  {
    var n := |out| - 1;
    assert out[k := d][..n] == if k < n then out[..n][k := d] else out[..n];
    if k < n {
      TotalServicesUpdate(out[..n], k, d);
    }
  }

  /** Every row contributes exactly one service. */
  lemma {:induction false} GroupTotal(rows: seq<Row>)
    ensures TotalServices(GroupOf(rows)) == |rows|
  {
    if |rows| > 0 {
      var prefix := rows[..|rows| - 1];
      GroupTotal(prefix);
      var out := GroupOf(prefix);
      var r := rows[|rows| - 1];
      var k := FirstIndex(Ids(out), r.deployment.id);
      if k < |out| {
        TotalServicesUpdate(out, k, out[k].(services := out[k].services + [r.service]));
      } else {
        assert (out + [r.deployment.(services := [r.service])])[..|out|] == out;
      }
    }
  }
}
