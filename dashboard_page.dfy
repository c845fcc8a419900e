/**
 * The operations dashboard page: it loads the dashboard summary when the
 * backend is configured, runs the pipeline and folds the run's summary into
 * the dashboard, and marks incidents approved or rejected once the backend
 * has accepted the decision.
 */
module DashboardPage {
  import opened Wrappers
  import opened Json
  import opened PyDict

  const TypeError: string := "TypeError"

  const NotConfigured: string := "NEXT_PUBLIC_API_URL is not set. Configure it in Vercel project settings."

  /** A rejected call: an `Error` with its message, or some other thrown value. */
  datatype Failure = ErrorObject(message: string) | OtherValue

  /** `e instanceof Error ? e.message : fallback`. */
  function FailureText(e: Failure, fallback: string): string {
    match e
    case ErrorObject(m) => m
    case OtherValue => fallback
  }

  /** `v.key` on a value that may be missing: reading through `undefined` or `null` throws. */
  function Read(v: Option<Json>, key: string): (r: Result<Option<Json>, string>)
    ensures r.Err? <==> v.None? || v.value.JNull?
    ensures r.Ok? ==> r.value == Field(v.value, key)
  {
    if v.None? || v.value.JNull? then Err(TypeError) else Ok(Field(v.value, key))
  }

  // ---------------------------------------------------------------------------
  // The dashboard fold
  // ---------------------------------------------------------------------------

  /** `{...d, k1: v1, k2: v2, ...}`. */
  function Overwrite(d: Dict, updates: seq<(string, Option<Json>)>): Dict
    decreases |updates|
  {
    if updates == [] then d else Overwrite(Assign(d, updates[0].0, updates[0].1), updates[1..])
  }

  predicate DistinctUpdateKeys(u: seq<(string, Option<Json>)>) {
    forall i, j :: 0 <= i < j < |u| ==> u[i].0 != u[j].0
  }

  /** The members the fold writes, with their new values. */
  function FoldUpdates(result: Json, summary: Json): seq<(string, Option<Json>)> {
    [("total_incidents", Field(summary, "total_incidents")),
     ("auto_remediated", Field(summary, "auto_remediated")),
     ("pending_hitl", Field(summary, "pending_hitl")),
     ("total_monthly_savings_usd", Field(summary, "total_monthly_savings_usd")),
     ("last_run", Field(result, "started_at")),
     ("mode", Field(result, "mode")),
     ("model", Field(result, "model"))]
  }

  const FoldedKeys: seq<string> :=
    ["total_incidents", "auto_remediated", "pending_hitl", "total_monthly_savings_usd", "last_run", "mode", "model"]

  /**
   * The `setDashboard` updater after a run: no dashboard stays none; otherwise
   * the seven members are overwritten from the run result. A result without a
   * `summary` object makes the updater throw.
   */
  function Fold(prev: Option<Dict>, result: Json): (r: Result<Option<Dict>, string>)
    ensures prev.None? ==> r == Ok(None)
    ensures r.Err? <==> prev.Some? && (result.JNull? || Field(result, "summary").None? || Field(result, "summary").value.JNull?)
    ensures r.Ok? && prev.Some? ==> r.value.Some?
  {
    match prev
    case None => Ok(None)
    case Some(d) =>
      match Read(Some(result), "summary")
      case Err(e) => Err(e)
      case Ok(summary) =>
        if summary.None? || summary.value.JNull? then Err(TypeError)
        else Ok(Some(Overwrite(d, FoldUpdates(result, summary.value))))
  }

  lemma {:induction false} OverwriteOther(d: Dict, u: seq<(string, Option<Json>)>, key: string)
    requires forall i :: 0 <= i < |u| ==> u[i].0 != key
    ensures Get(Overwrite(d, u), key) == Get(d, key)
    decreases |u|
  {
    if u != [] {
      GetAssign(d, u[0].0, u[0].1, key);
      OverwriteOther(Assign(d, u[0].0, u[0].1), u[1..], key);
    }
  }

  lemma {:induction false} OverwriteHit(d: Dict, u: seq<(string, Option<Json>)>, i: nat)
    requires i < |u| && DistinctUpdateKeys(u)
    ensures Get(Overwrite(d, u), u[i].0) == u[i].1
    decreases |u|
  {
    var d1 := Assign(d, u[0].0, u[0].1);
    if i == 0 {
      GetAssign(d, u[0].0, u[0].1, u[0].0);
      OverwriteOther(d1, u[1..], u[0].0);
    } else {
      OverwriteHit(d1, u[1..], i - 1);
    }
  }

  /** Assigning what a key already reads as changes nothing at all. */
  lemma {:induction false} AssignSame(d: Dict, key: string, v: Option<Json>)
    requires Get(d, key) == v
    ensures Assign(d, key, v) == d
  {
    if d != [] && d[0].0 != key {
      AssignSame(d[1..], key, v);
    }
  }

  /** Overwriting with values every key already reads as changes nothing. */
  lemma {:induction false} OverwriteSame(d: Dict, u: seq<(string, Option<Json>)>)
    requires forall i :: 0 <= i < |u| ==> Get(d, u[i].0) == u[i].1
    ensures Overwrite(d, u) == d
    decreases |u|
  {
    if u != [] {
      AssignSame(d, u[0].0, u[0].1);
      OverwriteSame(d, u[1..]);
    }
  }

  /**
   * After the fold each of the seven members reads as the run result's value
   * (a missing one reads as missing) and every other member reads as before.
   */
  lemma FoldOverwrites(d: Dict, result: Json, key: string)
    requires Fold(Some(d), result).Ok?
    ensures var nd := Fold(Some(d), result).value.value;
      var s := Field(result, "summary").value;
      && Get(nd, "total_incidents") == Field(s, "total_incidents")
      && Get(nd, "auto_remediated") == Field(s, "auto_remediated")
      && Get(nd, "pending_hitl") == Field(s, "pending_hitl")
      && Get(nd, "total_monthly_savings_usd") == Field(s, "total_monthly_savings_usd")
      && Get(nd, "last_run") == Field(result, "started_at")
      && Get(nd, "mode") == Field(result, "mode")
      && Get(nd, "model") == Field(result, "model")
      && (key !in FoldedKeys ==> Get(nd, key) == Get(d, key))
  {
    var s := Field(result, "summary").value;
    assert Fold(Some(d), result).value.value == Overwrite(d, FoldUpdates(result, s));
    UpdatesHit(d, result, s);
    if key !in FoldedKeys {
      OverwriteOther(d, FoldUpdates(result, s), key);
    }
  }

  /** Each of the seven updates is what its member reads afterwards. */
  lemma UpdatesHit(d: Dict, result: Json, s: Json)
    ensures var nd := Overwrite(d, FoldUpdates(result, s));
      && Get(nd, "total_incidents") == Field(s, "total_incidents")
      && Get(nd, "auto_remediated") == Field(s, "auto_remediated")
      && Get(nd, "pending_hitl") == Field(s, "pending_hitl")
      && Get(nd, "total_monthly_savings_usd") == Field(s, "total_monthly_savings_usd")
      && Get(nd, "last_run") == Field(result, "started_at")
      && Get(nd, "mode") == Field(result, "mode")
      && Get(nd, "model") == Field(result, "model")
  {
    var u := FoldUpdates(result, s);
    assert DistinctUpdateKeys(u);
    OverwriteHit(d, u, 0);
    OverwriteHit(d, u, 1);
    OverwriteHit(d, u, 2);
    OverwriteHit(d, u, 3);
    OverwriteHit(d, u, 4);
    OverwriteHit(d, u, 5);
    OverwriteHit(d, u, 6);
  }

  /** The fold overwrites rather than accumulates, so folding the same result twice is folding it once. */
  lemma FoldIdempotent(prev: Option<Dict>, result: Json)
    requires Fold(prev, result).Ok?
    ensures Fold(Fold(prev, result).value, result) == Fold(prev, result)
  {
    if prev.Some? {
      var u := FoldUpdates(result, Field(result, "summary").value);
      var nd := Overwrite(prev.value, u);
      assert DistinctUpdateKeys(u);
      forall i | 0 <= i < |u|
        ensures Get(nd, u[i].0) == u[i].1
      {
        OverwriteHit(prev.value, u, i);
      }
      OverwriteSame(nd, u);
    }
  }

  // ---------------------------------------------------------------------------
  // Incident decisions
  // ---------------------------------------------------------------------------

  /** `i.incident_id === id` for a string id. */
  predicate HasId(inc: Json, id: string) {
    Field(inc, "incident_id") == Some(JStr(id))
  }

  /** The callback of the `map` on an element that is not `null`. */
  function Marked(inc: Json, id: string, status: string): Json {
    if HasId(inc, id) then JObj(Set(inc.fields, "status", JStr(status))) else inc
  }

  /**
   * `incidents.map(i => i.incident_id === id ? {...i, status} : i)`: it throws
   * at the first `null` element, and otherwise marks each element in turn.
   */
  function MarkAll(items: seq<Json>, id: string, status: string): (r: Result<seq<Json>, string>)
    ensures r.Err? <==> exists k :: 0 <= k < |items| && items[k].JNull?
    ensures r.Err? ==> r.error == TypeError
    ensures r.Ok? ==> |r.value| == |items|
    ensures r.Ok? ==> forall k :: 0 <= k < |items| && !HasId(items[k], id) ==> r.value[k] == items[k]
    ensures r.Ok? ==> forall k :: 0 <= k < |items| && HasId(items[k], id) ==>
                        r.value[k] == JObj(Set(items[k].fields, "status", JStr(status)))
    decreases |items|
  {
    if items == [] then Ok([])
    else if items[0].JNull? then Err(TypeError)
    else
      match MarkAll(items[1..], id, status)
      case Err(e) =>
        assert exists k :: 0 <= k < |items| && items[k].JNull? by {
          var k :| 0 <= k < |items[1..]| && items[1..][k].JNull?;
          assert items[k + 1].JNull?;
        }
        Err(e)
      case Ok(rest) =>
        assert forall k :: 1 <= k < |items| ==> items[k] == items[1..][k - 1];
        Ok([Marked(items[0], id, status)] + rest)
  }

  /**
   * The `setPipeline` updater once an approve or reject call has resolved:
   * no run, or a falsy one, is handed back unchanged; a truthy run whose
   * `incidents` is not a list, or holds a `null` incident, makes it throw.
   */
  function MarkStatus(pipeline: Option<Json>, id: string, status: string): (r: Result<Option<Json>, string>)
    ensures pipeline.None? ==> r == Ok(None)
    ensures pipeline.Some? && !JsTruthy(pipeline.value) ==> r == Ok(pipeline)
    ensures r.Err? ==> r.error == TypeError
    ensures r.Err? <==> pipeline.Some? && JsTruthy(pipeline.value) &&
                        !(&& Field(pipeline.value, "incidents").Some?
                          && Field(pipeline.value, "incidents").value.JArr?
                          && forall k :: 0 <= k < |Field(pipeline.value, "incidents").value.items| ==>
                               !Field(pipeline.value, "incidents").value.items[k].JNull?)
    ensures r.Ok? && pipeline.Some? && JsTruthy(pipeline.value) ==>
              var items := Field(pipeline.value, "incidents").value.items;
              r.value == Some(JObj(Set(pipeline.value.fields, "incidents", JArr(MarkAll(items, id, status).value))))
  {
    match pipeline
    case None => Ok(None)
    case Some(p) =>
      if !JsTruthy(p) then Ok(pipeline)
      else
        var incidents := Field(p, "incidents");
        if incidents.Some? && incidents.value.JArr? then
          match MarkAll(incidents.value.items, id, status)
          case Ok(marked) => Ok(Some(JObj(Set(p.fields, "incidents", JArr(marked)))))
          case Err(e) => Err(e)
        else Err(TypeError)
  }

  /**
   * Marking touches only incidents carrying that id: each of them reads the
   * new status and keeps every other member, the rest are unchanged.
   */
  lemma MarkAllEffect(items: seq<Json>, id: string, status: string, k: nat, key: string)
    requires k < |items|
    ensures var r := MarkAll(items, id, status);
      r.Ok? ==>
      && (HasId(items[k], id) ==>
            && Field(r.value[k], "status") == Some(JStr(status))
            && (key != "status" ==> Field(r.value[k], key) == Field(items[k], key)))
      && (!HasId(items[k], id) ==> r.value[k] == items[k])
  {
    if HasId(items[k], id) {
      GetSetSame(items[k].fields, "status", JStr(status));
      if key != "status" {
        GetSetOther(items[k].fields, "status", JStr(status), key);
      }
    }
  }

  /** Marking the same id with the same status twice is marking it once. */
  lemma MarkAllIdempotent(items: seq<Json>, id: string, status: string)
    ensures MarkAll(items, id, status).Ok? ==>
              MarkAll(MarkAll(items, id, status).value, id, status) == MarkAll(items, id, status)
  {
    var m := MarkAll(items, id, status);
    if m.Ok? {
      var r := m.value;
      forall k | 0 <= k < |items|
        ensures !r[k].JNull? && Marked(r[k], id, status) == r[k]
      {
        if HasId(items[k], id) {
          var f := Set(items[k].fields, "status", JStr(status));
          GetSetSame(items[k].fields, "status", JStr(status));
          GetSetOther(items[k].fields, "status", JStr(status), "incident_id");
          assert HasId(r[k], id);
          AssignSame(f, "status", Some(JStr(status)));
        } else {
          assert !items[k].JNull?;
        }
      }
      var m2 := MarkAll(r, id, status);
      assert m2.Ok?;
      forall k | 0 <= k < |r|
        ensures m2.value[k] == r[k]
      {
        if HasId(r[k], id) {
          assert m2.value[k] == Marked(r[k], id, status);
        }
      }
    }
  }

  // ---------------------------------------------------------------------------
  // The page's state cells
  // ---------------------------------------------------------------------------

  class Dashboard {
    var dashboard: Option<Dict>
    var pipeline: Option<Json>
    var loading: bool
    var error: Option<string>
    var running: bool
    /** An exception thrown by a state updater, which the page's `try` does not catch. */
    var fault: Option<string>

    constructor ()
      ensures dashboard == None && pipeline == None && !loading && error == None && !running && fault == None
    {
      dashboard, pipeline, loading, error, running, fault := None, None, false, None, false, None;
    }

    /** The start of `fetchDashboard`: when not configured it reports that and fetches nothing. */
    method FetchStart(configured: bool) returns (fetching: bool)
      modifies this
      ensures fetching == configured
      ensures !configured ==> error == Some(NotConfigured) && loading == old(loading)
      ensures configured ==> error == None && loading
      ensures dashboard == old(dashboard) && pipeline == old(pipeline) && running == old(running) && fault == old(fault)
    {
      if !configured {
        error := Some(NotConfigured);
        return false;
      }
      loading := true;
      error := None;
      return true;
    }

    /** The end of `fetchDashboard`: the dashboard or the failure's text, then `loading` off. */
    method FetchSettle(outcome: Result<Dict, Failure>)
      modifies this
      ensures !loading
      ensures outcome.Ok? ==> dashboard == Some(outcome.value) && error == old(error)
      ensures outcome.Err? ==> dashboard == old(dashboard) && error == Some(FailureText(outcome.error, "Failed to reach backend"))
      ensures pipeline == old(pipeline) && running == old(running) && fault == old(fault)
    {
      match outcome {
        case Ok(d) => dashboard := Some(d);
        case Err(e) => error := Some(FailureText(e, "Failed to reach backend"));
      }
      loading := false;
    }

    /** The start of `handleRunPipeline`. */
    method RunStart()
      modifies this
      ensures running && error == None
      ensures dashboard == old(dashboard) && pipeline == old(pipeline) && loading == old(loading) && fault == old(fault)
    {
      running := true;
      error := None;
    }

    /** The end of `handleRunPipeline`: the run and the folded dashboard, or the failure's text; then `running` off. */
    method RunSettle(outcome: Result<Json, Failure>)
      modifies this
      ensures !running && loading == old(loading)
      ensures outcome.Ok? ==>
                && pipeline == Some(outcome.value) && error == old(error)
                && (Fold(old(dashboard), outcome.value).Ok? ==>
                      dashboard == Fold(old(dashboard), outcome.value).value && fault == old(fault))
                && (Fold(old(dashboard), outcome.value).Err? ==>
                      dashboard == old(dashboard) && fault == Some(TypeError))
      ensures outcome.Err? ==>
                && pipeline == old(pipeline) && dashboard == old(dashboard) && fault == old(fault)
                && error == Some(FailureText(outcome.error, "Pipeline run failed"))
    {
      match outcome {
        case Ok(result) =>
          pipeline := Some(result);
          match Fold(dashboard, result) {
            case Ok(nd) => dashboard := nd;
            case Err(t) => fault := Some(t);
          }
        case Err(e) =>
          error := Some(FailureText(e, "Pipeline run failed"));
      }
      running := false;
    }

    /** `onApprove`/`onReject` once the call has settled: only a resolved call marks the incidents. */
    method DecisionSettled(id: string, approved: bool, succeeded: bool)
      modifies this
      ensures var status := if approved then "APPROVED_HITL" else "REJECTED_HITL";
        && (succeeded && MarkStatus(old(pipeline), id, status).Ok? ==>
              pipeline == MarkStatus(old(pipeline), id, status).value && fault == old(fault))
        && (succeeded && MarkStatus(old(pipeline), id, status).Err? ==> pipeline == old(pipeline) && fault == Some(TypeError))
        && (!succeeded ==> pipeline == old(pipeline) && fault == old(fault))
      ensures dashboard == old(dashboard) && loading == old(loading) && error == old(error) && running == old(running)
    {
      if succeeded {
        var status := if approved then "APPROVED_HITL" else "REJECTED_HITL";
        match MarkStatus(pipeline, id, status) {
          case Ok(p) => pipeline := p;
          case Err(t) => fault := Some(t);
        }
      }
    }
  }
}
