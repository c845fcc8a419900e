/**
 * The orchestrator of the incident pipeline: statuses are reconciled with
 * the act agent's remediations, and the run's summary counts incidents,
 * remediated ids, incidents awaiting a human and the estimated savings.
 *
 * The four agents are parameters: the monitor's signals and the reason
 * agent's result are values, the act and escalate agents are functions of
 * the incidents they are given.
 *
 * A `KeyError` or `TypeError` the source would raise is an `Err` naming it.
 */
module SrcPipeline {
  import opened Wrappers
  import opened Json
  import opened PyDict

  // ---------------------------------------------------------------------------
  // Status reconciliation
  // ---------------------------------------------------------------------------

  predicate HasId(j: Json) {
    Field(j, "incident_id").Some?
  }

  predicate AllHaveIds(xs: seq<Json>) {
    forall k :: 0 <= k < |xs| ==> HasId(xs[k])
  }

  /** `{r["incident_id"] for r in remediations}`. */
  function RemediatedIds(rems: seq<Json>): set<Json>
    requires AllHaveIds(rems)
  {
    set k | 0 <= k < |rems| :: Field(rems[k], "incident_id").value
  }

  function WithStatus(inc: Json, status: string): Json
    requires inc.JObj?
  {
    JObj(Set(inc.fields, "status", JStr(status)))
  }

  /** One step of the status loop. */
  function Reconciled(inc: Json, ids: set<Json>): Json
    requires HasId(inc)
  {
    if Field(inc, "incident_id").value in ids then WithStatus(inc, "REMEDIATED")
    else if !PyTruthy(Field(inc, "auto_remediable").GetOr(JNull)) then WithStatus(inc, "PENDING_HITL")
    else inc
  }

  /** The incidents after the whole status loop. */
  function ReconciledAll(incs: seq<Json>, ids: set<Json>): (r: seq<Json>)
    requires AllHaveIds(incs)
    ensures |r| == |incs| && forall k :: 0 <= k < |incs| ==> r[k] == Reconciled(incs[k], ids)
  {
    seq(|incs|, k requires 0 <= k < |incs| => Reconciled(incs[k], ids))
  }

  /**
   * A remediated incident becomes `REMEDIATED`; otherwise one that is not
   * auto-remediable becomes `PENDING_HITL`; otherwise the status is kept.
   * No other key changes.
   */
  lemma ReconciledFields(inc: Json, ids: set<Json>, key: string)
    requires HasId(inc)
    ensures var r := Reconciled(inc, ids);
      && r.JObj?
      && Field(r, "status") ==
         (if Field(inc, "incident_id").value in ids then Some(JStr("REMEDIATED"))
          else if !PyTruthy(Field(inc, "auto_remediable").GetOr(JNull)) then Some(JStr("PENDING_HITL"))
          else Field(inc, "status"))
      && (key != "status" ==> Field(r, key) == Field(inc, key))
  {
    if Field(inc, "incident_id").value in ids || !PyTruthy(Field(inc, "auto_remediable").GetOr(JNull)) {
      var st := if Field(inc, "incident_id").value in ids then "REMEDIATED" else "PENDING_HITL";
      GetSetSame(inc.fields, "status", JStr(st));
      if key != "status" {
        GetSetOther(inc.fields, "status", JStr(st), key);
      }
    }
  }

  /** The status loop, which rewrites each incident's status in turn. */
  method ReconcileStatuses(incidents: seq<Json>, ids: set<Json>) returns (out: seq<Json>)
    requires AllHaveIds(incidents)
    ensures |out| == |incidents| && forall k :: 0 <= k < |incidents| ==> out[k] == Reconciled(incidents[k], ids)
  {
    out := [];
    for i := 0 to |incidents|
      invariant |out| == i && forall k :: 0 <= k < i ==> out[k] == Reconciled(incidents[k], ids)
    {
      out := out + [Reconciled(incidents[i], ids)];
    }
  }

  // ---------------------------------------------------------------------------
  // Summary counts
  // ---------------------------------------------------------------------------

  predicate AwaitsHuman(inc: Json) {
    Field(inc, "status") == Some(JStr("PENDING_HITL"))
  }

  /** `sum(1 for i in incidents if i.get("status") == "PENDING_HITL")`. */
  function PendingCount(incs: seq<Json>): nat {
    if incs == [] then 0 else (if AwaitsHuman(incs[0]) then 1 else 0) + PendingCount(incs[1..])
  }

  /** Whether an incident ends the status loop as `PENDING_HITL`, decided from its fields before the loop. */
  predicate EndsPending(inc: Json, ids: set<Json>)
    requires HasId(inc)
  {
    && Field(inc, "incident_id").value !in ids
    && (!PyTruthy(Field(inc, "auto_remediable").GetOr(JNull)) || AwaitsHuman(inc))
  }

  function EndsPendingCount(incs: seq<Json>, ids: set<Json>): nat
    requires AllHaveIds(incs)
  {
    if incs == [] then 0 else (if EndsPending(incs[0], ids) then 1 else 0) + EndsPendingCount(incs[1..], ids)
  }

  /**
   * `pending_hitl` counts the incidents that were neither remediated nor
   * auto-remediable, plus auto-remediable ones that already awaited a human
   * and were not remediated.
   */
  lemma {:induction false} PendingAfterReconcile(incs: seq<Json>, ids: set<Json>, out: seq<Json>)
    requires AllHaveIds(incs)
    requires |out| == |incs| && forall k :: 0 <= k < |incs| ==> out[k] == Reconciled(incs[k], ids)
    ensures PendingCount(out) == EndsPendingCount(incs, ids)
  {
    if incs != [] {
      PendingAfterReconcile(incs[1..], ids, out[1..]);
      ReconciledFields(incs[0], ids, "status");
    }
  }

  /** A Python number as the sum sees it: `bool` counts as `int`. */
  datatype Num = Int(i: int) | Float(f: real)

  function Plus(a: Num, b: Num): Num {
    match (a, b)
    case (Int(x), Int(y)) => Int(x + y)
    case _ => Float(ValueOf(a) + ValueOf(b))
  }

  function ValueOf(n: Num): real {
    match n
    case Int(i) => i as real
    case Float(f) => f
  }

  function NumOf(j: Json): Option<Num> {
    match j
    case JInt(i) => Some(Int(i))
    case JBool(b) => Some(Int(if b then 1 else 0))
    case JFloat(f) => Some(Float(f))
    case _ => None
  }

  /** `i.get("estimated_monthly_savings_usd", 0)`. */
  function SavingsOf(inc: Json): Json {
    Field(inc, "estimated_monthly_savings_usd").GetOr(JInt(0))
  }

  /** `sum(...)` of the savings, from 0 and left to right; a non-number is a `TypeError`. */
  function TotalSavings(incs: seq<Json>): Result<Num, string> {
    if incs == [] then Ok(Int(0))
    else
      match TotalSavings(incs[..|incs| - 1])
      case Err(e) => Err(e)
      case Ok(acc) =>
        match NumOf(SavingsOf(incs[|incs| - 1]))
        case None => Err("TypeError")
        case Some(n) => Ok(Plus(acc, n))
  }

  /** The arithmetic sum of the savings, with a missing value as 0. */
  function RealSum(incs: seq<Json>): real
    requires forall k :: 0 <= k < |incs| ==> NumOf(SavingsOf(incs[k])).Some?
  {
    if incs == [] then 0.0
    else RealSum(incs[..|incs| - 1]) + ValueOf(NumOf(SavingsOf(incs[|incs| - 1])).value)
  }

  /**
   * The total fails exactly when some saving is not a number; otherwise it is
   * the sum of the savings (a missing one counting 0), and an integer when no
   * saving is a float.
   */
  lemma {:induction false} TotalSavingsSum(incs: seq<Json>)
    ensures TotalSavings(incs).Err? <==> exists k :: 0 <= k < |incs| && NumOf(SavingsOf(incs[k])).None?
    ensures TotalSavings(incs).Ok? ==> ValueOf(TotalSavings(incs).value) == RealSum(incs)
    ensures TotalSavings(incs).Ok? ==>
              (TotalSavings(incs).value.Int? <==> forall k :: 0 <= k < |incs| ==> !SavingsOf(incs[k]).JFloat?)
  {
    if incs != [] {
      var init := incs[..|incs| - 1];
      TotalSavingsSum(init);
      assert forall k :: 0 <= k < |init| ==> init[k] == incs[k];
    }
  }

  /** An incident with no savings key leaves the total as it was. */
  lemma MissingSavingsAddNothing(incs: seq<Json>, inc: Json)
    requires Field(inc, "estimated_monthly_savings_usd").None?
    ensures TotalSavings(incs + [inc]) == TotalSavings(incs)
  {
    assert (incs + [inc])[..|incs|] == incs;
    if TotalSavings(incs).Ok? && TotalSavings(incs).value.Float? {
      assert Plus(TotalSavings(incs).value, Int(0)) == Float(TotalSavings(incs).value.f + 0.0);
    }
  }

  // ---------------------------------------------------------------------------
  // The run
  // ---------------------------------------------------------------------------

  datatype Summary = Summary(totalIncidents: nat, autoRemediated: nat, pendingHitl: nat, totalSavings: Num)

  datatype PipelineRun = PipelineRun(
    runId: string,
    startedAt: string,
    completedAt: string,
    durationMs: int,
    signals: Json,
    incidents: seq<Json>,
    remediations: seq<Json>,
    escalations: Json,
    summary: Summary)

  /** `d.get(key, [])` for a value that must be a list. */
  function ListField(d: Json, key: string): Result<seq<Json>, string> {
    match Field(d, key)
    case None => Ok([])
    case Some(JArr(items)) => Ok(items)
    case Some(_) => Err("TypeError")
  }

  /**
   * `run_pipeline`. The run-id stamp, the two timestamps and the duration
   * come from the clock; the act and escalate agents see the incidents the
   * way the source hands them over, and an exception either raises is an
   * `Err` that ends the run.
   */
  method RunPipeline(stamp: string, startedAt: string, completedAt: string, durationMs: int, signals: Json,
                     reasonResult: Json, act: seq<Json> -> Result<Json, string>,
                     escalate: seq<Json> -> Result<Json, string>)
    returns (r: Result<PipelineRun, string>)
    ensures r.Ok? ==>
              && ListField(reasonResult, "incidents").Ok?
              && var incs := ListField(reasonResult, "incidents").value;
                 && act(incs).Ok? && ListField(act(incs).value, "remediations").Ok?
                 && var rems := ListField(act(incs).value, "remediations").value;
                    && AllHaveIds(incs) && AllHaveIds(rems)
                    && var ids := RemediatedIds(rems);
                       && |r.value.incidents| == |incs|
                       && (forall k :: 0 <= k < |incs| ==> r.value.incidents[k] == Reconciled(incs[k], ids))
                       && r.value.remediations == rems
                       && escalate(r.value.incidents).Ok?
                       && r.value.escalations == Field(escalate(r.value.incidents).value, "escalations").GetOr(JArr([]))
                       && r.value.summary.totalIncidents == |incs|
                       && r.value.summary.autoRemediated == |ids|
                       && r.value.summary.pendingHitl == EndsPendingCount(incs, ids)
                       && TotalSavings(r.value.incidents) == Ok(r.value.summary.totalSavings)
                       && r.value.runId == "run-" + stamp
                       && r.value.startedAt == startedAt && r.value.completedAt == completedAt
                       && r.value.durationMs == durationMs && r.value.signals == signals
    ensures ListField(reasonResult, "incidents").Err? ==> r.Err?
    ensures r.Ok? <==>
              && ListField(reasonResult, "incidents").Ok?
              && var incs := ListField(reasonResult, "incidents").value;
                 && act(incs).Ok? && ListField(act(incs).value, "remediations").Ok?
                 && var rems := ListField(act(incs).value, "remediations").value;
                    && AllHaveIds(incs) && AllHaveIds(rems)
                    && escalate(ReconciledAll(incs, RemediatedIds(rems))).Ok?
                    && TotalSavings(ReconciledAll(incs, RemediatedIds(rems))).Ok?
  {
    var incsR := ListField(reasonResult, "incidents");
    if incsR.Err? {
      return Err(incsR.error);
    }
    var incs := incsR.value;
    var actResult := act(incs);
    if actResult.Err? {
      return Err(actResult.error);
    }
    var remsR := ListField(actResult.value, "remediations");
    if remsR.Err? {
      return Err(remsR.error);
    }
    var rems := remsR.value;
    if !AllHaveIds(rems) || !AllHaveIds(incs) {
      return Err("KeyError");
    }
    var ids := RemediatedIds(rems);
    var reconciled := ReconcileStatuses(incs, ids);
    assert reconciled == ReconciledAll(incs, ids);
    var escalateResult := escalate(reconciled);
    if escalateResult.Err? {
      return Err(escalateResult.error);
    }
    var savings := TotalSavings(reconciled);
    if savings.Err? {
      return Err(savings.error);
    }
    PendingAfterReconcile(incs, ids, reconciled);
    var summary := Summary(|incs|, |ids|, PendingCount(reconciled), savings.value);
    return Ok(PipelineRun("run-" + stamp, startedAt, completedAt, durationMs, signals, reconciled, rems,
                          Field(escalateResult.value, "escalations").GetOr(JArr([])), summary));
  }

  /** With no `remediations` key the act result contributes no remediations and no remediated ids. */
  lemma NoRemediationsKey(actResult: Json)
    requires Field(actResult, "remediations").None?
    ensures ListField(actResult, "remediations") == Ok([])
    ensures RemediatedIds([]) == {}
  {
  }

  /** The number of remediated ids never exceeds the number of remediations. */
  lemma RemediatedAtMost(rems: seq<Json>)
    requires AllHaveIds(rems)
    ensures |RemediatedIds(rems)| <= |rems|
  {
    ImageAtMost(rems, |rems|);
  }

  lemma {:induction false} ImageAtMost(rems: seq<Json>, n: nat)
    requires AllHaveIds(rems) && n <= |rems|
    ensures |set k | 0 <= k < n :: Field(rems[k], "incident_id").value| <= n
  {
    if n > 0 {
      ImageAtMost(rems, n - 1);
      var prev := set k | 0 <= k < n - 1 :: Field(rems[k], "incident_id").value;
      var cur := set k | 0 <= k < n :: Field(rems[k], "incident_id").value;
      assert cur == prev + {Field(rems[n - 1], "incident_id").value};
    }
  }
}
