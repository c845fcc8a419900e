/**
 * The incident service of the pipeline API: the latest run is cached and
 * its incident list serves lookups and human approvals. The store is the
 * cached run's own list, so an approval shows in the cached run as well.
 *
 * A pipeline run, the act agent and the clock are parameters: a run is
 * given as its outcome, the act agent as the function of the incidents it
 * is handed.
 */
module SrcApi {
  import opened Wrappers
  import opened Http
  import opened Json
  import opened PyDict
  import opened SrcPipeline

  // ---------------------------------------------------------------------------
  // Finding an incident
  // ---------------------------------------------------------------------------

  /** What the framework answers when a handler raises an exception it does not catch. */
  const InternalError: HttpError := HttpError(500, "Internal Server Error")

  function NotFound(incidentId: string): HttpError {
    HttpError(404, "Incident " + incidentId + " not found")
  }

  /**
   * The index of the first incident whose `incident_id` is the given one;
   * `inc.get` on a stored value that is not a dictionary raises before any
   * later match is seen.
   */
  function FindIncident(incs: seq<Json>, incidentId: string): (r: Result<nat, HttpError>)
    ensures r.Ok? ==> r.value < |incs|
    decreases |incs|
  {
    if incs == [] then Err(NotFound(incidentId))
    else if !incs[0].JObj? then Err(HttpError(500, "AttributeError"))
    else if Field(incs[0], "incident_id") == Some(JStr(incidentId)) then Ok(0)
    else match FindIncident(incs[1..], incidentId)
      case Ok(k) => Ok(k + 1)
      case Err(e) => Err(e)
  }

  predicate Matches(inc: Json, incidentId: string) {
    inc.JObj? && Field(inc, "incident_id") == Some(JStr(incidentId))
  }

  /** The search stops at the first match, and is a 404 exactly when every incident is a dictionary without the id. */
  lemma {:induction false} FindIncidentSpec(incs: seq<Json>, incidentId: string)
    ensures var r := FindIncident(incs, incidentId);
      && (r.Ok? ==> Matches(incs[r.value], incidentId)
                    && forall m :: 0 <= m < r.value ==> incs[m].JObj? && !Matches(incs[m], incidentId))
      && (r == Err(NotFound(incidentId)) <==> forall m :: 0 <= m < |incs| ==> incs[m].JObj? && !Matches(incs[m], incidentId))
      && (r.Err? ==> r.error == NotFound(incidentId) || r.error == HttpError(500, "AttributeError"))
    decreases |incs|
  {
    if incs != [] && incs[0].JObj? && !Matches(incs[0], incidentId) {
      FindIncidentSpec(incs[1..], incidentId);
      assert forall m :: 1 <= m < |incs| ==> incs[m] == incs[1..][m - 1];
    }
  }

  // ---------------------------------------------------------------------------
  // Approval and rejection
  // ---------------------------------------------------------------------------

  function SetField(inc: Json, key: string, v: Json): Json
    requires inc.JObj?
  {
    JObj(Set(inc.fields, key, v))
  }

  /** The incident as the act agent sees it: approved for execution, with the note and the time. */
  function ApprovedForAct(inc: Json, note: string, now: string): (r: Json)
    requires inc.JObj?
    ensures r.JObj?
  {
    var a := SetField(inc, "status", JStr("APPROVED_HITL"));
    var b := SetField(a, "auto_remediable", JBool(true));
    var c := SetField(b, "operator_note", JStr(note));
    SetField(c, "approved_at", JStr(now))
  }

  /** The incident after the approval: remediated. */
  function Approved(inc: Json, note: string, now: string): Json
    requires inc.JObj?
  {
    SetField(ApprovedForAct(inc, note, now), "status", JStr("REMEDIATED"))
  }

  function Rejected(inc: Json, note: string, now: string): Json
    requires inc.JObj?
  {
    var a := SetField(inc, "status", JStr("REJECTED_HITL"));
    var b := SetField(a, "operator_note", JStr(note));
    SetField(b, "rejected_at", JStr(now))
  }

  /**
   * An approved incident ends `REMEDIATED`, approved for execution, with the
   * operator's note and the approval time; every other key is as before.
   */
  lemma ApprovedFields(inc: Json, note: string, now: string, key: string)
    requires inc.JObj?
    ensures var f := Approved(inc, note, now).fields;
      && Get(f, "status") == Some(JStr("REMEDIATED"))
      && Get(f, "auto_remediable") == Some(JBool(true))
      && Get(f, "operator_note") == Some(JStr(note))
      && Get(f, "approved_at") == Some(JStr(now))
      && (key !in {"status", "auto_remediable", "operator_note", "approved_at"} ==> Get(f, key) == Get(inc.fields, key))
  {
    var f1 := Set(inc.fields, "status", JStr("APPROVED_HITL"));
    var f2 := Set(f1, "auto_remediable", JBool(true));
    var f3 := Set(f2, "operator_note", JStr(note));
    var f4 := Set(f3, "approved_at", JStr(now));
    GetSetSame(f4, "status", JStr("REMEDIATED"));
    GetSetSame(f1, "auto_remediable", JBool(true));
    GetSetOther(f2, "operator_note", JStr(note), "auto_remediable");
    GetSetOther(f3, "approved_at", JStr(now), "auto_remediable");
    GetSetOther(f4, "status", JStr("REMEDIATED"), "auto_remediable");
    GetSetSame(f2, "operator_note", JStr(note));
    GetSetOther(f3, "approved_at", JStr(now), "operator_note");
    GetSetOther(f4, "status", JStr("REMEDIATED"), "operator_note");
    GetSetSame(f3, "approved_at", JStr(now));
    GetSetOther(f4, "status", JStr("REMEDIATED"), "approved_at");
    if key !in {"status", "auto_remediable", "operator_note", "approved_at"} {
      GetSetOther(inc.fields, "status", JStr("APPROVED_HITL"), key);
      GetSetOther(f1, "auto_remediable", JBool(true), key);
      GetSetOther(f2, "operator_note", JStr(note), key);
      GetSetOther(f3, "approved_at", JStr(now), key);
      GetSetOther(f4, "status", JStr("REMEDIATED"), key);
    }
  }

  /** A rejected incident is `REJECTED_HITL` with the note and the rejection time; every other key is as before. */
  lemma RejectedFields(inc: Json, note: string, now: string, key: string)
    requires inc.JObj?
    ensures var f := Rejected(inc, note, now).fields;
      && Get(f, "status") == Some(JStr("REJECTED_HITL"))
      && Get(f, "operator_note") == Some(JStr(note))
      && Get(f, "rejected_at") == Some(JStr(now))
      && (key !in {"status", "operator_note", "rejected_at"} ==> Get(f, key) == Get(inc.fields, key))
  {
    var f1 := Set(inc.fields, "status", JStr("REJECTED_HITL"));
    var f2 := Set(f1, "operator_note", JStr(note));
    GetSetSame(inc.fields, "status", JStr("REJECTED_HITL"));
    GetSetOther(f1, "operator_note", JStr(note), "status");
    GetSetOther(f2, "rejected_at", JStr(now), "status");
    GetSetSame(f1, "operator_note", JStr(note));
    GetSetOther(f2, "rejected_at", JStr(now), "operator_note");
    GetSetSame(f2, "rejected_at", JStr(now));
    if key !in {"status", "operator_note", "rejected_at"} {
      GetSetOther(inc.fields, "status", JStr("REJECTED_HITL"), key);
      GetSetOther(f1, "operator_note", JStr(note), key);
      GetSetOther(f2, "rejected_at", JStr(now), key);
    }
  }

  /** The act agent is handed the incident already approved for execution. */
  lemma ActSeesApproval(inc: Json, note: string, now: string)
    requires inc.JObj?
    ensures var f := ApprovedForAct(inc, note, now).fields;
      Get(f, "status") == Some(JStr("APPROVED_HITL")) && Get(f, "auto_remediable") == Some(JBool(true))
  {
    var f := ApprovedForAct(inc, note, now).fields;
    var a := Set(inc.fields, "status", JStr("APPROVED_HITL"));
    var b := Set(a, "auto_remediable", JBool(true));
    var c := Set(b, "operator_note", JStr(note));
    GetSetSame(inc.fields, "status", JStr("APPROVED_HITL"));
    GetSetOther(a, "auto_remediable", JBool(true), "status");
    GetSetOther(b, "operator_note", JStr(note), "status");
    GetSetOther(c, "approved_at", JStr(now), "status");
    GetSetSame(a, "auto_remediable", JBool(true));
    GetSetOther(b, "operator_note", JStr(note), "auto_remediable");
    GetSetOther(c, "approved_at", JStr(now), "auto_remediable");
  }

  // ---------------------------------------------------------------------------
  // The service
  // ---------------------------------------------------------------------------

  class IncidentService {
    /** The cached `latest` run. */
    var latest: Option<PipelineRun>
    /** The incident store. */
    var incidents: seq<Json>

    /** The store is the cached run's incident list. */
    predicate Valid()
      reads this
    {
      latest.Some? ==> latest.value.incidents == incidents
    }

    constructor()
      ensures Valid() && latest == None && incidents == []
    {
      latest := None;
      incidents := [];
    }

    /** `trigger_pipeline`: a failed run is a 500 carrying the error and changes nothing. */
    method Trigger(outcome: Result<PipelineRun, string>) returns (r: Result<PipelineRun, HttpError>)
      requires Valid()
      modifies this
      ensures Valid()
      ensures outcome.Err? ==> r == Err(HttpError(500, outcome.error)) && latest == old(latest) && incidents == old(incidents)
      ensures outcome.Ok? ==> r == Ok(outcome.value) && latest == Some(outcome.value) && incidents == outcome.value.incidents
    {
      if outcome.Err? {
        return Err(HttpError(500, outcome.error));
      }
      latest := Some(outcome.value);
      incidents := outcome.value.incidents;
      return Ok(outcome.value);
    }

    /** `get_latest_pipeline`: the cached run, or a fresh run when nothing is cached. */
    method GetLatest(outcome: Result<PipelineRun, string>) returns (r: Result<PipelineRun, HttpError>)
      requires Valid()
      modifies this
      ensures Valid()
      ensures old(latest).Some? ==> r == Ok(old(latest).value) && latest == old(latest) && incidents == old(incidents)
      ensures old(latest).None? && outcome.Ok? ==> r == Ok(outcome.value) && latest == Some(outcome.value)
      ensures old(latest).None? && outcome.Err? ==> r == Err(HttpError(500, outcome.error)) && latest == None
    {
      if latest.None? {
        r := Trigger(outcome);
      } else {
        r := Ok(latest.value);
      }
    }

    /** `list_incidents`: an empty store triggers a run first; the store is returned under `incidents`. */
    method ListIncidents(outcome: Result<PipelineRun, string>) returns (r: Result<Json, HttpError>)
      requires Valid()
      modifies this
      ensures Valid()
      ensures old(incidents) != [] ==>
                r == Ok(JObj([("incidents", JArr(old(incidents)))])) && latest == old(latest) && incidents == old(incidents)
      ensures old(incidents) == [] && outcome.Ok? ==>
                r == Ok(JObj([("incidents", JArr(outcome.value.incidents))])) && latest == Some(outcome.value)
      ensures old(incidents) == [] && outcome.Err? ==> r == Err(HttpError(500, outcome.error))
    {
      if incidents == [] {
        var t := Trigger(outcome);
        if t.Err? {
          return Err(t.error);
        }
      }
      return Ok(JObj([("incidents", JArr(incidents))]));
    }

    /** `get_incident`: the first incident with the id. */
    function GetIncident(incidentId: string): (r: Result<Json, HttpError>)
      reads this
      ensures r.Ok? ==> r.value in incidents && Matches(r.value, incidentId)
    {
      FindIncidentSpec(incidents, incidentId);
      match FindIncident(incidents, incidentId)
      case Ok(k) => Ok(incidents[k])
      case Err(e) => Err(e)
    }

    /**
     * `approve_incident`. Only the first incident with the id changes; on
     * approval the act agent runs on that incident alone and the reply
     * carries its result. 404 when no incident has the id.
     */
    method Approve(incidentId: string, approved: bool, note: string, now: string, act: seq<Json> -> Result<Json, string>)
      returns (r: Result<Json, HttpError>)
      requires Valid()
      modifies this
      ensures Valid()
      ensures FindIncident(old(incidents), incidentId).Err? ==>
                r == Err(FindIncident(old(incidents), incidentId).error)
                && incidents == old(incidents) && latest == old(latest)
      ensures FindIncident(old(incidents), incidentId).Ok? ==>
                var k := FindIncident(old(incidents), incidentId).value;
                var inc := old(incidents)[k];
                && inc.JObj?
                && var forAct := ApprovedForAct(inc, note, now);
                && (approved && act([forAct]).Ok? ==>
                      && incidents == old(incidents)[k := Approved(inc, note, now)]
                      && r == Ok(JObj([("message", JStr("Incident " + incidentId + " approved and remediated")),
                                       ("remediation", act([forAct]).value)])))
                && (approved && act([forAct]).Err? ==>
                      && incidents == old(incidents)[k := forAct]
                      && r == Err(InternalError))
                && (!approved ==>
                      && incidents == old(incidents)[k := Rejected(inc, note, now)]
                      && r == Ok(JObj([("message", JStr("Incident " + incidentId + " rejected by operator"))])))
                && (old(latest).Some? ==> latest == Some(old(latest).value.(incidents := incidents)))
                && (old(latest).None? ==> latest == None)
    {
      FindIncidentSpec(incidents, incidentId);
      var found := FindIncident(incidents, incidentId);
      if found.Err? {
        return Err(found.error);
      }
      var k := found.value;
      var inc := incidents[k];
      if approved {
        var forAct := ApprovedForAct(inc, note, now);
        incidents := incidents[k := forAct];
        var actResult := act([forAct]);
        if actResult.Err? {
          r := Err(InternalError);
        } else {
          incidents := incidents[k := SetField(forAct, "status", JStr("REMEDIATED"))];
          r := Ok(JObj([("message", JStr("Incident " + incidentId + " approved and remediated")),
                        ("remediation", actResult.value)]));
        }
      } else {
        incidents := incidents[k := Rejected(inc, note, now)];
        r := Ok(JObj([("message", JStr("Incident " + incidentId + " rejected by operator"))]));
      }
      if latest.Some? {
        latest := Some(latest.value.(incidents := incidents));
      }
    }
  }

  /** Approving leaves every other incident as it was, and the approved one has the status `REMEDIATED`. */
  lemma ApproveOnlyFirst(incs: seq<Json>, incidentId: string, note: string, now: string, j: nat)
    requires FindIncident(incs, incidentId).Ok? && j < |incs|
    ensures var k := FindIncident(incs, incidentId).value;
      && incs[k].JObj?
      && var after := incs[k := Approved(incs[k], note, now)];
         && (j != k ==> after[j] == incs[j])
         && Get(after[k].fields, "status") == Some(JStr("REMEDIATED"))
         && Get(after[k].fields, "incident_id") == Some(JStr(incidentId))
  {
    FindIncidentSpec(incs, incidentId);
    var k := FindIncident(incs, incidentId).value;
    ApprovedFields(incs[k], note, now, "incident_id");
  }
}
