/**
 * The escalate agent of the incident pipeline: the incidents not marked
 * auto-remediable go to a human; the model's summary of them is used when
 * it parses, and otherwise one scripted escalation for the open SSH
 * security group is returned.
 *
 * The model's reply, the JSON parser and the clock are parameters.
 */
module EscalateAgent {
  import opened Wrappers
  import opened Text
  import opened Json
  import opened PyDict
  import ActAgent

  /** `not i.get("auto_remediable")`. */
  predicate NeedsHuman(inc: Json) {
    !PyTruthy(Field(inc, "auto_remediable").GetOr(JNull))
  }

  /** `[i for i in incidents if not i.get("auto_remediable")]`. */
  function HitlIncidents(incs: seq<Json>): (r: seq<Json>)
    ensures |r| <= |incs|
    ensures forall k :: 0 <= k < |r| ==> NeedsHuman(r[k])
  {
    if incs == [] then []
    else (if NeedsHuman(incs[0]) then [incs[0]] else []) + HitlIncidents(incs[1..])
  }

  /** The incidents for a human are exactly those without a truthy `auto_remediable`. */
  lemma {:induction false} HitlMembers(incs: seq<Json>, x: Json)
    ensures x in HitlIncidents(incs) <==> x in incs && NeedsHuman(x)
  {
    if incs != [] {
      HitlMembers(incs[1..], x);
      assert incs == [incs[0]] + incs[1..];
    }
  }

  /** Every incident goes to exactly one of the act agent and the escalate agent. */
  lemma {:induction false} HitlPartition(incs: seq<Json>)
    ensures |HitlIncidents(incs)| + |ActAgent.AutoIncidents(incs)| == |incs|
  {
    if incs != [] {
      HitlPartition(incs[1..]);
    }
  }

  const NothingToEscalate: string := "No incidents require HITL approval"

  /** An escalation report, before it becomes a dictionary. */
  datatype Report = Report(incidentId: string, title: string, summary: string, proposedAction: string,
                           riskOfInaction: string, riskOfAction: string, recommendation: string,
                           confidence: real, requiresApproval: bool)

  function ReportJson(e: Report): (j: Json)
    ensures Field(j, "incident_id") == Some(JStr(e.incidentId))
    ensures Field(j, "confidence_score") == Some(JFloat(e.confidence))
    ensures Field(j, "requires_approval") == Some(JBool(e.requiresApproval))
  {
    var fields := [
      ("incident_id", JStr(e.incidentId)), ("title", JStr(e.title)), ("summary", JStr(e.summary)),
      ("proposed_action", JStr(e.proposedAction)), ("risk_of_inaction", JStr(e.riskOfInaction)),
      ("risk_of_action", JStr(e.riskOfAction)), ("recommendation", JStr(e.recommendation)),
      ("confidence_score", JFloat(e.confidence)), ("requires_approval", JBool(e.requiresApproval))];
    GetSkip(fields, "confidence_score", 7);
    GetSkip(fields, "requires_approval", 8);
    JObj(fields)
  }

  /** The scripted report for the SSH finding. */
  const SshReport: Report :=
    Report("inc-003", "Security Group Allows Unrestricted SSH",
           "Security group sg-0ff1ce allows SSH (port 22) from any IP address (0.0.0.0/0), "
           + "violating CIS AWS Foundations Benchmark 4.1. This creates a critical attack surface "
           + "for brute-force and credential-stuffing attacks.",
           "Restrict inbound SSH to authorized CIDR ranges (e.g., VPN IP or bastion host IP)",
           "Exposed SSH port enables direct brute-force attacks. If credentials are weak, full instance compromise is possible.",
           "Incorrect CIDR restriction could lock out legitimate operators. Verify authorized IPs before applying.",
           "APPROVE — but confirm authorized SSH CIDR with the ops team before executing.",
           0.78, true)

  function SshEscalation(): Json {
    ReportJson(SshReport)
  }

  /**
   * `run_escalate_agent` given the model's reply: with nobody to escalate,
   * an empty list and a message without calling the model; a parsed reply
   * with the generation time added (`{**result, ...}` fails on a
   * non-dictionary); otherwise the scripted SSH escalation.
   */
  function RunEscalateAgent(incidents: seq<Json>, raw: string, parse: string -> Option<Json>, now: string)
    : (r: Result<Json, string>)
    ensures HitlIncidents(incidents) == [] ==>
              r == Ok(JObj([("escalations", JArr([])), ("message", JStr(NothingToEscalate)), ("generated_at", JStr(now))]))
    ensures HitlIncidents(incidents) != [] && BraceSpan(raw).Some? && parse(BraceSpan(raw).value).Some? ==>
              var result := parse(BraceSpan(raw).value).value;
              (result.JObj? ==> r.Ok? && r.value.JObj? && Get(r.value.fields, "generated_at") == Some(JStr(now))
                                && forall key :: key != "generated_at" ==> Get(r.value.fields, key) == Get(result.fields, key))
              && (!result.JObj? ==> r == Err("TypeError"))
    ensures HitlIncidents(incidents) != [] && (BraceSpan(raw).None? || parse(BraceSpan(raw).value).None?) ==>
              r == Ok(JObj([("escalations", JArr([SshEscalation()])), ("generated_at", JStr(now))]))
  {
    if HitlIncidents(incidents) == [] then
      Ok(JObj([("escalations", JArr([])), ("message", JStr(NothingToEscalate)), ("generated_at", JStr(now))]))
    else
      var span := BraceSpan(raw);
      var parsed := if span.Some? then parse(span.value) else None;
      match parsed
      case Some(result) =>
        if result.JObj? then
          GetSetSame(result.fields, "generated_at", JStr(now));
          assert forall key :: key != "generated_at" ==> Get(Set(result.fields, "generated_at", JStr(now)), key) == Get(result.fields, key) by {
            forall key | key != "generated_at" { GetSetOther(result.fields, "generated_at", JStr(now), key); }
          }
          Ok(JObj(Set(result.fields, "generated_at", JStr(now))))
        else Err("TypeError")
      case None =>
        Ok(JObj([("escalations", JArr([SshEscalation()])), ("generated_at", JStr(now))]))
  }

  /** The fallback escalates a single incident, `inc-003`, and asks for approval. */
  lemma FallbackSingle(incidents: seq<Json>, raw: string, parse: string -> Option<Json>, now: string)
    requires HitlIncidents(incidents) != [] && BraceSpan(raw).None?
    ensures var r := RunEscalateAgent(incidents, raw, parse, now);
      && r.Ok?
      && Field(r.value, "escalations") == Some(JArr([SshEscalation()]))
      && Field(SshEscalation(), "incident_id") == Some(JStr("inc-003"))
      && Field(SshEscalation(), "requires_approval") == Some(JBool(true))
      && Field(SshEscalation(), "confidence_score") == Some(JFloat(0.78))
  {
  }
}
