/**
 * The reason agent of the incident pipeline: the model's reply is cut to its
 * outermost braces and parsed; an unparseable reply selects four fixed
 * fallback incidents; every incident is then normalised, which decides the
 * `auto_remediable` flag from the confidence threshold and the approved
 * playbooks.
 *
 * The model call, the JSON parser, the uuid generator and the clock are
 * parameters; the fallback incidents' narrative text is a parameter too.
 * A `TypeError` or `AttributeError` the source would raise is an `Err`.
 */
module ReasonAgent {
  import opened Wrappers
  import opened Text
  import opened Json
  import opened PyDict

  /** The threshold's default when the environment does not set one. */
  const DefaultThreshold: real := 0.85

  predicate ApprovedAction(a: string) {
    a == "EC2_RIGHTSIZE" || a == "S3_REVOKE_PUBLIC" || a == "TAG_RESOURCES"
  }

  /** A Python number as a real (`bool` is an `int`). */
  function NumberOf(j: Json): Option<real> {
    match j
    case JInt(i) => Some(i as real)
    case JBool(b) => Some(if b then 1.0 else 0.0)
    case JFloat(f) => Some(f)
    case _ => None
  }

  /** `confidence >= threshold`; comparing a non-number raises `TypeError`. */
  function Meets(confidence: Json, threshold: real): Result<bool, string> {
    match NumberOf(confidence)
    case Some(x) => Ok(x >= threshold)
    case None => Err("TypeError")
  }

  /** `action in approved_actions`; a list or dict is unhashable. */
  function Approved(action: Json): Result<bool, string> {
    match action
    case JArr(_) => Err("TypeError")
    case JObj(_) => Err("TypeError")
    case JStr(s) => Ok(ApprovedAction(s))
    case _ => Ok(false)
  }

  function ConfidenceOf(d: Dict): Json {
    GetOr(d, "confidence_score", JFloat(0.0))
  }

  function ActionOf(d: Dict): Json {
    GetOr(d, "recommended_action", JStr("MANUAL_REVIEW"))
  }

  /** The `and` of the two tests, the second evaluated only when the first holds. */
  function AutoRemediable(d: Dict, threshold: real): Result<bool, string> {
    match Meets(ConfidenceOf(d), threshold)
    case Err(e) => Err(e)
    case Ok(false) => Ok(false)
    case Ok(true) => Approved(ActionOf(d))
  }

  /** The incident with its id ensured. */
  function WithId(d: Dict, freshId: string): Dict {
    if Has(d, "incident_id") then d else Set(d, "incident_id", JStr(freshId))
  }

  /** One iteration of the normalisation loop. */
  function Normalized(inc: Json, freshId: string, now: string, threshold: real): Result<Json, string> {
    if !inc.JObj? then Err("TypeError")
    else
      var d := WithId(inc.fields, freshId);
      match AutoRemediable(d, threshold)
      case Err(e) => Err(e)
      case Ok(auto) =>
        Ok(JObj(SetDefault(SetDefault(Set(d, "auto_remediable", JBool(auto)), "status", JStr("PENDING")),
                           "created_at", JStr(now))))
  }

  /** Reading any key but the four the loop writes sees the incident's own value. */
  lemma NormalizedOther(inc: Json, freshId: string, now: string, threshold: real, key: string)
    requires Normalized(inc, freshId, now, threshold).Ok?
    requires key != "incident_id" && key != "auto_remediable" && key != "status" && key != "created_at"
    ensures Field(Normalized(inc, freshId, now, threshold).value, key) == Field(inc, key)
  {
    var d := WithId(inc.fields, freshId);
    if !Has(inc.fields, "incident_id") {
      GetSetOther(inc.fields, "incident_id", JStr(freshId), key);
    }
    KeepsOther(d, threshold, now, key);
  }

  lemma KeepsOther(d: Dict, threshold: real, now: string, key: string)
    requires AutoRemediable(d, threshold).Ok?
    requires key != "auto_remediable" && key != "status" && key != "created_at"
    ensures var d1 := Set(d, "auto_remediable", JBool(AutoRemediable(d, threshold).value));
      Get(SetDefault(SetDefault(d1, "status", JStr("PENDING")), "created_at", JStr(now)), key) == Get(d, key)
  {
    var d1 := Set(d, "auto_remediable", JBool(AutoRemediable(d, threshold).value));
    GetSetOther(d, "auto_remediable", JBool(AutoRemediable(d, threshold).value), key);
    var d2 := SetDefault(d1, "status", JStr("PENDING"));
    if !Has(d1, "status") {
      GetSetOther(d1, "status", JStr("PENDING"), key);
    }
    if !Has(d2, "created_at") {
      GetSetOther(d2, "created_at", JStr(now), key);
    }
  }

  /**
   * After normalisation an incident has an id (its own, or the generated
   * one), `auto_remediable` is true exactly when the confidence reaches the
   * threshold and the action is an approved playbook, and a status and a
   * creation time are present, the incident's own when it had them.
   */
  lemma NormalizedFields(inc: Json, freshId: string, now: string, threshold: real)
    requires Normalized(inc, freshId, now, threshold).Ok?
    ensures var r := Normalized(inc, freshId, now, threshold).value;
      && Field(r, "incident_id") == (if Field(inc, "incident_id").Some? then Field(inc, "incident_id") else Some(JStr(freshId)))
      && Field(r, "auto_remediable") ==
         Some(JBool(&& NumberOf(ConfidenceOf(inc.fields)).Some?
                    && NumberOf(ConfidenceOf(inc.fields)).value >= threshold
                    && ActionOf(inc.fields).JStr? && ApprovedAction(ActionOf(inc.fields).s)))
      && Field(r, "status") == (if Field(inc, "status").Some? then Field(inc, "status") else Some(JStr("PENDING")))
      && Field(r, "created_at") == (if Field(inc, "created_at").Some? then Field(inc, "created_at") else Some(JStr(now)))
  {
    var d := WithId(inc.fields, freshId);
    WithIdFields(inc.fields, freshId);
    AutoRemediableMeaning(d, threshold);
    WrittenFields(d, threshold, now);
  }

  /** The flag, when it can be computed, is the conjunction of the two tests. */
  lemma AutoRemediableMeaning(d: Dict, threshold: real)
    requires AutoRemediable(d, threshold).Ok?
    ensures AutoRemediable(d, threshold).value ==
            (&& NumberOf(ConfidenceOf(d)).Some? && NumberOf(ConfidenceOf(d)).value >= threshold
             && ActionOf(d).JStr? && ApprovedAction(ActionOf(d).s))
  {
  }

  /** Ensuring the id changes no other key the loop reads. */
  lemma WithIdFields(fields: Dict, freshId: string)
    ensures Get(WithId(fields, freshId), "incident_id") ==
            (if Has(fields, "incident_id") then Get(fields, "incident_id") else Some(JStr(freshId)))
    ensures ConfidenceOf(WithId(fields, freshId)) == ConfidenceOf(fields)
    ensures ActionOf(WithId(fields, freshId)) == ActionOf(fields)
    ensures Get(WithId(fields, freshId), "status") == Get(fields, "status")
    ensures Get(WithId(fields, freshId), "created_at") == Get(fields, "created_at")
  {
    if !Has(fields, "incident_id") {
      GetSetSame(fields, "incident_id", JStr(freshId));
      GetSetOther(fields, "incident_id", JStr(freshId), "confidence_score");
      GetSetOther(fields, "incident_id", JStr(freshId), "recommended_action");
      GetSetOther(fields, "incident_id", JStr(freshId), "status");
      GetSetOther(fields, "incident_id", JStr(freshId), "created_at");
    }
  }

  /** The three writes after the id: the flag is set, the status and creation time only when missing. */
  lemma WrittenFields(d: Dict, threshold: real, now: string)
    requires AutoRemediable(d, threshold).Ok?
    ensures var auto := AutoRemediable(d, threshold).value;
      var r := SetDefault(SetDefault(Set(d, "auto_remediable", JBool(auto)), "status", JStr("PENDING")), "created_at", JStr(now));
      && Get(r, "incident_id") == Get(d, "incident_id")
      && Get(r, "auto_remediable") == Some(JBool(auto))
      && Get(r, "status") == (if Has(d, "status") then Get(d, "status") else Some(JStr("PENDING")))
      && Get(r, "created_at") == (if Has(d, "created_at") then Get(d, "created_at") else Some(JStr(now)))
  {
    var auto := AutoRemediable(d, threshold).value;
    var d1 := Set(d, "auto_remediable", JBool(auto));
    GetSetSame(d, "auto_remediable", JBool(auto));
    GetSetOther(d, "auto_remediable", JBool(auto), "incident_id");
    GetSetOther(d, "auto_remediable", JBool(auto), "status");
    GetSetOther(d, "auto_remediable", JBool(auto), "created_at");
    var d2 := SetDefault(d1, "status", JStr("PENDING"));
    if !Has(d1, "status") {
      GetSetSame(d1, "status", JStr("PENDING"));
      GetSetOther(d1, "status", JStr("PENDING"), "incident_id");
      GetSetOther(d1, "status", JStr("PENDING"), "auto_remediable");
      GetSetOther(d1, "status", JStr("PENDING"), "created_at");
    }
    if !Has(d2, "created_at") {
      GetSetSame(d2, "created_at", JStr(now));
      GetSetOther(d2, "created_at", JStr(now), "incident_id");
      GetSetOther(d2, "created_at", JStr(now), "auto_remediable");
      GetSetOther(d2, "created_at", JStr(now), "status");
    }
  }

  /** An incident without `recommended_action` defaults to manual review and is never auto-remediable. */
  lemma MissingActionNeverAuto(inc: Json, freshId: string, now: string, threshold: real)
    requires Normalized(inc, freshId, now, threshold).Ok? && Field(inc, "recommended_action").None?
    ensures Field(Normalized(inc, freshId, now, threshold).value, "auto_remediable") == Some(JBool(false))
  {
    NormalizedFields(inc, freshId, now, threshold);
  }

  /** An incident without `confidence_score` counts 0.0, below any positive threshold. */
  lemma MissingConfidenceNeverAuto(inc: Json, freshId: string, now: string, threshold: real)
    requires threshold > 0.0
    requires Normalized(inc, freshId, now, threshold).Ok? && Field(inc, "confidence_score").None?
    ensures Field(Normalized(inc, freshId, now, threshold).value, "auto_remediable") == Some(JBool(false))
  {
    NormalizedFields(inc, freshId, now, threshold);
  }

  /** The normalisation loop over the incidents; the k-th generated id is `freshId(k)`. */
  method Normalize(incidents: seq<Json>, freshId: nat -> string, now: string, threshold: real)
    returns (r: Result<seq<Json>, string>)
    ensures r.Err? ==> exists k :: 0 <= k < |incidents| && Normalized(incidents[k], freshId(k), now, threshold).Err?
    ensures r.Ok? ==> |r.value| == |incidents| &&
                      forall k :: 0 <= k < |incidents| ==> Normalized(incidents[k], freshId(k), now, threshold) == Ok(r.value[k])
  {
    var out: seq<Json> := [];
    var i := 0;
    while i < |incidents|
      invariant 0 <= i <= |incidents| && |out| == i
      invariant forall k :: 0 <= k < i ==> Normalized(incidents[k], freshId(k), now, threshold) == Ok(out[k])
    {
      var step := Normalized(incidents[i], freshId(i), now, threshold);
      if step.Err? {
        r := Err(step.error);
        return;
      }
      out := out + [step.value];
      i := i + 1;
    }
    r := Ok(out);
  }

  // ---------------------------------------------------------------------------
  // The fallback incidents
  // ---------------------------------------------------------------------------

  /** The narrative fields of a fallback incident. */
  datatype Prose = Prose(title: string, reasoningChain: seq<string>, rootCause: string)

  function FallbackIncident(id: string, severity: string, resources: seq<string>, signals: seq<string>, p: Prose,
                            confidence: real, action: string, auto: bool, savings: Json, now: string): Json {
    JObj([("incident_id", JStr(id)), ("title", JStr(p.title)), ("severity", JStr(severity)),
          ("affected_resources", Strings(resources)), ("cross_service_signals", Strings(signals)),
          ("reasoning_chain", Strings(p.reasoningChain)), ("root_cause", JStr(p.rootCause)),
          ("confidence_score", JFloat(confidence)), ("recommended_action", JStr(action)),
          ("auto_remediable", JBool(auto)), ("estimated_monthly_savings_usd", savings),
          ("status", JStr("PENDING")), ("created_at", JStr(now))])
  }

  /** `_fallback_incidents`: four incidents, appended in this order. */
  function FallbackIncidents(prose: seq<Prose>, now: string): (r: seq<Json>)
    requires |prose| == 4
    ensures |r| == 4
  {
    [FallbackIncident("inc-001", "HIGH", ["i-0deadbeef999"], ["CloudWatch", "Cost Explorer"], prose[0],
                      0.93, "EC2_RIGHTSIZE", true, JFloat(166.57), now),
     FallbackIncident("inc-002", "CRITICAL", ["arn:aws:s3:::prod-assets"], ["Security Hub", "Cost Explorer"], prose[1],
                      0.91, "S3_REVOKE_PUBLIC", true, JFloat(4.70), now),
     FallbackIncident("inc-003", "CRITICAL", ["arn:aws:ec2:us-east-1:123456789012:security-group/sg-0ff1ce"],
                      ["Security Hub"], prose[2], 0.78, "MANUAL_REVIEW", false, JInt(0), now),
     FallbackIncident("inc-004", "MEDIUM", ["i-0deadbeef999"], ["Security Hub"], prose[3],
                      0.96, "TAG_RESOURCES", true, JInt(0), now)]
  }

  /** The keys of a fallback incident, in order. */
  const IncidentKeys: seq<string> :=
    ["incident_id", "title", "severity", "affected_resources", "cross_service_signals", "reasoning_chain", "root_cause",
     "confidence_score", "recommended_action", "auto_remediable", "estimated_monthly_savings_usd", "status", "created_at"]

  /** The fields normalisation reads of a fallback incident. */
  lemma FallbackIncidentFields(id: string, severity: string, resources: seq<string>, signals: seq<string>, p: Prose,
                               confidence: real, action: string, auto: bool, savings: Json, now: string)
    ensures var f := FallbackIncident(id, severity, resources, signals, p, confidence, action, auto, savings, now).fields;
      && Get(f, "incident_id") == Some(JStr(id))
      && Get(f, "confidence_score") == Some(JFloat(confidence))
      && Get(f, "recommended_action") == Some(JStr(action))
      && Get(f, "auto_remediable") == Some(JBool(auto))
      && Get(f, "status") == Some(JStr("PENDING"))
      && Get(f, "created_at") == Some(JStr(now))
  {
    var f := FallbackIncident(id, severity, resources, signals, p, confidence, action, auto, savings, now).fields;
    assert |f| == 13 && forall m :: 0 <= m < 13 ==> f[m].0 == IncidentKeys[m];
    IncidentFieldsAt(f);
  }

  /** In a dictionary with the incident keys in order, each key reads its own entry. */
  lemma IncidentFieldsAt(f: Dict)
    requires |f| == 13 && forall m :: 0 <= m < 13 ==> f[m].0 == IncidentKeys[m]
    ensures Get(f, "incident_id") == Some(f[0].1)
    ensures Get(f, "confidence_score") == Some(f[7].1) && Get(f, "recommended_action") == Some(f[8].1)
    ensures Get(f, "auto_remediable") == Some(f[9].1)
    ensures Get(f, "status") == Some(f[11].1) && Get(f, "created_at") == Some(f[12].1)
  {
    ConfidenceAt(f);
    ActionAt(f);
    AutoAt(f);
    StatusAt(f);
    CreatedAt(f);
  }

  lemma ConfidenceAt(f: Dict)
    requires |f| == 13 && forall m :: 0 <= m < 13 ==> f[m].0 == IncidentKeys[m]
    ensures Get(f, "confidence_score") == Some(f[7].1)
  {
    GetSkip(f, "confidence_score", 7);
  }

  lemma ActionAt(f: Dict)
    requires |f| == 13 && forall m :: 0 <= m < 13 ==> f[m].0 == IncidentKeys[m]
    ensures Get(f, "recommended_action") == Some(f[8].1)
  {
    GetSkip(f, "recommended_action", 8);
  }

  lemma AutoAt(f: Dict)
    requires |f| == 13 && forall m :: 0 <= m < 13 ==> f[m].0 == IncidentKeys[m]
    ensures Get(f, "auto_remediable") == Some(f[9].1)
  {
    GetSkip(f, "auto_remediable", 9);
  }

  lemma StatusAt(f: Dict)
    requires |f| == 13 && forall m :: 0 <= m < 13 ==> f[m].0 == IncidentKeys[m]
    ensures Get(f, "status") == Some(f[11].1)
  {
    GetSkip(f, "status", 11);
  }

  lemma CreatedAt(f: Dict)
    requires |f| == 13 && forall m :: 0 <= m < 13 ==> f[m].0 == IncidentKeys[m]
    ensures Get(f, "created_at") == Some(f[12].1)
  {
    GetSkip(f, "created_at", 12);
  }

  /** The fallback list has four incidents with the distinct ids inc-001 to inc-004. */
  lemma FallbackIds(prose: seq<Prose>, now: string)
    requires |prose| == 4
    ensures var fs := FallbackIncidents(prose, now);
      && Field(fs[0], "incident_id") == Some(JStr("inc-001")) && Field(fs[1], "incident_id") == Some(JStr("inc-002"))
      && Field(fs[2], "incident_id") == Some(JStr("inc-003")) && Field(fs[3], "incident_id") == Some(JStr("inc-004"))
      && forall i, j :: 0 <= i < j < 4 ==> Field(fs[i], "incident_id") != Field(fs[j], "incident_id")
  {
  }

  /**
   * At the default threshold, normalising the fallback incidents keeps the
   * `auto_remediable` flags they were written with, and keeps their status.
   */
  lemma FallbackFlagsAgree(prose: seq<Prose>, now: string, freshId: string, later: string, k: nat)
    requires |prose| == 4 && k < 4
    ensures var inc := FallbackIncidents(prose, now)[k];
      && Normalized(inc, freshId, later, DefaultThreshold).Ok?
      && Field(Normalized(inc, freshId, later, DefaultThreshold).value, "auto_remediable") == Field(inc, "auto_remediable")
      && Field(Normalized(inc, freshId, later, DefaultThreshold).value, "status") == Some(JStr("PENDING"))
  {
    if k == 0 {
      FallbackIncidentAgrees("inc-001", "HIGH", ["i-0deadbeef999"], ["CloudWatch", "Cost Explorer"], prose[0],
                             0.93, "EC2_RIGHTSIZE", true, JFloat(166.57), now, freshId, later);
    } else if k == 1 {
      FallbackIncidentAgrees("inc-002", "CRITICAL", ["arn:aws:s3:::prod-assets"], ["Security Hub", "Cost Explorer"], prose[1],
                             0.91, "S3_REVOKE_PUBLIC", true, JFloat(4.70), now, freshId, later);
    } else if k == 2 {
      FallbackIncidentAgrees("inc-003", "CRITICAL", ["arn:aws:ec2:us-east-1:123456789012:security-group/sg-0ff1ce"],
                             ["Security Hub"], prose[2], 0.78, "MANUAL_REVIEW", false, JInt(0), now, freshId, later);
    } else {
      FallbackIncidentAgrees("inc-004", "MEDIUM", ["i-0deadbeef999"], ["Security Hub"], prose[3],
                             0.96, "TAG_RESOURCES", true, JInt(0), now, freshId, later);
    }
  }

  /** A fallback incident whose flag follows the threshold rule keeps that flag through normalisation. */
  lemma FallbackIncidentAgrees(id: string, severity: string, resources: seq<string>, signals: seq<string>, p: Prose,
                               confidence: real, action: string, auto: bool, savings: Json, now: string,
                               freshId: string, later: string)
    requires auto == (confidence >= DefaultThreshold && ApprovedAction(action))
    ensures var inc := FallbackIncident(id, severity, resources, signals, p, confidence, action, auto, savings, now);
      && Normalized(inc, freshId, later, DefaultThreshold).Ok?
      && Field(Normalized(inc, freshId, later, DefaultThreshold).value, "auto_remediable") == Field(inc, "auto_remediable")
      && Field(Normalized(inc, freshId, later, DefaultThreshold).value, "status") == Some(JStr("PENDING"))
  {
    var inc := FallbackIncident(id, severity, resources, signals, p, confidence, action, auto, savings, now);
    FallbackIncidentFields(id, severity, resources, signals, p, confidence, action, auto, savings, now);
    NormalizedFields(inc, freshId, later, DefaultThreshold);
  }

  // ---------------------------------------------------------------------------
  // The agent
  // ---------------------------------------------------------------------------

  /**
   * The incident list the agent goes on with: the parsed reply's `incidents`
   * (default `[]`) when the reply has a brace span that parses, otherwise the
   * fallback list.
   */
  function Chosen(raw: string, parse: string -> Option<Json>, prose: seq<Prose>, now: string): Result<seq<Json>, string>
    requires |prose| == 4
  {
    match BraceSpan(raw)
    case None => Ok(FallbackIncidents(prose, now))
    case Some(text) =>
      match parse(text)
      case None => Ok(FallbackIncidents(prose, now))
      case Some(result) =>
        if !result.JObj? then Err("AttributeError")
        else match Get(result.fields, "incidents")
          case None => Ok([])
          case Some(JArr(items)) => Ok(items)
          case Some(_) => Err("TypeError")
  }

  /** No brace span, or one that does not parse, selects the fallback incidents. */
  lemma FallbackSelection(raw: string, parse: string -> Option<Json>, prose: seq<Prose>, now: string)
    requires |prose| == 4
    requires (forall i, j :: 0 <= i < j < |raw| ==> !(raw[i] == '{' && raw[j] == '}'))
             || (BraceSpan(raw).Some? && parse(BraceSpan(raw).value).None?)
    ensures Chosen(raw, parse, prose, now) == Ok(FallbackIncidents(prose, now))
  {
  }

  /** `run_reason_agent` given the model's reply. */
  method RunReasonAgent(raw: string, parse: string -> Option<Json>, prose: seq<Prose>, freshId: nat -> string,
                        now: string, threshold: real) returns (r: Result<Json, string>)
    requires |prose| == 4
    ensures Chosen(raw, parse, prose, now).Err? ==> r.Err?
    ensures r.Ok? <==> Chosen(raw, parse, prose, now).Ok?
                       && forall k :: 0 <= k < |Chosen(raw, parse, prose, now).value| ==>
                            Normalized(Chosen(raw, parse, prose, now).value[k], freshId(k), now, threshold).Ok?
    ensures r.Ok? ==>
              && Chosen(raw, parse, prose, now).Ok?
              && var incs := Chosen(raw, parse, prose, now).value;
                 && exists out: seq<Json> ::
                      && |out| == |incs|
                      && (forall k :: 0 <= k < |incs| ==> Normalized(incs[k], freshId(k), now, threshold) == Ok(out[k]))
                      && r.value == JObj([("incidents", JArr(out)), ("analyzed_at", JStr(now)), ("_raw_response", JStr(raw))])
  {
    var chosen := Chosen(raw, parse, prose, now);
    if chosen.Err? {
      return Err(chosen.error);
    }
    var normalized := Normalize(chosen.value, freshId, now, threshold);
    if normalized.Err? {
      return Err(normalized.error);
    }
    r := Ok(JObj([("incidents", JArr(normalized.value)), ("analyzed_at", JStr(now)), ("_raw_response", JStr(raw))]));
  }
}
