/**
 * The reason agent of the event pipeline: the model's reply with any
 * markdown fence removed, tagged with the event and the model; on missing
 * credentials the deterministic mock analysis; on any other failure an
 * `escalate` analysis with confidence 0.0.
 *
 * The model call and `json.loads` are parameters, as is Python's `str()` of
 * the metric values interpolated into the default mock analysis.
 */
module Reason {
  import opened Wrappers
  import opened Text
  import opened Json
  import opened PyDict

  const NovaModel: string := "amazon.nova-pro-v1:0"
  const MockModel: string := NovaModel + " (mock)"

  // ---------------------------------------------------------------------------
  // Markdown fences
  // ---------------------------------------------------------------------------

  const Fence: string := "```"

  /** What the fence stripping leaves of the model's reply. */
  function Unfence(raw: string): string {
    var t := PyStrip(raw);
    var inner :=
      if StartsWith(t, Fence) then
        assert OccursAt(t, Fence, 0);
        ContainsAt(t, Fence, 0);
        SplitTwoPieces(t, Fence);
        var piece := Split(t, Fence)[1];
        if StartsWith(piece, "json") then piece[4..] else piece
      else t;
    PyStrip(inner)
  }

  /** The fence stripping of `_nova_analysis`, reassigning the reply step by step. */
  method StripFences(raw: string) returns (cleaned: string)
    ensures cleaned == Unfence(raw)
  {
    cleaned := PyStrip(raw);
    if StartsWith(cleaned, Fence) {
      assert OccursAt(cleaned, Fence, 0);
      ContainsAt(cleaned, Fence, 0);
      SplitTwoPieces(cleaned, Fence);
      cleaned := Split(cleaned, Fence)[1];
      if StartsWith(cleaned, "json") {
        cleaned := cleaned[4..];
      }
    }
    cleaned := PyStrip(cleaned);
  }

  /** The cleaned reply has no surrounding whitespace. */
  lemma UnfenceStripped(raw: string)
    ensures PyStrip(Unfence(raw)) == Unfence(raw)
  {
    var t := PyStrip(raw);
    var inner := if StartsWith(t, Fence) then (var piece := Split(t, Fence)[1]; if StartsWith(piece, "json") then piece[4..] else piece) else t;
    TrimIdempotent(inner, PyIsSpace);
  }

  /** A reply already free of whitespace and fences is used as it is. */
  lemma UnfencePlain(raw: string)
    requires PyStrip(raw) == raw && !StartsWith(raw, Fence)
    ensures Unfence(raw) == raw
  {
  }

  /** A fenced `json` block gives back the stripped body between the fences. */
  lemma UnfenceWrapped(body: string)
    requires forall k :: 0 <= k < |body| ==> body[k] != '`'
    ensures Unfence("```json" + body + "```") == PyStrip(body)
  {
    var raw := "```json" + body + "```";
    WrappedStripped(body);
    WrappedPieces(body);
    assert StartsWith(raw, Fence);
    var piece := "json" + body;
    assert StartsWith(piece, "json") && piece[4..] == body;
  }

  /** A fenced block has no surrounding whitespace. */
  lemma WrappedStripped(body: string)
    ensures PyStrip("```json" + body + "```") == "```json" + body + "```"
  {
    var raw := "```json" + body + "```";
    assert !PyIsSpace(raw[0]) && !PyIsSpace(raw[|raw| - 1]);
    assert ContentStart(raw, PyIsSpace) == 0;
    assert ContentEnd(raw, PyIsSpace) == |raw|;
  }

  /** Splitting a fenced block on the fence gives the empty prefix, then the tagged body. */
  lemma WrappedPieces(body: string)
    requires forall k :: 0 <= k < |body| ==> body[k] != '`'
    ensures var pieces := Split("```json" + body + "```", Fence);
      |pieces| >= 2 && pieces[1] == "json" + body
  {
    var raw := "```json" + body + "```";
    assert OccursAt(raw, Fence, 0);
    ContainsAt(raw, Fence, 0);
    assert IndexOf(raw, Fence) == Some(0);
    var rest := raw[3..];
    assert rest == "json" + body + "```";
    var n := 4 + |body|;
    FenceAfterTag(body);
    assert Split(raw, Fence) == [raw[..0]] + Split(rest, Fence);
    assert Split(rest, Fence) == [rest[..n]] + Split(rest[n + 3..], Fence);
    assert rest[..n] == "json" + body;
  }

  /** In `json`, the body and a closing fence, the first fence is the closing one. */
  lemma FenceAfterTag(body: string)
    requires forall k :: 0 <= k < |body| ==> body[k] != '`'
    ensures IndexOf("json" + body + "```", Fence) == Some(4 + |body|)
  {
    var rest := "json" + body + "```";
    var n := 4 + |body|;
    assert OccursAt(rest, Fence, n) by { assert rest[n..n + 3] == "```"; }
    ContainsAt(rest, Fence, n);
    forall k | 0 <= k < n ensures !OccursAt(rest, Fence, k) {
      assert rest[k] != '`' by {
        if k < 4 { assert rest[k] == "json"[k]; } else { assert rest[k] == body[k - 4]; }
      }
      if k + 3 <= |rest| {
        assert rest[k..k + 3][0] == rest[k];
      }
    }
  }

  // ---------------------------------------------------------------------------
  // The mock analysis
  // ---------------------------------------------------------------------------

  /** The keys of an analysis, in the order of the response format. */
  const AnalysisKeys: seq<string> :=
    ["root_cause", "confidence", "impact", "reasoning_steps", "recommended_action", "fix_description",
     "related_services", "estimated_resolution_time"]

  predicate AnalysisShaped(d: Dict) {
    |d| == 8 && forall k :: 0 <= k < 8 ==> d[k].0 == AnalysisKeys[k]
  }

  /** A scripted analysis, before it becomes a dictionary. */
  datatype Scripted = Scripted(rootCause: string, confidence: real, impact: string, steps: seq<string>,
                               action: string, fix: string, related: seq<string>, eta: string)

  /** The dictionary of a scripted analysis, in the key order of the response format. */
  function AsDict(e: Scripted): (d: Dict)
    ensures AnalysisShaped(d)
    ensures Get(d, "confidence") == Some(JFloat(e.confidence))
    ensures Get(d, "recommended_action") == Some(JStr(e.action))
    ensures Get(d, "related_services") == Some(Strings(e.related))
  {
    var d := [("root_cause", JStr(e.rootCause)), ("confidence", JFloat(e.confidence)), ("impact", JStr(e.impact)),
              ("reasoning_steps", Strings(e.steps)), ("recommended_action", JStr(e.action)), ("fix_description", JStr(e.fix)),
              ("related_services", Strings(e.related)), ("estimated_resolution_time", JStr(e.eta))];
    GetSkip(d, "recommended_action", 4);
    GetSkip(d, "related_services", 6);
    d
  }

  /** `mock_map`: the scripted analyses of the five scripted alarms. */
  function MockTable(id: string): Option<Scripted> {
    if id == "alarm-001" then
      Some(Scripted("Sustained CPU spike on EC2 instance i-0a1b2c3d4e5f caused by runaway application thread pool exhaustion.",
                    0.91, "Production API latency increased 340ms p99. Risk of instance failure within 10 minutes.",
                    ["CPUUtilization at 94.7% for >15 minutes exceeds safe operating threshold of 80%.",
                     "CloudWatch metrics show correlated memory pressure — heap usage at 87% suggests GC pressure.",
                     "No recent deployments in the last 6 hours rules out code change as root cause.",
                     "Traffic volume is normal — rules out load spike. Points to internal thread/process issue.",
                     "Pattern matches known thread pool exhaustion signature in the order-service."],
                    "auto_fix",
                    "Restart application process on i-0a1b2c3d4e5f via SSM Run Command. If CPU doesn't drop below 70% within 3 minutes, trigger instance replacement via Auto Scaling.",
                    ["EC2", "CloudWatch", "Auto Scaling", "SSM"], "4 minutes"))
    else if id == "alarm-002" then
      Some(Scripted("RDS PostgreSQL instance running full table scans due to missing index on orders.customer_id after schema migration.",
                    0.87, "Database spend 112% above baseline. Query latency degraded. Risk of read replica lag.",
                    ["Cost spike of $847.50 vs $400 baseline correlates with schema migration deployed 14 hours ago.",
                     "RDS Performance Insights shows sequential scan queries consuming 78% of DB load.",
                     "Missing index on orders.customer_id identified in slow query log — added in migration but not applied.",
                     "IOPS spike confirms full table scan pattern rather than connection pool issue."],
                    "escalate",
                    "Add index: CREATE INDEX CONCURRENTLY idx_orders_customer_id ON orders(customer_id). Requires DBA approval for production schema change.",
                    ["RDS", "Cost Explorer", "CloudWatch"], "30 minutes"))
    else if id == "alarm-003" then
      Some(Scripted("S3 bucket prod-data-lake-exports has public-read ACL set — likely misconfigured during Terraform apply for new export pipeline.",
                    0.95, "PCI-DSS and SOC2 violation. Sensitive export data potentially exposed. Immediate remediation required.",
                    ["Security Hub finding: S3 bucket ACL set to public-read — confirmed via GetBucketAcl API.",
                     "Bucket contains customer export data — classified as PII under GDPR/PCI-DSS.",
                     "CloudTrail shows PutBucketAcl called 2 hours ago by terraform-ci-role during pipeline deployment.",
                     "Terraform state shows missing block_public_acls = true in S3 resource configuration.",
                     "No unauthorized access detected in S3 access logs yet — window is narrow."],
                    "auto_fix",
                    "Immediately apply S3 Block Public Access settings via AWS CLI: aws s3api put-public-access-block. Then revoke public ACL. Alert security team.",
                    ["S3", "Security Hub", "CloudTrail", "IAM"], "2 minutes"))
    else if id == "alarm-004" then
      Some(Scripted("Lambda fn-order-processor error rate elevated due to DynamoDB throttling on orders table — insufficient provisioned capacity.",
                    0.88, "12.3% of order processing requests failing. Revenue impact estimated $2,400/hour.",
                    ["Lambda error rate 12.3% began 8 minutes ago — correlates with traffic surge.",
                     "CloudWatch Logs show ProvisionedThroughputExceededException from DynamoDB.",
                     "DynamoDB orders table consumed capacity at 98% — auto-scaling lag of ~5 minutes.",
                     "Exponential backoff not implemented in Lambda — errors cascade instead of retrying."],
                    "auto_fix",
                    "Temporarily increase DynamoDB orders table provisioned capacity by 2x via UpdateTable API. Auto-scaling will stabilize within 5 minutes.",
                    ["Lambda", "DynamoDB", "CloudWatch"], "6 minutes"))
    else if id == "alarm-005" then
      Some(Scripted("EKS cluster running 3 oversized node groups (m5.4xlarge) with average utilization below 15% — right-sizing opportunity.",
                    0.82, "Overspend of $340/day. No performance impact — purely cost optimization opportunity.",
                    ["Cost Explorer shows $1,240 EKS compute vs $900 baseline — 38% above target.",
                     "Kubernetes metrics show node CPU utilization averaging 14.2% across 3 node groups.",
                     "Pods can be consolidated onto m5.xlarge instances with headroom to spare.",
                     "No scheduled batch jobs or traffic spikes in next 72 hours per capacity plan."],
                    "escalate",
                    "Recommend right-sizing: migrate node groups from m5.4xlarge to m5.xlarge. Requires infrastructure team approval. Estimated savings: $340/day.",
                    ["EKS", "EC2", "Cost Explorer"], "2 hours (planned maintenance)"))
    else None
  }

  const DefaultImpact: string := "Service degradation detected. Scope under investigation."
  const DefaultCorrelating: string := "Correlating with related services for full impact assessment."
  const DefaultReview: string := "Manual review recommended."
  const DefaultFix: string := "Manual investigation required. Check CloudWatch dashboard for correlated metrics."

  /** The analysis of an alarm with no scripted entry; `show` is Python's `str()`. */
  function DefaultAnalysis(service: Json, metric: Json, value: Json, threshold: Json, show: Json -> string): (d: Dict)
    ensures AnalysisShaped(d)
  {
    [("root_cause", JStr("Anomaly detected in " + show(service) + " — " + show(metric) + " exceeded threshold.")),
     ("confidence", JFloat(0.65)),
     ("impact", JStr(DefaultImpact)),
     ("reasoning_steps", Strings(["Metric " + show(metric) + " = " + show(value) + " exceeds threshold " + show(threshold) + ".",
                                  DefaultCorrelating, DefaultReview])),
     ("recommended_action", JStr("escalate")),
     ("fix_description", JStr(DefaultFix)),
     ("related_services", JArr([service])),
     ("estimated_resolution_time", JStr("Unknown"))]
  }

  /** The entry `mock_map.get` picks: the scripted one for a known id, the default otherwise. */
  function Lookup(id: Json, default: Dict): (d: Dict)
    requires AnalysisShaped(default)
    ensures AnalysisShaped(d)
  {
    if id.JStr? && MockTable(id.s).Some? then AsDict(MockTable(id.s).value) else default
  }

  /** The event keys the mock analysis reads, in the order it reads them. */
  const MockKeys: seq<string> := ["id", "service", "metric", "value", "threshold"]

  /** The event keys the mock analysis reads are all present and the id is hashable. */
  predicate MockReadable(event: Json) {
    && Field(event, "id").Some? && Field(event, "service").Some? && Field(event, "metric").Some?
    && Field(event, "value").Some? && Field(event, "threshold").Some?
    && !Field(event, "id").value.JArr? && !Field(event, "id").value.JObj?
  }

  /** The entry `mock_map.get` picks for a readable event. */
  function MockEntry(event: Json, show: Json -> string): (d: Dict)
    requires MockReadable(event)
    ensures AnalysisShaped(d)
  {
    Lookup(Field(event, "id").value,
           DefaultAnalysis(Field(event, "service").value, Field(event, "metric").value, Field(event, "value").value,
                           Field(event, "threshold").value, show))
  }

  /** An analysis with the event id and a model tag added. */
  function Tagged(d: Dict, id: Json, model: string): (j: Json)
    requires AnalysisShaped(d)
    ensures j == JObj(d + [("event_id", id), ("model", JStr(model))])
  {
    TagAppends(d, id, model);
    JObj(Set(Set(d, "event_id", id), "model", JStr(model)))
  }

  /**
   * `_mock_analysis`. The default is built before the lookup, so an event
   * lacking `service`, `metric`, `value` or `threshold` fails even when its
   * id is scripted; a list or dictionary id cannot be looked up. Failures
   * name the missing key, or are `TypeError`.
   */
  function MockAnalysis(event: Json, show: Json -> string): Result<Json, string> {
    match FirstMissing(event, MockKeys)
    case Some(key) => Err(key)
    case None =>
      MockKeysPresent(event);
      var id := Field(event, "id").value;
      if !Hashable(id) then Err("TypeError")
      else Ok(Tagged(MockEntry(event, show), id, MockModel))
  }

  /** No key of `MockKeys` is missing: each of them is present. */
  lemma MockKeysPresent(event: Json)
    requires FirstMissing(event, MockKeys).None?
    ensures Field(event, "id").Some? && Field(event, "service").Some? && Field(event, "metric").Some?
    ensures Field(event, "value").Some? && Field(event, "threshold").Some?
  {
    assert Field(event, MockKeys[0]).Some? && Field(event, MockKeys[1]).Some? && Field(event, MockKeys[2]).Some?;
    assert Field(event, MockKeys[3]).Some? && Field(event, MockKeys[4]).Some?;
  }

  /** Tagging an analysis appends the event id and the model, neither of which it has. */
  lemma TagAppends(d: Dict, id: Json, model: string)
    requires AnalysisShaped(d)
    ensures Set(Set(d, "event_id", id), "model", JStr(model)) == d + [("event_id", id), ("model", JStr(model))]
  {
    GetSkip(d, "event_id", 8);
    SetNew(d, "event_id", id);
    var d1 := d + [("event_id", id)];
    GetSkip(d1, "model", 9);
    SetNew(d1, "model", JStr(model));
  }

  /** A tagged analysis reads back its own entries, the event id and the model tag. */
  lemma TaggedReads(d: Dict, id: Json, model: string)
    requires AnalysisShaped(d)
    ensures Get(Tagged(d, id, model).fields, "event_id") == Some(id)
    ensures Get(Tagged(d, id, model).fields, "model") == Some(JStr(model))
    ensures forall key :: key in AnalysisKeys ==> Get(Tagged(d, id, model).fields, key) == Get(d, key)
  {
    var tail := [("event_id", id), ("model", JStr(model))];
    var d2 := d + tail;
    assert Tagged(d, id, model).fields == d2;
    assert forall m :: 0 <= m < |d| ==> d2[m] == d[m];
    assert "event_id" !in AnalysisKeys && "model" !in AnalysisKeys;
    GetSkip(d2, "event_id", 8);
    GetSkip(d2, "model", 9);
    assert d2[8..] == tail && d2[9..] == [("model", JStr(model))];
    forall key | key in AnalysisKeys
      ensures Get(Tagged(d, id, model).fields, key) == Get(d, key)
    {
      var n :| 0 <= n < 8 && AnalysisKeys[n] == key;
      assert d[n].0 == key;
      GetAppendPresent(d, tail, key, n);
    }
  }

  /** The mock fails exactly when a key it reads is missing or the id is unhashable. */
  lemma MockAnalysisFails(event: Json, show: Json -> string)
    ensures MockAnalysis(event, show).Ok? <==> MockReadable(event)
  {
    var m := FirstMissing(event, MockKeys);
    if m.Some? {
      assert Field(event, m.value).None?;
    } else {
      MockKeysPresent(event);
    }
  }

  /** A scripted alarm gets its scripted analysis, then the event id and the mock model tag. */
  lemma MockKnown(event: Json, show: Json -> string, id: string)
    requires MockReadable(event) && Field(event, "id") == Some(JStr(id)) && MockTable(id).Some?
    ensures MockAnalysis(event, show)
            == Ok(JObj(AsDict(MockTable(id).value) + [("event_id", JStr(id)), ("model", JStr(MockModel))]))
  {
    MockAnalysisFails(event, show);
  }

  /**
   * Any other alarm is escalated with confidence 0.65, its own service as the
   * only related service, and the event id and mock model tag.
   */
  lemma MockDefault(event: Json, show: Json -> string)
    requires MockReadable(event)
    requires !(Field(event, "id").value.JStr? && MockTable(Field(event, "id").value.s).Some?)
    ensures var a := MockAnalysis(event, show);
      && a.Ok? && a.value.JObj?
      && Get(a.value.fields, "confidence") == Some(JFloat(0.65))
      && Get(a.value.fields, "recommended_action") == Some(JStr("escalate"))
      && Get(a.value.fields, "related_services") == Some(JArr([Field(event, "service").value]))
      && Get(a.value.fields, "event_id") == Field(event, "id")
      && Get(a.value.fields, "model") == Some(JStr(MockModel))
  {
    var service := Field(event, "service").value;
    MockDefaultValue(event, show);
    TaggedDefaultReads(service, Field(event, "metric").value, Field(event, "value").value, Field(event, "threshold").value,
                       show, Field(event, "id").value, MockModel);
  }

  /** The default analysis, tagged, keeps its confidence, action and related services. */
  lemma TaggedDefaultReads(service: Json, metric: Json, value: Json, threshold: Json, show: Json -> string,
                           id: Json, model: string)
    ensures var a := Tagged(DefaultAnalysis(service, metric, value, threshold, show), id, model);
      && Get(a.fields, "confidence") == Some(JFloat(0.65))
      && Get(a.fields, "recommended_action") == Some(JStr("escalate"))
      && Get(a.fields, "related_services") == Some(JArr([service]))
      && Get(a.fields, "event_id") == Some(id)
      && Get(a.fields, "model") == Some(JStr(model))
  {
    var d := DefaultAnalysis(service, metric, value, threshold, show);
    TaggedReads(d, id, model);
    DefaultReads(service, metric, value, threshold, show);
    assert "confidence" == AnalysisKeys[1] && "recommended_action" == AnalysisKeys[4] && "related_services" == AnalysisKeys[6];
  }

  /** An alarm the table does not know gets the default analysis, tagged. */
  lemma MockDefaultValue(event: Json, show: Json -> string)
    requires MockReadable(event)
    requires !(Field(event, "id").value.JStr? && MockTable(Field(event, "id").value.s).Some?)
    ensures MockAnalysis(event, show) ==
      Ok(Tagged(DefaultAnalysis(Field(event, "service").value, Field(event, "metric").value, Field(event, "value").value,
                                Field(event, "threshold").value, show), Field(event, "id").value, MockModel))
  {
    MockAnalysisFails(event, show);
  }

  /** The default analysis escalates with confidence 0.65 and names its own service as the only related one. */
  lemma DefaultReads(service: Json, metric: Json, value: Json, threshold: Json, show: Json -> string)
    ensures var d := DefaultAnalysis(service, metric, value, threshold, show);
      && Get(d, "confidence") == Some(JFloat(0.65))
      && Get(d, "recommended_action") == Some(JStr("escalate"))
      && Get(d, "related_services") == Some(JArr([service]))
  {
    var d := DefaultAnalysis(service, metric, value, threshold, show);
    GetSkip(d, "confidence", 1);
    GetSkip(d, "recommended_action", 4);
    GetSkip(d, "related_services", 6);
  }

  /** Every mock analysis names its event and carries a model tag ending in `(mock)`. */
  lemma MockTagged(event: Json, show: Json -> string)
    requires MockAnalysis(event, show).Ok?
    ensures var a := MockAnalysis(event, show).value;
      && a.JObj? && Get(a.fields, "event_id") == Field(event, "id")
      && Get(a.fields, "model").Some? && Get(a.fields, "model").value.JStr?
      && EndsWith(Get(a.fields, "model").value.s, "(mock)")
  {
    MockAnalysisFails(event, show);
    TaggedReads(MockEntry(event, show), Field(event, "id").value, MockModel);
    MockModelTag();
  }

  lemma MockModelTag()
    ensures EndsWith(MockModel, "(mock)")
  {
    assert MockModel[|MockModel| - 6..] == "(mock)";
  }

  // ---------------------------------------------------------------------------
  // The model call
  // ---------------------------------------------------------------------------

  /** What the model call did: credentials or client failure, another exception, or the reply text. */
  datatype Reply = CredentialsError | Raised(message: string) | Text(raw: string)

  /** The analysis returned when anything else fails; `None` when the event has no id. */
  function ErrorAnalysis(event: Json, exc: string): Result<Json, string> {
    match Field(event, "id")
    case None => Err("id")
    case Some(id) => Ok(JObj(ErrorFields(id, exc)))
  }

  /** The error analysis dictionary for an event id and an exception text. */
  function ErrorFields(id: Json, exc: string): Dict {
    [("event_id", id), ("root_cause", JStr("Analysis failed: " + exc)), ("confidence", JFloat(0.0)),
     ("impact", JStr("Unknown")), ("reasoning_steps", Strings(["Error: " + exc])),
     ("recommended_action", JStr("escalate")), ("fix_description", JStr("Manual investigation required.")),
     ("related_services", JArr([])), ("estimated_resolution_time", JStr("Unknown")), ("model", JStr("error"))]
  }

  /** An error analysis escalates with confidence 0.0 and model `error`. */
  lemma ErrorAnalysisShape(event: Json, exc: string)
    requires Field(event, "id").Some?
    ensures var a := ErrorAnalysis(event, exc);
      && a.Ok? && a.value.JObj?
      && Get(a.value.fields, "event_id") == Field(event, "id")
      && Get(a.value.fields, "confidence") == Some(JFloat(0.0))
      && Get(a.value.fields, "recommended_action") == Some(JStr("escalate"))
      && Get(a.value.fields, "model") == Some(JStr("error"))
  {
    var id := Field(event, "id").value;
    ErrorConfidence(id, exc);
    ErrorAction(id, exc);
    ErrorModel(id, exc);
  }

  lemma ErrorConfidence(id: Json, exc: string)
    ensures Get(ErrorFields(id, exc), "confidence") == Some(JFloat(0.0))
  {
    GetSkip(ErrorFields(id, exc), "confidence", 2);
  }

  lemma ErrorAction(id: Json, exc: string)
    ensures Get(ErrorFields(id, exc), "recommended_action") == Some(JStr("escalate"))
  {
    GetSkip(ErrorFields(id, exc), "recommended_action", 5);
  }

  lemma ErrorModel(id: Json, exc: string)
    ensures Get(ErrorFields(id, exc), "model") == Some(JStr("error"))
  {
    GetSkip(ErrorFields(id, exc), "model", 9);
  }

  /** The event keys the prompt interpolates, in the order it reads them. */
  const PromptKeys: seq<string> :=
    ["source", "service", "resource", "metric", "value", "threshold", "severity", "message", "timestamp"]

  /** The first prompt key the event lacks. */
  function MissingPromptKey(event: Json): (r: Option<string>)
    ensures r.Some? ==> r.value in PromptKeys && Field(event, r.value).None?
    ensures r.None? ==> forall k :: 0 <= k < |PromptKeys| ==> Field(event, PromptKeys[k]).Some?
  {
    FirstMissing(event, PromptKeys)
  }

  function FirstMissing(event: Json, keys: seq<string>): (r: Option<string>)
    ensures r.Some? ==> r.value in keys && Field(event, r.value).None?
    ensures r.None? ==> forall k :: 0 <= k < |keys| ==> Field(event, keys[k]).Some?
  {
    if keys == [] then None
    else if Field(event, keys[0]).None? then Some(keys[0])
    else FirstMissing(event, keys[1..])
  }

  /** Python's message for `value["event_id"] = …` on a value that is not a dictionary. */
  function AssignmentError(v: Json): string {
    match v
    case JArr(_) => "list indices must be integers or slices, not str"
    case JStr(_) => "'str' object does not support item assignment"
    case JInt(_) => "'int' object does not support item assignment"
    case JFloat(_) => "'float' object does not support item assignment"
    case JBool(_) => "'bool' object does not support item assignment"
    case JNull => "'NoneType' object does not support item assignment"
    case JObj(_) => ""
  }

  /** `_nova_analysis`; `parse` is `json.loads`, failing with the exception's text. */
  method NovaAnalysis(event: Json, reply: Reply, parse: string -> Result<Json, string>, show: Json -> string)
    returns (r: Result<Json, string>)
    ensures MissingPromptKey(event).Some? ==> r == ErrorAnalysis(event, KeyErrorText(MissingPromptKey(event).value))
    ensures MissingPromptKey(event).None? && reply.CredentialsError? ==> r == MockAnalysis(event, show)
    ensures MissingPromptKey(event).None? && reply.Raised? ==> r == ErrorAnalysis(event, reply.message)
    ensures MissingPromptKey(event).None? && reply.Text? ==>
              match parse(Unfence(reply.raw))
              case Err(msg) => r == ErrorAnalysis(event, msg)
              case Ok(v) =>
                if !v.JObj? then r == ErrorAnalysis(event, AssignmentError(v))
                else if Field(event, "id").None? then r == Err("id")
                else r == Ok(JObj(Set(Set(v.fields, "event_id", Field(event, "id").value), "model", JStr(NovaModel))))
  {
    var missing := MissingPromptKey(event);
    if missing.Some? {
      return ErrorAnalysis(event, KeyErrorText(missing.value));
    }
    match reply {
      case CredentialsError =>
        return MockAnalysis(event, show);
      case Raised(message) =>
        return ErrorAnalysis(event, message);
      case Text(raw) =>
        var cleaned := StripFences(raw);
        var parsed := parse(cleaned);
        if parsed.Err? {
          return ErrorAnalysis(event, parsed.error);
        }
        var analysis := parsed.value;
        if !analysis.JObj? {
          return ErrorAnalysis(event, AssignmentError(analysis));
        }
        var id := Field(event, "id");
        if id.None? {
          // the KeyError is caught, and the error analysis fails on the same key
          return ErrorAnalysis(event, KeyErrorText("id"));
        }
        var fields := Set(analysis.fields, "event_id", id.value);
        fields := Set(fields, "model", JStr(NovaModel));
        return Ok(JObj(fields));
    }
  }

  /** A parsed reply is tagged with the event id and the live model. */
  lemma NovaTagged(fields: Dict, id: Json)
    ensures var a := Set(Set(fields, "event_id", id), "model", JStr(NovaModel));
      Get(a, "event_id") == Some(id) && Get(a, "model") == Some(JStr(NovaModel))
  {
    GetSetSame(fields, "event_id", id);
    GetSetOther(Set(fields, "event_id", id), "model", JStr(NovaModel), "event_id");
    GetSetSame(Set(fields, "event_id", id), "model", JStr(NovaModel));
  }

  /** `ReasonAgent.analyze`: the mock analysis in mock mode, the model call otherwise. */
  method Analyze(useMock: bool, event: Json, reply: Reply, parse: string -> Result<Json, string>, show: Json -> string)
    returns (r: Result<Json, string>)
    ensures useMock ==> r == MockAnalysis(event, show)
    ensures !useMock && MissingPromptKey(event).None? && reply.CredentialsError? ==> r == MockAnalysis(event, show)
    ensures !useMock && MissingPromptKey(event).None? && reply.Raised? ==> r == ErrorAnalysis(event, reply.message)
    ensures !useMock && MissingPromptKey(event).Some? ==>
              r == ErrorAnalysis(event, KeyErrorText(MissingPromptKey(event).value))
    ensures !useMock && MissingPromptKey(event).None? && reply.Text? ==>
              match parse(Unfence(reply.raw))
              case Err(msg) => r == ErrorAnalysis(event, msg)
              case Ok(v) =>
                if !v.JObj? then r == ErrorAnalysis(event, AssignmentError(v))
                else if Field(event, "id").None? then r == Err("id")
                else r == Ok(JObj(Set(Set(v.fields, "event_id", Field(event, "id").value), "model", JStr(NovaModel))))
  {
    if useMock {
      return MockAnalysis(event, show);
    }
    r := NovaAnalysis(event, reply, parse, show);
  }
}
