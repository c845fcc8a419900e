/**
 * The act agent of the event pipeline: a guard that runs nothing unless the
 * analysis recommends `auto_fix`, then a lookup of a scripted fix for the
 * known alarms with a generic fix for the rest. The live path delegates to
 * the scripted one, so both modes give the same result.
 *
 * Failures are the `KeyError`s of missing event keys, reported by key name,
 * and the `TypeError` of an id that cannot be hashed.
 */
module Act {
  import opened Wrappers
  import opened Text
  import opened Json
  import opened PyDict

  /** `analysis.get("recommended_action", "escalate")`. */
  function ActionOf(analysis: Json): (a: Json)
    ensures Field(analysis, "recommended_action").None? ==> a == JStr("escalate")
    ensures Field(analysis, "recommended_action").Some? ==> a == Field(analysis, "recommended_action").value
  {
    Field(analysis, "recommended_action").GetOr(JStr("escalate"))
  }

  /** Values whose `str()` the model renders: strings, integers, booleans and `None`. */
  predicate Printable(j: Json) {
    j.JNull? || j.JBool? || j.JInt? || j.JStr?
  }

  /** Python's `str()` of a printable value. */
  function PyStr(j: Json): string
    requires Printable(j)
  {
    match j
    case JNull => "None"
    case JBool(b) => if b then "True" else "False"
    case JInt(i) => IntToDecimal(i)
    case JStr(s) => s
  }

  function SkipReason(action: Json): string
    requires Printable(action)
  {
    "Action is '" + PyStr(action) + "' — not auto_fix. Skipping execution."
  }

  /** One entry of the scripted fix table (the resource is filled in from the event). */
  datatype Fix = Fix(actionType: string, command: string, steps: seq<string>, duration: real)

  function FixTable(id: string): Option<Fix> {
    if id == "alarm-001" then
      Some(Fix("ssm_run_command", "sudo systemctl restart order-service",
               ["✅ Connected to i-0a1b2c3d4e5f via SSM",
                "✅ Sent SIGTERM to order-service (PID 14823)",
                "✅ Process terminated gracefully in 2.1s",
                "✅ Service restarted — PID 15041",
                "✅ Health check passed — CPU dropped to 31%"], 8.3))
    else if id == "alarm-003" then
      Some(Fix("s3_block_public_access",
               "aws s3api put-public-access-block --bucket prod-data-lake-exports --public-access-block-configuration BlockPublicAcls=true,IgnorePublicAcls=true,BlockPublicPolicy=true,RestrictPublicBuckets=true",
               ["✅ Called S3 PutPublicAccessBlock API",
                "✅ BlockPublicAcls=true applied",
                "✅ IgnorePublicAcls=true applied",
                "✅ BlockPublicPolicy=true applied",
                "✅ RestrictPublicBuckets=true applied",
                "✅ Security Hub finding will resolve within 2 minutes",
                "\U{1F4E7} Security team alerted via SNS"], 1.8))
    else if id == "alarm-004" then
      Some(Fix("dynamodb_update_capacity",
               "aws dynamodb update-table --table-name orders --provisioned-throughput ReadCapacityUnits=200,WriteCapacityUnits=200",
               ["✅ Called DynamoDB UpdateTable API",
                "✅ Read capacity: 100 → 200 RCU",
                "✅ Write capacity: 100 → 200 WCU",
                "⏳ Scaling in progress (typically 5 minutes)",
                "✅ Lambda error rate dropping — now at 2.1%"], 3.2))
    else None
  }

  /** The fix fields merged into the execution log, in the table's key order. */
  function FixFields(actionType: string, command: Json, resource: Json, steps: seq<string>, duration: real): Dict {
    [("action_type", JStr(actionType)), ("command", command), ("resource", resource),
     ("steps", Strings(steps)), ("success", JBool(true)), ("duration_seconds", JFloat(duration))]
  }

  const GenericSteps: seq<string> := ["✅ Remediation action initiated", "✅ Monitoring for resolution"]

  /** The generic fix for an alarm with no table entry. */
  function GenericFix(event: Json, analysis: Json): Dict {
    FixFields("generic_remediation", Field(analysis, "fix_description").GetOr(JStr("Manual action")),
              Field(event, "resource").GetOr(JStr("unknown")), GenericSteps, 2.0)
  }

  /** The fix the table or the generic default gives for the event, `resource` read from the event. */
  function Selected(event: Json, analysis: Json, resource: Json): Dict {
    match Field(event, "id")
    case Some(JStr(id)) =>
      (match FixTable(id)
       case Some(f) => FixFields(f.actionType, JStr(f.command), resource, f.steps, f.duration)
       case None => GenericFix(event, analysis))
    case _ => GenericFix(event, analysis)
  }

  function Executed(eventId: Json, now: string, fix: Dict): Json {
    JObj([("executed", JBool(true)), ("event_id", eventId), ("timestamp", JStr(now))] + fix)
  }

  /** The id has an entry in the fix table. */
  predicate HasFix(eventId: Json) {
    eventId.JStr? && FixTable(eventId.s).Some?
  }

  /**
   * `_mock_execute` as written: the whole fix table is built before the
   * lookup, and every entry reads `event["resource"]`, so an event without a
   * resource fails even when its id has no entry; a list or dictionary id
   * then cannot be looked up.
   */
  function MockExecuteAsWritten(event: Json, analysis: Json, now: string): (r: Result<Json, string>)
    ensures Field(event, "resource").None? ==> r == Err("resource")
    ensures Field(event, "resource").Some? && Field(event, "id").Some? && !Hashable(Field(event, "id").value) ==>
              r == Err("TypeError")
    ensures r.Ok? <==> Field(event, "resource").Some? && Field(event, "id").Some? && Hashable(Field(event, "id").value)
  {
    match Field(event, "resource")
    case None => Err("resource")
    case Some(resource) =>
      match Field(event, "id")
      case None => Err("id")
      case Some(eventId) =>
        if !Hashable(eventId) then Err("TypeError")
        else Ok(Executed(eventId, now, Selected(event, analysis, resource)))
  }

  /**
   * `_mock_execute` with the table entry built only once selected, so the
   * generic fix's `"unknown"` resource default can take effect. A list or
   * dictionary id still cannot be looked up.
   */
  function MockExecute(event: Json, analysis: Json, now: string): (r: Result<Json, string>)
    ensures r.Ok? <==> && Field(event, "id").Some? && Hashable(Field(event, "id").value)
                       && (Field(event, "resource").Some? || !HasFix(Field(event, "id").value))
    ensures Field(event, "id").Some? && !Hashable(Field(event, "id").value) ==> r == Err("TypeError")
    ensures r.Err? ==> r.error == "id" || r.error == "resource" || r.error == "TypeError"
  {
    match Field(event, "id")
    case None => Err("id")
    case Some(eventId) =>
      if !Hashable(eventId) then Err("TypeError")
      else match eventId
      case JStr(id) =>
        (match FixTable(id)
         case Some(f) =>
           (match Field(event, "resource")
            case None => Err("resource")
            case Some(resource) => Ok(Executed(eventId, now, FixFields(f.actionType, JStr(f.command), resource, f.steps, f.duration))))
         case None => Ok(Executed(eventId, now, GenericFix(event, analysis))))
      case _ => Ok(Executed(eventId, now, GenericFix(event, analysis)))
  }

  /** `_live_execute` delegates to the scripted path. */
  function LiveExecute(event: Json, analysis: Json, now: string): Result<Json, string> {
    MockExecute(event, analysis, now)
  }

  /** `ActAgent.execute`. */
  function Execute(useMock: bool, event: Json, analysis: Json, now: string): (r: Result<Json, string>)
    requires Printable(ActionOf(analysis))
    ensures ActionOf(analysis) != JStr("auto_fix") ==>
              (r.Ok? <==> Field(event, "id").Some?)
              && (r.Ok? ==> r.value == JObj([("executed", JBool(false)), ("reason", JStr(SkipReason(ActionOf(analysis)))),
                                             ("event_id", Field(event, "id").value)]))
    ensures ActionOf(analysis) == JStr("auto_fix") ==> r == MockExecute(event, analysis, now)
  {
    var action := ActionOf(analysis);
    if action != JStr("auto_fix") then
      match Field(event, "id")
      case None => Err("id")
      case Some(eventId) => Ok(JObj([("executed", JBool(false)), ("reason", JStr(SkipReason(action))), ("event_id", eventId)]))
    else if useMock then MockExecute(event, analysis, now)
    else LiveExecute(event, analysis, now)
  }

  /** The mode flag does not change what execution returns. */
  lemma ModeIrrelevant(event: Json, analysis: Json, now: string)
    requires Printable(ActionOf(analysis))
    ensures Execute(true, event, analysis, now) == Execute(false, event, analysis, now)
  {
  }

  /** A successful execution says it executed, names the event, and carries a successful fix record. */
  lemma ExecutedShape(event: Json, analysis: Json, now: string)
    requires MockExecute(event, analysis, now).Ok?
    ensures var log := MockExecute(event, analysis, now).value;
      && log.JObj? && |log.fields| == 9
      && log.fields[0] == ("executed", JBool(true))
      && log.fields[1] == ("event_id", Field(event, "id").value)
      && log.fields[2] == ("timestamp", JStr(now))
      && log.fields[7] == ("success", JBool(true))
  {
    var eventId := Field(event, "id").value;
    if eventId.JStr? && FixTable(eventId.s).Some? {
      var f := FixTable(eventId.s).value;
      var resource := Field(event, "resource").value;
      assert MockExecute(event, analysis, now)
          == Ok(Executed(eventId, now, FixFields(f.actionType, JStr(f.command), resource, f.steps, f.duration)));
      FixShape(eventId, now, f.actionType, JStr(f.command), resource, f.steps, f.duration);
    } else {
      assert MockExecute(event, analysis, now) == Ok(Executed(eventId, now, GenericFix(event, analysis)));
      FixShape(eventId, now, "generic_remediation", Field(analysis, "fix_description").GetOr(JStr("Manual action")),
               Field(event, "resource").GetOr(JStr("unknown")), GenericSteps, 2.0);
    }
  }

  /** The layout of an execution log around any fix. */
  lemma FixShape(eventId: Json, now: string, actionType: string, command: Json, resource: Json, steps: seq<string>,
                 duration: real)
    ensures var log := Executed(eventId, now, FixFields(actionType, command, resource, steps, duration));
      && log.JObj? && |log.fields| == 9
      && log.fields[0] == ("executed", JBool(true))
      && log.fields[1] == ("event_id", eventId)
      && log.fields[2] == ("timestamp", JStr(now))
      && log.fields[7] == ("success", JBool(true))
  {
  }

  /** An alarm with a table entry gets that entry's action, command, steps and duration, with the event's resource. */
  lemma KnownFix(event: Json, analysis: Json, now: string, id: string)
    requires Field(event, "id") == Some(JStr(id)) && FixTable(id).Some? && Field(event, "resource").Some?
    ensures var f := FixTable(id).value;
      MockExecute(event, analysis, now)
      == Ok(Executed(JStr(id), now, FixFields(f.actionType, JStr(f.command), Field(event, "resource").value, f.steps, f.duration)))
  {
  }

  /**
   * Any other alarm gets the generic fix: two steps, 2.0 seconds, the
   * analysis's fix description or `Manual action`, the resource or `unknown`.
   */
  lemma GenericFixFor(event: Json, analysis: Json, now: string)
    requires Field(event, "id").Some? && Hashable(Field(event, "id").value)
    requires !(Field(event, "id").value.JStr? && FixTable(Field(event, "id").value.s).Some?)
    ensures var log := MockExecute(event, analysis, now);
      && log.Ok?
      && log.value.fields[3..] == [("action_type", JStr("generic_remediation")),
                                   ("command", Field(analysis, "fix_description").GetOr(JStr("Manual action"))),
                                   ("resource", Field(event, "resource").GetOr(JStr("unknown"))),
                                   ("steps", Strings(GenericSteps)), ("success", JBool(true)), ("duration_seconds", JFloat(2.0))]
      && |GenericSteps| == 2
  {
  }

  /** Wherever the code as written succeeds, the corrected lookup gives the same log. */
  lemma CorrectedAgrees(event: Json, analysis: Json, now: string)
    requires MockExecuteAsWritten(event, analysis, now).Ok?
    ensures MockExecute(event, analysis, now) == MockExecuteAsWritten(event, analysis, now)
  {
  }

  /** An event with no table entry and no resource: the code as written fails, the corrected one logs `unknown`. */
  lemma MissingResourceCounterexample()
    ensures var event := JObj([("id", JStr("alarm-009"))]);
      var analysis := JObj([("recommended_action", JStr("auto_fix"))]);
      && MockExecuteAsWritten(event, analysis, "t") == Err("resource")
      && MockExecute(event, analysis, "t").Ok?
      && MockExecute(event, analysis, "t").value.fields[5] == ("resource", JStr("unknown"))
  {
    var event := JObj([("id", JStr("alarm-009"))]);
    assert Get(event.fields, "resource") == Get(event.fields[1..], "resource");
  }
}
