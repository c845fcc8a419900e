/**
 * The act agent of the incident pipeline: only auto-remediable incidents are
 * considered; the model's reply is used when it parses, and otherwise the
 * three playbooks are dispatched directly, one remediation per incident
 * whose action has a playbook and which names a resource.
 *
 * The model call, the JSON parser and the clock are parameters. A playbook's
 * live cloud call is an outcome parameter; in demo mode the playbooks return
 * their scripted audit records. Playbook results are modelled as the records
 * themselves, since parsing what `json.dumps` printed gives them back.
 */
module ActAgent {
  import opened Wrappers
  import opened Text
  import opened Json
  import opened PyDict

  /**
   * What a playbook's live cloud calls did: they succeeded, failed inside the
   * playbook's `try` with the exception's text, or raised outside it
   * (`import boto3` and creating the client come before the `try`).
   */
  datatype Cloud = Succeeded | Failed(error: string) | Raised(error: string)

  function FailedRecord(error: string): Json {
    JObj([("status", JStr("FAILED")), ("error", JStr(error))])
  }

  /** `playbook_ec2_rightsize`; an exception raised outside its `try` is an `Err`. */
  function Ec2Rightsize(demo: bool, instanceId: string, targetType: string, now: string, cloud: Cloud): Result<Json, string> {
    if demo then
      Ok(JObj([("action", JStr("EC2_RIGHTSIZE")), ("instance_id", JStr(instanceId)), ("from_type", JStr("m5.2xlarge")),
               ("to_type", JStr(targetType)),
               ("steps", Strings(["[DEMO] Stopped instance " + instanceId,
                                  "[DEMO] Modified instance type: m5.2xlarge → " + targetType,
                                  "[DEMO] Started instance " + instanceId,
                                  "[DEMO] Instance running with new type"])),
               ("status", JStr("SUCCESS")), ("executed_at", JStr(now)), ("estimated_monthly_savings_usd", JFloat(166.57))]))
    else
      match cloud
      case Succeeded => Ok(JObj([("status", JStr("SUCCESS")), ("instance_id", JStr(instanceId)), ("new_type", JStr(targetType))]))
      case Failed(e) => Ok(FailedRecord(e))
      case Raised(e) => Err(e)
  }

  /** `playbook_s3_revoke_public`; an exception raised outside its `try` is an `Err`. */
  function S3RevokePublic(demo: bool, bucket: string, now: string, cloud: Cloud): Result<Json, string> {
    if demo then
      Ok(JObj([("action", JStr("S3_REVOKE_PUBLIC")), ("bucket_name", JStr(bucket)),
               ("steps", Strings(["[DEMO] Enabled BlockPublicAcls on " + bucket,
                                  "[DEMO] Enabled BlockPublicPolicy on " + bucket,
                                  "[DEMO] Enabled IgnorePublicAcls on " + bucket,
                                  "[DEMO] Enabled RestrictPublicBuckets on " + bucket,
                                  "[DEMO] Set bucket ACL to private on " + bucket])),
               ("status", JStr("SUCCESS")), ("executed_at", JStr(now)),
               ("security_improvement", JStr("Bucket is now private — public access fully blocked"))]))
    else
      match cloud
      case Succeeded => Ok(JObj([("status", JStr("SUCCESS")), ("bucket", JStr(bucket)), ("access", JStr("private"))]))
      case Failed(e) => Ok(FailedRecord(e))
      case Raised(e) => Err(e)
  }

  /** The tags applied when the requested tags do not decode. */
  const DefaultTags: Dict := [("cost-center", JStr("unassigned")), ("owner", JStr("platform-team"))]

  /** `json.loads(tags)`, falling back to the default tags on a decode error. */
  function TagsOf(decoded: Option<Dict>): (d: Dict)
    ensures decoded.None? ==> d == DefaultTags
    ensures decoded.Some? ==> d == decoded.value
  {
    decoded.GetOr(DefaultTags)
  }

  /** Python's `repr` of a string-valued dictionary, quoting with single quotes. */
  function ReprTags(d: Dict): string {
    "{" + Join(", ", seq(|d|, k requires 0 <= k < |d| =>
                            "'" + d[k].0 + "': " + (if d[k].1.JStr? then "'" + d[k].1.s + "'" else "…"))) + "}"
  }

  /**
   * `playbook_tag_resources`; the tags arrive decoded, or `None` when they did
   * not decode. The live `create_tags` call has no `try`, so any failure of
   * it is an `Err`.
   */
  function TagResources(demo: bool, resourceId: string, resourceType: string, decoded: Option<Dict>, now: string,
                        cloud: Cloud): Result<Json, string> {
    var tags := TagsOf(decoded);
    if demo then
      Ok(JObj([("action", JStr("TAG_RESOURCES")), ("resource_id", JStr(resourceId)), ("resource_type", JStr(resourceType)),
               ("tags_applied", JObj(tags)),
               ("steps", Strings(["[DEMO] Applied " + NatToDecimal(|tags|) + " tags to " + resourceId,
                                  "[DEMO] Tags: " + ReprTags(tags)])),
               ("status", JStr("SUCCESS")), ("executed_at", JStr(now))]))
    else if resourceType == "EC2" && !cloud.Succeeded? then Err(cloud.error)
    else Ok(JObj([("status", JStr("SUCCESS")), ("resource_id", JStr(resourceId)), ("tags", JObj(tags))]))
  }

  /** Tags that do not decode are replaced by cost-center `unassigned` and owner `platform-team`. */
  lemma UndecodableTagsDefault(demo: bool, resourceId: string, resourceType: string, now: string, cloud: Cloud)
    ensures var r := TagResources(demo, resourceId, resourceType, None, now, cloud);
      demo ==> r.Ok? && Field(r.value, "tags_applied") == Some(JObj([("cost-center", JStr("unassigned")), ("owner", JStr("platform-team"))]))
  {
    var r := TagResources(demo, resourceId, resourceType, None, now, cloud);
    if demo {
      GetSkip(r.value.fields, "tags_applied", 3);
    }
  }

  /** `resource.split(":::")[-1] if ":::" in resource else resource`. */
  function BucketOf(resource: string): (b: string)
    ensures EndsWith(resource, b) && !Contains(b, ":::")
    ensures !Contains(resource, ":::") ==> b == resource
  {
    if Contains(resource, ":::") then LastPiece(resource, ":::") else resource
  }

  // ---------------------------------------------------------------------------
  // The agent
  // ---------------------------------------------------------------------------

  /** `i.get("auto_remediable")` is truthy. */
  predicate Eligible(inc: Json) {
    PyTruthy(Field(inc, "auto_remediable").GetOr(JNull))
  }

  /** `[i for i in incidents if i.get("auto_remediable")]`. */
  function AutoIncidents(incs: seq<Json>): (r: seq<Json>)
    ensures |r| <= |incs|
    ensures forall k :: 0 <= k < |r| ==> Eligible(r[k])
  {
    if incs == [] then []
    else (if Eligible(incs[0]) then [incs[0]] else []) + AutoIncidents(incs[1..])
  }

  /** The eligible incidents are exactly the ones with a truthy `auto_remediable`. */
  lemma {:induction false} AutoIncidentsMembers(incs: seq<Json>, x: Json)
    ensures x in AutoIncidents(incs) <==> x in incs && Eligible(x)
  {
    if incs != [] {
      AutoIncidentsMembers(incs[1..], x);
      assert incs == [incs[0]] + incs[1..];
    }
  }

  /** The resource list is read only when truthy; its first entry must then be a string. */
  predicate Dispatchable(inc: Json) {
    var resources := Field(inc, "affected_resources").GetOr(JArr([]));
    PyTruthy(resources) ==> resources.JArr? && resources.items[0].JStr?
  }

  /** The three actions that have a playbook. */
  const Playbooks: set<Option<Json>> := {Some(JStr("EC2_RIGHTSIZE")), Some(JStr("S3_REVOKE_PUBLIC")), Some(JStr("TAG_RESOURCES"))}

  /**
   * What the fallback loop does with one incident: a remediation record,
   * `continue` (`None`), or an exception a playbook raised (`Err`).
   */
  function Remediate(inc: Json, demo: bool, cloud: Cloud, now: string): Result<Option<Json>, string>
    requires Dispatchable(inc)
  {
    var action := Field(inc, "recommended_action");
    var resources := Field(inc, "affected_resources").GetOr(JArr([]));
    if !PyTruthy(resources) then Ok(None)
    else
      var resource := resources.items[0].s;
      var result: Option<Result<Json, string>> :=
        if action == Some(JStr("EC2_RIGHTSIZE")) then Some(Ec2Rightsize(demo, resource, "t3.small", now, cloud))
        else if action == Some(JStr("S3_REVOKE_PUBLIC")) then Some(S3RevokePublic(demo, BucketOf(resource), now, cloud))
        else if action == Some(JStr("TAG_RESOURCES")) then Some(TagResources(demo, resource, "EC2", Some(DefaultTags), now, cloud))
        else None;
      match result
      case None => Ok(None)
      case Some(Err(e)) => Err(e)
      case Some(Ok(res)) =>
        Ok(Some(JObj([("incident_id", Field(inc, "incident_id").GetOr(JNull)), ("action", action.GetOr(JNull)),
                      ("result", res)])))
  }

  /**
   * A playbook runs exactly when the resource list is truthy and the action
   * has a playbook. It raises only live, when the cloud call raised outside
   * its `try` or the tagging call failed at all; otherwise it gives a record
   * naming the incident id and the action first.
   */
  lemma RemediateWhen(inc: Json, demo: bool, cloud: Cloud, now: string)
    requires Dispatchable(inc)
    ensures var r := Remediate(inc, demo, cloud, now);
      var action := Field(inc, "recommended_action");
      var runs := PyTruthy(Field(inc, "affected_resources").GetOr(JArr([]))) && action in Playbooks;
      && (r.Err? <==> runs && !demo && (cloud.Raised? || (cloud.Failed? && action == Some(JStr("TAG_RESOURCES")))))
      && (r.Ok? ==> (r.value.Some? <==> runs))
      && (r.Ok? && r.value.Some? ==> && r.value.value.JObj? && |r.value.value.fields| == 3
                                     && r.value.value.fields[0] == ("incident_id", Field(inc, "incident_id").GetOr(JNull))
                                     && r.value.value.fields[1] == ("action", action.value))
  {
  }

  predicate AllDispatchable(incs: seq<Json>) {
    forall k :: 0 <= k < |incs| ==> Dispatchable(incs[k])
  }

  /** The playbook outcome of each incident in turn; `cloud(from + k)` is what the cloud did for `incs[k]`. */
  function Steps(incs: seq<Json>, demo: bool, cloud: nat -> Cloud, from: nat, now: string)
    : (r: seq<Result<Option<Json>, string>>)
    requires AllDispatchable(incs)
    ensures |r| == |incs| && forall k :: 0 <= k < |incs| ==> r[k] == Remediate(incs[k], demo, cloud(from + k), now)
  {
    seq(|incs|, k requires 0 <= k < |incs| => Remediate(incs[k], demo, cloud(from + k), now))
  }

  /** The loop over those outcomes: each record is appended, a `continue` skips, the first exception ends it. */
  function Collect(steps: seq<Result<Option<Json>, string>>): Result<seq<Json>, string> {
    if steps == [] then Ok([])
    else
      match Collect(steps[..|steps| - 1])
      case Err(e) => Err(e)
      case Ok(rs) =>
        match steps[|steps| - 1]
        case Err(e) => Err(e)
        case Ok(Some(r)) => Ok(rs + [r])
        case Ok(None) => Ok(rs)
  }

  /** The remediations the fallback loop appends, in input order. */
  function Remediations(incs: seq<Json>, demo: bool, cloud: nat -> Cloud, from: nat, now: string): Result<seq<Json>, string>
    requires AllDispatchable(incs)
  {
    Collect(Steps(incs, demo, cloud, from, now))
  }

  /** There are never more remediations than incidents. */
  lemma {:induction false} CollectAtMost(steps: seq<Result<Option<Json>, string>>)
    ensures Collect(steps).Ok? ==> |Collect(steps).value| <= |steps|
  {
    if steps != [] {
      CollectAtMost(steps[..|steps| - 1]);
    }
  }

  /** The loop raises exactly when some playbook raises, and then with the first such exception. */
  lemma {:induction false} CollectRaise(steps: seq<Result<Option<Json>, string>>)
    ensures Collect(steps).Err? <==> exists k :: 0 <= k < |steps| && steps[k].Err?
    ensures Collect(steps).Err? ==>
              exists k :: 0 <= k < |steps| && steps[k] == Err(Collect(steps).error) && forall m :: 0 <= m < k ==> steps[m].Ok?
  {
    if steps != [] {
      var n := |steps| - 1;
      var init := steps[..n];
      CollectRaise(init);
      assert forall m :: 0 <= m < n ==> steps[m] == init[m];
      if Collect(init).Err? {
        var k :| 0 <= k < n && init[k] == Err(Collect(init).error) && forall m :: 0 <= m < k ==> init[m].Ok?;
        assert steps[k] == init[k];
      } else if steps[n].Err? {
        assert forall m :: 0 <= m < n ==> steps[m].Ok?;
      }
    }
  }

  /** The first of two loop runs, then the second, stopping at the first exception. */
  function Chain(x: Result<seq<Json>, string>, y: Result<seq<Json>, string>): Result<seq<Json>, string> {
    match x
    case Err(e) => Err(e)
    case Ok(xs) =>
      match y
      case Err(e) => Err(e)
      case Ok(ys) => Ok(xs + ys)
  }

  /** Running the loop over two runs of outcomes is running it over each in turn. */
  lemma {:induction false} CollectAppend(x: seq<Result<Option<Json>, string>>, y: seq<Result<Option<Json>, string>>)
    ensures Collect(x + y) == Chain(Collect(x), Collect(y))
    decreases |y|
  {
    if y == [] {
      assert x + y == x;
      if Collect(x).Ok? {
        assert Collect(x).value + [] == Collect(x).value;
      }
    } else {
      var init := y[..|y| - 1];
      CollectAppend(x, init);
      assert (x + y)[..|x + y| - 1] == x + init;
      assert (x + y)[|x + y| - 1] == y[|y| - 1];
      if Collect(x).Ok? && Collect(init).Ok? && y[|y| - 1].Ok? && y[|y| - 1].value.Some? {
        assert Collect(x).value + (Collect(init).value + [y[|y| - 1].value.value])
            == (Collect(x).value + Collect(init).value) + [y[|y| - 1].value.value];
      }
    }
  }

  /** The iterations over a concatenation are those over each part, the second part seeing the later cloud outcomes. */
  lemma StepsAppend(a: seq<Json>, b: seq<Json>, demo: bool, cloud: nat -> Cloud, from: nat, now: string)
    requires AllDispatchable(a) && AllDispatchable(b)
    ensures AllDispatchable(a + b)
    ensures Steps(a + b, demo, cloud, from, now) == Steps(a, demo, cloud, from, now) + Steps(b, demo, cloud, from + |a|, now)
  {
    assert AllDispatchable(a + b) by {
      forall k | 0 <= k < |a + b| ensures Dispatchable((a + b)[k]) {
        if k < |a| { assert (a + b)[k] == a[k]; } else { assert (a + b)[k] == b[k - |a|]; }
      }
    }
    var sa := Steps(a, demo, cloud, from, now);
    var sb := Steps(b, demo, cloud, from + |a|, now);
    var s := Steps(a + b, demo, cloud, from, now);
    forall k | 0 <= k < |s| ensures s[k] == (sa + sb)[k] {
      if k >= |a| {
        assert (a + b)[k] == b[k - |a|] && from + k == from + |a| + (k - |a|);
      } else {
        assert (a + b)[k] == a[k];
      }
    }
  }

  /** Remediations keep input order: those of a concatenation are those of each part, in turn. */
  lemma RemediationsAppend(a: seq<Json>, b: seq<Json>, demo: bool, cloud: nat -> Cloud, from: nat, now: string)
    requires AllDispatchable(a) && AllDispatchable(b)
    ensures AllDispatchable(a + b)
    ensures Remediations(a + b, demo, cloud, from, now)
            == Chain(Remediations(a, demo, cloud, from, now), Remediations(b, demo, cloud, from + |a|, now))
  {
    StepsAppend(a, b, demo, cloud, from, now);
    CollectAppend(Steps(a, demo, cloud, from, now), Steps(b, demo, cloud, from + |a|, now));
  }

  /** The fallback loop of `run_act_agent`; `cloud(i)` is what the cloud did for the `i`-th eligible incident. */
  method Fallback(auto: seq<Json>, demo: bool, cloud: nat -> Cloud, now: string) returns (remediations: Result<seq<Json>, string>)
    requires AllDispatchable(auto)
    ensures remediations == Remediations(auto, demo, cloud, 0, now)
    ensures remediations.Ok? ==> |remediations.value| <= |auto|
  {
    ghost var steps := Steps(auto, demo, cloud, 0, now);
    var done: seq<Json> := [];
    var i := 0;
    while i < |auto|
      invariant 0 <= i <= |auto|
      invariant Collect(steps[..i]) == Ok(done)
    {
      assert steps[..i + 1][..i] == steps[..i];
      assert steps[i] == Remediate(auto[i], demo, cloud(i), now);
      match Remediate(auto[i], demo, cloud(i), now) {
        case Err(e) =>
          CollectAppend(steps[..i + 1], steps[i + 1..]);
          assert steps[..i + 1] + steps[i + 1..] == steps;
          return Err(e);
        case Ok(Some(r)) => done := done + [r];
        case Ok(None) =>
      }
      i := i + 1;
    }
    assert steps[..|auto|] == steps;
    CollectAtMost(steps);
    return Ok(done);
  }

  const NothingToDo: string := "No auto-remediable incidents — all require HITL approval"

  /**
   * `run_act_agent` given the model's reply: an incident that is not a
   * dictionary makes the filter raise; no eligible incident returns an empty
   * list and a message without calling the model; a parsed reply is returned
   * with the execution time; otherwise the fallback loop runs, and an
   * exception a playbook raises propagates.
   */
  method RunActAgent(incidents: seq<Json>, raw: string, parse: string -> Option<Json>, demo: bool, cloud: nat -> Cloud,
                     now: string) returns (r: Result<Json, string>)
    requires AllDispatchable(AutoIncidents(incidents))
    ensures (exists k :: 0 <= k < |incidents| && !incidents[k].JObj?) ==> r == Err("AttributeError")
    ensures (forall k :: 0 <= k < |incidents| ==> incidents[k].JObj?) ==>
              && (AutoIncidents(incidents) == [] ==>
                    r == Ok(JObj([("remediations", JArr([])), ("message", JStr(NothingToDo)), ("executed_at", JStr(now))])))
              && (AutoIncidents(incidents) != [] && BraceSpan(raw).Some? && parse(BraceSpan(raw).value).Some? ==>
                    var result := parse(BraceSpan(raw).value).value;
                    (result.JObj? ==> r == Ok(JObj(Set(result.fields, "executed_at", JStr(now)))))
                    && (!result.JObj? ==> r == Err("TypeError")))
              && (AutoIncidents(incidents) != [] && (BraceSpan(raw).None? || parse(BraceSpan(raw).value).None?) ==>
                    match Remediations(AutoIncidents(incidents), demo, cloud, 0, now)
                    case Ok(rems) => r == Ok(JObj([("remediations", JArr(rems)), ("executed_at", JStr(now))]))
                    case Err(e) => r == Err(e))
  {
    if exists k :: 0 <= k < |incidents| && !incidents[k].JObj? {
      return Err("AttributeError");
    }
    var auto := AutoIncidents(incidents);
    if auto == [] {
      return Ok(JObj([("remediations", JArr([])), ("message", JStr(NothingToDo)), ("executed_at", JStr(now))]));
    }
    var span := BraceSpan(raw);
    if span.Some? {
      var parsed := parse(span.value);
      if parsed.Some? {
        if !parsed.value.JObj? {
          return Err("TypeError");
        }
        return Ok(JObj(Set(parsed.value.fields, "executed_at", JStr(now))));
      }
    }
    var remediations := Fallback(auto, demo, cloud, now);
    if remediations.Err? {
      return Err(remediations.error);
    }
    return Ok(JObj([("remediations", JArr(remediations.value)), ("executed_at", JStr(now))]));
  }
}
