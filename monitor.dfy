/**
 * The monitor agent: the scripted alarms ordered by severity (critical,
 * high, medium, low, anything else last), or the live CloudWatch alarms
 * turned into events, falling back to the scripted ones on any failure.
 *
 * `sorted` is modelled as a stable insertion sort keyed by the severity
 * rank; the clock is a parameter giving the ISO text of "n minutes ago".
 */
module Monitor {
  import opened Wrappers
  import opened Text
  import opened Json
  import opened PyDict

  // ---------------------------------------------------------------------------
  // Severity ranks
  // ---------------------------------------------------------------------------

  /** `severity_order.get(severity, 9)`. */
  function SeverityRank(severity: Json): (r: nat)
    ensures r <= 3 <==> severity in {JStr("critical"), JStr("high"), JStr("medium"), JStr("low")}
  {
    if severity == JStr("critical") then 0
    else if severity == JStr("high") then 1
    else if severity == JStr("medium") then 2
    else if severity == JStr("low") then 3
    else 9
  }

  /** `e["severity"]` exists and is hashable, so the sort key can be computed. */
  predicate Rankable(e: Json) {
    var sev := Field(e, "severity");
    sev.Some? && !sev.value.JArr? && !sev.value.JObj?
  }

  function Rank(e: Json): nat
    requires Rankable(e)
  {
    SeverityRank(Field(e, "severity").value)
  }

  predicate AllRankable(s: seq<Json>) {
    forall k :: 0 <= k < |s| ==> Rankable(s[k])
  }

  predicate SortedByRank(s: seq<Json>)
    requires AllRankable(s)
  {
    forall i, j :: 0 <= i < j < |s| ==> Rank(s[i]) <= Rank(s[j])
  }

  /** The events of one rank, in their order. */
  function OfRank(s: seq<Json>, r: nat): (t: seq<Json>)
    requires AllRankable(s)
    ensures |t| <= |s|
  {
    if s == [] then []
    else (if Rank(s[0]) == r then [s[0]] else []) + OfRank(s[1..], r)
  }

  // ---------------------------------------------------------------------------
  // The stable sort
  // ---------------------------------------------------------------------------

  /** Puts `x` before the first element of rank at least its own. */
  function Insert(x: Json, s: seq<Json>): (t: seq<Json>)
    requires Rankable(x) && AllRankable(s)
    ensures |t| == |s| + 1 && AllRankable(t)
    ensures multiset(t) == multiset(s) + multiset{x}
  {
    if s == [] || Rank(x) <= Rank(s[0]) then [x] + s
    else
      assert s == [s[0]] + s[1..];
      [s[0]] + Insert(x, s[1..])
  }

  /** `sorted(events, key=lambda e: severity_order.get(e["severity"], 9))`. */
  function SortBySeverity(s: seq<Json>): (t: seq<Json>)
    requires AllRankable(s)
    ensures |t| == |s| && AllRankable(t)
    ensures multiset(t) == multiset(s)
  {
    if s == [] then []
    else
      assert s == [s[0]] + s[1..];
      Insert(s[0], SortBySeverity(s[1..]))
  }

  lemma {:induction false} InsertSorted(x: Json, s: seq<Json>)
    requires Rankable(x) && AllRankable(s) && SortedByRank(s)
    ensures SortedByRank(Insert(x, s))
  {
    if s != [] && Rank(x) > Rank(s[0]) {
      assert SortedByRank(s[1..]) by {
        forall i, j | 0 <= i < j < |s[1..]| ensures Rank(s[1..][i]) <= Rank(s[1..][j]) {
          assert s[1..][i] == s[i + 1] && s[1..][j] == s[j + 1];
        }
      }
      InsertSorted(x, s[1..]);
      var t := Insert(x, s[1..]);
      assert Insert(x, s) == [s[0]] + t;
      assert AtLeast(s[1..], Rank(s[0])) by {
        forall k | 0 <= k < |s[1..]| ensures Rank(s[0]) <= Rank(s[1..][k]) {
          assert s[1..][k] == s[k + 1];
        }
      }
      InsertAtLeast(x, s[1..], Rank(s[0]));
    }
  }

  /** Every event has rank at least `lo`. */
  predicate AtLeast(s: seq<Json>, lo: nat)
    requires AllRankable(s)
  {
    forall k :: 0 <= k < |s| ==> lo <= Rank(s[k])
  }

  /** Inserting an event of rank at least `lo` keeps every rank at least `lo`. */
  lemma {:induction false} InsertAtLeast(x: Json, s: seq<Json>, lo: nat)
    requires Rankable(x) && AllRankable(s) && lo <= Rank(x) && AtLeast(s, lo)
    ensures AtLeast(Insert(x, s), lo)
  {
    if s != [] && Rank(x) > Rank(s[0]) {
      assert AtLeast(s[1..], lo) by {
        forall k | 0 <= k < |s[1..]| ensures lo <= Rank(s[1..][k]) {
          assert s[1..][k] == s[k + 1];
        }
      }
      InsertAtLeast(x, s[1..], lo);
      assert Insert(x, s) == [s[0]] + Insert(x, s[1..]);
    }
  }

  /** The result is ordered critical, high, medium, low, then everything else. */
  lemma {:induction false} SortedResult(s: seq<Json>)
    requires AllRankable(s)
    ensures SortedByRank(SortBySeverity(s))
  {
    if s != [] {
      SortedResult(s[1..]);
      InsertSorted(s[0], SortBySeverity(s[1..]));
    }
  }

  /** Inserting does not reorder the events of any one rank. */
  lemma {:induction false} InsertStable(x: Json, s: seq<Json>, r: nat)
    requires Rankable(x) && AllRankable(s)
    ensures AllRankable([x] + s) && OfRank(Insert(x, s), r) == OfRank([x] + s, r)
  {
    assert ([x] + s)[1..] == s;
    if s != [] && Rank(x) > Rank(s[0]) {
      var hx := if Rank(x) == r then [x] else [];
      var h0 := if Rank(s[0]) == r then [s[0]] else [];
      var t := Insert(x, s[1..]);
      assert Insert(x, s) == [s[0]] + t;
      assert hx == [] || h0 == [];
      calc {
        OfRank(Insert(x, s), r);
      ==  { OfRankCons(s[0], t, r); }
        h0 + OfRank(t, r);
      ==  { InsertStable(x, s[1..], r); OfRankCons(x, s[1..], r); }
        h0 + (hx + OfRank(s[1..], r));
      ==  { assert h0 + hx == hx + h0; }
        hx + (h0 + OfRank(s[1..], r));
      ==  { OfRankCons(s[0], s[1..], r); assert s == [s[0]] + s[1..]; }
        hx + OfRank(s, r);
      ==  { OfRankCons(x, s, r); }
        OfRank([x] + s, r);
      }
    }
  }

  /** The events of one rank in a list with a first element. */
  lemma OfRankCons(y: Json, t: seq<Json>, r: nat)
    requires Rankable(y) && AllRankable(t)
    ensures AllRankable([y] + t)
    ensures OfRank([y] + t, r) == (if Rank(y) == r then [y] else []) + OfRank(t, r)
  {
    assert ([y] + t)[1..] == t;
  }

  /** The sort is stable: the events of each rank keep their original relative order. */
  lemma {:induction false} SortStable(s: seq<Json>, r: nat)
    requires AllRankable(s)
    ensures OfRank(SortBySeverity(s), r) == OfRank(s, r)
  {
    if s != [] {
      SortStable(s[1..], r);
      InsertStable(s[0], SortBySeverity(s[1..]), r);
      assert ([s[0]] + SortBySeverity(s[1..]))[1..] == SortBySeverity(s[1..]);
    }
  }

  /** Events already in severity order are returned as they are. */
  lemma {:induction false} SortKeepsSorted(s: seq<Json>)
    requires AllRankable(s) && SortedByRank(s)
    ensures SortBySeverity(s) == s
  {
    if s != [] {
      assert SortedByRank(s[1..]) by {
        forall i, j | 0 <= i < j < |s[1..]| ensures Rank(s[1..][i]) <= Rank(s[1..][j]) {
          assert s[1..][i] == s[i + 1] && s[1..][j] == s[j + 1];
        }
      }
      SortKeepsSorted(s[1..]);
      assert s == [s[0]] + s[1..];
    }
  }

  // ---------------------------------------------------------------------------
  // The scripted alarms
  // ---------------------------------------------------------------------------

  function Alarm(id: string, source: string, severity: string, service: string, metric: string, value: Json,
                 threshold: Json, region: string, resource: string, message: string, timestamp: string): (r: Json)
    ensures Field(r, "severity") == Some(JStr(severity))
  {
    var fields := [("id", JStr(id)), ("source", JStr(source)), ("severity", JStr(severity)), ("service", JStr(service)),
                   ("metric", JStr(metric)), ("value", value), ("threshold", threshold), ("region", JStr(region)),
                   ("resource", JStr(resource)), ("message", JStr(message)), ("timestamp", JStr(timestamp))];
    GetSkip(fields, "severity", 2);
    JObj(fields)
  }

  const MockSeverities: seq<string> := ["critical", "high", "high", "medium", "medium"]

  /** The scripted alarms' messages. */
  const CpuMessage: string := "CPU utilization at 94.7% — sustained for 15 minutes"
  const SpendMessage: string := "RDS daily spend $847.50 — 112% above 30-day baseline"
  const BucketMessage: string := "S3 bucket has public read ACL — PCI-DSS violation detected"
  const ErrorRateMessage: string := "Lambda error rate 12.3% — upstream DynamoDB throttling detected"
  const ComputeMessage: string := "EKS compute cost spike — 3 oversized node groups detected"

  /** `MOCK_ALARMS`, with `ago(n)` the ISO text of the time `n` minutes before import. */
  function MockAlarms(ago: nat -> string): (r: seq<Json>)
    ensures |r| == 5
    ensures forall k :: 0 <= k < 5 ==> Field(r[k], "severity") == Some(JStr(MockSeverities[k]))
  {
    var a1 := Alarm("alarm-001", "cloudwatch", "critical", "EC2", "CPUUtilization", JFloat(94.7), JFloat(80.0), "us-east-1",
                    "i-0a1b2c3d4e5f", CpuMessage, ago(3) + "Z");
    var a2 := Alarm("alarm-002", "cost_explorer", "high", "RDS", "DailySpend", JFloat(847.50), JFloat(400.0), "us-east-1",
                    "db-prod-postgres", SpendMessage, ago(12) + "Z");
    var a3 := Alarm("alarm-003", "security_hub", "high", "S3", "PublicAccessViolation", JInt(1), JInt(0), "us-east-1",
                    "s3://prod-data-lake-exports", BucketMessage, ago(7) + "Z");
    var a4 := Alarm("alarm-004", "cloudwatch", "medium", "Lambda", "ErrorRate", JFloat(12.3), JFloat(5.0), "us-west-2",
                    "fn-order-processor", ErrorRateMessage, ago(1) + "Z");
    var a5 := Alarm("alarm-005", "cost_explorer", "medium", "EKS", "ComputeCost", JFloat(1240.00), JFloat(900.0), "us-east-1",
                    "cluster-prod-k8s", ComputeMessage, ago(25) + "Z");
    [a1, a2, a3, a4, a5]
  }

  lemma MockAlarmsRankable(ago: nat -> string)
    ensures AllRankable(MockAlarms(ago))
  {
    var alarms := MockAlarms(ago);
    assert forall k :: 0 <= k < 5 ==> Field(alarms[k], "severity") == Some(JStr(MockSeverities[k]));
  }

  /** `_mock_events`. */
  function MockEvents(ago: nat -> string): (r: seq<Json>)
    ensures |r| == 5
  {
    MockAlarmsRankable(ago);
    SortBySeverity(MockAlarms(ago))
  }

  /** The scripted alarms are already in severity order, so `_mock_events` returns them unchanged. */
  lemma MockEventsUnchanged(ago: nat -> string)
    ensures MockEvents(ago) == MockAlarms(ago)
  {
    var alarms := MockAlarms(ago);
    MockAlarmsRankable(ago);
    assert SortedByRank(alarms) by {
      forall i, j | 0 <= i < j < 5 ensures Rank(alarms[i]) <= Rank(alarms[j]) {
        assert Field(alarms[i], "severity") == Some(JStr(MockSeverities[i]));
        assert Field(alarms[j], "severity") == Some(JStr(MockSeverities[j]));
      }
    }
    SortKeepsSorted(alarms);
  }

  // ---------------------------------------------------------------------------
  // The live path
  // ---------------------------------------------------------------------------

  /** `alarm.get("Namespace", "AWS").split("/")[-1]`; a non-string namespace fails. */
  function ServiceOf(alarm: Json): (r: Option<string>)
    ensures Field(alarm, "Namespace").None? ==> r == Some("AWS")
    ensures r.Some? ==> !Contains(r.value, "/")
    ensures match Field(alarm, "Namespace")
            case Some(JStr(ns)) => r.Some? && EndsWith(ns, r.value) && (!Contains(ns, "/") ==> r.value == ns)
            case Some(_) => r.None?
            case None => true
  {
    MissingChar("AWS", '/');
    match Field(alarm, "Namespace").GetOr(JStr("AWS"))
    case JStr(ns) => Some(LastPiece(ns, "/"))
    case _ => None
  }

  /** The event `_live_events` builds from the fields it read of one alarm. */
  function LiveRecord(id: Json, service: string, metric: Json, value: Json, threshold: Json, resource: Json,
                      message: Json, stamp: string): Json {
    JObj([("id", id), ("source", JStr("cloudwatch")), ("severity", JStr("high")), ("service", JStr(service)),
          ("metric", metric), ("value", value), ("threshold", threshold), ("region", JStr("us-east-1")),
          ("resource", resource), ("message", message), ("timestamp", JStr(stamp + "Z"))])
  }

  /** One live event; `None` where the code would raise (a missing ARN, a non-string namespace or timestamp). */
  function LiveEvent(alarm: Json, now: string): Option<Json> {
    var arn := Field(alarm, "AlarmArn");
    var service := ServiceOf(alarm);
    var stamp := Field(alarm, "StateUpdatedTimestamp").GetOr(JStr(now));
    if arn.None? || service.None? || !stamp.JStr? then None
    else
      Some(LiveRecord(arn.value, service.value, Field(alarm, "MetricName").GetOr(JStr("Unknown")),
                      Field(alarm, "StateValue").GetOr(JInt(0)), Field(alarm, "Threshold").GetOr(JInt(0)),
                      Field(alarm, "AlarmName").GetOr(JStr("")), Field(alarm, "StateReason").GetOr(JStr("")), stamp.s))
  }

  predicate AllConvert(alarms: seq<Json>, now: string) {
    forall k :: 0 <= k < |alarms| ==> LiveEvent(alarms[k], now).Some?
  }

  /** The conversion loop of `_live_events`; `None` as soon as one alarm fails to convert. */
  method ConvertAll(alarms: seq<Json>, now: string) returns (out: Option<seq<Json>>)
    ensures out.Some? <==> AllConvert(alarms, now)
    ensures out.Some? ==> |out.value| == |alarms|
                          && forall k :: 0 <= k < |alarms| ==> Some(out.value[k]) == LiveEvent(alarms[k], now)
  {
    var events: seq<Json> := [];
    var i := 0;
    while i < |alarms|
      invariant 0 <= i <= |alarms| && |events| == i
      invariant forall k :: 0 <= k < i ==> Some(events[k]) == LiveEvent(alarms[k], now)
    {
      var e := LiveEvent(alarms[i], now);
      if e.None? {
        out := None;
        return;
      }
      events := events + [e.value];
      i := i + 1;
    }
    out := Some(events);
  }

  /**
   * `_live_events`: `alarms` are the alarms in state ALARM across all pages,
   * or `None` when the cloud call fails; any failure gives the scripted events.
   */
  method LiveEvents(alarms: Option<seq<Json>>, now: string, ago: nat -> string) returns (events: seq<Json>)
    ensures alarms.Some? && AllConvert(alarms.value, now) ==>
              |events| == |alarms.value|
              && forall k :: 0 <= k < |events| ==> Some(events[k]) == LiveEvent(alarms.value[k], now)
    ensures !(alarms.Some? && AllConvert(alarms.value, now)) ==> events == MockEvents(ago)
  {
    if alarms.None? {
      return MockEvents(ago);
    }
    var converted := ConvertAll(alarms.value, now);
    if converted.None? {
      return MockEvents(ago);
    }
    return converted.value;
  }

  /** `MonitorAgent.collect`: scripted events in mock mode, the live path otherwise. */
  method Collect(useMock: bool, alarms: Option<seq<Json>>, now: string, ago: nat -> string) returns (events: seq<Json>)
    ensures useMock ==> events == MockAlarms(ago)
    ensures !useMock && alarms.Some? && AllConvert(alarms.value, now) ==>
              && |events| == |alarms.value|
              && (forall k :: 0 <= k < |events| ==> Some(events[k]) == LiveEvent(alarms.value[k], now))
              && forall k :: 0 <= k < |events| ==> Field(events[k], "severity") == Some(JStr("high"))
    ensures !useMock && !(alarms.Some? && AllConvert(alarms.value, now)) ==> events == MockEvents(ago)
  {
    if useMock {
      MockEventsUnchanged(ago);
      return MockEvents(ago);
    }
    events := LiveEvents(alarms, now, ago);
    if alarms.Some? && AllConvert(alarms.value, now) {
      forall k | 0 <= k < |events| ensures Field(events[k], "severity") == Some(JStr("high")) {
        LiveSeverity(alarms.value[k], now);
      }
    }
  }

  /** Every live event is reported with severity `high`. */
  lemma LiveSeverity(alarm: Json, now: string)
    requires LiveEvent(alarm, now).Some?
    ensures Field(LiveEvent(alarm, now).value, "severity") == Some(JStr("high"))
  {
    var stamp := Field(alarm, "StateUpdatedTimestamp").GetOr(JStr(now));
    LiveRecordSeverity(Field(alarm, "AlarmArn").value, ServiceOf(alarm).value, Field(alarm, "MetricName").GetOr(JStr("Unknown")),
                       Field(alarm, "StateValue").GetOr(JInt(0)), Field(alarm, "Threshold").GetOr(JInt(0)),
                       Field(alarm, "AlarmName").GetOr(JStr("")), Field(alarm, "StateReason").GetOr(JStr("")), stamp.s);
  }

  lemma LiveRecordSeverity(id: Json, service: string, metric: Json, value: Json, threshold: Json, resource: Json,
                           message: Json, stamp: string)
    ensures Field(LiveRecord(id, service, metric, value, threshold, resource, message, stamp), "severity") == Some(JStr("high"))
  {
    GetSkip(LiveRecord(id, service, metric, value, threshold, resource, message, stamp).fields, "severity", 2);
  }
}
