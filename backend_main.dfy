/**
 * The event-pipeline API server: CORS origin parsing, the
 * monitor-reason-act-escalate run with its counters and its 20-run history,
 * run lookup, escalation resolution, and the dashboard summary.
 *
 * Collected events, their analyses, timestamps and the run id's clock
 * reading are parameters.
 */
module BackendMain {
  import opened Wrappers
  import opened Http
  import opened Text
  import opened Json
  import opened PyDict
  import opened Escalate
  import Act

  const Model: string := "amazon.nova-pro-v1:0"
  const HistoryLimit: nat := 20
  const DefaultOrigins: string :=
    "https://nova-devops-copilot.vercel.app,https://frontend-delta-drab-85.vercel.app,http://localhost:3000"
  const ResolutionError: string := "resolution must be: approved | rejected | deferred"

  /** `USE_MOCK`: the variable lower-cased equals `true`; unset means `false`. */
  function UseMock(env: Option<string>): (b: bool)
    ensures b <==> env.Some? &&
                   (|env.value| == 4 && env.value[0] in "tT" && env.value[1] in "rR"
                    && env.value[2] in "uU" && env.value[3] in "eE")
  {
    LowerAscii(env.GetOr("false")) == "true"
  }

  function Mode(mock: bool): string {
    if mock then "mock" else "live"
  }

  // ---------------------------------------------------------------------------
  // ALLOWED_ORIGINS
  // ---------------------------------------------------------------------------

  /** `[o.strip() for o in pieces if o.strip()]`. */
  function Origins(pieces: seq<string>): seq<string> {
    if pieces == [] then []
    else
      var rest := Origins(pieces[1..]);
      if PyStrip(pieces[0]) != "" then [PyStrip(pieces[0])] + rest else rest
  }

  /** The origin list: the variable (or the three deployment origins) split at commas. */
  function AllowedOrigins(env: Option<string>): seq<string> {
    Origins(Split(env.GetOr(DefaultOrigins), ","))
  }

  /** An origin is listed exactly when it is the non-empty stripped form of some piece. */
  lemma {:induction false} OriginsMembers(pieces: seq<string>, o: string)
    ensures o in Origins(pieces) <==> o != "" && exists k :: 0 <= k < |pieces| && PyStrip(pieces[k]) == o
  {
    if pieces != [] {
      OriginsMembers(pieces[1..], o);
      if o != "" && PyStrip(pieces[0]) != o {
        if exists k :: 0 <= k < |pieces| && PyStrip(pieces[k]) == o {
          var k :| 0 <= k < |pieces| && PyStrip(pieces[k]) == o;
          assert PyStrip(pieces[1..][k - 1]) == o;
        }
      }
      if exists k :: 0 <= k < |pieces[1..]| && PyStrip(pieces[1..][k]) == o {
        var k :| 0 <= k < |pieces[1..]| && PyStrip(pieces[1..][k]) == o;
        assert PyStrip(pieces[k + 1]) == o;
      }
    }
  }

  /** Every listed origin is non-empty and already stripped. */
  lemma {:induction false} OriginsStripped(pieces: seq<string>)
    ensures forall k :: 0 <= k < |Origins(pieces)| ==> Origins(pieces)[k] != "" && PyStrip(Origins(pieces)[k]) == Origins(pieces)[k]
  {
    if pieces != [] {
      OriginsStripped(pieces[1..]);
      TrimIdempotent(pieces[0], PyIsSpace);
    }
  }

  /** Stripping a string cannot create an occurrence of a separator. */
  lemma StripKeepsFree(p: string, sep: string)
    requires !Contains(p, sep)
    ensures !Contains(PyStrip(p), sep)
  {
    var i, j :| 0 <= i <= j <= |p| && PyStrip(p) == p[i..j];
    if Contains(PyStrip(p), sep) {
      var k := IndexOf(PyStrip(p), sep).value;
      OccursInSlice(p, sep, i, j, k);
      ContainsAt(p, sep, i + k);
    }
  }

  /** No listed origin contains a comma, and each is non-empty and stripped. */
  lemma AllowedOriginsClean(env: Option<string>, o: string)
    requires o in AllowedOrigins(env)
    ensures o != "" && !Contains(o, ",") && PyStrip(o) == o
  {
    var pieces := Split(env.GetOr(DefaultOrigins), ",");
    OriginsMembers(pieces, o);
    var k :| 0 <= k < |pieces| && PyStrip(pieces[k]) == o;
    SplitPiecesFree(env.GetOr(DefaultOrigins), ",");
    StripKeepsFree(pieces[k], ",");
    TrimIdempotent(pieces[k], PyIsSpace);
  }

  // ---------------------------------------------------------------------------
  // The pipeline run
  // ---------------------------------------------------------------------------

  /** What the run reads of an event: a string `id` and a `resource`. */
  predicate Runnable(event: Json) {
    EventId(event).Some? && Field(event, "resource").Some?
  }

  predicate AutoFix(analysis: Json) {
    Act.ActionOf(analysis) == JStr("auto_fix")
  }

  /** The execution log of an `auto_fix` event. */
  function ExecutionOf(useMock: bool, event: Json, analysis: Json, now: string): (log: Json)
    requires Runnable(event) && AutoFix(analysis)
    ensures Act.Execute(useMock, event, analysis, now) == Ok(log)
  {
    var id := EventId(event).value;
    assert Field(event, "id") == Some(JStr(id));
    Act.Execute(useMock, event, analysis, now).value
  }

  /** One result entry, in the key order of the source. */
  function Entry(event: Json, analysis: Json, execution: Json, escalation: Json): Json {
    JObj([("event", event), ("analysis", analysis), ("action_taken", Act.ActionOf(analysis)),
          ("execution", execution), ("escalation", escalation)])
  }

  /** The entry an event yields: an execution for `auto_fix`, an escalation for anything else. */
  function EntryFor(useMock: bool, event: Json, analysis: Json, now: string): Json
    requires Runnable(event)
  {
    if AutoFix(analysis) then Entry(event, analysis, ExecutionOf(useMock, event, analysis, now), JNull)
    else Entry(event, analysis, JNull, AsJson(NewRecord(event, analysis, now)))
  }

  predicate AllRunnable(events: seq<Json>) {
    forall k :: 0 <= k < |events| ==> Runnable(events[k])
  }

  function Entries(useMock: bool, events: seq<Json>, analyses: seq<Json>, now: string): (r: seq<Json>)
    requires |events| == |analyses| && AllRunnable(events)
    ensures |r| == |events|
  {
    seq(|events|, k requires 0 <= k < |events| => EntryFor(useMock, events[k], analyses[k], now))
  }

  /** How many analyses recommend `auto_fix`. */
  function AutoCount(analyses: seq<Json>): nat {
    if analyses == [] then 0
    else AutoCount(analyses[..|analyses| - 1]) + (if AutoFix(analyses[|analyses| - 1]) then 1 else 0)
  }

  /** How many analyses recommend anything else, a missing action included. */
  function EscalateCount(analyses: seq<Json>): nat {
    if analyses == [] then 0
    else EscalateCount(analyses[..|analyses| - 1]) + (if AutoFix(analyses[|analyses| - 1]) then 0 else 1)
  }

  /** Every event is counted exactly once, as fixed or as escalated. */
  lemma {:induction false} CountsPartition(analyses: seq<Json>)
    ensures AutoCount(analyses) + EscalateCount(analyses) == |analyses|
  {
    if analyses != [] {
      CountsPartition(analyses[..|analyses| - 1]);
    }
  }

  /** An analysis without `recommended_action` is escalated. */
  lemma MissingActionEscalates(analyses: seq<Json>)
    requires analyses != [] && Field(analyses[|analyses| - 1], "recommended_action").None?
    ensures EscalateCount(analyses) == EscalateCount(analyses[..|analyses| - 1]) + 1
  {
  }

  /** The escalation store after one `escalate` of a record. */
  function Enqueue(order: seq<string>, recs: map<string, Record>, rec: Record): (seq<string>, map<string, Record>) {
    (if rec.escalationId in recs then order else order + [rec.escalationId], recs[rec.escalationId := rec])
  }

  /** The escalation store after the run has escalated every non-`auto_fix` event, in order. */
  function EscalateAll(order: seq<string>, recs: map<string, Record>, events: seq<Json>, analyses: seq<Json>, now: string)
    : (seq<string>, map<string, Record>)
    requires |events| == |analyses| && AllRunnable(events)
  {
    if events == [] then (order, recs)
    else
      var n := |events| - 1;
      var p := EscalateAll(order, recs, events[..n], analyses[..n], now);
      if AutoFix(analyses[n]) then p else Enqueue(p.0, p.1, NewRecord(events[n], analyses[n], now))
  }

  /** When the last event is escalated, its new record is in the store afterwards, under its escalation id. */
  lemma {:induction false} EscalatedStored(order: seq<string>, recs: map<string, Record>, events: seq<Json>,
                                           analyses: seq<Json>, now: string)
    requires |events| == |analyses| && AllRunnable(events)
    requires events != [] && !AutoFix(analyses[|events| - 1])
    ensures var last := NewRecord(events[|events| - 1], analyses[|events| - 1], now);
      EscalateAll(order, recs, events, analyses, now).1[last.escalationId] == last
  {
  }

  /** Extending the processed prefix by one event extends each of the run's accumulators by that event. */
  lemma PrefixStep(useMock: bool, events: seq<Json>, analyses: seq<Json>, now: string, i: nat,
                   order: seq<string>, recs: map<string, Record>)
    requires |events| == |analyses| && AllRunnable(events) && i < |events|
    ensures Entries(useMock, events[..i + 1], analyses[..i + 1], now)
            == Entries(useMock, events[..i], analyses[..i], now) + [EntryFor(useMock, events[i], analyses[i], now)]
    ensures AutoCount(analyses[..i + 1]) == AutoCount(analyses[..i]) + if AutoFix(analyses[i]) then 1 else 0
    ensures EscalateCount(analyses[..i + 1]) == EscalateCount(analyses[..i]) + if AutoFix(analyses[i]) then 0 else 1
    ensures var p := EscalateAll(order, recs, events[..i], analyses[..i], now);
      EscalateAll(order, recs, events[..i + 1], analyses[..i + 1], now)
      == if AutoFix(analyses[i]) then p else Enqueue(p.0, p.1, NewRecord(events[i], analyses[i], now))
  {
    PrefixEntries(useMock, events, analyses, now, i);
    PrefixCounts(analyses, i);
    PrefixEscalations(events, analyses, now, i, order, recs);
  }

  lemma PrefixEntries(useMock: bool, events: seq<Json>, analyses: seq<Json>, now: string, i: nat)
    requires |events| == |analyses| && AllRunnable(events) && i < |events|
    ensures Entries(useMock, events[..i + 1], analyses[..i + 1], now)
            == Entries(useMock, events[..i], analyses[..i], now) + [EntryFor(useMock, events[i], analyses[i], now)]
  {
    var es, ans := events[..i + 1], analyses[..i + 1];
    assert AllRunnable(es) && AllRunnable(events[..i]) by {
      forall k | 0 <= k < i + 1 ensures Runnable(es[k]) { assert es[k] == events[k]; }
    }
    var a := Entries(useMock, es, ans, now);
    var b := Entries(useMock, events[..i], analyses[..i], now) + [EntryFor(useMock, events[i], analyses[i], now)];
    forall k | 0 <= k < i + 1 ensures a[k] == b[k] {
      assert es[k] == events[k] && ans[k] == analyses[k];
    }
  }

  lemma PrefixCounts(analyses: seq<Json>, i: nat)
    requires i < |analyses|
    ensures AutoCount(analyses[..i + 1]) == AutoCount(analyses[..i]) + if AutoFix(analyses[i]) then 1 else 0
    ensures EscalateCount(analyses[..i + 1]) == EscalateCount(analyses[..i]) + if AutoFix(analyses[i]) then 0 else 1
  {
    assert analyses[..i + 1][..i] == analyses[..i];
  }

  lemma PrefixEscalations(events: seq<Json>, analyses: seq<Json>, now: string, i: nat,
                          order: seq<string>, recs: map<string, Record>)
    requires |events| == |analyses| && AllRunnable(events) && i < |events|
    ensures var p := EscalateAll(order, recs, events[..i], analyses[..i], now);
      EscalateAll(order, recs, events[..i + 1], analyses[..i + 1], now)
      == if AutoFix(analyses[i]) then p else Enqueue(p.0, p.1, NewRecord(events[i], analyses[i], now))
  {
    assert events[..i + 1][..i] == events[..i] && analyses[..i + 1][..i] == analyses[..i];
  }

  /** The run record, in the key order of the source. */
  function RunRecord(runId: string, startedAt: string, completedAt: string, processed: nat, fixed: nat, escalated: nat,
                     results: seq<Json>): Json {
    JObj([("run_id", JStr(runId)), ("started_at", JStr(startedAt)), ("completed_at", JStr(completedAt)),
          ("events_processed", JInt(processed)), ("auto_fixed", JInt(fixed)), ("escalated", JInt(escalated)),
          ("results", JArr(results))])
  }

  /** `f"run-{int(timestamp)}"`. */
  function RunId(epochSeconds: int): string {
    "run-" + IntToDecimal(epochSeconds)
  }

  /** `insert(0, run)` then one `pop()` when the list has grown past 20. */
  function PushRun(runs: seq<Json>, run: Json): (r: seq<Json>)
    ensures |runs| <= HistoryLimit ==> |r| <= HistoryLimit
    ensures r != [] && r[0] == run && |r| <= |runs| + 1
    ensures r[1..] == runs[..|r| - 1]
  {
    var grown := [run] + runs;
    if |grown| > HistoryLimit then grown[..|grown| - 1] else grown
  }

  /** The history holds the newest runs, newest first: after two pushes the first two entries are the second run, then the first. */
  lemma {:induction false} PushRunsNewestFirst(runs: seq<Json>, a: Json, b: Json)
    requires |runs| <= HistoryLimit
    ensures PushRun(PushRun(runs, a), b)[..2] == [b, a]
  {
    var once := PushRun(runs, a);
    var twice := PushRun(once, b);
    assert twice[1..][0] == once[0];
  }

  /** `get_pipeline_run`: the first run with the id, or 404. */
  function FindRun(runs: seq<Json>, runId: string): Result<Json, HttpError> {
    if runs == [] then Err(HttpError(404, "Run " + runId + " not found"))
    else if Field(runs[0], "run_id") == Some(JStr(runId)) then Ok(runs[0])
    else FindRun(runs[1..], runId)
  }

  /** A found run carries the id and no earlier run does; 404 exactly when no run has it. */
  lemma {:induction false} FindRunSpec(runs: seq<Json>, runId: string)
    ensures FindRun(runs, runId).Err? <==> forall k :: 0 <= k < |runs| ==> Field(runs[k], "run_id") != Some(JStr(runId))
    ensures FindRun(runs, runId).Err? ==> FindRun(runs, runId).error == HttpError(404, "Run " + runId + " not found")
    ensures FindRun(runs, runId).Ok? ==>
              exists k :: 0 <= k < |runs| && runs[k] == FindRun(runs, runId).value
                          && Field(runs[k], "run_id") == Some(JStr(runId))
                          && forall m :: 0 <= m < k ==> Field(runs[m], "run_id") != Some(JStr(runId))
  {
    if runs != [] && Field(runs[0], "run_id") != Some(JStr(runId)) {
      FindRunSpec(runs[1..], runId);
      if FindRun(runs, runId).Ok? {
        var k :| 0 <= k < |runs[1..]| && runs[1..][k] == FindRun(runs, runId).value
                 && Field(runs[1..][k], "run_id") == Some(JStr(runId))
                 && forall m :: 0 <= m < k ==> Field(runs[1..][m], "run_id") != Some(JStr(runId));
        assert runs[k + 1] == runs[1..][k];
        assert forall m :: 1 <= m < k + 1 ==> runs[m] == runs[1..][m - 1];
      } else {
        assert forall k :: 1 <= k < |runs| ==> runs[k] == runs[1..][k - 1];
      }
    } else if runs != [] {
      assert runs[0] == FindRun(runs, runId).value;
    }
  }

  predicate ValidResolution(resolution: string) {
    resolution == "approved" || resolution == "rejected" || resolution == "deferred"
  }

  // ---------------------------------------------------------------------------
  // Dashboard histograms
  // ---------------------------------------------------------------------------

  function CountIn(d: Dict, key: string): int {
    match Get(d, key)
    case Some(JInt(n)) => n
    case _ => 0
  }

  /** `counts[k] = counts.get(k, 0) + 1`. */
  function Bump(d: Dict, key: string): Dict {
    Set(d, key, JInt(CountIn(d, key) + 1))
  }

  /** The histogram of a sequence of keys, filled in one key at a time. */
  function Tally(keys: seq<string>): Dict {
    if keys == [] then [] else Bump(Tally(keys[..|keys| - 1]), keys[|keys| - 1])
  }

  function IntOf(j: Json): int {
    if j.JInt? then j.i else 0
  }

  /** The sum of a histogram's counts. */
  function Total(d: Dict): int {
    if d == [] then 0 else IntOf(d[0].1) + Total(d[1..])
  }

  lemma {:induction false} BumpTotal(d: Dict, key: string)
    ensures Total(Bump(d, key)) == Total(d) + 1
  {
    if d != [] && d[0].0 != key {
      BumpTotal(d[1..], key);
      assert CountIn(d, key) == CountIn(d[1..], key);
      assert Bump(d, key) == [d[0]] + Bump(d[1..], key);
    } else if d != [] {
      assert Bump(d, key) == [(key, JInt(IntOf(d[0].1) + 1))] + d[1..];
    }
  }

  /** The counts of a histogram sum to the number of keys tallied. */
  lemma {:induction false} TallyTotal(keys: seq<string>)
    ensures Total(Tally(keys)) == |keys|
  {
    if keys != [] {
      TallyTotal(keys[..|keys| - 1]);
      BumpTotal(Tally(keys[..|keys| - 1]), keys[|keys| - 1]);
    }
  }

  /** Each key's count is its number of occurrences, and only occurring keys are present. */
  lemma {:induction false} TallyCount(keys: seq<string>, key: string)
    ensures CountIn(Tally(keys), key) == multiset(keys)[key]
    ensures Has(Tally(keys), key) <==> key in keys
  {
    if keys != [] {
      var init := keys[..|keys| - 1];
      var last := keys[|keys| - 1];
      TallyCount(init, key);
      assert keys == init + [last];
      if last == key {
        GetSetSame(Tally(init), key, JInt(CountIn(Tally(init), key) + 1));
      } else {
        GetSetOther(Tally(init), last, JInt(CountIn(Tally(init), last) + 1), key);
      }
    }
  }

  /** The string under `key` of each event (severity or source). */
  function Column(events: seq<Json>, key: string): (r: seq<string>)
    requires forall k :: 0 <= k < |events| ==> Field(events[k], key).Some? && Field(events[k], key).value.JStr?
    ensures |r| == |events|
  {
    seq(|events|, k requires 0 <= k < |events| => Field(events[k], key).value.s)
  }

  /** One more event adds its value at the end of the column. */
  lemma ColumnStep(events: seq<Json>, i: nat, key: string)
    requires i < |events| && forall k :: 0 <= k < |events| ==> Field(events[k], key).Some? && Field(events[k], key).value.JStr?
    ensures var c := Column(events[..i + 1], key);
      && c[..i] == Column(events[..i], key) && c[i] == Field(events[i], key).value.s
  {
  }

  /** What the summary reads of an event: string `severity` and `source`. */
  predicate Countable(events: seq<Json>) {
    forall k :: 0 <= k < |events| ==>
      && Field(events[k], "severity").Some? && Field(events[k], "severity").value.JStr?
      && Field(events[k], "source").Some? && Field(events[k], "source").value.JStr?
  }

  /** Counts per severity and per source; each histogram sums to the number of events. */
  method Breakdown(events: seq<Json>) returns (severity: Dict, source: Dict)
    requires Countable(events)
    ensures severity == Tally(Column(events, "severity")) && source == Tally(Column(events, "source"))
    ensures Total(severity) == |events| && Total(source) == |events|
  {
    severity, source := [], [];
    var i := 0;
    while i < |events|
      invariant 0 <= i <= |events|
      invariant severity == Tally(Column(events[..i], "severity"))
      invariant source == Tally(Column(events[..i], "source"))
    {
      ColumnStep(events, i, "severity");
      ColumnStep(events, i, "source");
      severity := Bump(severity, Field(events[i], "severity").value.s);
      source := Bump(source, Field(events[i], "source").value.s);
      i := i + 1;
    }
    assert events[..|events|] == events;
    TallyTotal(Column(events, "severity"));
    TallyTotal(Column(events, "source"));
  }

  /** The summary dictionary, in the key order of the source. */
  function Summary(total: nat, severity: Dict, source: Dict, pending: nat, runs: seq<Json>, lastRun: Json, mock: bool): Json {
    JObj([("total_events", JInt(total)), ("severity_breakdown", JObj(severity)), ("source_breakdown", JObj(source)),
          ("pending_escalations", JInt(pending)), ("total_pipeline_runs", JInt(|runs|)), ("last_run", lastRun),
          ("model", JStr(Model)), ("mode", JStr(Mode(mock)))])
  }

  // ---------------------------------------------------------------------------
  // The server state
  // ---------------------------------------------------------------------------

  predicate WellFormedRun(run: Json) {
    Field(run, "started_at").Some?
  }

  class Server {
    const useMock: bool
    /** The escalation agent singleton. */
    const queue: EscalateAgent
    /** `pipeline_runs`, newest first. */
    var runs: seq<Json>

    predicate Valid()
      reads this, queue
    {
      queue.Valid() && |runs| <= HistoryLimit && forall k :: 0 <= k < |runs| ==> WellFormedRun(runs[k])
    }

    constructor (mockEnv: Option<string>)
      ensures Valid() && useMock == UseMock(mockEnv) && runs == [] && fresh(queue)
      ensures queue.order == [] && queue.records == map[]
    {
      useMock := UseMock(mockEnv);
      queue := new EscalateAgent();
      runs := [];
    }

    /** One event of the run: execute it or escalate it, and build its entry. */
    method Process(event: Json, analysis: Json, now: string) returns (entry: Json)
      requires queue.Valid() && Runnable(event)
      modifies queue
      ensures queue.Valid()
      ensures entry == EntryFor(useMock, event, analysis, now)
      ensures (queue.order, queue.records) ==
              if AutoFix(analysis) then (old(queue.order), old(queue.records))
              else Enqueue(old(queue.order), old(queue.records), NewRecord(event, analysis, now))
    {
      if AutoFix(analysis) {
        entry := Entry(event, analysis, ExecutionOf(useMock, event, analysis, now), JNull);
      } else {
        var rec := queue.Escalate(event, analysis, now);
        entry := Entry(event, analysis, JNull, AsJson(rec));
      }
    }

    /** One iteration of the loop of `run_pipeline`: the next event's entry and counter. */
    method ProcessNext(events: seq<Json>, analyses: seq<Json>, now: string, i: nat,
                       ghost order0: seq<string>, ghost records0: map<string, Record>,
                       results: seq<Json>, fixed: nat, escalated: nat)
      returns (results': seq<Json>, fixed': nat, escalated': nat)
      requires queue.Valid() && |events| == |analyses| && AllRunnable(events) && i < |events|
      requires results == Entries(useMock, events[..i], analyses[..i], now)
      requires fixed == AutoCount(analyses[..i]) && escalated == EscalateCount(analyses[..i])
      requires (queue.order, queue.records) == EscalateAll(order0, records0, events[..i], analyses[..i], now)
      modifies queue
      ensures queue.Valid()
      ensures results' == Entries(useMock, events[..i + 1], analyses[..i + 1], now)
      ensures fixed' == AutoCount(analyses[..i + 1]) && escalated' == EscalateCount(analyses[..i + 1])
      ensures (queue.order, queue.records) == EscalateAll(order0, records0, events[..i + 1], analyses[..i + 1], now)
    {
      PrefixStep(useMock, events, analyses, now, i, order0, records0);
      var entry := Process(events[i], analyses[i], now);
      fixed', escalated' := fixed, escalated;
      if AutoFix(analyses[i]) {
        fixed' := fixed + 1;
      } else {
        escalated' := escalated + 1;
      }
      results' := results + [entry];
    }

    /** The loop of `run_pipeline`: one entry per event, with the two counters. */
    method ProcessAll(events: seq<Json>, analyses: seq<Json>, now: string)
      returns (results: seq<Json>, fixed: nat, escalated: nat)
      requires queue.Valid() && |events| == |analyses| && AllRunnable(events)
      modifies queue
      ensures queue.Valid()
      ensures results == Entries(useMock, events, analyses, now)
      ensures fixed == AutoCount(analyses) && escalated == EscalateCount(analyses)
      ensures (queue.order, queue.records) == EscalateAll(old(queue.order), old(queue.records), events, analyses, now)
    {
      results, fixed, escalated := [], 0, 0;
      ghost var order0, records0 := queue.order, queue.records;
      var i := 0;
      while i < |events|
        invariant 0 <= i <= |events|
        invariant queue.Valid()
        invariant results == Entries(useMock, events[..i], analyses[..i], now)
        invariant fixed == AutoCount(analyses[..i]) && escalated == EscalateCount(analyses[..i])
        invariant (queue.order, queue.records) == EscalateAll(order0, records0, events[..i], analyses[..i], now)
      {
        results, fixed, escalated := ProcessNext(events, analyses, now, i, order0, records0, results, fixed, escalated);
        i := i + 1;
      }
      assert events[..|events|] == events && analyses[..|analyses|] == analyses;
    }

    /**
     * `run_pipeline`: each event yields one entry, executed when its analysis
     * recommends `auto_fix` and escalated otherwise; the record is pushed
     * onto the front of the capped history.
     */
    method RunPipeline(epochSeconds: int, startedAt: string, completedAt: string, now: string,
                       events: seq<Json>, analyses: seq<Json>) returns (run: Json)
      requires Valid() && |events| == |analyses| && AllRunnable(events)
      modifies this, queue
      ensures Valid()
      ensures run == RunRecord(RunId(epochSeconds), startedAt, completedAt, |events|, AutoCount(analyses),
                               EscalateCount(analyses), Entries(useMock, events, analyses, now))
      ensures runs == PushRun(old(runs), run)
      ensures (queue.order, queue.records) == EscalateAll(old(queue.order), old(queue.records), events, analyses, now)
    {
      var results, fixed, escalated := ProcessAll(events, analyses, now);
      run := RunRecord(RunId(epochSeconds), startedAt, completedAt, |events|, fixed, escalated, results);
      assert Get(run.fields, "started_at") == Get(run.fields[1..], "started_at");
      var pushed := PushRun(runs, run);
      assert forall k :: 1 <= k < |pushed| ==> pushed[k] == runs[k - 1];
      runs := pushed;
    }

    /** `get_pipeline_run`. */
    function GetPipelineRun(runId: string): Result<Json, HttpError>
      reads this
    {
      FindRun(runs, runId)
    }

    /**
     * `resolve_escalation`: a resolution outside approved/rejected/deferred is
     * a 400 before the queue is touched; an unknown id is a 404 with the
     * KeyError's text.
     */
    method ResolveEscalation(escalationId: string, resolution: string, resolvedBy: string, now: string)
      returns (r: Result<Record, HttpError>)
      requires Valid()
      modifies queue
      ensures Valid() && queue.order == old(queue.order)
      ensures !ValidResolution(resolution) ==> r == Err(HttpError(400, ResolutionError)) && queue.records == old(queue.records)
      ensures ValidResolution(resolution) && escalationId !in old(queue.records) ==>
                r == Err(HttpError(404, KeyErrorText("Escalation " + escalationId + " not found")))
                && queue.records == old(queue.records)
      ensures ValidResolution(resolution) && escalationId in old(queue.records) ==>
                && r.Ok?
                && r.value == old(queue.records)[escalationId].(status := "resolved", resolution := Some(resolution),
                                                               resolvedBy := Some(resolvedBy), resolvedAt := Some(now))
                && queue.records == old(queue.records)[escalationId := r.value]
    {
      if !ValidResolution(resolution) {
        return Err(HttpError(400, ResolutionError));
      }
      var outcome := queue.Resolve(escalationId, resolution, resolvedBy, now);
      match outcome {
        case Ok(rec) => r := Ok(rec);
        case Err(msg) => r := Err(HttpError(404, KeyErrorText(msg)));
      }
    }

    /** `dashboard_summary`. */
    method DashboardSummary(events: seq<Json>) returns (s: Json)
      requires Valid() && Countable(events)
      ensures s == Summary(|events|, Tally(Column(events, "severity")), Tally(Column(events, "source")),
                           |queue.GetQueue()|, runs,
                           if runs == [] then JNull else Field(runs[0], "started_at").value, useMock)
    {
      var severity, source := Breakdown(events);
      var lastRun := if runs == [] then JNull else Field(runs[0], "started_at").value;
      s := Summary(|events|, severity, source, |queue.GetQueue()|, runs, lastRun, useMock);
    }
  }

  /** The summary's histograms each sum to the event count, and the pending count never exceeds the stored escalations. */
  lemma SummaryConsistent(events: seq<Json>, order: seq<string>, recs: map<string, Record>)
    requires Countable(events)
    requires forall k :: 0 <= k < |order| ==> order[k] in recs
    ensures Total(Tally(Column(events, "severity"))) == |events|
    ensures Total(Tally(Column(events, "source"))) == |events|
    ensures |Pending(order, recs)| <= |All(order, recs)|
  {
    TallyTotal(Column(events, "severity"));
    TallyTotal(Column(events, "source"));
    PendingShorter(order, recs);
  }
}
