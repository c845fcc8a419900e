/**
 * The Next.js `POST /api/pipeline/stream` route: it proxies the backend's
 * event stream when a non-local backend answers, and otherwise plays a fixed
 * mock schedule — `start`, one `agent_start`/`agent_done` pair per agent with
 * sleeps in between, then `complete` — framed with `JSON.stringify` payloads.
 */
module StreamRoute {
  import opened Wrappers
  import opened Text
  import opened Json
  import opened PyDict
  import opened Sse

  const DefaultRequest: string := "Deploy my app"

  /**
   * `body.request || 'Deploy my app'`. Reading a property of `null` throws,
   * which is the `None` result.
   */
  function RequestOf(body: Json): (r: Option<Json>)
    ensures r.None? <==> body.JNull?
    ensures r.Some? ==> JsTruthy(r.value)
    ensures r.Some? && Field(body, "request").Some? && JsTruthy(Field(body, "request").value)
            ==> r.value == Field(body, "request").value
    ensures r.Some? && !(Field(body, "request").Some? && JsTruthy(Field(body, "request").value))
            ==> r.value == JStr(DefaultRequest)
  {
    if body.JNull? then None
    else match Field(body, "request")
      case Some(v) => if JsTruthy(v) then Some(v) else Some(JStr(DefaultRequest))
      case None => Some(JStr(DefaultRequest))
  }

  /** `process.env.NEXT_PUBLIC_API_URL || ''`. */
  function ApiUrl(env: Option<string>): string {
    env.GetOr("")
  }

  /** The backend is tried only when its URL is set and is not a local one. */
  predicate TryUpstream(apiUrl: string) {
    apiUrl != "" && !Contains(apiUrl, "localhost")
  }

  /** What the upstream `fetch` did: threw, or answered with a status and maybe a body. */
  datatype Upstream = Threw | Answered(ok: bool, hasBody: bool)

  datatype Reply = Proxied | MockStream(steps: seq<Step>)

  // ---------------------------------------------------------------------------
  // The mock schedule
  // ---------------------------------------------------------------------------

  /** Simulated work time of the agent at position `i`. */
  function WorkMs(i: nat): nat { 800 + i * 200 }

  function StartEvent(request: Json): Step {
    Emit("start", JObj([("request", request), ("agents", JInt(4)), ("mock", JBool(true))]))
  }

  function AgentStartData(name: string, i: nat): Json {
    JObj([("agent", JStr(name)), ("index", JInt(i))])
  }

  function AgentDoneData(name: string, output: string, i: nat): Json {
    JObj([("agent", JStr(name)), ("index", JInt(i)), ("output", JStr(output)),
          ("duration_ms", JInt(WorkMs(i))), ("mock", JBool(true))])
  }

  /** What one iteration of the agent loop enqueues and sleeps. */
  function AgentBlock(name: string, output: string, i: nat): seq<Step> {
    [Emit("agent_start", AgentStartData(name, i)), Sleep(WorkMs(i)),
     Emit("agent_done", AgentDoneData(name, output, i)), Sleep(200)]
  }

  const CompleteEvent: Step := Emit("complete", JObj([("message", JStr("Pipeline complete")), ("mock", JBool(true))]))

  /** The blocks of the first `n` agents, in order. */
  function Blocks(agents: seq<(string, string)>, n: nat): (r: seq<Step>)
    requires n <= |agents|
    ensures |r| == 4 * n
  {
    if n == 0 then [] else Blocks(agents, n - 1) + AgentBlock(agents[n - 1].0, agents[n - 1].1, n - 1)
  }

  /** The whole mock schedule for the given (name, output) agents. */
  function MockSchedule(request: Json, agents: seq<(string, string)>): seq<Step> {
    [StartEvent(request)] + Blocks(agents, |agents|) + [CompleteEvent]
  }

  /** The `start` callback of the mock stream, appending what it enqueues or sleeps. */
  method MockStart(request: Json, agents: seq<(string, string)>) returns (steps: seq<Step>)
    ensures steps == MockSchedule(request, agents)
  {
    steps := [StartEvent(request)];
    for i := 0 to |agents|
      invariant steps == [StartEvent(request)] + Blocks(agents, i)
    {
      var agent := agents[i];
      steps := steps + [Emit("agent_start", AgentStartData(agent.0, i))];
      steps := steps + [Sleep(800 + i * 200)];
      steps := steps + [Emit("agent_done", AgentDoneData(agent.0, agent.1, i))];
      steps := steps + [Sleep(200)];
    }
    steps := steps + [CompleteEvent];
  }

  /** The route's four agents, with their canned outputs. */
  function MockAgents(plan: string, code: string, review: string, explain: string): seq<(string, string)> {
    [("PlannerAgent", plan), ("CodeAgent", code), ("ReviewAgent", review), ("ExplainerAgent", explain)]
  }

  /** The route handler. */
  function Post(body: Json, env: Option<string>, upstream: Upstream, agents: seq<(string, string)>): (r: Option<Reply>)
    ensures r.None? <==> body.JNull?
    ensures r.Some? ==>
              (r.value.Proxied? <==> TryUpstream(ApiUrl(env)) && upstream == Answered(true, true))
    ensures r.Some? && r.value.MockStream? ==> r.value.steps == MockSchedule(RequestOf(body).value, agents)
  {
    match RequestOf(body)
    case None => None
    case Some(request) =>
      if TryUpstream(ApiUrl(env)) && upstream.Answered? && upstream.ok && upstream.hasBody then Some(Proxied)
      else Some(MockStream(MockSchedule(request, agents)))
  }

  // ---------------------------------------------------------------------------
  // Properties of the schedule
  // ---------------------------------------------------------------------------

  lemma {:induction false} BlocksAt(agents: seq<(string, string)>, n: nat, i: nat, j: nat)
    requires n <= |agents| && i < n && j < 4
    ensures Blocks(agents, n)[4 * i + j] == AgentBlock(agents[i].0, agents[i].1, i)[j]
  {
    if i < n - 1 {
      BlocksAt(agents, n - 1, i, j);
    }
  }

  /** Step `1 + 4 * i + j` of the schedule is step `j` of agent `i`'s block. */
  lemma ScheduleAt(request: Json, agents: seq<(string, string)>, i: nat, j: nat)
    requires i < |agents| && j < 4
    ensures MockSchedule(request, agents)[1 + 4 * i + j] == AgentBlock(agents[i].0, agents[i].1, i)[j]
  {
    var b := Blocks(agents, |agents|);
    assert MockSchedule(request, agents)[1 + 4 * i + j] == b[4 * i + j];
    BlocksAt(agents, |agents|, i, j);
  }

  /** What an `agent_done` payload reports. */
  lemma AgentDoneFields(name: string, output: string, i: nat)
    ensures var f := AgentDoneData(name, output, i).fields;
      && Get(f, "agent") == Some(JStr(name))
      && Get(f, "index") == Some(JInt(i))
      && Get(f, "output") == Some(JStr(output))
      && Get(f, "duration_ms") == Some(JInt(800 + 200 * i))
      && Get(f, "mock") == Some(JBool(true))
  {
    var f := AgentDoneData(name, output, i).fields;
    assert f[1..][1..] == [("output", JStr(output)), ("duration_ms", JInt(WorkMs(i))), ("mock", JBool(true))];
    assert f[1..][1..][1..] == [("duration_ms", JInt(WorkMs(i))), ("mock", JBool(true))];
    assert f[1..][1..][1..][1..] == [("mock", JBool(true))];
    assert f[0].0 != "output" && f[1].0 != "output";
    assert Get(f[1..][1..], "output") == Some(JStr(output));
    assert Get(f[1..][1..][1..], "duration_ms") == Some(JInt(WorkMs(i)));
    assert Get(f, "duration_ms") == Get(f[1..], "duration_ms") == Get(f[1..][1..], "duration_ms");
    assert Get(f[1..][1..][1..][1..], "mock") == Some(JBool(true));
    assert Get(f, "mock") == Get(f[1..], "mock") == Get(f[1..][1..], "mock") == Get(f[1..][1..][1..], "mock");
  }

  /**
   * The schedule's layout: `start` first, `complete` last, and between them,
   * for each agent in order, `agent_start` naming it with its index, the
   * sleep that its `agent_done` reports as `duration_ms`, that `agent_done`,
   * and a 200 ms pause.
   */
  lemma MockScheduleLayout(request: Json, agents: seq<(string, string)>)
    ensures var s := MockSchedule(request, agents);
      && |s| == 4 * |agents| + 2
      && s[0] == Emit("start", JObj([("request", request), ("agents", JInt(4)), ("mock", JBool(true))]))
      && s[|s| - 1] == Emit("complete", JObj([("message", JStr("Pipeline complete")), ("mock", JBool(true))]))
      && forall i :: 0 <= i < |agents| ==>
           && s[1 + 4 * i] == Emit("agent_start", JObj([("agent", JStr(agents[i].0)), ("index", JInt(i))]))
           && s[2 + 4 * i] == Sleep(800 + 200 * i)
           && s[3 + 4 * i] == Emit("agent_done", AgentDoneData(agents[i].0, agents[i].1, i))
           && s[4 + 4 * i] == Sleep(200)
  {
    forall i | 0 <= i < |agents|
      ensures var s := MockSchedule(request, agents);
        && s[1 + 4 * i] == Emit("agent_start", JObj([("agent", JStr(agents[i].0)), ("index", JInt(i))]))
        && s[2 + 4 * i] == Sleep(800 + 200 * i)
        && s[3 + 4 * i] == Emit("agent_done", AgentDoneData(agents[i].0, agents[i].1, i))
        && s[4 + 4 * i] == Sleep(200)
    {
      ScheduleBlock(request, agents, i);
    }
  }

  /** The four steps of agent `i`'s block, at their places in the schedule. */
  lemma ScheduleBlock(request: Json, agents: seq<(string, string)>, i: nat)
    requires i < |agents|
    ensures var s := MockSchedule(request, agents);
      && s[1 + 4 * i] == Emit("agent_start", AgentStartData(agents[i].0, i))
      && s[2 + 4 * i] == Sleep(WorkMs(i))
      && s[3 + 4 * i] == Emit("agent_done", AgentDoneData(agents[i].0, agents[i].1, i))
      && s[4 + 4 * i] == Sleep(200)
  {
    ScheduleAt(request, agents, i, 0);
    ScheduleAt(request, agents, i, 1);
    ScheduleAt(request, agents, i, 2);
    ScheduleAt(request, agents, i, 3);
  }

  /** Each agent's block sleeps its work time plus the 200 ms pause. */
  lemma {:induction false} BlocksDelay(agents: seq<(string, string)>, n: nat)
    requires n <= |agents|
    ensures TotalDelay(Blocks(agents, n)) == 1000 * n + 100 * n * (n - 1)
  {
    if n > 0 {
      BlocksDelay(agents, n - 1);
      var blk := AgentBlock(agents[n - 1].0, agents[n - 1].1, n - 1);
      EventsAppend(Blocks(agents, n - 1), blk);
      assert TotalDelay(blk[3..]) == 200;
      assert TotalDelay(blk[2..]) == 200;
      assert TotalDelay(blk[1..]) == WorkMs(n - 1) + 200;
      assert TotalDelay(blk) == 1000 + 200 * (n - 1);
      assert 100 * (n - 1) * (n - 2) + 200 * (n - 1) == 100 * n * (n - 1);
    }
  }

  /** With the route's four agents the mock takes 5200 ms of simulated time. */
  lemma MockTotalDelay(request: Json, plan: string, code: string, review: string, explain: string)
    ensures TotalDelay(MockSchedule(request, MockAgents(plan, code, review, explain))) == 5200
  {
    var agents := MockAgents(plan, code, review, explain);
    BlocksDelay(agents, 4);
    EventsAppend([StartEvent(request)], Blocks(agents, 4));
    EventsAppend([StartEvent(request)] + Blocks(agents, 4), [CompleteEvent]);
  }

  /** Only the final step is `complete`; nothing follows it. */
  lemma CompleteOnlyLast(request: Json, agents: seq<(string, string)>, k: nat)
    requires k < |MockSchedule(request, agents)|
    requires MockSchedule(request, agents)[k].Emit? && MockSchedule(request, agents)[k].kind == "complete"
    ensures k == |MockSchedule(request, agents)| - 1
  {
    var s := MockSchedule(request, agents);
    if 0 < k < |s| - 1 {
      var i := (k - 1) / 4;
      ScheduleAt(request, agents, i, (k - 1) % 4);
    }
  }

  /** With the route's agents every mock frame is encodable, whatever string the request is. */
  lemma MockEncodable(request: string, plan: string, code: string, review: string, explain: string)
    ensures Encodable(JsCompact, MockSchedule(JStr(request), MockAgents(plan, code, review, explain)))
  {
    var agents := MockAgents(plan, code, review, explain);
    var s := MockSchedule(JStr(request), agents);
    forall k | 0 <= k < |s| && s[k].Emit?
      ensures '\n' !in s[k].kind && Serializable(JsCompact, s[k].data)
    {
      if 0 < k < |s| - 1 {
        var i := (k - 1) / 4;
        ScheduleAt(JStr(request), agents, i, (k - 1) % 4);
        BlockEncodable(agents[i].0, agents[i].1, i, (k - 1) % 4);
      }
    }
  }

  /** The steps of one of the first four agents' blocks are encodable. */
  lemma BlockEncodable(name: string, output: string, i: nat, j: nat)
    requires i < 4 && j < 4
    ensures var b := AgentBlock(name, output, i)[j];
      b.Emit? ==> '\n' !in b.kind && Serializable(JsCompact, b.data)
  {
    var b := AgentBlock(name, output, i)[j];
    if j == 0 {
      var f := AgentStartData(name, i).fields;
      assert forall m :: 0 <= m < |f| ==> f[m].1 == JStr(name) || f[m].1 == JInt(i);
    } else if j == 2 {
      var f := AgentDoneData(name, output, i).fields;
      assert WorkMs(i) <= 1400;
      assert forall m :: 0 <= m < |f| ==> f[m].1 in [JStr(name), JInt(i), JStr(output), JInt(WorkMs(i)), JBool(true)];
    }
  }
}
