/**
 * The four-agent FastAPI backend (Planner, Coder, Reviewer, Explainer):
 * request validation, the one-shot `/pipeline` response and the
 * `/pipeline/stream` event generator, whose frames are written with
 * `json.dumps` payloads.
 */
module BackendApp {
  import opened Wrappers
  import opened Http
  import opened Text
  import opened Json
  import opened PyDict
  import opened Sse

  const Model: string := "amazon.nova-pro-v1:0"

  /** `os.getenv("USE_MOCK", "true").lower() == "true"`. */
  function IsMock(env: Option<string>): (b: bool)
    ensures b <==> env.None? ||
                   (|env.value| == 4 && env.value[0] in "tT" && env.value[1] in "rR"
                    && env.value[2] in "uU" && env.value[3] in "eE")
  {
    LowerAscii(env.GetOr("true")) == "true"
  }

  /** What both endpoints validate first: a blank request is a 400. */
  function CheckRequest(request: string): (r: Option<HttpError>)
    ensures r.Some? <==> forall k :: 0 <= k < |request| ==> PyIsSpace(request[k])
    ensures r.Some? ==> r.value == HttpError(400, "Request cannot be empty")
  {
    if PyStrip(request) == "" then Some(HttpError(400, "Request cannot be empty")) else None
  }

  /** `_sse_event(event, data)`. */
  function SseEvent(event: string, data: Json): string
    requires Serializable(PyDefault, data)
  {
    Frame(PyDefault, event, data)
  }

  /**
   * The backend's frames and the stream route's fallback frames have the same
   * shape: both read back as their kind and their serialised payload, and differ
   * only in the serialiser that wrote the payload.
   */
  lemma SameFraming(event: string, data: Json)
    requires '\n' !in event && Serializable(PyDefault, data) && Serializable(JsCompact, data)
    ensures ParseFrame(SseEvent(event, data)) == Some((event, Serialize(PyDefault, data), ""))
    ensures ParseFrame(Frame(JsCompact, event, data)) == Some((event, Serialize(JsCompact, data), ""))
  {
    SerializeNoNewline(PyDefault, data);
    SerializeNoNewline(JsCompact, data);
    ParseFrameText(event, Serialize(PyDefault, data), "");
    ParseFrameText(event, Serialize(JsCompact, data), "");
    assert SseEvent(event, data) + "" == SseEvent(event, data);
    assert Frame(JsCompact, event, data) + "" == Frame(JsCompact, event, data);
  }

  // ---------------------------------------------------------------------------
  // POST /pipeline
  // ---------------------------------------------------------------------------

  /** What `run_pipeline(request)` returns, one text per agent. */
  datatype AgentOutputs = AgentOutputs(planner: string, coder: string, reviewer: string, explainer: string)

  datatype AgentResult = AgentResult(agent: string, output: string, status: string)

  datatype PipelineResponse = PipelineResponse(request: string, agents: seq<AgentResult>, model: string, mock: bool)

  const AgentNames: seq<string> := ["PlannerAgent", "CodeAgent", "ReviewAgent", "ExplainerAgent"]

  function OutputList(o: AgentOutputs): seq<string> {
    [o.planner, o.coder, o.reviewer, o.explainer]
  }

  /** `run_full_pipeline`; the agents' work is the `runPipeline` parameter. */
  function RunFullPipeline(request: string, env: Option<string>, runPipeline: string -> AgentOutputs)
    : (r: Result<PipelineResponse, HttpError>)
    ensures r.Err? <==> CheckRequest(request).Some?
    ensures r.Err? ==> r.error == HttpError(400, "Request cannot be empty")
    ensures r.Ok? ==>
              && r.value.request == request && r.value.model == Model && r.value.mock == IsMock(env)
              && |r.value.agents| == 4
              && forall i :: 0 <= i < 4 ==>
                   r.value.agents[i] == AgentResult(AgentNames[i], OutputList(runPipeline(request))[i], "done")
  {
    match CheckRequest(request)
    case Some(e) => Err(e)
    case None =>
      var results := runPipeline(request);
      Ok(PipelineResponse(request,
                          [AgentResult("PlannerAgent", results.planner, "done"),
                           AgentResult("CodeAgent", results.coder, "done"),
                           AgentResult("ReviewAgent", results.reviewer, "done"),
                           AgentResult("ExplainerAgent", results.explainer, "done")],
                          Model, IsMock(env)))
  }

  // ---------------------------------------------------------------------------
  // POST /pipeline/stream
  // ---------------------------------------------------------------------------

  /** The four agent calls, each given what the generator has produced so far. */
  datatype Agents = Agents(
    planner: string -> string,
    coder: (string, string) -> string,
    reviewer: (string, string) -> string,
    explainer: (string, string, string, string) -> string)

  /**
   * The outputs the generator threads through: the code agent sees the plan, the
   * review agent the code and the plan, the explainer all three and the request.
   */
  function Chain(a: Agents, request: string): AgentOutputs {
    var p := a.planner(request);
    var c := a.coder(p, request);
    var r := a.reviewer(c, p);
    AgentOutputs(p, c, r, a.explainer(p, c, r, request))
  }

  const StartMessages: seq<string> := [
    "Analyzing your DevOps request...",
    "Generating Terraform & CI/CD code...",
    "Reviewing code for security & best practices...",
    "Writing plain-English explanation..."]

  /** One agent's frames: start, 100 ms, done, 100 ms. */
  function AgentPair(name: string, message: string, output: string): seq<Step> {
    [Emit("agent_start", JObj([("agent", JStr(name)), ("message", JStr(message))])), Sleep(100),
     Emit("agent_done", JObj([("agent", JStr(name)), ("output", JStr(output))])), Sleep(100)]
  }

  function DoneEvent(mock: bool): Step {
    Emit("pipeline_done", JObj([("message", JStr("Pipeline complete!")), ("model", JStr(Model)), ("mock", JBool(mock))]))
  }

  /** The generator's output for the given agent texts. */
  function StreamSchedule(mock: bool, o: AgentOutputs): seq<Step> {
    AgentPair(AgentNames[0], StartMessages[0], o.planner)
    + AgentPair(AgentNames[1], StartMessages[1], o.coder)
    + AgentPair(AgentNames[2], StartMessages[2], o.reviewer)
    + AgentPair(AgentNames[3], StartMessages[3], o.explainer)
    + [DoneEvent(mock)]
  }

  /** `stream_pipeline`: a 400 for a blank request, otherwise the generated steps. */
  method StreamPipeline(request: string, env: Option<string>, a: Agents) returns (r: Result<seq<Step>, HttpError>)
    ensures r.Err? <==> CheckRequest(request).Some?
    ensures r.Err? ==> r.error == HttpError(400, "Request cannot be empty")
    ensures r.Ok? ==> r.value == StreamSchedule(IsMock(env), Chain(a, request))
  {
    var bad := CheckRequest(request);
    if bad.Some? {
      return Err(bad.value);
    }
    var steps := Generate(request, env, a);
    return Ok(steps);
  }

  /** The `generate` coroutine, appending what it yields and sleeps. */
  method Generate(request: string, env: Option<string>, a: Agents) returns (steps: seq<Step>)
    ensures steps == StreamSchedule(IsMock(env), Chain(a, request))
  {
    var isMock := IsMock(env);
    var plannerOut := "";
    var coderOut := "";
    var reviewerOut := "";

    steps := [Emit("agent_start", JObj([("agent", JStr("PlannerAgent")), ("message", JStr("Analyzing your DevOps request..."))]))];
    steps := steps + [Sleep(100)];
    plannerOut := a.planner(request);
    steps := steps + [Emit("agent_done", JObj([("agent", JStr("PlannerAgent")), ("output", JStr(plannerOut))]))];
    steps := steps + [Sleep(100)];

    steps := steps + [Emit("agent_start", JObj([("agent", JStr("CodeAgent")), ("message", JStr("Generating Terraform & CI/CD code..."))]))];
    steps := steps + [Sleep(100)];
    coderOut := a.coder(plannerOut, request);
    steps := steps + [Emit("agent_done", JObj([("agent", JStr("CodeAgent")), ("output", JStr(coderOut))]))];
    steps := steps + [Sleep(100)];

    steps := steps + [Emit("agent_start", JObj([("agent", JStr("ReviewAgent")), ("message", JStr("Reviewing code for security & best practices..."))]))];
    steps := steps + [Sleep(100)];
    reviewerOut := a.reviewer(coderOut, plannerOut);
    steps := steps + [Emit("agent_done", JObj([("agent", JStr("ReviewAgent")), ("output", JStr(reviewerOut))]))];
    steps := steps + [Sleep(100)];

    steps := steps + [Emit("agent_start", JObj([("agent", JStr("ExplainerAgent")), ("message", JStr("Writing plain-English explanation..."))]))];
    steps := steps + [Sleep(100)];
    var explainerOut := a.explainer(plannerOut, coderOut, reviewerOut, request);
    steps := steps + [Emit("agent_done", JObj([("agent", JStr("ExplainerAgent")), ("output", JStr(explainerOut))]))];
    steps := steps + [Sleep(100)];

    steps := steps + [DoneEvent(isMock)];
  }

  // ---------------------------------------------------------------------------
  // Properties of the stream
  // ---------------------------------------------------------------------------

  /** The name a payload carries in its `agent` field. */
  function AgentField(ev: (string, Json)): Option<Json> {
    if ev.1.JObj? then Get(ev.1.fields, "agent") else None
  }

  /**
   * The stream's events: for each agent in declared order exactly one
   * `agent_start` then one `agent_done` naming it, the latter carrying that
   * agent's output; then `pipeline_done` with the model and the mock flag last.
   */
  lemma StreamEvents(mock: bool, o: AgentOutputs)
    ensures var evs := Events(StreamSchedule(mock, o));
      && |evs| == 9
      && (forall i :: 0 <= i < 4 ==>
            && evs[2 * i].0 == "agent_start" && AgentField(evs[2 * i]) == Some(JStr(AgentNames[i]))
            && evs[2 * i + 1] == ("agent_done", JObj([("agent", JStr(AgentNames[i])), ("output", JStr(OutputList(o)[i]))])))
      && evs[8] == ("pipeline_done", JObj([("message", JStr("Pipeline complete!")), ("model", JStr(Model)), ("mock", JBool(mock))]))
  {
    var s := StreamSchedule(mock, o);
    var p0 := AgentPair(AgentNames[0], StartMessages[0], o.planner);
    var p1 := AgentPair(AgentNames[1], StartMessages[1], o.coder);
    var p2 := AgentPair(AgentNames[2], StartMessages[2], o.reviewer);
    var p3 := AgentPair(AgentNames[3], StartMessages[3], o.explainer);
    EventsAppend(p0 + p1 + p2 + p3, [DoneEvent(mock)]);
    EventsAppend(p0 + p1 + p2, p3);
    EventsAppend(p0 + p1, p2);
    EventsAppend(p0, p1);
    PairEvents(AgentNames[0], StartMessages[0], o.planner);
    PairEvents(AgentNames[1], StartMessages[1], o.coder);
    PairEvents(AgentNames[2], StartMessages[2], o.reviewer);
    PairEvents(AgentNames[3], StartMessages[3], o.explainer);
  }

  lemma PairEvents(name: string, message: string, output: string)
    ensures Events(AgentPair(name, message, output)) ==
              [("agent_start", JObj([("agent", JStr(name)), ("message", JStr(message))])),
               ("agent_done", JObj([("agent", JStr(name)), ("output", JStr(output))]))]
  {
    var p := AgentPair(name, message, output);
    assert Events(p[3..]) == [];
    assert Events(p[2..]) == [("agent_done", JObj([("agent", JStr(name)), ("output", JStr(output))]))];
    assert Events(p[1..]) == Events(p[2..]);
  }

  /** The stream spends 100 ms after each of its eight agent frames. */
  lemma StreamDelay(mock: bool, o: AgentOutputs)
    ensures TotalDelay(StreamSchedule(mock, o)) == 800
  {
    var p0 := AgentPair(AgentNames[0], StartMessages[0], o.planner);
    var p1 := AgentPair(AgentNames[1], StartMessages[1], o.coder);
    var p2 := AgentPair(AgentNames[2], StartMessages[2], o.reviewer);
    var p3 := AgentPair(AgentNames[3], StartMessages[3], o.explainer);
    EventsAppend(p0 + p1 + p2 + p3, [DoneEvent(mock)]);
    EventsAppend(p0 + p1 + p2, p3);
    EventsAppend(p0 + p1, p2);
    EventsAppend(p0, p1);
    PairDelay(AgentNames[0], StartMessages[0], o.planner);
    PairDelay(AgentNames[1], StartMessages[1], o.coder);
    PairDelay(AgentNames[2], StartMessages[2], o.reviewer);
    PairDelay(AgentNames[3], StartMessages[3], o.explainer);
  }

  lemma PairDelay(name: string, message: string, output: string)
    ensures TotalDelay(AgentPair(name, message, output)) == 200
  {
    var p := AgentPair(name, message, output);
    assert TotalDelay(p[3..]) == 100;
    assert TotalDelay(p[2..]) == 100;
  }
}
