/**
 * The copilot's home page: a run console whose state cells (pipeline state,
 * active agent, per-agent results, error message, mock flag, last request
 * and the current abort controller) are updated by submit, by each streamed
 * event, by a thrown error and by reset.
 */
module HomePage {
  import opened Wrappers
  import opened Text
  import opened Json
  import opened PyDict
  import opened Sse
  import StreamRoute
  import BackendApp

  datatype RunState = Idle | Running | Done | Failed

  /** One agent's card: the raw `agent` value, what it shows, `running` or `done`. */
  datatype AgentEntry = AgentEntry(agent: Option<Json>, output: Json, status: string)

  /** The page's state cells, as one value. */
  datatype Console = Console(
    input: string,
    state: RunState,
    activeAgent: Option<Json>,
    results: map<string, AgentEntry>,
    errorMsg: Option<Json>,
    isMock: Json,
    lastRequest: string)

  const Initial: Console := Console("", Idle, None, map[], None, JBool(false), "")

  /** What was thrown at the `catch`: its `name` and `message`, each possibly absent. */
  datatype Thrown = Thrown(name: Option<string>, message: Option<string>)

  /** `v || d` for a property read `v`. */
  function OrDefault(v: Option<Json>, d: Json): (r: Json)
    ensures v.Some? && JsTruthy(v.value) ==> r == v.value
    ensures !(v.Some? && JsTruthy(v.value)) ==> r == d
  {
    if v.Some? && JsTruthy(v.value) then v.value else d
  }

  /** `v ?? d`: only a missing value or `null` is replaced. */
  function Coalesce(v: Option<Json>, d: Json): (r: Json)
    ensures v.Some? && !v.value.JNull? ==> r == v.value
    ensures v.None? || v.value.JNull? ==> r == d
  {
    if v.Some? && !v.value.JNull? then v.value else d
  }

  /** `String(v)` for the values a payload can hold (a float renders as the empty string here). */
  function JsString(j: Json): string {
    match j
    case JNull => "null"
    case JBool(b) => if b then "true" else "false"
    case JInt(i) => IntToDecimal(i)
    case JFloat(_) => ""
    case JStr(s) => s
    case JArr(items) => Join(",", seq(|items|, k requires 0 <= k < |items| =>
                                            if items[k].JNull? then "" else JsString(items[k])))
    case JObj(_) => "[object Object]"
  }

  /** The key `[agentName]` stores under: `"undefined"` when the payload has no `agent`. */
  function KeyOf(agent: Option<Json>): (k: string)
    ensures agent.Some? && agent.value.JStr? ==> k == agent.value.s
    ensures agent.None? ==> k == "undefined"
  {
    match agent
    case None => "undefined"
    case Some(v) => JsString(v)
  }

  /**
   * `handleSubmit(requestText)`: the request is `requestText ?? input`,
   * trimmed; an empty one, or a run already in progress, changes nothing.
   */
  function Submitted(c: Console, requestText: Option<string>): (r: Console)
    ensures var req := JsTrim(requestText.GetOr(c.input));
      && (req == "" || c.state == Running ==> r == c)
      && (req != "" && c.state != Running ==>
            r == Console(c.input, Running, None, map[], None, JBool(false), req))
  {
    var req := JsTrim(requestText.GetOr(c.input));
    if req == "" || c.state == Running then c
    else c.(results := map[], activeAgent := None, errorMsg := None, isMock := JBool(false),
            lastRequest := req, state := Running)
  }

  /** The four handled kinds read a member of the payload, which throws when it is `null`. */
  predicate Throws(kind: string, data: Json) {
    kind in {"agent_start", "agent_done", "pipeline_done", "error"} && data.JNull?
  }

  /**
   * The event callback: one streamed event applied to the page state. On a
   * `null` payload the callback throws at its first member read, after the
   * setters that `pipeline_done` calls before it reads `mock`.
   */
  function Handle(c: Console, kind: string, data: Json): Console {
    if kind == "agent_start" then
      if data.JNull? then c
      else
        var name := Field(data, "agent");
        c.(activeAgent := name,
           results := c.results[KeyOf(name) := AgentEntry(name, OrDefault(Field(data, "message"), JStr("Processing...")), "running")])
    else if kind == "agent_done" then
      if data.JNull? then c
      else
        var name := Field(data, "agent");
        c.(results := c.results[KeyOf(name) := AgentEntry(name, OrDefault(Field(data, "output"), JStr("")), "done")])
    else if kind == "pipeline_done" then
      if data.JNull? then c.(activeAgent := None, state := Done)
      else c.(activeAgent := None, state := Done, isMock := Coalesce(Field(data, "mock"), JBool(false)))
    else if kind == "error" then
      if data.JNull? then c
      else c.(errorMsg := Some(OrDefault(Field(data, "message"), JStr("An error occurred"))), state := Failed)
    else c
  }

  /** The `catch` around the run: an abort is silent, anything else is an error. */
  function Caught(c: Console, err: Thrown): (r: Console)
    ensures err.name == Some("AbortError") ==> r == c
    ensures err.name != Some("AbortError") ==>
              && r.state == Failed
              && r.errorMsg == Some(if err.message.Some? && err.message.value != "" then JStr(err.message.value)
                                    else JStr("Failed to connect to backend"))
              && r == c.(state := r.state, errorMsg := r.errorMsg)
  {
    if err.name == Some("AbortError") then c
    else
      var msg := match err.message case Some(m) => Some(JStr(m)) case None => None;
      c.(errorMsg := Some(OrDefault(msg, JStr("Failed to connect to backend"))), state := Failed)
  }

  /** `handleReset`; the mock flag and the last request are kept. */
  function AfterReset(c: Console): Console {
    c.(state := Idle, results := map[], activeAgent := None, errorMsg := None, input := "")
  }

  /** The page state after the events a schedule emits, up to the first one the callback throws on. */
  function Replay(c: Console, steps: seq<Step>): Console
    decreases |steps|
  {
    if steps == [] then c
    else match steps[0]
      case Emit(k, d) => if Throws(k, d) then Handle(c, k, d) else Replay(Handle(c, k, d), steps[1..])
      case Sleep(_) => Replay(c, steps[1..])
  }

  /** No event of the schedule makes the callback throw. */
  predicate NoThrow(steps: seq<Step>) {
    forall k :: 0 <= k < |steps| && steps[k].Emit? ==> !Throws(steps[k].kind, steps[k].data)
  }

  // ---------------------------------------------------------------------------
  // The page itself, with its cells as fields
  // ---------------------------------------------------------------------------

  class RunConsole {
    var input: string
    var state: RunState
    var activeAgent: Option<Json>
    var results: map<string, AgentEntry>
    var errorMsg: Option<Json>
    var isMock: Json
    var lastRequest: string
    /** `abortRef.current`: the number of the current controller, 0 for none. */
    var controller: nat
    /** How many controllers have been created so far. */
    var issued: nat
    /** The controllers `abort()` has been called on. */
    var aborted: set<nat>

    function Value(): Console
      reads this
    {
      Console(input, state, activeAgent, results, errorMsg, isMock, lastRequest)
    }

    /** Every controller number in use has been issued. */
    predicate Valid()
      reads this
    {
      controller <= issued && forall a :: a in aborted ==> a <= issued
    }

    constructor ()
      ensures Valid() && Value() == Initial && controller == 0 && aborted == {}
    {
      input, state, activeAgent, results, errorMsg := "", Idle, None, map[], None;
      isMock, lastRequest := JBool(false), "";
      controller, issued, aborted := 0, 0, {};
    }

    /** Typing into the request box. */
    method Type(text: string)
      modifies this
      ensures Value() == old(Value()).(input := text)
      ensures controller == old(controller) && issued == old(issued) && aborted == old(aborted)
    {
      input := text;
    }

    /** `handleSubmit`: on a run that starts, the previous controller is aborted and a new one installed. */
    method Submit(requestText: Option<string>) returns (started: bool)
      requires Valid()
      modifies this
      ensures Valid()
      ensures started <==> JsTrim(requestText.GetOr(old(input))) != "" && old(state) != Running
      ensures Value() == Submitted(old(Value()), requestText)
      ensures started ==>
                && aborted == old(aborted) + (if old(controller) != 0 then {old(controller)} else {})
                && controller == old(issued) + 1 && controller !in aborted
      ensures !started ==> controller == old(controller) && aborted == old(aborted) && issued == old(issued)
    {
      var req := JsTrim(requestText.GetOr(input));
      if req == "" || state == Running {
        return false;
      }
      results := map[];
      activeAgent := None;
      errorMsg := None;
      isMock := JBool(false);
      lastRequest := req;
      state := Running;
      Renew();
      return true;
    }

    /** `abortRef.current?.abort()` followed by installing a new controller. */
    method Renew()
      requires Valid()
      modifies this
      ensures Valid() && Value() == old(Value())
      ensures aborted == old(aborted) + (if old(controller) != 0 then {old(controller)} else {})
      ensures issued == old(issued) + 1 && controller == issued && controller !in aborted
    {
      if controller != 0 {
        aborted := aborted + {controller};
      }
      issued := issued + 1;
      controller := issued;
    }

    /** The event callback; `threw` says that it threw a `TypeError` at a member read on a `null` payload. */
    method Apply(kind: string, data: Json) returns (threw: bool)
      modifies this
      ensures threw <==> Throws(kind, data)
      ensures Value() == Handle(old(Value()), kind, data)
      ensures controller == old(controller) && issued == old(issued) && aborted == old(aborted)
    {
      threw := false;
      if kind == "agent_start" {
        if data.JNull? {
          return true;
        }
        var agentName := Field(data, "agent");
        activeAgent := agentName;
        results := results[KeyOf(agentName) := AgentEntry(agentName, OrDefault(Field(data, "message"), JStr("Processing...")), "running")];
      } else if kind == "agent_done" {
        if data.JNull? {
          return true;
        }
        var agentName := Field(data, "agent");
        results := results[KeyOf(agentName) := AgentEntry(agentName, OrDefault(Field(data, "output"), JStr("")), "done")];
      } else if kind == "pipeline_done" {
        activeAgent := None;
        state := Done;
        if data.JNull? {
          return true;
        }
        isMock := Coalesce(Field(data, "mock"), JBool(false));
      } else if kind == "error" {
        if data.JNull? {
          return true;
        }
        errorMsg := Some(OrDefault(Field(data, "message"), JStr("An error occurred")));
        state := Failed;
      }
    }

    /** The `catch` clause. */
    method Catch(err: Thrown)
      modifies this
      ensures Value() == Caught(old(Value()), err)
      ensures controller == old(controller) && issued == old(issued) && aborted == old(aborted)
    {
      if err.name != Some("AbortError") {
        var msg := if err.message.Some? && err.message.value != "" then err.message.value else "Failed to connect to backend";
        errorMsg := Some(JStr(msg));
        state := Failed;
      }
    }

    /** `handleReset`: aborts the current controller, which stays installed. */
    method Reset()
      modifies this
      ensures Value() == AfterReset(old(Value()))
      ensures controller == old(controller) && issued == old(issued)
      ensures aborted == old(aborted) + (if old(controller) != 0 then {old(controller)} else {})
    {
      if controller != 0 {
        aborted := aborted + {controller};
      }
      state := Idle;
      results := map[];
      activeAgent := None;
      errorMsg := None;
      input := "";
    }
  }

  // ---------------------------------------------------------------------------
  // Properties of the event handler
  // ---------------------------------------------------------------------------

  /** Kinds other than the four handled ones change nothing; `complete` is one of them. */
  lemma IgnoredKinds(c: Console, kind: string, data: Json)
    requires kind !in {"agent_start", "agent_done", "pipeline_done", "error"}
    ensures Handle(c, kind, data) == c
  {
  }

  /** `agent_done` rewrites that agent's card to `done` and leaves every other card and cell as it was; a `null` payload changes nothing. */
  lemma AgentDoneLocal(c: Console, data: Json, other: string)
    requires other != KeyOf(Field(data, "agent"))
    ensures data.JNull? ==> Handle(c, "agent_done", data) == c
    ensures var r := Handle(c, "agent_done", data);
      && (!data.JNull? ==> KeyOf(Field(data, "agent")) in r.results && r.results[KeyOf(Field(data, "agent"))].status == "done")
      && (other in r.results <==> other in c.results)
      && (other in c.results ==> r.results[other] == c.results[other])
      && r.state == c.state && r.activeAgent == c.activeAgent && r.errorMsg == c.errorMsg && r.isMock == c.isMock
  {
  }

  /**
   * Replaying a concatenation replays its parts in turn, unless the callback
   * throws in the first part, which then ends the replay.
   */
  lemma {:induction false} ReplayAppend(c: Console, a: seq<Step>, b: seq<Step>)
    ensures NoThrow(a) ==> Replay(c, a + b) == Replay(Replay(c, a), b)
    ensures !NoThrow(a) ==> Replay(c, a + b) == Replay(c, a)
    decreases |a|
  {
    if a != [] {
      assert (a + b)[1..] == a[1..] + b;
      assert forall k :: 0 <= k < |a[1..]| ==> a[1..][k] == a[k + 1];
      assert NoThrow(a) <==> (a[0].Emit? ==> !Throws(a[0].kind, a[0].data)) && NoThrow(a[1..]) by {
        if (a[0].Emit? ==> !Throws(a[0].kind, a[0].data)) && NoThrow(a[1..]) {
          forall k | 0 < k < |a| && a[k].Emit? ensures !Throws(a[k].kind, a[k].data) {
            assert a[k] == a[1..][k - 1];
          }
        }
      }
      match a[0]
      case Emit(k, d) =>
        if !Throws(k, d) {
          ReplayAppend(Handle(c, k, d), a[1..], b);
        }
      case Sleep(_) => ReplayAppend(c, a[1..], b);
    } else {
      assert a + b == b;
    }
  }

  /**
   * A `null` payload of a handled kind ends the replay; only `pipeline_done`
   * has already finished the run and cleared the active agent by then.
   */
  lemma NullPayloadEnds(c: Console, kind: string, rest: seq<Step>)
    requires kind in {"agent_start", "agent_done", "pipeline_done", "error"}
    ensures kind != "pipeline_done" ==> Replay(c, [Emit(kind, JNull)] + rest) == c
    ensures kind == "pipeline_done" ==> Replay(c, [Emit(kind, JNull)] + rest) == c.(activeAgent := None, state := Done)
  {
    assert ([Emit(kind, JNull)] + rest)[0] == Emit(kind, JNull);
  }

  /** A schedule of two parts throws in neither when neither part throws. */
  lemma NoThrowAppend(a: seq<Step>, b: seq<Step>)
    requires NoThrow(a) && NoThrow(b)
    ensures NoThrow(a + b)
  {
    forall k | 0 <= k < |a + b| && (a + b)[k].Emit?
      ensures !Throws((a + b)[k].kind, (a + b)[k].data)
    {
      if k >= |a| {
        assert (a + b)[k] == b[k - |a|];
      }
    }
  }

  /** Events that are neither `pipeline_done` nor `error` never move the run state. */
  lemma {:induction false} ReplayKeepsState(c: Console, steps: seq<Step>)
    requires forall k :: 0 <= k < |steps| && steps[k].Emit? ==> steps[k].kind !in {"pipeline_done", "error"}
    ensures Replay(c, steps).state == c.state
    decreases |steps|
  {
    if steps != [] {
      assert forall k :: 0 <= k < |steps[1..]| ==> steps[1..][k] == steps[k + 1];
      match steps[0]
      case Emit(k, d) => ReplayKeepsState(Handle(c, k, d), steps[1..]);
      case Sleep(_) => ReplayKeepsState(c, steps[1..]);
    }
  }

  /**
   * The stream route's fallback ends with `complete`, which the handler does
   * not recognise, so a run fed only that stream stays `running`.
   */
  lemma FallbackNeverFinishes(c: Console, request: Json, agents: seq<(string, string)>)
    ensures Replay(c, StreamRoute.MockSchedule(request, agents)).state == c.state
  {
    var s := StreamRoute.MockSchedule(request, agents);
    forall k | 0 <= k < |s| && s[k].Emit?
      ensures s[k].kind !in {"pipeline_done", "error"}
    {
      if 0 < k < |s| - 1 {
        StreamRoute.ScheduleAt(request, agents, (k - 1) / 4, (k - 1) % 4);
      }
    }
    ReplayKeepsState(c, s);
  }

  /** One backend agent pair leaves that agent's card `done` with its output and the agent active. */
  lemma ReplayPair(c: Console, name: string, message: string, output: string)
    ensures Replay(c, BackendApp.AgentPair(name, message, output)) ==
              c.(activeAgent := Some(JStr(name)),
                 results := c.results[name := AgentEntry(Some(JStr(name)), JStr(output), "done")])
  {
    var start := JObj([("agent", JStr(name)), ("message", JStr(message))]);
    var done := JObj([("agent", JStr(name)), ("output", JStr(output))]);
    PairFrames(c, name, message, output);
    assert Field(start, "agent") == Some(JStr(name));
    assert Field(done, "agent") == Some(JStr(name));
    assert Field(done, "output") == Some(JStr(output)) by {
      assert done.fields[1..] == [("output", JStr(output))];
      assert Get(done.fields, "output") == Get(done.fields[1..], "output");
    }
    HandleStart(c, name, start);
    var c1 := Handle(c, "agent_start", start);
    HandleDone(c1, name, done);
    assert c1.results[name := AgentEntry(Some(JStr(name)), JStr(output), "done")]
           == c.results[name := AgentEntry(Some(JStr(name)), JStr(output), "done")];
  }

  /** An `agent_start` frame naming an agent makes it active and sets its card running. */
  lemma HandleStart(c: Console, name: string, data: Json)
    requires Field(data, "agent") == Some(JStr(name))
    ensures Handle(c, "agent_start", data) ==
            c.(activeAgent := Some(JStr(name)),
               results := c.results[name := AgentEntry(Some(JStr(name)), OrDefault(Field(data, "message"), JStr("Processing...")), "running")])
  {
  }

  /** An `agent_done` frame naming an agent sets its card done with the output. */
  lemma HandleDone(c: Console, name: string, data: Json)
    requires Field(data, "agent") == Some(JStr(name)) && Field(data, "output").Some? && Field(data, "output").value.JStr?
    ensures Handle(c, "agent_done", data) ==
            c.(results := c.results[name := AgentEntry(Some(JStr(name)), Field(data, "output").value, "done")])
  {
  }

  /** An agent pair's two frames are handled in turn; its two sleeps change nothing. */
  lemma PairFrames(c: Console, name: string, message: string, output: string)
    ensures var start := JObj([("agent", JStr(name)), ("message", JStr(message))]);
      var done := JObj([("agent", JStr(name)), ("output", JStr(output))]);
      Replay(c, BackendApp.AgentPair(name, message, output)) == Handle(Handle(c, "agent_start", start), "agent_done", done)
  {
    var p := BackendApp.AgentPair(name, message, output);
    var start := JObj([("agent", JStr(name)), ("message", JStr(message))]);
    var done := JObj([("agent", JStr(name)), ("output", JStr(output))]);
    var c1 := Handle(c, "agent_start", start);
    var c2 := Handle(c1, "agent_done", done);
    assert p[1..][1..] == p[2..] && p[2..][1..] == p[3..] && p[3..][1..] == [];
    assert Replay(c, p) == Replay(c1, p[1..]);
    assert Replay(c1, p[1..]) == Replay(c1, p[2..]);
    assert Replay(c1, p[2..]) == Replay(c2, p[3..]);
    assert Replay(c2, p[3..]) == c2;
  }

  /**
   * The backend's stream drives a run to `done`: every agent's card is
   * `done` with its output, no agent is active, and the mock flag is the
   * stream's.
   */
  lemma BackendStreamFinishes(c: Console, mock: bool, o: BackendApp.AgentOutputs)
    ensures var r := Replay(c, BackendApp.StreamSchedule(mock, o));
      && r.state == Done && r.activeAgent == None && r.isMock == JBool(mock)
      && r.errorMsg == c.errorMsg
      && forall i :: 0 <= i < 4 ==>
           BackendApp.AgentNames[i] in r.results
           && r.results[BackendApp.AgentNames[i]] ==
                AgentEntry(Some(JStr(BackendApp.AgentNames[i])), JStr(BackendApp.OutputList(o)[i]), "done")
  {
    var n := BackendApp.AgentNames;
    var m := BackendApp.StartMessages;
    var pairs := BackendApp.AgentPair(n[0], m[0], o.planner) + BackendApp.AgentPair(n[1], m[1], o.coder)
                 + BackendApp.AgentPair(n[2], m[2], o.reviewer) + BackendApp.AgentPair(n[3], m[3], o.explainer);
    assert BackendApp.StreamSchedule(mock, o) == pairs + [BackendApp.DoneEvent(mock)];
    var p0 := BackendApp.AgentPair(n[0], m[0], o.planner);
    var p1 := BackendApp.AgentPair(n[1], m[1], o.coder);
    var p2 := BackendApp.AgentPair(n[2], m[2], o.reviewer);
    var p3 := BackendApp.AgentPair(n[3], m[3], o.explainer);
    PairNoThrow(n[0], m[0], o.planner);
    PairNoThrow(n[1], m[1], o.coder);
    PairNoThrow(n[2], m[2], o.reviewer);
    PairNoThrow(n[3], m[3], o.explainer);
    NoThrowAppend(p0, p1);
    NoThrowAppend(p0 + p1, p2);
    NoThrowAppend(p0 + p1 + p2, p3);
    ReplayAppend(c, pairs, [BackendApp.DoneEvent(mock)]);
    FourPairs(c, o);
    var c4 := Replay(c, pairs);
    DoneFrame(c4, mock);
    var e := seq(4, i requires 0 <= i < 4 => AgentEntry(Some(JStr(n[i])), JStr(BackendApp.OutputList(o)[i]), "done"));
    assert c4.results == c.results[n[0] := e[0]][n[1] := e[1]][n[2] := e[2]][n[3] := e[3]];
  }

  /** The four agent pairs leave the last agent active and every card `done` with its output. */
  lemma FourPairs(c: Console, o: BackendApp.AgentOutputs)
    ensures var n := BackendApp.AgentNames;
      var m := BackendApp.StartMessages;
      var out := BackendApp.OutputList(o);
      Replay(c, BackendApp.AgentPair(n[0], m[0], o.planner) + BackendApp.AgentPair(n[1], m[1], o.coder)
                + BackendApp.AgentPair(n[2], m[2], o.reviewer) + BackendApp.AgentPair(n[3], m[3], o.explainer))
      == c.(activeAgent := Some(JStr(n[3])),
            results := c.results[n[0] := AgentEntry(Some(JStr(n[0])), JStr(out[0]), "done")]
                                [n[1] := AgentEntry(Some(JStr(n[1])), JStr(out[1]), "done")]
                                [n[2] := AgentEntry(Some(JStr(n[2])), JStr(out[2]), "done")]
                                [n[3] := AgentEntry(Some(JStr(n[3])), JStr(out[3]), "done")])
  {
    var n := BackendApp.AgentNames;
    var m := BackendApp.StartMessages;
    var p0 := BackendApp.AgentPair(n[0], m[0], o.planner);
    var p1 := BackendApp.AgentPair(n[1], m[1], o.coder);
    var p2 := BackendApp.AgentPair(n[2], m[2], o.reviewer);
    var p3 := BackendApp.AgentPair(n[3], m[3], o.explainer);
    PairNoThrow(n[0], m[0], o.planner);
    PairNoThrow(n[1], m[1], o.coder);
    PairNoThrow(n[2], m[2], o.reviewer);
    NoThrowAppend(p0, p1);
    NoThrowAppend(p0 + p1, p2);
    ReplayAppend(c, p0 + p1 + p2, p3);
    ReplayAppend(c, p0 + p1, p2);
    ReplayAppend(c, p0, p1);
    ReplayPair(c, n[0], m[0], o.planner);
    var c1 := Replay(c, p0);
    ReplayPair(c1, n[1], m[1], o.coder);
    var c2 := Replay(c1, p1);
    ReplayPair(c2, n[2], m[2], o.reviewer);
    var c3 := Replay(c2, p2);
    ReplayPair(c3, n[3], m[3], o.explainer);
  }

  /** The backend never sends a `null` payload, so an agent pair never makes the callback throw. */
  lemma PairNoThrow(name: string, message: string, output: string)
    ensures NoThrow(BackendApp.AgentPair(name, message, output))
  {
  }

  /** The `pipeline_done` frame finishes the run with the stream's mock flag. */
  lemma DoneFrame(c: Console, mock: bool)
    ensures Replay(c, [BackendApp.DoneEvent(mock)]) == c.(activeAgent := None, state := Done, isMock := JBool(mock))
  {
    var done := JObj([("message", JStr("Pipeline complete!")), ("model", JStr(BackendApp.Model)), ("mock", JBool(mock))]);
    assert Field(done, "mock") == Some(JBool(mock)) by {
      assert done.fields[1..][1..] == [("mock", JBool(mock))];
      assert Get(done.fields, "mock") == Get(done.fields[1..], "mock") == Get(done.fields[1..][1..], "mock");
    }
    assert Replay(c, [BackendApp.DoneEvent(mock)]) == Replay(Handle(c, "pipeline_done", done), []);
  }
}
