# Nova DevOps Copilot — a verified model of its pipeline core

Nova DevOps Copilot is an infrastructure assistant. A backend collects cloud
alarms, has a language model analyse each one, fixes the confident cases
automatically and queues the rest for a human. A dashboard shows the runs,
the incidents and the escalation queue. A second, older "copilot" front end
streams four coding agents (Planner, Code, Review, Explainer) as server-sent
events.

This project models the deterministic core of that system in Dafny:

- **Event-stream framing.** Frames have the shape of the WHATWG HTML Living
  Standard, section 9.2 (server-sent events): `event: <kind>`, `data: <json>`,
  then a blank line. The producers are the Next.js route's mock schedule and
  the FastAPI generator. `Sse`, `StreamRoute` and `BackendApp` model them,
  and reading a rendered stream back is proved to give exactly the emitted
  events.
- **The copilot's run console** (`HomePage`). Its state cells are a class
  updated on submit, on each streamed event, on an error and on reset.
- **The event pipeline server** (`BackendMain`) and its four agents:
  - `Monitor`: severity sort, live alarm conversion and fallback;
  - `Reason`: fence stripping and the deterministic mock analysis;
  - `Act`: the `auto_fix` guard and the fix table;
  - `Escalate`: the in-memory escalation queue.

  The server part covers the run's partition into fixed and escalated
  events with its counters, the 20-run newest-first history, escalation
  resolution and the dashboard histograms.
- **The incident pipeline** and its API:
  - `SrcPipeline`: status reconciliation and the run summary;
  - `ReasonAgent`: normalisation and the `auto_remediable` rule;
  - `ActAgent`: eligibility, playbook dispatch and bucket names;
  - `EscalateAgent`: the human-in-the-loop filter and its fallback;
  - `SrcApi`: the run cache, incident lookup and approval.
- **The dashboard front end:**
  - `ApiClient`: base URL, configuration guard, timeout and error texts,
    the resolve request;
  - `DashboardPage`: the dashboard fold and the incident status maps;
  - `EscalationQueue`: the single in-flight `resolving` cell;
  - `IncidentCard`: the style fallbacks and the `approving` cell.

Shared modules:

- `Wrappers`: Option and Result.
- `Text`: Python's `strip`/`split` and JavaScript's `trim`, search, and
  decimal rendering.
- `Json`: values, `json.dumps` and `JSON.stringify`.
- `PyDict`: insertion-ordered dictionaries.

Code that changes state step by step is modelled as classes and methods
whose `ensures` give the new state:
- the console, the escalation store and the server's run history;
- the incident service;
- the dashboard page and the two components.

Each method is specified through a pure transition or specification
function, and lemmas about that function carry the properties.

Almost every input arrives from outside and is passed in as a parameter:
- the language model's reply, `json.loads`, boto3 calls and `fetch`;
- clocks, uuids and Python's `str()` of floats;
- the fixture prose.

A Python `KeyError`, `TypeError` or `AttributeError` becomes an `Err`
naming it.

Behaviour the authors evidently did not intend is modelled as written and
stated as a lemma. The one case with an evident correction is a finding
below: the rest of the model uses the corrected definition.

## Model

| member | source | states |
|---|---|---|
| Sse.ParseFrameText | frontend/src/app/api/pipeline/stream/route.ts:211-213 | a frame `event: k`, `data: p`, blank line, followed by anything, reads back as exactly `k`, `p` and the rest, for a kind and payload without line feeds |
| Sse.DecodeRender | frontend/src/app/api/pipeline/stream/route.ts:211-213 | reading the bytes of a whole rendered schedule gives back exactly the (kind, JSON text) frames it emitted, in order |
| Sse.EventsAppend | frontend/src/app/api/pipeline/stream/route.ts:224-236 | the events and the total sleep of two schedules run one after the other are those of each, concatenated and added |
| StreamRoute.RequestOf | frontend/src/app/api/pipeline/stream/route.ts:179-180 | a `null` body has no request (reading its property throws); otherwise the request is truthy, and it is the body's own `request` whenever that is truthy |
| StreamRoute.Blocks | frontend/src/app/api/pipeline/stream/route.ts:224-236 | the first `n` agents' loop iterations produce exactly four steps each |
| StreamRoute.MockStart | frontend/src/app/api/pipeline/stream/route.ts:210-239 | the `start` callback's loop appends exactly the mock schedule: `start`, four steps per agent, `complete` |
| StreamRoute.Post | frontend/src/app/api/pipeline/stream/route.ts:178-205 | a `null` body fails; otherwise the upstream stream is proxied exactly when the URL is set, does not contain `localhost`, and the upstream answered ok with a body; every other case (non-ok, no body, an exception) streams the mock schedule for the request |
| StreamRoute.BlocksAt | frontend/src/app/api/pipeline/stream/route.ts:224-236 | step `4i + j` of the loop's output is step `j` of agent `i`'s iteration |
| StreamRoute.ScheduleAt | frontend/src/app/api/pipeline/stream/route.ts:215-236 | step `1 + 4i + j` of the mock schedule is step `j` of agent `i`'s iteration |
| StreamRoute.AgentDoneFields | frontend/src/app/api/pipeline/stream/route.ts:228-234 | an `agent_done` payload carries the agent's name, `index: i`, its output, `duration_ms: 800 + 200i` and `mock: true` |
| StreamRoute.MockScheduleLayout | frontend/src/app/api/pipeline/stream/route.ts:215-238 | the schedule has `4n + 2` steps: `start` with the request, `agents: 4` and `mock: true`; then per agent in order `agent_start` with its name and index, a sleep of `800 + 200i`, `agent_done` with the same name and index, a 200 ms sleep; then `complete` with `mock: true` |
| StreamRoute.BlocksDelay | frontend/src/app/api/pipeline/stream/route.ts:227-235 | the loop's first `n` iterations sleep `1000n + 100n(n-1)` ms in total |
| StreamRoute.MockTotalDelay | frontend/src/app/api/pipeline/stream/route.ts:217-236 | with the route's four agents the mock stream sleeps 5200 ms in total |
| StreamRoute.CompleteOnlyLast | frontend/src/app/api/pipeline/stream/route.ts:238-239 | `complete` is emitted only as the very last step; nothing follows it |
| StreamRoute.MockEncodable | frontend/src/app/api/pipeline/stream/route.ts:211-238 | every frame of the mock stream, for any request string, has a kind without line feeds and a payload `JSON.stringify` writes on one line |
| BackendApp.IsMock | backend/app/main.py:82-82 | mock mode holds exactly when `USE_MOCK` is unset or lower-cases to `true` |
| BackendApp.CheckRequest | backend/app/main.py:78-79 | a request is refused, with 400 "Request cannot be empty", exactly when every character of it is whitespace |
| BackendApp.SameFraming | backend/app/main.py:154-155 | `_sse_event(e, d)` reads back as the frame `e` with `json.dumps(d)`, the same framing the front end's mock route produces with `JSON.stringify` |
| BackendApp.RunFullPipeline | backend/app/main.py:75-93 | a blank request is the 400 error; otherwise the response echoes the request, lists PlannerAgent, CodeAgent, ReviewAgent, ExplainerAgent with their outputs in that order, and carries the mock flag |
| BackendApp.StreamPipeline | backend/app/main.py:96-100 | a blank request is the 400 error before anything is generated; otherwise the stream is the generator's schedule |
| BackendApp.Generate | backend/app/main.py:102-149 | the generator yields and sleeps exactly the stream schedule, each agent given the outputs produced before it |
| BackendApp.StreamEvents | backend/app/main.py:116-149 | the stream emits nine events: `agent_start` then `agent_done` for PlannerAgent, CodeAgent, ReviewAgent, ExplainerAgent strictly in that order, each `agent_done` naming the same agent, then `pipeline_done` with the mock flag |
| BackendApp.PairEvents | backend/app/main.py:117-121 | one agent's part of the stream is its `agent_start` frame followed by its `agent_done` frame |
| BackendApp.StreamDelay | backend/app/main.py:118-142 | the stream sleeps 100 ms after each of its eight agent frames, 800 ms in all |
| BackendApp.PairDelay | backend/app/main.py:118-121 | one agent's part sleeps 200 ms |
| HomePage.OrDefault | frontend/src/app/page.tsx:54 | `v \|\| d` is the read value when it is present and truthy, and the default otherwise |
| HomePage.Coalesce | frontend/src/app/page.tsx:71 | `v ?? d` replaces only a missing value or `null` |
| HomePage.KeyOf | frontend/src/app/page.tsx:48-52 | a string agent name is its own results key; a payload without `agent` stores under `"undefined"` |
| HomePage.Submitted | frontend/src/app/page.tsx:24-34 | the request is `requestText ?? input` trimmed; an empty request or a run already in progress changes nothing; otherwise results, active agent, error and mock flag are cleared, the trimmed request recorded and the state set to running |
| HomePage.Caught | frontend/src/app/page.tsx:77-82 | an `AbortError` changes nothing; any other error sets the error state with its message, or "Failed to connect to backend" when it has none, and touches no other cell |
| HomePage.RunConsole.constructor | frontend/src/app/page.tsx:14-21 | the page starts idle, with empty input and results, no error, mock false and no controller |
| HomePage.RunConsole.Type | frontend/src/app/page.tsx:154 | typing replaces the input cell only |
| HomePage.RunConsole.Submit | frontend/src/app/page.tsx:24-38 | a run starts exactly when the trimmed request is non-empty and no run is in progress; the cells become `Submitted`'s; on a start the previous controller (if any) is aborted and a fresh, unaborted one installed, otherwise no controller changes |
| HomePage.RunConsole.Renew | frontend/src/app/page.tsx:37-38 | the current controller is aborted and a newly issued one installed; the page cells are unchanged |
| HomePage.RunConsole.Apply | frontend/src/app/page.tsx:46-76 | the event callback applies `Handle` to the cells and leaves the controllers alone; it throws exactly when an `agent_start`, `agent_done`, `pipeline_done` or `error` event carries a `null` payload, and `pipeline_done` has by then cleared the active agent and finished the run |
| HomePage.RunConsole.Catch | frontend/src/app/page.tsx:77-82 | the `catch` applies `Caught` and leaves the controllers alone |
| HomePage.RunConsole.Reset | frontend/src/app/page.tsx:85-92 | reset aborts the installed controller, which stays installed, sets the state idle and clears results, active agent, error and input; the mock flag and last request are kept |
| HomePage.IgnoredKinds | frontend/src/app/page.tsx:47-75 | an event kind other than `agent_start`, `agent_done`, `pipeline_done` and `error` (`complete` among them) changes nothing |
| HomePage.AgentDoneLocal | frontend/src/app/page.tsx:58-67 | `agent_done` writes that agent's card as `done` and leaves every other card and every other cell as it was; with a `null` payload it throws before changing anything |
| HomePage.ReplayAppend | frontend/src/app/page.tsx:46-76 | feeding two streams one after the other is feeding the first, then the second, unless an event of the first throws, which ends the stream there |
| HomePage.NullPayloadEnds | frontend/src/app/page.tsx:47-71 | a recognised event with a `null` payload ends the stream: nothing after it is applied, and only `pipeline_done`'s first two setters have run |
| HomePage.ReplayKeepsState | frontend/src/app/page.tsx:68-75 | events that are neither `pipeline_done` nor `error` never move the run state |
| HomePage.FallbackNeverFinishes | frontend/src/app/page.tsx:68-70 | the stream route's mock stream ends with `complete`, which the handler does not recognise, so the run state is what it was before the stream (a run stays `running`) |
| HomePage.ReplayPair | frontend/src/app/page.tsx:47-67 | one backend agent pair leaves that agent active and its card `done` with its output |
| HomePage.HandleStart | frontend/src/app/page.tsx:47-57 | an `agent_start` frame naming an agent makes it the active agent and sets its card running with the message or `Processing...` |
| HomePage.HandleDone | frontend/src/app/page.tsx:58-67 | an `agent_done` frame naming an agent with a string output sets its card `done` with that output and changes nothing else |
| HomePage.DoneFrame | frontend/src/app/page.tsx:68-71 | the `pipeline_done` frame clears the active agent, finishes the run and takes the stream's mock flag |
| HomePage.BackendStreamFinishes | frontend/src/app/page.tsx:47-71 | the backend's stream drives a run to `done`: all four cards `done` with their outputs, no active agent, the mock flag the stream's |
| SrcPipeline.ReconciledFields | backend/src/pipeline.py:42-46 | a remediated incident becomes `REMEDIATED`; otherwise one that is not auto-remediable becomes `PENDING_HITL`; otherwise its status is kept; no other key changes |
| SrcPipeline.ReconcileStatuses | backend/src/pipeline.py:41-46 | the status loop leaves the same number of incidents, each one reconciled against the remediated ids |
| SrcPipeline.PendingAfterReconcile | backend/src/pipeline.py:67 | after the loop, `pending_hitl` counts exactly the incidents that were not remediated and either were not auto-remediable or already awaited a human |
| SrcPipeline.TotalSavingsSum | backend/src/pipeline.py:68-70 | the savings total fails exactly when some incident's saving is not a number; otherwise it is the sum of the savings, a missing one counting 0, and an integer when none is a float |
| SrcPipeline.MissingSavingsAddNothing | backend/src/pipeline.py:69 | an incident without a savings key leaves the total unchanged |
| SrcPipeline.RunPipeline | backend/src/pipeline.py:19-72 | a run succeeds exactly when the reason agent's `incidents` is a list, the act agent does not raise and returns a list of remediations, every incident and remediation carries an id, the escalate agent does not raise on the reconciled incidents and their savings can be summed; its incidents are the reconciled ones, in order; its remediations are the act agent's; its escalations are what the escalate agent returned (`[]` when absent); its summary counts the incidents, the distinct remediated ids, the incidents ending `PENDING_HITL`, and totals the savings; its id is `run-` and the start stamp; its start and completion times, duration and signals are the ones given |
| SrcPipeline.NoRemediationsKey | backend/src/pipeline.py:41 | an act result without `remediations` contributes no remediations and no remediated ids |
| SrcPipeline.RemediatedAtMost | backend/src/pipeline.py:66 | `auto_remediated` never exceeds the number of remediations |
| ReasonAgent.NormalizedOther | backend/src/agents/reason_agent.py:92-102 | normalisation leaves every key other than the id, the flag, the status and the creation time as the incident had it |
| ReasonAgent.KeepsOther | backend/src/agents/reason_agent.py:98-102 | the flag assignment and the two `setdefault`s leave every other key alone |
| ReasonAgent.NormalizedFields | backend/src/agents/reason_agent.py:92-102 | after normalisation an incident has its own id or the generated one; `auto_remediable` is true exactly when the confidence (0.0 when absent) reaches the threshold and the action (`MANUAL_REVIEW` when absent) is one of the three approved playbooks; the status and creation time are the incident's own, or `PENDING` and now |
| ReasonAgent.WithIdFields | backend/src/agents/reason_agent.py:93-94 | ensuring the id keeps an existing id, writes the generated one otherwise, and leaves the confidence, action, status and creation time as they were |
| ReasonAgent.WrittenFields | backend/src/agents/reason_agent.py:98-102 | after the flag assignment and the two `setdefault` calls the flag is the computed one, the id is untouched, and the status and creation time are kept when present and defaulted when missing |
| ReasonAgent.AutoRemediableMeaning | backend/src/agents/reason_agent.py:95-100 | the flag, when computable, is the conjunction of "the confidence is a number at least the threshold" and "the action is one of the three approved playbooks" |
| ReasonAgent.MissingActionNeverAuto | backend/src/agents/reason_agent.py:96-100 | an incident without `recommended_action` is never auto-remediable |
| ReasonAgent.MissingConfidenceNeverAuto | backend/src/agents/reason_agent.py:95-100 | an incident without `confidence_score` is never auto-remediable at a positive threshold |
| ReasonAgent.Normalize | backend/src/agents/reason_agent.py:92-102 | the loop fails only if some incident's normalisation fails (a comparison of a non-number, an unhashable action, a non-dict incident); otherwise each incident is normalised in place, in order, the `k`-th with the `k`-th generated id |
| ReasonAgent.FallbackIncidents | backend/src/agents/reason_agent.py:111-207 | the fallback list has four incidents |
| ReasonAgent.FallbackIncidentFields | backend/src/agents/reason_agent.py:116-136 | a fallback incident carries its id, confidence, action, flag, savings and `PENDING` status |
| ReasonAgent.FallbackIds | backend/src/agents/reason_agent.py:117-186 | the fallback incidents have the distinct ids inc-001 to inc-004, in that order |
| ReasonAgent.FallbackFlagsAgree | backend/src/agents/reason_agent.py:97-101 | at the default threshold 0.85 normalising a fallback incident keeps the `auto_remediable` flag it was written with (true for inc-001, inc-002, inc-004; false for inc-003 at 0.78 with `MANUAL_REVIEW`) and its `PENDING` status |
| ReasonAgent.FallbackIncidentAgrees | backend/src/agents/reason_agent.py:97-101 | any fallback-shaped incident whose written flag follows the threshold-and-playbook rule keeps that flag through normalisation, with status `PENDING` |
| ReasonAgent.FallbackSelection | backend/src/agents/reason_agent.py:80-89 | a reply with no `{` before a `}` selects the fallback incidents |
| ReasonAgent.RunReasonAgent | backend/src/agents/reason_agent.py:60-108 | the agent succeeds exactly when the chosen incidents can be read and each can be normalised; it then returns the chosen incidents, each normalised, with the analysis time and the raw reply |
| ActAgent.TagsOf | backend/src/agents/act_agent.py:118-121 | tags that decode are used as given; tags that do not decode are replaced by the default tags |
| ActAgent.UndecodableTagsDefault | backend/src/agents/act_agent.py:118-135 | a tagging request whose tags do not decode applies cost-center `unassigned` and owner `platform-team`, two tags |
| ActAgent.BucketOf | backend/src/agents/act_agent.py:216 | the bucket name is a suffix of the resource that contains no `:::`, and a resource without `:::` is its own bucket name |
| ActAgent.AutoIncidents | backend/src/agents/act_agent.py:176 | the filter keeps only incidents with a truthy `auto_remediable` and never grows the list |
| ActAgent.AutoIncidentsMembers | backend/src/agents/act_agent.py:176 | an incident is kept exactly when it is in the input and its `auto_remediable` is truthy |
| ActAgent.RemediateWhen | backend/src/agents/act_agent.py:206-230 | an incident gets a remediation exactly when its resource list is truthy and its action is one of the three playbooks; outside demo mode the playbook raises when the cloud call raises, or for tagging when it fails; a record names the incident id and the action first |
| ActAgent.Steps | backend/src/agents/act_agent.py:205-230 | the loop's `k`-th iteration runs the playbook of the `k`-th incident with the cloud's `k`-th outcome |
| ActAgent.CollectAtMost | backend/src/agents/act_agent.py:205-230 | the fallback loop never produces more remediations than eligible incidents |
| ActAgent.CollectRaise | backend/src/agents/act_agent.py:205-230 | the loop raises exactly when some playbook raises, and then with the first such exception, every earlier playbook having returned |
| ActAgent.CollectAppend | backend/src/agents/act_agent.py:205-230 | running the loop over two runs of iterations is running it over the first, then, unless it raised, over the second |
| ActAgent.StepsAppend | backend/src/agents/act_agent.py:205-230 | the iterations over a concatenation are those over each part in turn, the second part seeing the cloud outcomes that follow the first's |
| ActAgent.RemediationsAppend | backend/src/agents/act_agent.py:205-230 | the loop's remediations keep input order: those of a concatenation are those of each part in turn, the second part seeing the cloud outcomes that follow the first's, and an exception in the first part ending the loop |
| ActAgent.Fallback | backend/src/agents/act_agent.py:205-230 | the loop appends exactly the remediations of the eligible incidents, in order, at most one per incident, and stops with the first exception a playbook raises |
| ActAgent.RunActAgent | backend/src/agents/act_agent.py:174-235 | an incident that is not a dictionary makes the filter raise; with no eligible incident the agent returns no remediations and its message without consulting the model; a reply whose brace span parses to an object is returned with `executed_at` set, a non-object is an error; otherwise the fallback loop's remediations are returned with `executed_at`, or its exception propagates |
| EscalateAgent.HitlIncidents | backend/src/agents/escalate_agent.py:46 | the incidents kept for a human are no more than the input and each lacks a truthy `auto_remediable` |
| EscalateAgent.HitlMembers | backend/src/agents/escalate_agent.py:46 | an incident goes to a human exactly when it is in the input and its `auto_remediable` is falsy or missing |
| EscalateAgent.HitlPartition | backend/src/agents/escalate_agent.py:46 | every incident goes to exactly one of the act agent (`backend/src/agents/act_agent.py:176`) and the escalate agent |
| EscalateAgent.ReportJson | backend/src/agents/escalate_agent.py:77-91 | an escalation report carries its incident id, its confidence score and its approval flag under the keys the dashboard reads |
| EscalateAgent.RunEscalateAgent | backend/src/agents/escalate_agent.py:44-94 | with nothing to escalate, an empty list and the message without consulting the model; a parsed dictionary reply keeps every key and gains `generated_at`; a parsed non-dictionary raises; an unparsable reply falls back to the scripted escalation |
| EscalateAgent.FallbackSingle | backend/src/agents/escalate_agent.py:74-94 | the fallback escalates exactly one incident, `inc-003`, with confidence 0.78 and approval required |
| SrcApi.FindIncident | backend/src/api.py:100-103 | a found position is inside the store |
| SrcApi.FindIncidentSpec | backend/src/api.py:100-103 | the search returns the first matching incident; it is a 404 exactly when every stored value is a dictionary without the id, and a non-dictionary before any match raises |
| SrcApi.ApprovedForAct | backend/src/api.py:115-118 | the incident handed to the act agent is still a dictionary |
| SrcApi.ApprovedFields | backend/src/api.py:114-123 | an approved incident ends `REMEDIATED`, approved for execution, with the operator's note and the approval time, and every other key unchanged |
| SrcApi.RejectedFields | backend/src/api.py:128-132 | a rejected incident is `REJECTED_HITL` with the note and the rejection time, and every other key unchanged |
| SrcApi.ActSeesApproval | backend/src/api.py:115-122 | the act agent is handed the incident already `APPROVED_HITL` and auto-remediable, so it is eligible for execution |
| SrcApi.IncidentService.constructor | backend/src/api.py:34-35 | the service starts with no cached run and an empty store |
| SrcApi.IncidentService.Trigger | backend/src/api.py:63-77 | a successful run is cached and its incidents become the store; a failed run is a 500 with the error and changes nothing |
| SrcApi.IncidentService.GetLatest | backend/src/api.py:80-86 | a cached run is returned unchanged; with nothing cached a run is triggered |
| SrcApi.IncidentService.ListIncidents | backend/src/api.py:89-94 | a non-empty store is returned as is, under `incidents`; an empty one triggers a run first and returns its incidents, or the run's 500 |
| SrcApi.IncidentService.GetIncident | backend/src/api.py:97-103 | a returned incident is in the store and has the id asked for |
| SrcApi.IncidentService.Approve | backend/src/api.py:106-134 | only the first incident with the id changes; the cached run sees the change; approval stores the incident `APPROVED_HITL` and runs the act agent on it alone: when the agent returns, the incident becomes `REMEDIATED` and its result is returned; when it raises, the incident stays `APPROVED_HITL` and the answer is a 500; rejection stores the rejected form; no match is a 404 and changes nothing |
| SrcApi.ApproveOnlyFirst | backend/src/api.py:112-123 | approval leaves every other incident as it was and the approved one keeps its id and is `REMEDIATED` |
| ApiClient.ApiBase | frontend/src/lib/api.ts:9 | the base URL is the configured value with at most one trailing slash removed, and empty when nothing is configured |
| ApiClient.TrailingSlashIgnored | frontend/src/lib/api.ts:9 | a base with and without one trailing slash gives the same URL |
| ApiClient.ConfiguredIff | frontend/src/lib/api.ts:9-12 | the client is configured exactly when a value is set that is neither empty nor a lone slash |
| ApiClient.GetSpread | frontend/src/lib/api.ts:120-122 | spreading one header object over another gives the later object's value for its keys and the earlier's otherwise |
| ApiClient.MergeHeaders | frontend/src/lib/api.ts:122 | the caller's headers win; `Content-Type` defaults to `application/json`; no other header appears |
| ApiClient.StatusMessage | frontend/src/lib/api.ts:126-129 | a failed response's error names the status and the path and carries at most the first 200 characters of the body |
| ApiClient.Client.constructor | frontend/src/lib/api.ts:105-138 | a fresh client has no timer armed and has performed no effect |
| ApiClient.Client.ApiFetch | frontend/src/lib/api.ts:105-138 | unconfigured: throws the configuration error and does nothing; otherwise arms the 10 s timer, fetches the joined URL with the merged headers, clears the timer on every path; an abort becomes the timeout error, another rejection is rethrown, a non-OK status becomes the status error, an OK reply is its parsed body |
| ApiClient.Client.ResolveEscalation | frontend/src/lib/api.ts:160-168 | configured, it is `apiFetch` of a POST to the escalation's resolve path with the resolution and resolver as its JSON body: the request sent, the timer armed and cleared, and the transport's outcome (an abort becomes the timeout error, a non-2xx status an error with its text); unconfigured, it fails without a request or timer |
| ApiClient.ResolvePath | frontend/src/lib/api.ts:165 | the path is `/escalations/`, the id, `/resolve`, and nothing else |
| ApiClient.ResolveBodyText | frontend/src/lib/api.ts:167 | for a resolver name without quotes, backslashes or control characters the body is exactly `{"resolution":"<name>","resolved_by":"<resolver>"}` |
| ApiClient.PlainPair | frontend/src/lib/api.ts:167 | a two-field object of plain strings serialises compactly to its keys and values quoted, in order |
| ApiClient.SerializePair | frontend/src/lib/api.ts:167 | a two-field object serialises to its two quoted pairs joined by a comma inside braces |
| ApiClient.DefaultBody | frontend/src/lib/api.ts:160-168 | with the default resolver the body names `operator` as the resolver |
| EscalationQueue.ControlsOf | frontend/src/components/EscalationQueue.tsx:68-95 | a card shows the spinner exactly when its id is in flight, the three buttons exactly when it is pending and not in flight, and its status otherwise |
| EscalationQueue.View | frontend/src/components/EscalationQueue.tsx:28-99 | the empty state exactly when there are no escalations; otherwise one card per escalation, in order |
| EscalationQueue.OneSpinner | frontend/src/components/EscalationQueue.tsx:68 | with distinct ids at most one card shows the spinner |
| EscalationQueue.Began | frontend/src/components/EscalationQueue.tsx:16-19 | starting a resolution puts its id in the cell and sends one more call, keeping the accounting invariant |
| EscalationQueue.Settled | frontend/src/components/EscalationQueue.tsx:20-25 | a settled call clears the cell and either fires the refresh or logs the failure, never both, for an `onResolved` that does not throw |
| EscalationQueue.Click | frontend/src/components/EscalationQueue.tsx:68-90 | a click starts a call exactly when the card shows its buttons |
| EscalationQueue.NoSecondClick | frontend/src/components/EscalationQueue.tsx:68-90 | while a card's call is in flight it shows the spinner and cannot start a second call |
| EscalationQueue.ButtonsAfterSettle | frontend/src/components/EscalationQueue.tsx:24-25 | once the call settles a still-pending escalation offers its buttons again, whatever the outcome |
| EscalationQueue.OverlapClearsSpinner | frontend/src/components/EscalationQueue.tsx:14-26 | a second card clicked while the first call is in flight takes the single cell, and the first call's `finally` clears it while the second call is still outstanding |
| EscalationQueue.Queue.constructor | frontend/src/components/EscalationQueue.tsx:14 | the panel starts with nothing in flight |
| EscalationQueue.Queue.Begin | frontend/src/components/EscalationQueue.tsx:16-19 | the state after sending is the `Began` state |
| EscalationQueue.Queue.Settle | frontend/src/components/EscalationQueue.tsx:20-25 | the state after settling is the `Settled` state |
| EscalationQueue.Queue.Resolve | frontend/src/components/EscalationQueue.tsx:16-26 | a resolution that settles at once leaves nothing in flight and one more call sent |
| IncidentCard.Lookup | frontend/src/components/IncidentCard.tsx:40-42 | a style table lookup finds a value exactly when the key is in the table, and the value is that key's entry |
| IncidentCard.TableKeys | frontend/src/components/IncidentCard.tsx:6-28 | the style tables cover the five severities and the five statuses |
| IncidentCard.Border | frontend/src/components/IncidentCard.tsx:40 | a known severity takes its own border colour, an unknown one the INFO colour |
| IncidentCard.SevBadge | frontend/src/components/IncidentCard.tsx:41 | a known severity takes its own badge, an unknown one the INFO badge |
| IncidentCard.StatBadge | frontend/src/components/IncidentCard.tsx:42 | a known status takes its own badge, an unknown one the PENDING badge |
| IncidentCard.Fallbacks | frontend/src/components/IncidentCard.tsx:40-42 | an unknown severity is drawn as INFO and an unknown status as PENDING |
| IncidentCard.ResolvedBadges | frontend/src/components/IncidentCard.tsx:22-28 | approved and remediated incidents share the green badge; rejected ones are red |
| IncidentCard.Buttons | frontend/src/components/IncidentCard.tsx:102-172 | the approval buttons exist exactly inside the open details of a `PENDING_HITL` incident; they are disabled, and the Approve label reads "Processing…", exactly while a handler runs |
| IncidentCard.Toggled | frontend/src/components/IncidentCard.tsx:67 | the header flips the details and nothing else |
| IncidentCard.Began | frontend/src/components/IncidentCard.tsx:44-51 | a handler sets `approving` and calls the parent's handler once with the incident id |
| IncidentCard.Finished | frontend/src/components/IncidentCard.tsx:48-50 | the `finally` resets `approving` and nothing else |
| IncidentCard.Click | frontend/src/components/IncidentCard.tsx:155-166 | a click calls the parent exactly when the buttons are shown and enabled |
| IncidentCard.SingleInFlight | frontend/src/components/IncidentCard.tsx:44-60 | after one click both buttons are disabled and a second click does nothing until the handler finishes |
| IncidentCard.OnlyPendingHitl | frontend/src/components/IncidentCard.tsx:155 | an incident not waiting for a human cannot be approved or rejected from its card |
| IncidentCard.Card.constructor | frontend/src/components/IncidentCard.tsx:37-38 | the card starts collapsed and idle |
| IncidentCard.Card.Toggle | frontend/src/components/IncidentCard.tsx:67 | the state after a header click is the `Toggled` state |
| IncidentCard.Card.Begin | frontend/src/components/IncidentCard.tsx:44-47 | the state after a click is the `Began` state |
| IncidentCard.Card.Finish | frontend/src/components/IncidentCard.tsx:48-50 | the state after `finally` is the `Finished` state |
| IncidentCard.Card.Handle | frontend/src/components/IncidentCard.tsx:44-60 | a whole handler leaves the card idle and propagates a rejection of the parent's handler |
| BackendMain.UseMock | backend/main.py:24 | mock mode is on exactly when the variable is set and lower-cases to `true`; unset means live |
| BackendMain.OriginsMembers | backend/main.py:39 | an origin is allowed exactly when it is the non-empty stripped form of some comma-separated piece |
| BackendMain.OriginsStripped | backend/main.py:39 | every allowed origin is non-empty and has no surrounding whitespace |
| BackendMain.StripKeepsFree | backend/main.py:39 | stripping a piece cannot create a separator inside it |
| BackendMain.AllowedOriginsClean | backend/main.py:35-39 | every allowed origin, from the variable or the three deployment defaults, is non-empty, stripped and free of commas |
| BackendMain.ExecutionOf | backend/main.py:127-130 | an `auto_fix` event's execution always succeeds and is the act agent's log for it |
| BackendMain.Entries | backend/main.py:117-136 | the run yields exactly one result entry per event |
| BackendMain.CountsPartition | backend/main.py:114-134 | every event is counted exactly once, as fixed or as escalated |
| BackendMain.MissingActionEscalates | backend/main.py:118 | an analysis without `recommended_action` counts as escalated |
| BackendMain.EscalatedStored | backend/main.py:131-134 | the last escalated event's record is in the escalation store after the run |
| BackendMain.PrefixStep | backend/main.py:117-136 | processing one more event extends the entries, each counter and the escalation store by exactly that event |
| BackendMain.PushRun | backend/main.py:148-151 | the new run goes first, the older runs follow in order, and a history within 20 runs stays within 20 |
| BackendMain.PushRunsNewestFirst | backend/main.py:148-151 | two runs pushed in turn are the first two entries, newest first |
| BackendMain.FindRunSpec | backend/main.py:162-168 | the lookup returns the first run with the id; it is a 404 naming the id exactly when no run has it |
| BackendMain.BumpTotal | backend/main.py:223-224 | one increment raises a histogram's sum by one |
| BackendMain.TallyTotal | backend/main.py:220-224 | a histogram's counts sum to the number of keys counted |
| BackendMain.TallyCount | backend/main.py:220-224 | each key's count is its number of occurrences, and exactly the occurring keys are present |
| BackendMain.Column | backend/main.py:222-224 | the severity or source column has one entry per event |
| BackendMain.Breakdown | backend/main.py:220-224 | the severity and source histograms are the tallies of their columns and each sums to the number of events |
| BackendMain.Server.constructor | backend/main.py:24-56 | the server starts in the configured mode with an empty run history and an empty escalation store |
| BackendMain.Server.Process | backend/main.py:117-136 | one event is executed when its analysis says `auto_fix` and escalated otherwise, and its entry records which |
| BackendMain.Server.ProcessAll | backend/main.py:113-136 | the loop builds the entries in order, counts the fixed and the escalated events, and escalates exactly the non-`auto_fix` events |
| BackendMain.Server.RunPipeline | backend/main.py:91-153 | the run record carries the run id, the times, the event count and both counters; it is pushed onto the front of the capped history |
| BackendMain.Server.ResolveEscalation | backend/main.py:189-202 | a resolution outside approved, rejected and deferred is a 400 that changes nothing; an unknown id is a 404 with the KeyError's text; otherwise the record is resolved |
| BackendMain.Server.DashboardSummary | backend/main.py:216-235 | the summary counts events by severity and by source, reports the pending escalations, the number of runs and the newest run's start, and changes nothing |
| BackendMain.SummaryConsistent | backend/main.py:216-235 | each histogram in the summary sums to the event count, and the pending escalations never outnumber the stored ones |
| DashboardPage.Read | frontend/app/page.tsx:48-51 | reading a member through a missing or null value throws; otherwise it is the member, possibly missing |
| DashboardPage.Fold | frontend/app/page.tsx:44-57 | with no dashboard the updater keeps none; it throws exactly when a dashboard exists and the run has no `summary` object; otherwise a dashboard results |
| DashboardPage.OverwriteOther | frontend/app/page.tsx:46-55 | a spread-and-overwrite leaves every member it does not name as it was |
| DashboardPage.OverwriteHit | frontend/app/page.tsx:46-55 | each member the overwrite names reads as its new value |
| DashboardPage.AssignSame | frontend/app/page.tsx:46-55 | assigning the value a member already has changes nothing |
| DashboardPage.OverwriteSame | frontend/app/page.tsx:46-55 | overwriting with the values already present changes nothing |
| DashboardPage.FoldOverwrites | frontend/app/page.tsx:44-57 | after the fold the four summary counters, the run's start, its mode and its model read as the run's values and every other member as before |
| DashboardPage.UpdatesHit | frontend/app/page.tsx:47-55 | after the seven overwrites each of the seven members reads as its new value, a missing one as missing |
| DashboardPage.FoldIdempotent | frontend/app/page.tsx:44-57 | folding the same run twice is folding it once |
| DashboardPage.MarkAll | frontend/app/page.tsx:152-154 | the map throws exactly when some incident is `null`; otherwise the list keeps its length, incidents without the id are unchanged, and those with it get the new status |
| DashboardPage.MarkStatus | frontend/app/page.tsx:148-157 | with no run, or a falsy one (`null`, `false`, `0`, `""`), the updater hands it back unchanged; for a truthy run it throws (a `TypeError`) exactly when the run's `incidents` is not a list or holds a `null`, and otherwise the run's incidents are the marked ones |
| DashboardPage.MarkAllEffect | frontend/app/page.tsx:152-154 | when the map does not throw, a marked incident reads the new status and keeps every other member; the others are unchanged |
| DashboardPage.MarkAllIdempotent | frontend/app/page.tsx:146-172 | when the map does not throw, marking the same id with the same status twice is marking it once |
| DashboardPage.Dashboard.constructor | frontend/app/page.tsx:11-15 | the page starts with no dashboard, no run, no error, and neither loading nor running |
| DashboardPage.Dashboard.FetchStart | frontend/app/page.tsx:17-23 | unconfigured: the configuration error and no fetch; configured: the error cleared, loading on, a fetch made |
| DashboardPage.Dashboard.FetchSettle | frontend/app/page.tsx:24-31 | the fetched dashboard or the failure's text (`Failed to reach backend` for a non-Error), then loading off |
| DashboardPage.Dashboard.RunStart | frontend/app/page.tsx:39-40 | a run sets running and clears the error |
| DashboardPage.Dashboard.RunSettle | frontend/app/page.tsx:41-62 | success stores the run and folds its summary into the dashboard (a throwing updater escapes the page's `try`); failure sets its text (`Pipeline run failed` for a non-Error); running is off either way |
| DashboardPage.Dashboard.DecisionSettled | frontend/app/page.tsx:146-173 | only a call that resolved marks the incidents, as approved or rejected; nothing else on the page changes |
| Escalate.NewRecord | backend/agents/escalate.py:26-37 | a new record is pending, unresolved, stored under `esc-` and the event's id, and carries the event, its analysis and the creation time |
| Escalate.All | backend/agents/escalate.py:45-47 | every stored record once, in insertion order |
| Escalate.PendingMembers | backend/agents/escalate.py:41-43 | the queue is exactly the stored records whose status is `pending` |
| Escalate.PendingShorter | backend/agents/escalate.py:41-47 | the queue is never longer than the store |
| Escalate.PendingAfterUpdate | backend/agents/escalate.py:41-43 | replacing a record by one that is not pending removes exactly that record from the queue |
| Escalate.EscalateAgent.constructor | backend/agents/escalate.py:17-18 | the agent starts with an empty store |
| Escalate.EscalateAgent.Get | backend/agents/escalate.py:68-69 | a record is returned exactly when one is stored under the id, and it is that record |
| Escalate.EscalateAgent.Escalate | backend/agents/escalate.py:20-39 | the new pending record is stored under its id; escalating the same event again replaces the record and keeps its place in the order |
| Escalate.EscalateAgent.Resolve | backend/agents/escalate.py:49-66 | an unknown id raises `KeyError` with its message and changes nothing; a known record becomes `resolved` with the resolution, the resolver and the time, and nothing else changes |
| Escalate.ResolveLeavesQueue | backend/agents/escalate.py:41-66 | after a successful resolve the record has left the queue and every other queued record is still there |
| Monitor.SeverityRank | backend/agents/monitor.py:98-99 | the four named severities rank 0 to 3 and every other value ranks after them |
| Monitor.OfRank | backend/agents/monitor.py:97-100 | the events of one rank, in order, are a subsequence no longer than the input |
| Monitor.Insert | backend/agents/monitor.py:99 | inserting one event adds exactly that event |
| Monitor.SortBySeverity | backend/agents/monitor.py:97-100 | the sorted events are a permutation of the input |
| Monitor.InsertSorted | backend/agents/monitor.py:99 | inserting into an ordered list keeps it ordered |
| Monitor.SortedResult | backend/agents/monitor.py:97-100 | the result is ordered critical, high, medium, low, then everything else |
| Monitor.InsertStable | backend/agents/monitor.py:99 | an insertion keeps the relative order of the events of each rank |
| Monitor.OfRankCons | backend/agents/monitor.py:99 | the events of one rank in a list with a first element are that element when it has the rank, then those of the rest |
| Monitor.SortStable | backend/agents/monitor.py:99 | the sort is stable: the events of each rank keep their original relative order |
| Monitor.SortKeepsSorted | backend/agents/monitor.py:97-100 | events already in severity order are returned unchanged |
| Monitor.MockAlarms | backend/agents/monitor.py:13-79 | the five scripted alarms carry the severities critical, high, high, medium, medium |
| Monitor.Alarm | backend/agents/monitor.py:13-79 | a scripted alarm's `severity` reads back as the one it was built with |
| Monitor.MockAlarmsRankable | backend/agents/monitor.py:13-79 | every scripted alarm has a string severity, so the sort key exists |
| Monitor.MockEvents | backend/agents/monitor.py:97-100 | the scripted events are five |
| Monitor.MockEventsUnchanged | backend/agents/monitor.py:97-100 | the scripted alarms are already in severity order, so the scripted events are the alarms themselves |
| Monitor.ServiceOf | backend/agents/monitor.py:116 | the service is the namespace's last `/`-separated part, `AWS` when there is none, and never contains a `/` |
| Monitor.ConvertAll | backend/agents/monitor.py:110-125 | the conversion succeeds exactly when every alarm converts, and yields one event per alarm, in order |
| Monitor.LiveEvents | backend/agents/monitor.py:102-127 | converted live alarms when the cloud call and every conversion succeed; the scripted events on any failure |
| Monitor.Collect | backend/agents/monitor.py:91-95 | mock mode gives the scripted alarms, whose order the severity sort keeps; in live mode, when the alarm query succeeds and every alarm converts, each alarm becomes, in order, its event of severity `high`; otherwise the fallback gives the mock events |
| Reason.StripFences | backend/agents/reason.py:84-90 | the step-by-step reassignment of the reply ends in its fence-stripped form |
| Reason.UnfenceStripped | backend/agents/reason.py:85-90 | the cleaned reply has no surrounding whitespace |
| Reason.UnfencePlain | backend/agents/reason.py:85-90 | a reply already free of whitespace and fences is used as it is |
| Reason.UnfenceWrapped | backend/agents/reason.py:86-90 | a fenced `json` block gives back its body, stripped |
| Reason.AsDict | backend/agents/reason.py:115-193 | a scripted analysis has the keys of the response format and its own confidence, action and related services |
| Reason.DefaultAnalysis | backend/agents/reason.py:195-208 | the default analysis has the keys of the response format |
| Reason.Lookup | backend/agents/reason.py:195 | the picked entry, scripted or default, has the keys of the response format |
| Reason.TagAppends | backend/agents/reason.py:210-211 | tagging appends the event id and the model after the analysis' own keys |
| Reason.MockAnalysisFails | backend/agents/reason.py:195-208 | the mock analysis fails exactly when the event lacks a key the default reads or has an unhashable id, even when the id is scripted |
| Reason.MockKnown | backend/agents/reason.py:113-212 | a scripted alarm gets its scripted analysis followed by the event id and the mock model tag |
| Reason.MockDefault | backend/agents/reason.py:195-212 | any other alarm is escalated with confidence 0.65, its own service as the only related service, and is tagged |
| Reason.MockDefaultValue | backend/agents/reason.py:195-212 | an alarm the table does not know gets the default analysis with its event id and the mock model tag appended |
| Reason.TaggedDefaultReads | backend/agents/reason.py:195-211 | the tagged default analysis reads confidence 0.65, action `escalate`, the event's service as the only related one, the event id and the model |
| Reason.MockTagged | backend/agents/reason.py:210-211 | every mock analysis names its event and has a model tag ending in `(mock)` |
| Reason.ErrorAnalysisShape | backend/agents/reason.py:99-111 | the failure analysis escalates with confidence 0.0, names the event and has model `error` |
| Reason.ErrorModel | backend/agents/reason.py:110 | the failure analysis's `model` reads `error` |
| Reason.MissingPromptKey | backend/agents/reason.py:63-74 | the prompt fails on the first of its nine event keys that is missing; none is missing exactly when it can be built |
| Reason.FirstMissing | backend/agents/reason.py:63-74 | the key reported missing is one of those read and is absent; none is reported exactly when all are present |
| Reason.NovaAnalysis | backend/agents/reason.py:59-111 | missing credentials give the mock analysis; a parsed dictionary reply is tagged with the event id and the live model; any other failure, a missing prompt key or a non-dictionary reply included, gives the failure analysis |
| Reason.NovaTagged | backend/agents/reason.py:93-94 | a parsed reply reads the event id and the live model after tagging |
| Reason.Analyze | backend/agents/reason.py:53-57 | mock mode gives the mock analysis; live mode the model analysis: an event missing a prompt key gives the error analysis of that `KeyError`, missing credentials the mock analysis, a failed call the error analysis with its message, a reply that does not parse the error analysis of the parse error, a non-object reply that of the assignment error, an event without an id a `KeyError`, and otherwise the reply tagged with the event id and the model |
| Act.ActionOf | backend/agents/act.py:28 | the recommended action, or `escalate` when the analysis has none |
| Act.Execute | backend/agents/act.py:22-38 | anything but `auto_fix` is skipped with a reason naming the action (failing only when the event has no id); `auto_fix` runs the scripted execution |
| Act.ModeIrrelevant | backend/agents/act.py:36-38 | the live path delegates to the scripted one, so the mode does not change the result |
| Act.ExecutedShape | backend/agents/act.py:102-107 | a successful execution log says it executed, names the event and the time, and records a successful fix |
| Act.FixShape | backend/agents/act.py:102-107 | an execution log around any fix has nine members: executed, the event id, the time, then the fix with `success` true at the eighth place |
| Act.KnownFix | backend/agents/act.py:46-93 | an alarm with a table entry gets that entry's action, command, steps and duration with the event's own resource |
| Act.GenericFixFor | backend/agents/act.py:93-100 | any other alarm with a hashable id gets the generic fix: two steps, 2.0 seconds, the analysis' fix description or `Manual action`, the resource or `unknown` |
| Act.MockExecuteAsWritten | backend/agents/act.py:46-107 | as written, any event without a `resource` fails with `KeyError('resource')`, whatever its id; with a resource, a list or dictionary id fails the lookup with `TypeError`, and any other id succeeds |
| Act.MockExecute | backend/agents/act.py:46-107 | the corrected lookup fails only for an event without an id, for a list or dictionary id (`TypeError`), or for a listed alarm without a resource; an unlisted alarm with a hashable id always succeeds |
| Act.CorrectedAgrees | backend/agents/act.py:46-107 | wherever the code as written succeeds, the corrected lookup gives the same log |
| Act.MissingResourceCounterexample | backend/agents/act.py:46-100 | an unlisted alarm without a resource fails as written with `KeyError('resource')`, while the corrected lookup logs `unknown` |
| Sse.Events | frontend/src/app/api/pipeline/stream/route.ts:214-239 | a schedule emits at most one event per step, in order |
| Json.SerializeNoNewline | backend/app/main.py:154-155 | no serialised value contains a line feed, so its frame's data is a single line |
| Text.TrimBy | backend/main.py:39 | the stripped string is the input with leading and trailing whitespace removed: it neither starts nor ends with whitespace, and is empty exactly when the input is all whitespace |
| Text.TrimIdempotent | backend/agents/reason.py:85-90 | stripping a stripped string changes nothing |
| Text.Split | backend/main.py:39 | a split yields at least one piece |
| Text.JoinSplit | backend/main.py:39 | joining the pieces with the separator gives back the string |
| Text.SplitPiecesFree | backend/main.py:39 | no piece contains the separator |
| Text.SplitLastIsSuffix | backend/agents/monitor.py:116 | the last piece of a split is a suffix of the string |
| Text.LastPiece | backend/agents/monitor.py:116 | `split(sep)[-1]` is a suffix free of the separator, and the whole string when there is no separator |
| Text.BraceSpan | backend/src/agents/escalate_agent.py:66 | a span is found exactly when some `{` precedes some `}`, and it runs from the first `{` to the last `}` |
| Text.NatToDecimal | frontend/src/lib/api.ts:128 | a status is rendered as decimal digits with no leading zero |
| Text.DecimalRoundTrip | frontend/src/lib/api.ts:128 | reading back the decimal rendering of a number gives that number |
| Text.LowerAscii | backend/main.py:24 | lower-casing keeps the length and maps each ASCII letter to its lower case |
| PyDict.GetSetSame | backend/src/api.py:115-118 | after an assignment the key reads as the new value |
| PyDict.GetSetOther | backend/src/api.py:115-118 | an assignment leaves every other key as it was |
| PyDict.SetExisting | backend/src/api.py:115 | assigning to a present key keeps the key order |
| PyDict.SetNew | backend/src/api.py:117-118 | assigning to an absent key appends it |
| PyDict.SetDefault | backend/src/agents/reason_agent.py:101-102 | `setdefault` leaves a present key alone and appends an absent one |
| PyDict.GetAssign | frontend/app/page.tsx:46-55 | after a spread with one key overwritten, that key reads as the new value and every other as before |

## Left out

- Language-model calls, boto3 (CloudWatch, EC2, S3) and `fetch`: they are foreign calls. Their replies or outcomes are parameters, and so are `json.loads` and `JSON.parse`.
- Clocks, uuids and `asyncio.sleep`/`setTimeout`: times and ids are parameters, and delays are numbers in a schedule.
- `asyncio.gather` is modelled as a sequential map. Concurrency is not modelled.
- Floating-point formatting: frames and bodies are serialised only when they hold no float. Python's `str()` of a float is a parameter. Confidence and savings are compared and summed as reals, without rounding.
- Python's `repr` escaping inside `KeyError` texts: a key is shown between single quotes as it is, which matches the source for keys without quotes or backslashes.
- Aliasing of dictionaries: an incident or escalation record that the source mutates in place and has also returned to a caller is modelled as a value. The store is updated and earlier copies are not.
- UTF-16: `text.slice(0, 200)` and `String.length` count code units in JavaScript. The model counts characters.
- JavaScript prototype keys such as `constructor` in the `Record` style lookups of the incident card are not modelled: the tables hold only their own keys.
- Rendering: the JSX beyond the controls each component offers, MarkdownRenderer, the stat cards and the layout are presentation only.
- The routes `/`, `/health`, `/pipeline/runs`, `/escalations`, `/escalations/all` and `/api/demo/signals`: they return stored values or fixtures unchanged. The run history, the queue and the lookups they read are modelled.
- The routes `/events` and `/analyze/{id}`: `/events` calls the monitor's collect, and `/analyze/{id}` collects, searches the events for the id, answers 404 when none matches and otherwise calls the reasoner. They are compositions of `Monitor.Collect` and `Reason.Analyze`, which are modelled, but the routes themselves are not.
- Fixture data: the sandbox signals, the mock alarms' metric values and the scripted prose. Prose is held as data, and only the fields the code branches on are stated.
- `api.approveIncident`, called by the dashboard page, is not defined in the client. The page's approve and reject handlers are modelled from the point where that call settles.
- `runPipelineWithFallback` takes no callback, although the copilot page passes one. The page's event handler is modelled on its own, whatever the transport.
- Monitor.SortBySeverity: requires every event to have a hashable `severity`, where the source raises `KeyError`. The scripted alarms meet it (`MockAlarmsRankable`).
- BackendMain.Server.RunPipeline: requires every event to have an `id` and a `resource`, and DashboardSummary requires string `severity` and `source`, where the source raises `KeyError`. Collected events always have them.
- Act.Execute: requires an action whose `str()` is modelled (string, integer, boolean or `None`). The reason text of any other value is not.
- ActAgent.RunActAgent: requires each eligible incident's non-empty `affected_resources` to be a list whose first entry is a string. Other values, which the source indexes or passes to the playbooks as they are, are not modelled.
- Act.Execute: uses the corrected lookup of the Findings row. An unlisted `auto_fix` alarm without a `resource` is logged with resource `unknown`, where backend/agents/act.py:50, 64 and 80 raise `KeyError`. The code as written is `Act.MockExecuteAsWritten`, and `Act.CorrectedAgrees` proves the two agree wherever the code succeeds.
- ActAgent.RunActAgent: the path where the model itself calls the playbooks as tools is not modelled. Only its reply is modelled, as a parameter. Each fallback playbook call gets its own cloud outcome, `cloud(i)`.
- ReasonAgent.Chosen, SrcPipeline.ListField: an `incidents` value that is an empty string or an empty dictionary is an error here. Python's loop runs zero times over it and then passes the value on unchanged, which the model's list-valued results cannot hold.
- Act.ActionOf: an analysis that is not a dictionary reads as having no action (`escalate`), where Python's `.get` raises. Every analysis the reasoner returns is a dictionary.
- BackendMain.Server.RunPipeline, Escalate.EventId: an event `id` that is not a string counts as missing, where Python formats it into the escalation id. Collected events always have string ids.
- EscalateAgent.HitlIncidents: an incident that is not a dictionary is not modelled as raising in the filters; the pipeline hands the agent only dictionaries.
- EscalationQueue.Settled: `onResolved` is the parent's callback and is taken to return. One that throws inside the `try` would be logged after it fired, which the fired/logged counts do not capture.
- ApiClient.Client.ApiFetch: requires the caller's headers to have distinct keys, as a JavaScript object literal does.
- ApiClient.ResolveBodyText: proves the exact body text only for a resolver name without quotes, backslashes or control characters. Otherwise the body is the `JSON.stringify` model's output.
- BackendApp and StreamRoute frames: require payloads without floats and event names without line feeds, as every frame the source sends has.
- The `fired`, `logged`, `sent`, `calls` and `effects` fields are bookkeeping beside the components' real state cells. They let the model state that a handler ran, logged, or armed and cleared a timer.

## Findings

| source | as written | input that shows it | evidently intended | confidence | as-written member | corrected member |
|---|---|---|---|---|---|---|
| backend/agents/act.py:46-100 | The fix table is built before the lookup, and each of its three entries reads `event["resource"]`. An event without a `resource` raises `KeyError` whatever its id. The generic fix's `event.get("resource", "unknown")` default therefore never takes effect. | an `auto_fix` event `{"id": "alarm-009"}` with no `resource` | an unlisted alarm without a resource is logged with resource `unknown` | not executed | Act.MockExecuteAsWritten | Act.MockExecute |

The as-written table is exhibited by `Act.MissingResourceCounterexample`. The corrected one is what `Act.Execute` uses: `Act.GenericFixFor` proves its `unknown` default, and `Act.CorrectedAgrees` proves it agrees with the code wherever the code succeeds.

Other behaviour is modelled as written and stated as a lemma, without a correction:

- The copilot page's handler waits for `pipeline_done`, but the mock stream ends with `complete`, so a mock run never finishes (`HomePage.FallbackNeverFinishes`).
- The escalation panel's single `resolving` cell is cleared by the first call's `finally` while a second call is still outstanding (`EscalationQueue.OverlapClearsSpinner`).
- The dashboard's run button calls `/pipeline/run` (frontend/src/lib/api.ts:151), and that route answers with the run record of backend/main.py:138-146, which has no `summary`. The updater therefore throws after every run while a dashboard exists (`DashboardPage.Fold`).
- The mock analysis builds its default before the lookup, so even a scripted alarm needs `service`, `metric`, `value` and `threshold` (`Reason.MockAnalysisFails`).
