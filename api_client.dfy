/**
 * The browser's client for the backend: the base address taken from the
 * build environment, the `configured` flag, the one fetch wrapper every call
 * goes through (configuration guard, ten-second abort timer, error texts),
 * and the request that resolves an escalation.
 *
 * The network is a parameter: `transport` answers the one request the
 * wrapper sends. The timer is a flag plus a log of the wrapper's effects, so
 * the order "arm, fetch, clear" can be stated.
 */
module ApiClient {
  import opened Wrappers
  import opened Text
  import opened Json
  import opened PyDict

  // ---------------------------------------------------------------------------
  // Base address
  // ---------------------------------------------------------------------------

  /** `(NEXT_PUBLIC_API_URL ?? "").replace(/\/$/, "")`: one trailing slash removed. */
  function ApiBase(env: Option<string>): (r: string)
    ensures env.None? ==> r == ""
    ensures env.Some? && EndsWith(env.value, "/") ==> r + "/" == env.value
    ensures env.Some? && !EndsWith(env.value, "/") ==> r == env.value
  {
    var raw := env.GetOr("");
    if |raw| > 0 && raw[|raw| - 1] == '/' then raw[..|raw| - 1] else raw
  }

  /** `API_CONFIGURED`. */
  predicate Configured(env: Option<string>) {
    |ApiBase(env)| > 0
  }

  /** A base with or without its trailing slash gives the same address; only one slash goes. */
  lemma TrailingSlashIgnored(b: string)
    ensures ApiBase(Some(b + "/")) == b
    ensures !EndsWith(b, "/") ==> ApiBase(Some(b)) == b
  {
  }

  /** The client counts as configured exactly when the variable is set to something other than "" or "/". */
  lemma ConfiguredIff(env: Option<string>)
    ensures Configured(env) <==> env.Some? && env.value != "" && env.value != "/"
  {
    if env.Some? && env.value != "" && env.value != "/" && EndsWith(env.value, "/") {
      assert |env.value| >= 2;
    }
  }

  // ---------------------------------------------------------------------------
  // Requests and the fetch wrapper
  // ---------------------------------------------------------------------------

  /** What a caller passes as `init`. */
  datatype Init = Init(verb: string, body: Option<string>, headers: Dict)

  /** What is handed to `fetch`. */
  datatype Request = Request(url: string, verb: string, body: Option<string>, headers: Dict)

  /** A JavaScript `Error`: its `name` and its `message`. */
  datatype Error = Error(name: string, message: string)

  /**
   * How `fetch` settles: it rejects, or it resolves with a response; `text`
   * is `None` when reading the body fails, `json` is how `res.json()` settles.
   */
  datatype Reply =
    | Rejected(err: Error)
    | Responded(status: nat, ok: bool, text: Option<string>, json: Result<Json, Error>)

  /** How the wrapper's promise settles. */
  datatype Outcome = Returned(value: Json) | Threw(err: Error)

  datatype Effect = ArmTimer(ms: nat) | Fetch(req: Request) | ClearTimer

  const NotConfigured: string := "NEXT_PUBLIC_API_URL is not configured. Set it in Vercel environment variables."
  const TimedOut: string := "Request timed out after 10s — backend may be cold-starting, please retry"
  const TimeoutMs: nat := 10000
  const BodyLimit: nat := 200

  /** `{ ...init, headers: ... }` applies the spread's entries in order onto `into`. */
  function Spread(into: Dict, extra: Dict): Dict
    decreases |extra|
  {
    if extra == [] then into else Spread(Set(into, extra[0].0, extra[0].1), extra[1..])
  }

  lemma {:induction false} GetSpread(into: Dict, extra: Dict, key: string)
    requires DistinctKeys(extra)
    ensures Get(Spread(into, extra), key) == if Has(extra, key) then Get(extra, key) else Get(into, key)
    decreases |extra|
  {
    if extra != [] {
      var (k0, v0) := extra[0];
      GetSpread(Set(into, k0, v0), extra[1..], key);
      if key == k0 {
        GetSetSame(into, k0, v0);
        GetFound(extra[1..], key);
        forall k | 0 <= k < |extra[1..]| ensures extra[1..][k].0 != key {
          assert extra[1..][k] == extra[k + 1];
        }
      } else {
        GetSetOther(into, k0, v0, key);
      }
    }
  }

  /** The headers sent: JSON content type, overridden by whatever the caller passed. */
  function MergeHeaders(extra: Dict): (r: Dict)
    requires DistinctKeys(extra)
    ensures forall key :: Has(extra, key) ==> Get(r, key) == Get(extra, key)
    ensures !Has(extra, "Content-Type") ==> Get(r, "Content-Type") == Some(JStr("application/json"))
    ensures forall key :: key != "Content-Type" && !Has(extra, key) ==> Get(r, key) == None
  {
    var json: Dict := [("Content-Type", JStr("application/json"))];
    assert forall key :: key != "Content-Type" ==> Get(json, key) == Get(json[1..], key) == None;
    var r := Spread(json, extra);
    assert forall key :: Get(r, key) == if Has(extra, key) then Get(extra, key) else Get(json, key) by {
      forall key { GetSpread(json, extra, key); }
    }
    r
  }

  /** The text of a non-ok response's error: status, path, then at most 200 characters of the body. */
  function StatusMessage(status: nat, path: string, text: string): (m: string)
    ensures var prefix := "API " + NatToDecimal(status) + " at " + path + ": ";
      && StartsWith(m, prefix)
      && |m| - |prefix| == (if |text| < BodyLimit then |text| else BodyLimit)
      && StartsWith(text, m[|prefix|..])
  {
    var shown := if |text| < BodyLimit then text else text[..BodyLimit];
    "API " + NatToDecimal(status) + " at " + path + ": " + shown
  }

  /** The fetch wrapper's own state: is its abort timer pending, and what it has done. */
  class Client {
    var timerArmed: bool
    var effects: seq<Effect>

    constructor ()
      ensures !timerArmed && effects == []
    {
      timerArmed, effects := false, [];
    }

    /**
     * `apiFetch(path, init)`: refused before anything else when the client is
     * not configured; otherwise the timer is armed, the request is sent to
     * the base joined with the path, and the timer is cleared again on every
     * way out. A rejection named `AbortError` becomes the timeout message; a
     * non-ok response throws the status message (its own catch clears the
     * timer a second time); an ok response settles as its body's parse.
     */
    method ApiFetch(env: Option<string>, path: string, init: Init, transport: Request -> Reply)
      returns (out: Outcome)
      requires DistinctKeys(init.headers)
      modifies this
      ensures !Configured(env) ==>
                out == Threw(Error("Error", NotConfigured)) && effects == old(effects) && timerArmed == old(timerArmed)
      ensures Configured(env) ==>
                var req := Request(ApiBase(env) + path, init.verb, init.body, MergeHeaders(init.headers));
                && !timerArmed
                && match transport(req)
                   case Rejected(e) =>
                     && effects == old(effects) + [ArmTimer(TimeoutMs), Fetch(req), ClearTimer]
                     && out == Threw(if e.name == "AbortError" then Error("Error", TimedOut) else e)
                   case Responded(status, ok, text, json) =>
                     && effects == old(effects) + [ArmTimer(TimeoutMs), Fetch(req), ClearTimer]
                                   + (if ok then [] else [ClearTimer])
                     && out == (if !ok then Threw(Error("Error", StatusMessage(status, path, text.GetOr(""))))
                                else if json.Ok? then Returned(json.value) else Threw(json.error))
    {
      var base := ApiBase(env);
      if |base| == 0 {
        return Threw(Error("Error", NotConfigured));
      }
      var req := Request(base + path, init.verb, init.body, MergeHeaders(init.headers));
      timerArmed := true;
      effects := effects + [ArmTimer(TimeoutMs)];
      var reply := transport(req);
      effects := effects + [Fetch(req)];
      match reply {
        case Rejected(e) =>
          timerArmed := false;
          effects := effects + [ClearTimer];
          out := Threw(if e.name == "AbortError" then Error("Error", TimedOut) else e);
        case Responded(status, ok, text, json) =>
          timerArmed := false;
          effects := effects + [ClearTimer];
          if !ok {
            var thrown := Error("Error", StatusMessage(status, path, text.GetOr("")));
            // the throw lands in the wrapper's own catch, which clears the timer and rethrows
            timerArmed := false;
            effects := effects + [ClearTimer];
            out := Threw(thrown);
          } else if json.Ok? {
            out := Returned(json.value);
          } else {
            out := Threw(json.error);
          }
      }
    }

    /** `api.resolveEscalation(id, resolution, resolvedBy)`. */
    method ResolveEscalation(env: Option<string>, id: string, resolution: Resolution, resolvedBy: string,
                             transport: Request -> Reply)
      returns (out: Outcome)
      modifies this
      ensures Configured(env) ==>
                var path := ResolvePath(id);
                var req := Request(ApiBase(env) + path, "POST", Some(ResolveBody(resolution, resolvedBy)), MergeHeaders([]));
                && !timerArmed
                && match transport(req)
                   case Rejected(e) =>
                     && effects == old(effects) + [ArmTimer(TimeoutMs), Fetch(req), ClearTimer]
                     && out == Threw(if e.name == "AbortError" then Error("Error", TimedOut) else e)
                   case Responded(status, ok, text, json) =>
                     && effects == old(effects) + [ArmTimer(TimeoutMs), Fetch(req), ClearTimer]
                                   + (if ok then [] else [ClearTimer])
                     && out == (if !ok then Threw(Error("Error", StatusMessage(status, path, text.GetOr(""))))
                                else if json.Ok? then Returned(json.value) else Threw(json.error))
      ensures !Configured(env) ==>
                out == Threw(Error("Error", NotConfigured)) && effects == old(effects) && timerArmed == old(timerArmed)
    {
      out := ApiFetch(env, ResolvePath(id), Init("POST", Some(ResolveBody(resolution, resolvedBy)), []), transport);
    }
  }

  // ---------------------------------------------------------------------------
  // Resolving an escalation
  // ---------------------------------------------------------------------------

  datatype Resolution = Approve | Reject | Defer

  function ResolutionName(r: Resolution): string {
    match r
    case Approve => "approved"
    case Reject => "rejected"
    case Defer => "deferred"
  }

  /** The `resolvedBy` default. */
  const DefaultResolver: string := "operator"

  function ResolvePath(id: string): (p: string)
    ensures StartsWith(p, "/escalations/") && EndsWith(p, "/resolve")
    ensures |p| == |"/escalations/"| + |id| + |"/resolve"| && p[|"/escalations/"|..|p| - |"/resolve"|] == id
  {
    "/escalations/" + id + "/resolve"
  }

  const ResolutionKey: string := "resolution"
  const ResolverKey: string := "resolved_by"

  /** `JSON.stringify({ resolution, resolved_by: resolvedBy })`. */
  function ResolveBody(r: Resolution, resolvedBy: string): string {
    Serialize(JsCompact, JObj([(ResolutionKey, JStr(ResolutionName(r))), (ResolverKey, JStr(resolvedBy))]))
  }

  /** Characters `JSON.stringify` writes as themselves. */
  predicate Plain(s: string) {
    forall k :: 0 <= k < |s| ==> s[k] != '"' && s[k] != '\\' && s[k] as int >= 0x20
  }

  lemma {:induction false} EscapePlain(s: string)
    requires Plain(s)
    ensures EscapeString(JsCompact, s) == s
  {
    if s != [] {
      EscapePlain(s[1..]);
      assert s == [s[0]] + s[1..];
    }
  }

  /** The body holds exactly the two fields, in order, each written between plain quotes. */
  lemma ResolveBodyText(r: Resolution, resolvedBy: string)
    requires Plain(resolvedBy)
    ensures ResolveBody(r, resolvedBy)
            == "{" + (("\"" + ResolutionKey + "\"") + ":" + ("\"" + ResolutionName(r) + "\"")) + ","
               + (("\"" + ResolverKey + "\"") + ":" + ("\"" + resolvedBy + "\"")) + "}"
  {
    PlainPair(ResolutionKey, ResolutionName(r), ResolverKey, resolvedBy);
  }

  /** Two plain strings under two plain keys are written without escapes. */
  lemma PlainPair(k1: string, v1: string, k2: string, v2: string)
    requires Plain(k1) && Plain(v1) && Plain(k2) && Plain(v2)
    ensures Serialize(JsCompact, JObj([(k1, JStr(v1)), (k2, JStr(v2))]))
            == "{" + (("\"" + k1 + "\"") + ":" + ("\"" + v1 + "\"")) + ","
               + (("\"" + k2 + "\"") + ":" + ("\"" + v2 + "\"")) + "}"
  {
    EscapePlain(k1);
    EscapePlain(v1);
    EscapePlain(k2);
    EscapePlain(v2);
    SerializePair(k1, v1, k2, v2);
  }

  /** `JSON.stringify` of a two-entry object of strings. */
  lemma SerializePair(k1: string, v1: string, k2: string, v2: string)
    ensures Serialize(JsCompact, JObj([(k1, JStr(v1)), (k2, JStr(v2))]))
            == "{" + (Quote(JsCompact, k1) + ":" + Quote(JsCompact, v1)) + ","
               + (Quote(JsCompact, k2) + ":" + Quote(JsCompact, v2)) + "}"
  {
    var fields := [(k1, JStr(v1)), (k2, JStr(v2))];
    assert Serializable(JsCompact, JObj(fields));
    var parts := seq(|fields|, k requires 0 <= k < |fields| =>
                       Quote(JsCompact, fields[k].0) + KeySeparator(JsCompact) + Serialize(JsCompact, fields[k].1));
    assert Serialize(JsCompact, JObj(fields)) == "{" + Join(",", parts) + "}";
    var p0, p1 := Quote(JsCompact, k1) + ":" + Quote(JsCompact, v1), Quote(JsCompact, k2) + ":" + Quote(JsCompact, v2);
    assert parts == [p0, p1];
    JoinTwo(",", p0, p1);
  }

  /** With the default resolver the body names the operator. */
  lemma DefaultBody(r: Resolution)
    ensures ResolveBody(r, DefaultResolver)
            == "{" + (("\"" + ResolutionKey + "\"") + ":" + ("\"" + ResolutionName(r) + "\"")) + ","
               + (("\"" + ResolverKey + "\"") + ":" + ("\"" + "operator" + "\"")) + "}"
  {
    ResolveBodyText(r, DefaultResolver);
  }
}
