/**
 * Server-sent event framing (WHATWG HTML Living Standard, section 9.2,
 * "Server-sent events"): each event is sent as an `event:` line, a `data:`
 * line and a blank line. A producer is modelled as a list of steps, each
 * either emitting an event or sleeping for a number of milliseconds.
 */
module Sse {
  import opened Wrappers
  import opened Text
  import opened Json

  /** The bytes of one frame: `event: kind`, `data: payload`, blank line. */
  function FrameText(kind: string, payload: string): string {
    "event: " + kind + "\n" + "data: " + payload + "\n\n"
  }

  /** One event whose payload is serialised in the given style. */
  function Frame(st: Style, kind: string, data: Json): string
    requires Serializable(st, data)
  {
    FrameText(kind, Serialize(st, data))
  }

  datatype Step = Emit(kind: string, data: Json) | Sleep(ms: nat)

  /** The events a schedule emits, in order. */
  function Events(steps: seq<Step>): (evs: seq<(string, Json)>)
    ensures |evs| <= |steps|
  {
    if steps == [] then []
    else match steps[0]
      case Emit(k, d) => [(k, d)] + Events(steps[1..])
      case Sleep(_) => Events(steps[1..])
  }

  /** Total time a schedule spends sleeping. */
  function TotalDelay(steps: seq<Step>): nat {
    if steps == [] then 0
    else match steps[0]
      case Emit(_, _) => TotalDelay(steps[1..])
      case Sleep(ms) => ms + TotalDelay(steps[1..])
  }

  lemma {:induction false} EventsAppend(a: seq<Step>, b: seq<Step>)
    ensures Events(a + b) == Events(a) + Events(b)
    ensures TotalDelay(a + b) == TotalDelay(a) + TotalDelay(b)
  {
    if a != [] {
      assert (a + b)[1..] == a[1..] + b;
      EventsAppend(a[1..], b);
    } else {
      assert a + b == b;
    }
  }

  /** Every emitted event can be framed: its kind has no line break and its payload is serialisable. */
  predicate Encodable(st: Style, steps: seq<Step>) {
    forall k :: 0 <= k < |steps| && steps[k].Emit? ==>
      '\n' !in steps[k].kind && Serializable(st, steps[k].data)
  }

  /** The byte stream a schedule produces. */
  function Render(st: Style, steps: seq<Step>): string
    requires Encodable(st, steps)
  {
    if steps == [] then ""
    else
      assert Encodable(st, steps[1..]) by {
        assert forall k :: 0 <= k < |steps[1..]| ==> steps[1..][k] == steps[k + 1];
      }
      match steps[0]
      case Emit(k, d) => Frame(st, k, d) + Render(st, steps[1..])
      case Sleep(_) => Render(st, steps[1..])
  }

  /** The (kind, payload text) pairs a schedule's frames carry. */
  function Payloads(st: Style, steps: seq<Step>): seq<(string, string)>
    requires Encodable(st, steps)
  {
    if steps == [] then []
    else
      assert Encodable(st, steps[1..]) by {
        assert forall k :: 0 <= k < |steps[1..]| ==> steps[1..][k] == steps[k + 1];
      }
      match steps[0]
      case Emit(k, d) => [(k, Serialize(st, d))] + Payloads(st, steps[1..])
      case Sleep(_) => Payloads(st, steps[1..])
  }

  // ---------------------------------------------------------------------------
  // A reader for the frames, the partner of the writer above.
  // ---------------------------------------------------------------------------

  /** Position of the first line feed, or `|s|` when there is none. */
  function FirstNewline(s: string): (i: nat)
    ensures i <= |s| && forall k :: 0 <= k < i ==> s[k] != '\n'
    ensures i < |s| ==> s[i] == '\n'
  {
    if s == [] || s[0] == '\n' then 0 else 1 + FirstNewline(s[1..])
  }

  lemma FirstNewlineAfter(p: string, x: string)
    requires '\n' !in p
    ensures FirstNewline(p + "\n" + x) == |p|
  {
    var s := p + "\n" + x;
    var i := FirstNewline(s);
    assert s[|p|] == '\n';
    assert forall k :: 0 <= k < |p| ==> s[k] == p[k];
  }

  /** Reads one frame off the front: its kind, its data line and what follows. */
  function ParseFrame(s: string): (r: Option<(string, string, string)>)
    ensures r.Some? ==> |r.value.2| < |s|
  {
    if !StartsWith(s, "event: ") then None
    else
      var a := s[7..];
      var i := FirstNewline(a);
      if i == |a| then None
      else
        var b := a[i + 1..];
        if !StartsWith(b, "data: ") then None
        else
          var c := b[6..];
          var j := FirstNewline(c);
          if j + 1 >= |c| || c[j + 1] != '\n' then None
          else Some((a[..i], c[..j], c[j + 2..]))
  }

  /** Reads a whole stream of frames; `None` when some frame is malformed. */
  function Decode(s: string): Option<seq<(string, string)>>
    decreases |s|
  {
    if s == [] then Some([])
    else match ParseFrame(s)
      case None => None
      case Some((k, p, rest)) =>
        match Decode(rest)
        case None => None
        case Some(fs) => Some([(k, p)] + fs)
  }

  /** The `event:` line of a frame: the kind up to the first line feed, then the rest. */
  lemma EventLine(kind: string, b: string)
    requires '\n' !in kind
    ensures var s := "event: " + (kind + "\n" + b);
      && StartsWith(s, "event: ") && s[7..] == kind + "\n" + b
      && FirstNewline(s[7..]) == |kind| && s[7..][..|kind|] == kind && s[7..][|kind| + 1..] == b
  {
    var s := "event: " + (kind + "\n" + b);
    assert s[..7] == "event: ";
    assert s[7..] == kind + "\n" + b;
    FirstNewlineAfter(kind, b);
    assert (kind + "\n" + b)[|kind| + 1..] == b;
    assert (kind + "\n" + b)[..|kind|] == kind;
  }

  /** The `data:` line and the blank line of a frame: the payload up to the first line feed, a second one, then the rest. */
  lemma DataLine(payload: string, rest: string)
    requires '\n' !in payload
    ensures var b := "data: " + payload + "\n\n" + rest;
      && StartsWith(b, "data: ") && b[6..] == payload + "\n" + ("\n" + rest)
      && var c := b[6..];
         && FirstNewline(c) == |payload| && |payload| + 1 < |c| && c[|payload| + 1] == '\n'
         && c[..|payload|] == payload && c[|payload| + 2..] == rest
  {
    var b := "data: " + payload + "\n\n" + rest;
    var c := payload + "\n" + ("\n" + rest);
    assert b[..6] == "data: ";
    assert b[6..] == c;
    FirstNewlineAfter(payload, "\n" + rest);
    assert c[|payload| + 1] == '\n';
    assert c[..|payload|] == payload;
    assert c[|payload| + 2..] == rest;
  }

  /** A frame followed by anything reads back as its kind and payload. */
  lemma ParseFrameText(kind: string, payload: string, rest: string)
    requires '\n' !in kind && '\n' !in payload
    ensures ParseFrame(FrameText(kind, payload) + rest) == Some((kind, payload, rest))
  {
    var b := "data: " + payload + "\n\n" + rest;
    var s := FrameText(kind, payload) + rest;
    assert s == "event: " + (kind + "\n" + b);
    EventLine(kind, b);
    DataLine(payload, rest);
    ParseFrameAt(s, |kind|, |payload|);
  }

  /** `ParseFrame` on a text whose two line feeds are at known places. */
  lemma ParseFrameAt(s: string, i: nat, j: nat)
    requires StartsWith(s, "event: ") && FirstNewline(s[7..]) == i < |s[7..]|
    requires StartsWith(s[7..][i + 1..], "data: ")
    requires var c := s[7..][i + 1..][6..]; FirstNewline(c) == j && j + 1 < |c| && c[j + 1] == '\n'
    ensures var c := s[7..][i + 1..][6..]; ParseFrame(s) == Some((s[7..][..i], c[..j], c[j + 2..]))
  {
  }

  /** Reading a rendered schedule gives back exactly the frames it emitted. */
  lemma {:induction false} DecodeRender(st: Style, steps: seq<Step>)
    requires Encodable(st, steps)
    ensures Decode(Render(st, steps)) == Some(Payloads(st, steps))
  {
    if steps != [] {
      assert Encodable(st, steps[1..]) by {
        assert forall k :: 0 <= k < |steps[1..]| ==> steps[1..][k] == steps[k + 1];
      }
      DecodeRender(st, steps[1..]);
      match steps[0]
      case Emit(k, d) =>
        assert steps[0].Emit? && '\n' !in k;
        SerializeNoNewline(st, d);
        ParseFrameText(k, Serialize(st, d), Render(st, steps[1..]));
      case Sleep(_) =>
    }
  }
}
