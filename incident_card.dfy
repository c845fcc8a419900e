/**
 * One incident on the dashboard: its colours looked up from three style
 * tables by severity and status (unknown values take the INFO and PENDING
 * styles), a header that toggles the details open, and Approve and Reject
 * buttons inside the details of an incident waiting for a human. The
 * `approving` cell is set for as long as the parent's handler runs and is
 * reset in `finally`, whatever the handler does; while it is set both
 * buttons are disabled.
 *
 * The handlers are split at their `await`: `Begin` runs up to the parent's
 * handler and `Finish` is the `finally`.
 */
module IncidentCard {
  import opened Wrappers

  type Table = seq<(string, string)>

  function Lookup(t: Table, key: string): (r: Option<string>)
    ensures r.Some? <==> exists k :: 0 <= k < |t| && t[k].0 == key
    ensures r.Some? ==> exists k :: 0 <= k < |t| && t[k] == (key, r.value)
  {
    if t == [] then None
    else if t[0].0 == key then Some(t[0].1)
    else
      var r := Lookup(t[1..], key);
      assert forall k :: 0 <= k < |t[1..]| ==> t[1..][k] == t[k + 1];
      r
  }

  const SeverityBorder: Table := [
    ("CRITICAL", "border-red-700"), ("HIGH", "border-orange-600"), ("MEDIUM", "border-yellow-600"),
    ("LOW", "border-blue-700"), ("INFO", "border-gray-700")]

  const SeverityBadge: Table := [
    ("CRITICAL", "bg-red-950 text-red-300"), ("HIGH", "bg-orange-950 text-orange-300"),
    ("MEDIUM", "bg-yellow-950 text-yellow-300"), ("LOW", "bg-blue-950 text-blue-300"),
    ("INFO", "bg-gray-800 text-gray-400")]

  const StatusBadge: Table := [
    ("PENDING", "bg-gray-800 text-gray-300"), ("PENDING_HITL", "bg-yellow-950 text-yellow-300"),
    ("REMEDIATED", "bg-green-950 text-green-300"), ("APPROVED_HITL", "bg-green-950 text-green-300"),
    ("REJECTED_HITL", "bg-red-950 text-red-300")]

  const Severities: seq<string> := ["CRITICAL", "HIGH", "MEDIUM", "LOW", "INFO"]
  const Statuses: seq<string> := ["PENDING", "PENDING_HITL", "REMEDIATED", "APPROVED_HITL", "REJECTED_HITL"]

  /** The tables' keys, in order. */
  lemma TableKeys()
    ensures forall k :: 0 <= k < 5 ==> SeverityBorder[k].0 == Severities[k] && SeverityBadge[k].0 == Severities[k]
    ensures forall k :: 0 <= k < 5 ==> StatusBadge[k].0 == Statuses[k]
    ensures |SeverityBorder| == |SeverityBadge| == |StatusBadge| == 5
  {
  }

  /** `SEVERITY_BORDER[severity] ?? SEVERITY_BORDER.INFO`. */
  function Border(severity: string): (r: string)
    ensures severity !in Severities ==> r == SeverityBorder[4].1
    ensures severity in Severities ==> exists k :: 0 <= k < 5 && SeverityBorder[k] == (severity, r)
  {
    TableKeys();
    match Lookup(SeverityBorder, severity)
    case Some(c) => c
    case None => SeverityBorder[4].1
  }

  /** `SEVERITY_BADGE[severity] ?? SEVERITY_BADGE.INFO`. */
  function SevBadge(severity: string): (r: string)
    ensures severity !in Severities ==> r == SeverityBadge[4].1
    ensures severity in Severities ==> exists k :: 0 <= k < 5 && SeverityBadge[k] == (severity, r)
  {
    TableKeys();
    match Lookup(SeverityBadge, severity)
    case Some(c) => c
    case None => SeverityBadge[4].1
  }

  /** `STATUS_BADGE[status] ?? STATUS_BADGE.PENDING`. */
  function StatBadge(status: string): (r: string)
    ensures status !in Statuses ==> r == StatusBadge[0].1
    ensures status in Statuses ==> exists k :: 0 <= k < 5 && StatusBadge[k] == (status, r)
  {
    TableKeys();
    match Lookup(StatusBadge, status)
    case Some(c) => c
    case None => StatusBadge[0].1
  }

  /** An unknown severity is drawn as INFO, an unknown status as PENDING. */
  lemma Fallbacks(severity: string, status: string)
    ensures severity !in Severities ==> Border(severity) == Border("INFO") && SevBadge(severity) == SevBadge("INFO")
    ensures status !in Statuses ==> StatBadge(status) == StatBadge("PENDING")
  {
    TableKeys();
    assert "INFO" == Severities[4] && "PENDING" == Statuses[0];
  }

  /** Approved and remediated incidents share the green badge; rejected ones are red. */
  lemma ResolvedBadges()
    ensures StatBadge("APPROVED_HITL") == StatBadge("REMEDIATED") == "bg-green-950 text-green-300"
    ensures StatBadge("REJECTED_HITL") == "bg-red-950 text-red-300"
  {
    assert Lookup(StatusBadge, "REMEDIATED") == Some(StatusBadge[2].1);
    assert Lookup(StatusBadge, "APPROVED_HITL") == Some(StatusBadge[3].1);
    assert Lookup(StatusBadge, "REJECTED_HITL") == Some(StatusBadge[4].1);
  }

  // ---------------------------------------------------------------------------
  // The card's state and its approval buttons
  // ---------------------------------------------------------------------------

  datatype Decision = Approve | Reject

  /** The two state cells, with the parent's handlers called so far (decision and incident id). */
  datatype CardState = CardState(expanded: bool, approving: bool, calls: seq<(Decision, string)>)

  const Initial: CardState := CardState(false, false, [])

  /** The approval controls: present or not, disabled or not, and the Approve button's label. */
  datatype ButtonsView = ButtonsView(disabled: bool, approveLabel: string)

  const Processing: string := "Processing…"
  const ApproveLabel: string := "✅ Approve & Execute"

  /** The buttons exist only inside the open details of an incident waiting for a human. */
  function Buttons(status: string, s: CardState): (r: Option<ButtonsView>)
    ensures r.Some? <==> s.expanded && status == "PENDING_HITL"
    ensures r.Some? ==> r.value.disabled == s.approving
    ensures r.Some? ==> (r.value.approveLabel == Processing <==> s.approving)
  {
    if s.expanded && status == "PENDING_HITL" then
      Some(ButtonsView(s.approving, if s.approving then Processing else ApproveLabel))
    else None
  }

  /** Clicking the header. */
  function Toggled(s: CardState): (r: CardState)
    ensures r.expanded == !s.expanded && r.approving == s.approving && r.calls == s.calls
  {
    s.(expanded := !s.expanded)
  }

  /** `handleApprove`/`handleReject` up to the `await`: the cell is set and the parent's handler called. */
  function Began(s: CardState, d: Decision, id: string): (r: CardState)
    ensures r.approving && r.expanded == s.expanded && r.calls == s.calls + [(d, id)]
  {
    s.(approving := true, calls := s.calls + [(d, id)])
  }

  /** The `finally`: the cell is reset, whether the parent's handler returned or threw. */
  function Finished(s: CardState): (r: CardState)
    ensures !r.approving && r.expanded == s.expanded && r.calls == s.calls
  {
    s.(approving := false)
  }

  /** A click on a button: only an enabled button calls the parent's handler. */
  function Click(status: string, s: CardState, d: Decision, id: string): (r: Option<CardState>)
    ensures r.Some? <==> Buttons(status, s).Some? && !Buttons(status, s).value.disabled
    ensures r.Some? ==> r.value == Began(s, d, id)
  {
    var b := Buttons(status, s);
    if b.Some? && !b.value.disabled then Some(Began(s, d, id)) else None
  }

  /** While a handler runs both buttons are disabled, so neither can start a second one. */
  lemma SingleInFlight(status: string, s: CardState, first: Decision, second: Decision, id: string)
    requires Click(status, s, first, id).Some?
    ensures Buttons(status, Click(status, s, first, id).value).value.disabled
    ensures Click(status, Click(status, s, first, id).value, second, id).None?
    ensures Click(status, Finished(Click(status, s, first, id).value), second, id).Some?
  {
  }

  /** Only an incident waiting for a human can be approved or rejected from its card. */
  lemma OnlyPendingHitl(status: string, s: CardState, d: Decision, id: string)
    requires status != "PENDING_HITL"
    ensures Click(status, s, d, id).None?
  {
  }

  /** The card's state cells (the details toggle and `approving`). */
  class Card {
    var expanded: bool
    var approving: bool
    var calls: seq<(Decision, string)>

    function State(): CardState
      reads this
    {
      CardState(expanded, approving, calls)
    }

    constructor ()
      ensures State() == Initial
    {
      expanded, approving, calls := false, false, [];
    }

    method Toggle()
      modifies this
      ensures State() == Toggled(old(State()))
    {
      expanded := !expanded;
    }

    /** `setApproving(true)`, then the parent's `onApprove`/`onReject` with the incident's id. */
    method Begin(d: Decision, id: string)
      modifies this
      ensures State() == Began(old(State()), d, id)
    {
      approving := true;
      calls := calls + [(d, id)];
    }

    /** `setApproving(false)` in `finally`. */
    method Finish()
      modifies this
      ensures State() == Finished(old(State()))
    {
      approving := false;
    }

    /**
     * A whole handler whose awaited call settles before anything else
     * happens: `threw` says how it settled, and a rejection propagates after
     * the reset.
     */
    method Handle(d: Decision, id: string, threw: bool) returns (rethrown: bool)
      modifies this
      ensures State() == Finished(Began(old(State()), d, id))
      ensures !approving && rethrown == threw
    {
      Begin(d, id);
      Finish();
      rethrown := threw;
    }
  }
}
