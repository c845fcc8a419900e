/**
 * The escalation queue panel: one card per pending escalation, with Approve,
 * Reject and Defer buttons while an escalation is pending and not being
 * resolved, a spinner while its resolution is in flight, and its status
 * otherwise. The component's one state cell, `resolving`, holds the id whose
 * call is in flight.
 *
 * The asynchronous `resolve` is split at its `await`: `Begin` runs up to the
 * call and `Settle` runs from the call's settling to the end of `finally`.
 * The panel's bookkeeping of how many calls were sent and settled is kept
 * beside the state cell so that what `finally` does can be stated.
 */
module EscalationQueue {
  import opened Wrappers
  import ApiClient

  /** What the panel reads of an escalation. */
  datatype Escalation = Escalation(id: string, status: string)

  /** The controls a card shows on its right. */
  datatype Controls = Spinner | Buttons(offered: seq<ApiClient.Resolution>) | StatusLabel(status: string)

  /** What the panel shows. */
  datatype Panel = EmptyState | Cards(controls: seq<Controls>)

  const Offered: seq<ApiClient.Resolution> := [ApiClient.Approve, ApiClient.Reject, ApiClient.Defer]

  /** The controls of one card, given the id in flight. */
  function ControlsOf(resolving: Option<string>, esc: Escalation): (c: Controls)
    ensures c.Spinner? <==> resolving == Some(esc.id)
    ensures c.Buttons? <==> resolving != Some(esc.id) && esc.status == "pending"
    ensures c.Buttons? ==> c.offered == Offered
    ensures c.StatusLabel? ==> c.status == esc.status && esc.status != "pending"
  {
    if resolving == Some(esc.id) then Spinner
    else if esc.status == "pending" then Buttons(Offered)
    else StatusLabel(esc.status)
  }

  /** The whole panel: the empty state for no escalations, else one card each, in order. */
  function View(escs: seq<Escalation>, resolving: Option<string>): (p: Panel)
    ensures p.EmptyState? <==> escs == []
    ensures p.Cards? ==> |p.controls| == |escs|
                         && forall k :: 0 <= k < |escs| ==> p.controls[k] == ControlsOf(resolving, escs[k])
  {
    if escs == [] then EmptyState
    else Cards(seq(|escs|, k requires 0 <= k < |escs| => ControlsOf(resolving, escs[k])))
  }

  /** With distinct ids, at most one card shows the spinner. */
  lemma OneSpinner(escs: seq<Escalation>, resolving: Option<string>, i: nat, j: nat)
    requires forall a, b :: 0 <= a < b < |escs| ==> escs[a].id != escs[b].id
    requires View(escs, resolving).Cards? && i < |escs| && j < |escs|
    requires View(escs, resolving).controls[i].Spinner? && View(escs, resolving).controls[j].Spinner?
    ensures i == j
  {
    var c := View(escs, resolving).controls;
    assert c[i] == ControlsOf(resolving, escs[i]) && c[j] == ControlsOf(resolving, escs[j]);
    assert escs[i].id == escs[j].id;
  }

  // ---------------------------------------------------------------------------
  // The state cell and the resolve handler
  // ---------------------------------------------------------------------------

  /**
   * `resolving`, with the calls sent (id and resolution), how many have
   * settled, how often `onResolved` fired and how many failures were logged.
   */
  datatype QueueState = QueueState(resolving: Option<string>, sent: seq<(string, ApiClient.Resolution)>,
                                   settled: nat, fired: nat, logged: nat)
  {
    /** Every settled call either fired `onResolved` or was logged, never both (`onResolved` is taken not to throw). */
    predicate Valid() {
      settled <= |sent| && fired + logged == settled
    }

    function Outstanding(): nat
      requires Valid()
    {
      |sent| - settled
    }
  }

  const Initial: QueueState := QueueState(None, [], 0, 0, 0)

  /** `resolve` up to its `await`: the id goes into the cell and the call is sent. */
  function Began(s: QueueState, id: string, resolution: ApiClient.Resolution): (r: QueueState)
    requires s.Valid()
    ensures r.Valid() && r.Outstanding() == s.Outstanding() + 1
    ensures r.resolving == Some(id) && r.sent == s.sent + [(id, resolution)]
    ensures r.fired == s.fired && r.logged == s.logged
  {
    s.(resolving := Some(id), sent := s.sent + [(id, resolution)])
  }

  /**
   * `resolve` after its call settles: `onResolved` on success, a log line on
   * failure, then the cell is cleared. An `onResolved` that returns is assumed;
   * one that throws would be logged after it fired.
   */
  function Settled(s: QueueState, succeeded: bool): (r: QueueState)
    requires s.Valid() && s.Outstanding() > 0
    ensures r.Valid() && r.Outstanding() == s.Outstanding() - 1
    ensures r.resolving == None && r.sent == s.sent
    ensures r.fired == s.fired + (if succeeded then 1 else 0)
    ensures r.logged == s.logged + (if succeeded then 0 else 1)
  {
    s.(resolving := None, settled := s.settled + 1,
       fired := if succeeded then s.fired + 1 else s.fired,
       logged := if succeeded then s.logged else s.logged + 1)
  }

  /** A click on one of a card's buttons: only a card that shows buttons starts a call. */
  function Click(s: QueueState, escs: seq<Escalation>, k: nat, resolution: ApiClient.Resolution): (r: Option<QueueState>)
    requires s.Valid()
    ensures r.Some? <==> k < |escs| && ControlsOf(s.resolving, escs[k]).Buttons?
    ensures r.Some? ==> r.value == Began(s, escs[k].id, resolution)
  {
    if k < |escs| && ControlsOf(s.resolving, escs[k]).Buttons? then Some(Began(s, escs[k].id, resolution)) else None
  }

  /** While a card's call is in flight it shows the spinner, so it cannot be clicked again. */
  lemma NoSecondClick(s: QueueState, escs: seq<Escalation>, k: nat, first: ApiClient.Resolution,
                      second: ApiClient.Resolution)
    requires s.Valid() && Click(s, escs, k, first).Some?
    ensures View(escs, Click(s, escs, k, first).value.resolving).controls[k] == Spinner
    ensures Click(Click(s, escs, k, first).value, escs, k, second).None?
  {
  }

  /** After its call settles, a still-pending escalation offers its buttons again, whatever the outcome. */
  lemma ButtonsAfterSettle(s: QueueState, esc: Escalation, succeeded: bool)
    requires s.Valid() && s.Outstanding() > 0 && esc.status == "pending"
    ensures ControlsOf(Settled(s, succeeded).resolving, esc) == Buttons(Offered)
  {
  }

  /**
   * The cell holds one id: a second card clicked while the first call is in
   * flight takes the cell over, and the first call's `finally` then clears it
   * although the second is still outstanding, so its buttons show again.
   */
  lemma OverlapClearsSpinner(s: QueueState, escs: seq<Escalation>, ra: ApiClient.Resolution,
                             rb: ApiClient.Resolution, succeeded: bool)
    requires s.Valid() && s.resolving == None
    requires |escs| == 2 && escs[0].id != escs[1].id
    requires escs[0].status == "pending" && escs[1].status == "pending"
    ensures Click(s, escs, 0, ra) == Some(Began(s, escs[0].id, ra))
    ensures var s1 := Began(s, escs[0].id, ra);
      Click(s1, escs, 1, rb) == Some(Began(s1, escs[1].id, rb))
    ensures var s3 := Settled(Began(Began(s, escs[0].id, ra), escs[1].id, rb), succeeded);
      && s3.Outstanding() == s.Outstanding() + 1
      && ControlsOf(s3.resolving, escs[1]) == Buttons(Offered)
  {
    var s1 := Began(s, escs[0].id, ra);
    assert ControlsOf(s1.resolving, escs[1]).Buttons?;
  }

  /** The panel's state cell and bookkeeping. */
  class Queue {
    var resolving: Option<string>
    var sent: seq<(string, ApiClient.Resolution)>
    var settled: nat
    var fired: nat
    var logged: nat

    function State(): QueueState
      reads this
    {
      QueueState(resolving, sent, settled, fired, logged)
    }

    constructor ()
      ensures State() == Initial
    {
      resolving, sent, settled, fired, logged := None, [], 0, 0, 0;
    }

    /** `setResolving(escalationId)`, then `api.resolveEscalation(escalationId, resolution)`. */
    method Begin(id: string, resolution: ApiClient.Resolution)
      requires State().Valid()
      modifies this
      ensures State() == Began(old(State()), id, resolution)
    {
      resolving := Some(id);
      sent := sent + [(id, resolution)];
    }

    /** The call settled: `onResolved()` or `console.error`, then `setResolving(null)` in `finally`. */
    method Settle(succeeded: bool)
      requires State().Valid() && State().Outstanding() > 0
      modifies this
      ensures State() == Settled(old(State()), succeeded)
    {
      if succeeded {
        fired := fired + 1;
      } else {
        logged := logged + 1;
      }
      settled := settled + 1;
      resolving := None;
    }

    /** One `resolve` whose call settles before anything else happens. */
    method Resolve(id: string, resolution: ApiClient.Resolution, succeeded: bool)
      requires State().Valid()
      modifies this
      ensures State() == Settled(Began(old(State()), id, resolution), succeeded)
      ensures resolving == None && sent == old(sent) + [(id, resolution)]
    {
      Begin(id, resolution);
      Settle(succeeded);
    }
  }
}
