/**
 * The human-in-the-loop escalation queue: an in-memory dictionary from
 * escalation id to record, in insertion order, where escalating adds or
 * replaces a pending record and resolving marks one resolved.
 */
module Escalate {
  import opened Wrappers
  import opened Json
  import opened PyDict

  /** One escalation record, with the keys of the dictionary the source builds. */
  datatype Record = Record(
    escalationId: string,
    eventId: string,
    event: Json,
    analysis: Json,
    status: string,
    createdAt: string,
    resolvedAt: Option<string>,
    resolution: Option<string>,
    resolvedBy: Option<string>)

  function OptStr(v: Option<string>): Json {
    match v
    case Some(s) => JStr(s)
    case None => JNull
  }

  /** The record as the dictionary the API returns. */
  function AsJson(r: Record): Json {
    JObj([("escalation_id", JStr(r.escalationId)), ("event_id", JStr(r.eventId)), ("event", r.event),
          ("analysis", r.analysis), ("status", JStr(r.status)), ("created_at", JStr(r.createdAt)),
          ("resolved_at", OptStr(r.resolvedAt)), ("resolution", OptStr(r.resolution)),
          ("resolved_by", OptStr(r.resolvedBy))])
  }

  /** `event["id"]`, for the string ids events carry. */
  function EventId(event: Json): Option<string> {
    match Field(event, "id")
    case Some(JStr(s)) => Some(s)
    case _ => None
  }

  /** `f"esc-{event['id']}"`. */
  function EscalationId(eventId: string): string {
    "esc-" + eventId
  }

  function NewRecord(event: Json, analysis: Json, now: string): (r: Record)
    requires EventId(event).Some?
    ensures r.escalationId == "esc-" + EventId(event).value && r.eventId == EventId(event).value
    ensures r.status == "pending" && r.resolvedAt.None? && r.resolution.None? && r.resolvedBy.None?
    ensures r.event == event && r.analysis == analysis && r.createdAt == now
  {
    var id := EventId(event).value;
    Record(EscalationId(id), id, event, analysis, "pending", now, None, None, None)
  }

  /** The stored records, in insertion order. */
  function All(order: seq<string>, recs: map<string, Record>): (r: seq<Record>)
    requires forall k :: 0 <= k < |order| ==> order[k] in recs
    ensures |r| == |order| && forall k :: 0 <= k < |order| ==> r[k] == recs[order[k]]
  {
    seq(|order|, k requires 0 <= k < |order| => recs[order[k]])
  }

  /** `[r for r in values if r["status"] == "pending"]`. */
  function Pending(order: seq<string>, recs: map<string, Record>): seq<Record>
    requires forall k :: 0 <= k < |order| ==> order[k] in recs
  {
    if order == [] then []
    else
      var rest := Pending(order[1..], recs);
      if recs[order[0]].status == "pending" then [recs[order[0]]] + rest else rest
  }

  /** The queue is exactly the stored records whose status is `pending`. */
  lemma {:induction false} PendingMembers(order: seq<string>, recs: map<string, Record>, r: Record)
    requires forall k :: 0 <= k < |order| ==> order[k] in recs
    ensures r in Pending(order, recs) <==> r in All(order, recs) && r.status == "pending"
  {
    if order != [] {
      PendingMembers(order[1..], recs, r);
      assert All(order, recs) == [recs[order[0]]] + All(order[1..], recs);
    }
  }

  /** The queue lists pending records in storage order, so it is never longer than the store. */
  lemma {:induction false} PendingShorter(order: seq<string>, recs: map<string, Record>)
    requires forall k :: 0 <= k < |order| ==> order[k] in recs
    ensures |Pending(order, recs)| <= |All(order, recs)|
  {
    if order != [] {
      PendingShorter(order[1..], recs);
    }
  }

  /** Replacing a record that is not pending by another that is not pending leaves the queue as it was, minus that record. */
  lemma {:induction false} PendingAfterUpdate(order: seq<string>, recs: map<string, Record>, id: string, rec: Record)
    requires forall k :: 0 <= k < |order| ==> order[k] in recs
    requires id in recs && rec.status != "pending"
    requires forall k :: k in recs ==> recs[k].escalationId == k
    requires rec.escalationId == id
    ensures forall r :: r in Pending(order, recs[id := rec]) <==> r in Pending(order, recs) && r.escalationId != id
  {
    if order != [] {
      PendingAfterUpdate(order[1..], recs, id, rec);
    }
  }

  class EscalateAgent {
    /** The dictionary's keys, in insertion order. */
    var order: seq<string>
    var records: map<string, Record>

    /** Keys appear once, the key list and the map agree, and each record is stored under its own id. */
    predicate Valid()
      reads this
    {
      && (forall i, j :: 0 <= i < j < |order| ==> order[i] != order[j])
      && (forall k :: 0 <= k < |order| ==> order[k] in records)
      && (forall id :: id in records ==> id in order)
      && (forall id :: id in records ==> records[id].escalationId == id)
    }

    constructor ()
      ensures Valid() && order == [] && records == map[]
    {
      order := [];
      records := map[];
    }

    /** `get_all`. */
    function GetAll(): seq<Record>
      requires Valid()
      reads this
    {
      All(order, records)
    }

    /** `get_queue`. */
    function GetQueue(): seq<Record>
      requires Valid()
      reads this
    {
      Pending(order, records)
    }

    /** `get`: the record stored under the id, or `None`. */
    function Get(escalationId: string): (r: Option<Record>)
      requires Valid()
      reads this
      ensures r.Some? <==> escalationId in records
      ensures r.Some? ==> r.value == records[escalationId] && r.value.escalationId == escalationId && r.value in GetAll()
    {
      if escalationId in records then
        var k :| 0 <= k < |order| && order[k] == escalationId;
        assert GetAll()[k] == records[escalationId];
        Some(records[escalationId])
      else None
    }

    /**
     * `escalate`: a pending record stored under `"esc-" + event id`; a second
     * escalation of the same event replaces the first and keeps its place.
     */
    method Escalate(event: Json, analysis: Json, now: string) returns (rec: Record)
      requires Valid() && EventId(event).Some?
      modifies this
      ensures Valid()
      ensures rec == NewRecord(event, analysis, now)
      ensures records == old(records)[rec.escalationId := rec]
      ensures order == if rec.escalationId in old(records) then old(order) else old(order) + [rec.escalationId]
    {
      var id := EscalationId(EventId(event).value);
      rec := Record(id, EventId(event).value, event, analysis, "pending", now, None, None, None);
      if id !in records {
        order := order + [id];
      }
      records := records[id := rec];
    }

    /**
     * `resolve`: an unknown id is a `KeyError` and changes nothing; a known
     * record becomes `resolved` with the resolution, who resolved it and when.
     */
    method Resolve(escalationId: string, resolution: string, resolvedBy: string, now: string)
      returns (r: Result<Record, string>)
      requires Valid()
      modifies this
      ensures Valid() && order == old(order)
      ensures r.Err? <==> escalationId !in old(records)
      ensures r.Err? ==> r.error == "Escalation " + escalationId + " not found" && records == old(records)
      ensures r.Ok? ==>
                && r.value == old(records)[escalationId].(status := "resolved", resolution := Some(resolution),
                                                         resolvedBy := Some(resolvedBy), resolvedAt := Some(now))
                && records == old(records)[escalationId := r.value]
    {
      if escalationId !in records {
        return Err("Escalation " + escalationId + " not found");
      }
      var rec := records[escalationId];
      rec := rec.(status := "resolved", resolution := Some(resolution), resolvedBy := Some(resolvedBy), resolvedAt := Some(now));
      records := records[escalationId := rec];
      return Ok(rec);
    }
  }

  /** After a successful resolve the record has left the queue and every other queued record is still there. */
  lemma ResolveLeavesQueue(order: seq<string>, recs: map<string, Record>, id: string, resolution: string, resolver: string, now: string)
    requires forall k :: 0 <= k < |order| ==> order[k] in recs
    requires forall k :: k in recs ==> recs[k].escalationId == k
    requires id in recs
    ensures var rec := recs[id].(status := "resolved", resolution := Some(resolution), resolvedBy := Some(resolver), resolvedAt := Some(now));
      forall r :: r in Pending(order, recs[id := rec]) <==> r in Pending(order, recs) && r.escalationId != id
  {
    var rec := recs[id].(status := "resolved", resolution := Some(resolution), resolvedBy := Some(resolver), resolvedAt := Some(now));
    PendingAfterUpdate(order, recs, id, rec);
  }
}
