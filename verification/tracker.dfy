/**
 * The lead-state transitions of the open-tracking and unsubscribe endpoints.
 *
 * Each endpoint runs one single-row `UPDATE ... WHERE id = lead_id` against the
 * `outreach_leads` table and then answers with a fixed response. The table is a
 * map from lead id to the columns those updates touch; the database clock is the
 * parameter `now`.
 */
module Tracker {
  import opened Wrappers

  /** A timestamp, as the database's NOW() would produce it. */
  type Time = int

  type LeadId = int

  type Byte = bv8

  /** The columns of one `outreach_leads` row that the tracker reads or writes. */
  datatype Lead = Lead(
    opensCount: Option<int>,  // opens_count, None is NULL
    lastOpened: Option<Time>, // last_opened, None is NULL
    status: string,
    unsubscribed: bool,
    updatedAt: Time)

  /** The `outreach_leads` table, keyed by the row's `id`. */
  type Table = map<LeadId, Lead>

  const OpenedStatus: string := "opened"
  const OptedOutStatus: string := "opted_out"

  /** `COALESCE(opens_count, 0)`: the open count with NULL read as zero. */
  function Opens(l: Lead): int
  {
    match l.opensCount
    case None => 0
    case Some(n) => n
  }

  /**
   * The effect of the open-tracking UPDATE: on the row whose id is `id`, one more
   * open, the last open at `now` and status "opened". There is no guard on
   * `unsubscribed`, and `updated_at` is not written.
   */
  function RecordOpen(t: Table, id: LeadId, now: Time): (r: Table)
    ensures r.Keys == t.Keys
    ensures forall k :: k in t && k != id ==> r[k] == t[k]
    ensures id !in t ==> r == t
    ensures id in t ==>
      && r[id].opensCount == Some(Opens(t[id]) + 1)
      && r[id].lastOpened == Some(now)
      && r[id].status == OpenedStatus
    ensures id in t ==>
      && r[id].unsubscribed == t[id].unsubscribed
      && r[id].updatedAt == t[id].updatedAt
  {
    if id in t then
      t[id := t[id].(opensCount := Some(Opens(t[id]) + 1), lastOpened := Some(now), status := OpenedStatus)]
    else
      t
  }

  /**
   * The effect of the unsubscribe UPDATE: on the row whose id is `id`, the
   * unsubscribed flag set, status "opted_out" and `updated_at` at `now`.
   */
  function MarkUnsubscribed(t: Table, id: LeadId, now: Time): (r: Table)
    ensures r.Keys == t.Keys
    ensures forall k :: k in t && k != id ==> r[k] == t[k]
    ensures id !in t ==> r == t
    ensures id in t ==>
      && r[id].unsubscribed
      && r[id].status == OptedOutStatus
      && r[id].updatedAt == now
    ensures id in t ==>
      && r[id].opensCount == t[id].opensCount
      && r[id].lastOpened == t[id].lastOpened
  {
    if id in t then
      t[id := t[id].(unsubscribed := true, status := OptedOutStatus, updatedAt := now)]
    else
      t
  }

  // ---------------------------------------------------------------------------
  // Responses

  datatype Body = Bytes(bytes: seq<Byte>) | Text(text: string)

  datatype Response = Response(body: Body, mediaType: string, headers: map<string, string>)

  /** The eight bytes every PNG file starts with. */
  const PngSignature: seq<Byte> := [0x89, 0x50, 0x4E, 0x47, 0x0D, 0x0A, 0x1A, 0x0A]

  /** The 1x1 PNG served for every open, whatever the lead: the signature, then its chunks. */
  const Pixel: seq<Byte> := PngSignature + [
    0x00, 0x00, 0x00, 0x0D, 0x49, 0x48, 0x44, 0x52, 0x00, 0x00, 0x00, 0x01, 0x00, 0x00, 0x00, 0x01,
    0x08, 0x06, 0x00, 0x00, 0x00, 0x1F, 0x15, 0xC4, 0x89, 0x00, 0x00, 0x00, 0x0A, 0x49, 0x44, 0x41,
    0x54, 0x78, 0x9C, 0x63, 0x00, 0x01, 0x00, 0x00, 0x05, 0x00, 0x01, 0x0D, 0x0A, 0x2D, 0xB4, 0x00,
    0x00, 0x00, 0x00, 0x49, 0x45, 0x4E, 0x44, 0xAE, 0x42, 0x60, 0x82]

  const NoCache: string := "no-cache, no-store, must-revalidate"

  /** The answer to every open-tracking request: the pixel, as an uncacheable PNG. */
  function PixelResponse(): (r: Response)
    ensures r.body.Bytes? && |r.body.bytes| == 67 && PngSignature <= r.body.bytes
    ensures r.mediaType == "image/png"
    ensures "Cache-Control" in r.headers && r.headers["Cache-Control"] == NoCache
  {
    Response(Bytes(Pixel), "image/png", map["Cache-Control" := NoCache])
  }

  /** The answer to every unsubscribe request: a fixed HTML confirmation. */
  function UnsubscribeResponse(): (r: Response)
    ensures r.body == Text("<h3>Unsubscribed \U{2705}</h3>")
    ensures r.mediaType == "text/html" && r.headers == map[]
  {
    Response(Text("<h3>Unsubscribed \U{2705}</h3>"), "text/html", map[])
  }

  // ---------------------------------------------------------------------------
  // The store the two endpoints update in place

  class LeadStore {
    var leads: Table

    constructor (initial: Table)
      ensures leads == initial
    {
      leads := initial;
    }

    /** `GET /o/{lead_id}.png`: record an open, then serve the pixel. */
    method TrackOpen(leadId: LeadId, now: Time) returns (resp: Response)
      modifies this
      ensures leads == RecordOpen(old(leads), leadId, now)
      ensures resp == PixelResponse()
    {
      if leadId in leads {
        var row := leads[leadId];
        leads := leads[leadId := row.(opensCount := Some(Opens(row) + 1),
                                      lastOpened := Some(now),
                                      status := OpenedStatus)];
      }
      resp := PixelResponse();
    }

    /** `GET /u/{lead_id}`: mark the lead opted out, then confirm. */
    method Unsubscribe(leadId: LeadId, now: Time) returns (resp: Response)
      modifies this
      ensures leads == MarkUnsubscribed(old(leads), leadId, now)
      ensures resp == UnsubscribeResponse()
    {
      if leadId in leads {
        var row := leads[leadId];
        leads := leads[leadId := row.(unsubscribed := true,
                                      status := OptedOutStatus,
                                      updatedAt := now)];
      }
      resp := UnsubscribeResponse();
    }
  }

  // ---------------------------------------------------------------------------
  // Sequences of requests

  /** One request reaching either endpoint, with the time the database stamps on it. */
  datatype Request = Open(id: LeadId, at: Time) | Unsub(id: LeadId, at: Time)

  function Apply(t: Table, q: Request): Table
  {
    match q
    case Open(id, at) => RecordOpen(t, id, at)
    case Unsub(id, at) => MarkUnsubscribed(t, id, at)
  }

  /** The table after the requests have been served one after another. */
  function Run(t: Table, qs: seq<Request>): Table
    decreases |qs|
  {
    if |qs| == 0 then t else Run(Apply(t, qs[0]), qs[1..])
  }

  /** The table after successive opens of one lead at the given times. */
  function RecordOpens(t: Table, id: LeadId, times: seq<Time>): Table
    decreases |times|
  {
    if |times| == 0 then t else RecordOpens(RecordOpen(t, id, times[0]), id, times[1..])
  }

  // ---------------------------------------------------------------------------
  // Properties

  /** N opens of an existing lead add exactly N to its coalesced count; the last one sets last_opened. */
  lemma {:induction false} RepeatedOpens(t: Table, id: LeadId, times: seq<Time>)
    requires id in t
    ensures var r := RecordOpens(t, id, times);
      && r.Keys == t.Keys
      && Opens(r[id]) == Opens(t[id]) + |times|
      && (|times| > 0 ==> r[id].opensCount == Some(Opens(t[id]) + |times|))
      && r[id].lastOpened == (if |times| == 0 then t[id].lastOpened else Some(times[|times| - 1]))
      && r[id].status == (if |times| == 0 then t[id].status else OpenedStatus)
      && r[id].unsubscribed == t[id].unsubscribed
      && r[id].updatedAt == t[id].updatedAt
      && (forall k :: k in t && k != id ==> r[k] == t[k])
  {
    if |times| > 0 {
      var t1 := RecordOpen(t, id, times[0]);
      RepeatedOpens(t1, id, times[1..]);
      if |times| > 1 {
        assert times[1..][|times[1..]| - 1] == times[|times| - 1];
      }
    }
  }

  /** Opens of an id with no row leave the table exactly as it was. */
  lemma {:induction false} OpensOfMissingLead(t: Table, id: LeadId, times: seq<Time>)
    requires id !in t
    ensures RecordOpens(t, id, times) == t
  {
    if |times| > 0 {
      OpensOfMissingLead(t, id, times[1..]);
    }
  }

  /**
   * Whatever requests are served: no row is created or deleted, no coalesced open
   * count goes down, and the unsubscribed flag, once set, stays set.
   */
  lemma {:induction false} RunMonotone(t: Table, qs: seq<Request>)
    ensures Run(t, qs).Keys == t.Keys
    ensures forall k :: k in t ==> Opens(Run(t, qs)[k]) >= Opens(t[k])
    ensures forall k :: k in t && t[k].unsubscribed ==> Run(t, qs)[k].unsubscribed
  {
    if |qs| > 0 {
      RunMonotone(Apply(t, qs[0]), qs[1..]);
    }
  }

  /** A row that no request names is left untouched. */
  lemma {:induction false} RunFrame(t: Table, qs: seq<Request>, k: LeadId)
    requires k in t
    requires forall i :: 0 <= i < |qs| ==> qs[i].id != k
    ensures k in Run(t, qs) && Run(t, qs)[k] == t[k]
  {
    if |qs| > 0 {
      RunMonotone(Apply(t, qs[0]), qs[1..]);
      RunFrame(Apply(t, qs[0]), qs[1..], k);
    }
  }

  /** Requests for two different leads can be served in either order. */
  lemma DistinctLeadsCommute(t: Table, p: Request, q: Request)
    requires p.id != q.id
    ensures Apply(Apply(t, p), q) == Apply(Apply(t, q), p)
  {
  }

  /** Unsubscribing twice at the same time is the same as unsubscribing once. */
  lemma UnsubscribeIdempotent(t: Table, id: LeadId, now: Time)
    ensures MarkUnsubscribed(MarkUnsubscribed(t, id, now), id, now) == MarkUnsubscribed(t, id, now)
  {
  }

  /** Unsubscribing again later changes only updated_at, to the later time. */
  lemma UnsubscribeAgain(t: Table, id: LeadId, first: Time, second: Time)
    ensures MarkUnsubscribed(MarkUnsubscribed(t, id, first), id, second) == MarkUnsubscribed(t, id, second)
    ensures id in t ==>
      var once := MarkUnsubscribed(t, id, first);
      MarkUnsubscribed(once, id, second) == once[id := once[id].(updatedAt := second)]
  {
  }

  /** The row agrees with itself about being opted out. */
  predicate StatusAgrees(l: Lead)
  {
    l.unsubscribed <==> l.status == OptedOutStatus
  }

  /**
   * The open UPDATE has no unsubscribed guard: an open after an unsubscribe leaves
   * the flag set but moves the status back to "opened", and updated_at keeps the
   * unsubscribe time.
   */
  lemma OpenAfterUnsubscribe(t: Table, id: LeadId, unsubAt: Time, openAt: Time)
    requires id in t
    ensures var r := RecordOpen(MarkUnsubscribed(t, id, unsubAt), id, openAt);
      && r[id].unsubscribed
      && r[id].status == OpenedStatus
      && r[id].updatedAt == unsubAt
      && r[id].lastOpened == Some(openAt)
      && !StatusAgrees(r[id])
  {
  }

  /** Unsubscribe leaves the row in agreement; an open of an unsubscribed row breaks it. */
  lemma StatusAgreement(t: Table, id: LeadId, now: Time)
    requires id in t
    ensures StatusAgrees(MarkUnsubscribed(t, id, now)[id])
    ensures t[id].unsubscribed ==> !StatusAgrees(RecordOpen(t, id, now)[id])
  {
  }
}
