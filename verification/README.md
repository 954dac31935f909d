# Lead tracker: lead-state transitions

This project models the two state-changing endpoints of the outreach tracker server
(`tracker_server.py`) and proves properties of the model in Dafny.

- `GET /o/{lead_id}.png` (`track_open`) runs one `UPDATE` on the `outreach_leads` table.
  It adds one open to the lead's count, reading a NULL count as zero. It also sets
  `last_opened` to the database clock and `status` to `'opened'`. Then it serves a fixed
  1x1 PNG that must not be cached.
- `GET /u/{lead_id}` (`unsubscribe`) runs one `UPDATE` that sets `unsubscribed`, sets
  `status` to `'opted_out'` and stamps `updated_at`. Then it serves a fixed HTML confirmation.

Structure:

- `wrappers.dfy`: `Option`, whose `None` stands for SQL NULL.
- `tracker.dfy` (module `Tracker`):
  - `Lead` holds the five columns the updates touch.
  - The table is a `map<int, Lead>` keyed by row id.
  - `RecordOpen` and `MarkUnsubscribed` give the effect of each `UPDATE` on the whole table.
  - Class `LeadStore` holds the table in a field. Its methods `TrackOpen` and `Unsubscribe`
    update that field in place and return the fixed responses.
  - Lemmas cover sequences of requests (`Run`, `RecordOpens`).

The database clock `NOW()` is the parameter `now` of each operation.

The model follows the code as written, not the design description of the system. That
description calls an unsubscribed lead absorbing and says an open must not touch it. The
code differs in three ways:

- The open `UPDATE` filters on `id` alone. An open after an unsubscribe therefore moves
  `status` back to `'opened'` while `unsubscribed` stays true (`OpenAfterUnsubscribe`,
  `StatusAgreement`).
- The opted-out status string is `'opted_out'`.
- The open `UPDATE` does not write `updated_at`.

The design also says the tracker endpoints swallow database errors. The code has no error
handling at all.

## Model

| member | source | states |
|---|---|---|
| Tracker.RecordOpen | tracker_server.py:30-36 | only the row with the given id changes and no row is added or removed; an absent id leaves the table unchanged; on the row, opens_count becomes COALESCE(old, 0) + 1, last_opened becomes now, status becomes "opened", and unsubscribed and updated_at keep their old values |
| Tracker.MarkUnsubscribed | tracker_server.py:43-47 | only the row with the given id changes and no row is added or removed; an absent id leaves the table unchanged; on the row, unsubscribed becomes true, status "opted_out" and updated_at now, and opens_count and last_opened keep their old values |
| Tracker.PixelResponse | tracker_server.py:38-39 | the open response is the 67-byte pixel, which starts with the PNG signature, with media type image/png and Cache-Control "no-cache, no-store, must-revalidate" |
| Tracker.UnsubscribeResponse | tracker_server.py:49 | the unsubscribe response is the fixed HTML body "<h3>Unsubscribed ✅</h3>" as text/html |
| Tracker.LeadStore.TrackOpen | tracker_server.py:28-39 | the stored table becomes RecordOpen of the old table, and the response is PixelResponse() whatever the table and the id |
| Tracker.LeadStore.Unsubscribe | tracker_server.py:41-49 | the stored table becomes MarkUnsubscribed of the old table, and the response is UnsubscribeResponse() whatever the table and the id |
| Tracker.RepeatedOpens | tracker_server.py:30-36 | N successive opens of an existing lead raise its coalesced count by exactly N; after at least one open, last_opened is the time of the last open and status is "opened"; unsubscribed, updated_at and every other row are unchanged |
| Tracker.OpensOfMissingLead | tracker_server.py:35 | any number of opens of an id with no row leave the table exactly as it was |
| Tracker.RunMonotone | tracker_server.py:30-47 | over any sequence of opens and unsubscribes, no row is created or deleted, no coalesced open count decreases, and a set unsubscribed flag stays set |
| Tracker.RunFrame | tracker_server.py:30-47 | a row that no request in the sequence names is left exactly unchanged |
| Tracker.DistinctLeadsCommute | tracker_server.py:30-47 | two requests on different lead ids give the same table in either order |
| Tracker.UnsubscribeIdempotent | tracker_server.py:43-47 | unsubscribing twice with the same time gives the same table as unsubscribing once |
| Tracker.UnsubscribeAgain | tracker_server.py:45 | unsubscribing again at a later time gives the table of a single unsubscribe at that later time; compared with the first unsubscribe alone, only updated_at differs |
| Tracker.OpenAfterUnsubscribe | tracker_server.py:31-45 | an open after an unsubscribe leaves unsubscribed true but sets status to "opened" and last_opened to the open time; updated_at keeps the unsubscribe time; unsubscribed and status no longer agree |
| Tracker.StatusAgreement | tracker_server.py:31-45 | after an unsubscribe, the row's unsubscribed flag agrees with status "opted_out"; an open of an unsubscribed row breaks that agreement, so the opted-out state is not absorbing |

## Left out

- The FastAPI application, routing and the conversion of the path parameter to an integer
  (tracker_server.py:1, 6, 24, 28-29, 41-42). These are framework behaviour. Lead ids are
  plain integers here.
- `health()` (tracker_server.py:24-26). It returns a constant and touches no state.
- Configuration from environment variables and its default credentials
  (tracker_server.py:9-13).
- The psycopg2 connection and cursor, `cur.execute` and `conn.commit()`
  (tracker_server.py:15-18, 37, 48). Each `UPDATE` is one atomic map update. Transactions,
  database errors and the exceptions they would raise out of the handlers are not modelled.
- Concurrency, including the single connection that all requests share. The model is sequential.
- The database clock `NOW()`. It is the parameter `now`.
- The internal structure of the PNG (chunks, CRCs). The pixel is an opaque byte constant.
  Only its signature prefix and length are stated.
- Columns of `outreach_leads` that neither `UPDATE` writes, such as `created_at`. They are not
  part of `Lead`. Neither operation can change them.
- The `charset` parameter that the framework appends to the `text/html` media type. The
  model keeps the media type as the handler passes it.
