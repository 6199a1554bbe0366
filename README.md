# Idempotent transaction ingestion and processing, in Dafny

This project models a small webhook service that records financial transactions
in one `transactions` table and processes each one in a background job. It covers
three parts:

- the table (`create_table.py`): one row per `transaction_id`, a `status` limited
  to PROCESSING, PROCESSED and FAILED, and nullable `processed_at` and
  `last_error` columns;
- the webhook handler (`app/main.py`): it inserts a PROCESSING row only when the
  id is new, and enqueues exactly one job in that case only. A duplicate gets the
  same empty 202 response. The status query returns the row or a 404;
- the job (`app/worker.py`): it locks the row, creates it if it is missing, and
  returns at once if the row is PROCESSED. Otherwise it runs the external effect
  and marks the row PROCESSED, or marks it FAILED and re-raises.

Every `with engine.begin()` block is a unit of work. It writes to a staged copy of
the table. The copy is committed when the block ends normally and dropped when an
exception leaves the block. Modelled this way, the job's FAILED update at
`app/worker.py:38` never reaches the table, because the `raise` on the next line
leaves the block (see "## Findings").

Modules:

- `Schema` (schema.dfy): rows, the status CHECK, the INSERT with its unique and
  NUMERIC(18,2) constraints, the lifecycle invariant and provisioning.
- `Ingestion` (ingestion.dfy): one webhook request as a function (`Submit`),
  repeated submissions, and the query's row view.
- `Worker` (worker.dfy): one job invocation as written (`Process`), the corrected
  job (`ProcessIntended`), and repeated deliveries (`Redeliver`).
- `Lifecycle` (lifecycle.dfy): any interleaving of requests and jobs from a fresh
  table.
- `Service` (service.dfy): the class `Database`. Its fields are the committed table,
  the queue and a ghost count of effect runs. Its methods run the handler and the
  job step by step over a staged copy and are proved equal to `Submit` and
  `Process`.

Inputs the code gets from outside the model are parameters:
- the result of the external effect (`Effect`: succeeds, or fails with `str(exc)`);
- whether the enqueue raises (`enqueueFails`);
- the unit of work's `now()` (`Time`). PostgreSQL's `now()` is the transaction's
  start time, so one value serves `created_at` and `processed_at` within one block.

Amounts are integer cents. NUMERIC(18,2) holds 16 integer digits, so an amount fits
when its absolute value is below 10^16 currency units, that is 10^18 cents.

Three behaviours of the code that a reader might not expect:
- The comment at `app/worker.py:37` says a failed attempt is marked FAILED
  before the exception is re-raised. The failure update is rolled back instead,
  so no committed row is ever FAILED (`Lifecycle.Reachable`, and "## Findings").
- The status query does not return `last_error`: its column list at
  `app/main.py:65` leaves it out. So a client never sees why a transaction failed
  (`Ingestion.ViewOf`).
- An amount that overflows NUMERIC(18,2) raises a data error, not an
  IntegrityError. The handler does not catch it, so the client gets a server
  error, and this happens even for a duplicate id. PostgreSQL coerces the value
  before it checks the unique index.

## Model

| member | source | states |
|---|---|---|
| `Schema.ParseStatus` | create_table.py:24 | the CHECK admits a status text exactly when it is PROCESSING, PROCESSED or FAILED, and an admitted text names that status |
| `Schema.StatusTextRoundTrip` | create_table.py:24 | every status is stored as a text the CHECK admits and reads back as itself |
| `Schema.Insert` | create_table.py:19-27 | an INSERT fails on an amount outside NUMERIC(18,2) (before the unique check), fails on an existing id, and otherwise adds exactly that one row with `created_at = now()` and NULL `processed_at` and `last_error`, leaving every other row alone |
| `Schema.InsertKeepsInvariant` | create_table.py:24-27 | inserting a PROCESSING row keeps "`processed_at` set iff PROCESSED, `last_error` set only if FAILED, amount fits" on every row |
| `Schema.CreateTableIfNotExists` | create_table.py:16-28 | provisioning leaves a table; it creates an empty one when none exists and keeps an existing one unchanged |
| `Schema.ProvisionIdempotent` | create_table.py:17 | running the create step twice gives the same single table as running it once |
| `Ingestion.HttpStatus` | app/main.py:35-58 | the handler answers 202 exactly when it returns its empty body, for a new id and a duplicate alike |
| `Ingestion.WebhookValues` | app/main.py:42-50 | the webhook INSERT supplies the payload's amount and status PROCESSING |
| `Ingestion.Submit` | app/main.py:38-58 | new id: one PROCESSING row with the payload's columns and one job `(app.worker.process_transaction, id, retry 3, timeout 600)`, nothing else changes; duplicate: 202 and nothing changes; failed enqueue: the insert is rolled back and the error propagates; overflow: error and no change; a job is enqueued iff the insert was committed |
| `Ingestion.SubmitKeepsInvariant` | app/main.py:40-51 | a request keeps the table's lifecycle invariant |
| `Ingestion.DuplicatesChangeNothing` | app/main.py:56-58 | any number of resubmissions of a stored id leave the table and the queue unchanged and are all accepted |
| `Ingestion.SubmitAllIdempotent` | app/main.py:37-58 | submitting a new id N times: a row for it exists iff some enqueue went through, it is PROCESSING, exactly one job for it is added in that case and none otherwise, no other row changes, and attempt i is accepted iff some attempt up to i had its enqueue go through |
| `Ingestion.AllSucceedOneRowOneJob` | app/main.py:35-58 | N ≥ 1 submissions of a new id whose enqueues succeed leave exactly one row and exactly one job for it, and all N answer 202 |
| `Ingestion.ViewOf` | app/main.py:65-69 | the query returns the id and the stored row's `source_account`, `destination_account`, `amount`, `currency`, `created_at`, `processed_at` and status (as text the CHECK admits), and not `last_error` |
| `Ingestion.LookupStatus` | app/main.py:67-68 | the query answers 404 exactly when no row was found |
| `Worker.Locked` | app/worker.py:19-22 | after the lock-select the row exists; a missing one is inserted as PROCESSING with `created_at = now()` and NULL other columns; no other row changes |
| `Worker.Process` | app/worker.py:18-39 | only the id's row is written; on a PROCESSED row the job returns, the effect does not run and nothing changes; otherwise the effect runs; on success the committed row is PROCESSED with `processed_at = now()` and NULL `last_error`, its other columns kept (for a missing id, the defensive row's NULLs and `created_at = now()`); on failure FAILED and `str(exc)` are staged, the exception is re-raised and the committed table is exactly the old one |
| `Worker.ProcessIntended` | app/worker.py:36-39 | the corrected job: on failure the row is committed FAILED with `last_error = str(exc)`, every other column kept (or the defensive row's NULLs and `created_at = now()` for a missing id), and the exception still reaches the queue; on success the whole row is as in `Process`; a PROCESSED row is left alone and the effect does not run |
| `Worker.ProcessKeepsInvariant` | app/worker.py:22-38 | every invocation keeps "`processed_at` set iff PROCESSED, `last_error` set only if FAILED" on every row |
| `Worker.ProcessIntendedKeepsInvariant` | app/worker.py:35-38 | the corrected job keeps the same invariant |
| `Worker.ProcessNeverRecordsFailure` | app/worker.py:36-39 | as written, an invocation never commits a FAILED status or a `last_error` |
| `Worker.FailedMarkIsRolledBack` | app/worker.py:37-39 | a PROCESSING row whose effect raises: FAILED is staged, but the committed row stays PROCESSING with NULL `last_error` |
| `Worker.FailureThenRetry` | app/worker.py:29-38 | with the failure committed: a failed attempt leaves FAILED and the error; a later successful retry leaves PROCESSED, that retry's `processed_at` and NULL `last_error` |
| `Worker.ProcessedIsTerminal` | app/worker.py:24-26 | once a row is PROCESSED, any further deliveries change nothing (status, `processed_at`, `last_error` included) and never run the effect |
| `Worker.NoDoubleEffect` | app/worker.py:18-35 | over any deliveries for one id, at most one effect run ends in a committed PROCESSED; the effect runs once per delivery up to the first success and never after; the row ends PROCESSED iff it was already or some delivery succeeded; no other row changes |
| `Lifecycle.ProcessKeepsRows` | app/worker.py:18-39 | a job invocation deletes no row and changes no `created_at` |
| `Lifecycle.SubmitKeepsRows` | app/main.py:38-58 | a request deletes no row and changes no `created_at` |
| `Lifecycle.StepKeepsGood` | app/main.py:38-53 | any single request or invocation keeps the lifecycle invariant and "at most one job per id, only for an id with a row" |
| `Lifecycle.ReplayKeepsGood` | app/main.py:52-53 | over any interleaving of requests and invocations both invariants hold, rows are never deleted, `created_at` never changes and the queue only grows |
| `Lifecycle.StepNeverRecordsFailure` | app/worker.py:36-39 | no single request or invocation commits a FAILED row or a `last_error` |
| `Lifecycle.ReplayNeverRecordsFailure` | app/worker.py:36-39 | as written, no interleaving from a table without failures ever commits a FAILED row or a `last_error` |
| `Lifecycle.Reachable` | create_table.py:17-28 | from a freshly provisioned table: at most one job per id, the lifecycle invariant on every row, and no row ever FAILED |
| `Service.Database.constructor` | create_table.py:17-28 | the service starts with an empty table, an empty queue and no effect runs |
| `Service.Database.ReceiveWebhook` | app/main.py:36-58 | the handler, run step by step over a staged copy, commits exactly what `Submit` gives and returns its response, and keeps the lifecycle invariant |
| `Service.Database.GetTransaction` | app/main.py:62-69 | the query finds the row iff the id is stored, returns its view, answers 404 otherwise and writes nothing |
| `Service.Database.ProcessTransaction` | app/worker.py:11-39 | the job, run step by step over a staged copy, commits exactly what `Process` gives, counts one effect run exactly when the effect runs, leaves the queue alone and keeps the lifecycle invariant |

## Findings

| source | as written | input that shows it | evidently intended | confidence | as-written member | corrected member |
|---|---|---|---|---|---|---|
| app/worker.py:36-39 | the FAILED update and `last_error` are written inside `with engine.begin()`, then `raise` leaves the block, which rolls them back; the defensive insert of a missing row is rolled back too, and no committed row is ever FAILED | row `tx-1` PROCESSING, effect raises "downstream timeout": the committed row stays PROCESSING with NULL `last_error` | commit FAILED and `str(exc)`, then re-raise so the queue retries (the comment at app/worker.py:37) | high; not executed | `Worker.FailedMarkIsRolledBack` | `Worker.ProcessIntended` |

`Service.Database.ProcessTransaction` runs the job as written, because that is
what the service does. The corrected job carries the failure-recording property
(`Worker.FailureThenRetry`) and the lifecycle invariant
(`Worker.ProcessIntendedKeepsInvariant`).

## Left out

- `app/db.py` is not part of this model. It is environment lookup, engine
  construction and a debug print of the environment.
- The `health` endpoint (`app/main.py:30-32`) only returns the wall clock.
- FastAPI routing and pydantic validation: the payload arrives already validated.
- The `amount: float` field and its rounding into NUMERIC(18,2): amounts are
  integer cents.
- The Redis/RQ transport: connection, scheduling, timeout enforcement, and
  retries and their bound. Only the job record appended to the queue is modelled.
  A retry is another delivery in `Worker.Redeliver`.
- Real concurrency is not modelled: the `FOR UPDATE` lock, blocking, a job that
  runs before the ingest commits, and redelivery during the 30-second sleep. Each
  request and each invocation is one atomic step, and the lock justifies that.
- Store failures other than a duplicate id and a NUMERIC overflow (connectivity,
  a failed commit) are not modelled.
- Lifecycle.Reachable: "at most one job per id, and only for an id with a row"
  holds only because a failed commit is not modelled. The handler enqueues at
  `app/main.py:53` before the unit of work commits at `app/main.py:55`. If that
  commit fails, a job is left for an id with no row, and a retried request
  inserts the row again and enqueues a second job for the same id.
- Timestamps are opaque `Time` parameters, not clock readings.
- The surrogate `id SERIAL` column is never read by the handler or the job.
- `get_current_job()` and `job_id` (`app/worker.py:16-17`) are computed and never
  used.
- `row['status']` (`app/worker.py:24`) may raise under SQLAlchemy 2.x. The model
  uses the intended status comparison.
- `except IntegrityError` would catch any integrity violation. With `status`
  hard-coded and the id a required string, a duplicate id is the only one that
  can occur.
