/**
 * The webhook ingestion endpoint and the status query of the HTTP service:
 * insert-if-absent plus a job enqueued only for the insert that succeeded, with a
 * duplicate normalised to the same empty 202 response.
 *
 * `Submit` is the specification of one request; Service.Database.ReceiveWebhook
 * runs it step by step over the committed table and a staged copy.
 */
module Ingestion {
  import opened Wrappers
  import opened Schema

  /** The validated request body. */
  datatype Payload = Payload(
    transactionId: string,
    sourceAccount: string,
    destinationAccount: string,
    amount: Cents,
    currency: string)

  /** The callable the job names. */
  const WorkerFunction: string := "app.worker.process_transaction"
  /** The per-attempt time budget given to the job, in seconds. */
  const JobTimeout: nat := 600
  /** The number of retries the job is given. */
  const RetryMax: nat := 3

  /** A job record on the `transactions` queue. */
  datatype Job = Job(func: string, transactionId: string, maxRetry: nat, timeout: nat)

  /** The job enqueued for a freshly inserted transaction. */
  function JobFor(id: string): Job
  {
    Job(WorkerFunction, id, RetryMax, JobTimeout)
  }

  /** The number of jobs on the queue for one transaction. */
  function JobsFor(q: seq<Job>, id: string): nat
  {
    if q == [] then 0
    else JobsFor(q[..|q| - 1], id) + (if q[|q| - 1].transactionId == id then 1 else 0)
  }

  lemma JobsForAppend(q: seq<Job>, j: Job, id: string)
    ensures JobsFor(q + [j], id) == JobsFor(q, id) + (if j.transactionId == id then 1 else 0)
  {
  }

  /** What escapes the request handler instead of the empty body. */
  datatype IngestError =
    | EnqueueFailed    // the enqueue raised; not an IntegrityError, so it is not caught
    | AmountOverflow   // the amount does not fit NUMERIC(18,2): a DataError, not caught

  datatype Response = Accepted | Raised(error: IngestError)

  /** The HTTP status the client sees: 202 with an empty body, or a server error. */
  function HttpStatus(r: Response): (code: int)
    ensures code == 202 <==> r.Accepted?
  {
    if r.Accepted? then 202 else 500
  }

  /** The values the webhook INSERT supplies: the payload's columns and PROCESSING. */
  function WebhookValues(p: Payload): (v: Values)
    ensures v.status == Processing && v.amount == Some(p.amount)
  {
    Values(Some(p.sourceAccount), Some(p.destinationAccount), Some(p.amount), Some(p.currency), Processing)
  }

  /** The committed table, the queue and the response after one request. */
  datatype Ingested = Ingested(rows: Store, queue: seq<Job>, response: Response)

  /**
   * One request. The INSERT and the enqueue share one unit of work: a raised
   * IntegrityError is caught inside it, so it ends normally, having written
   * nothing; any other exception leaves it and its INSERT is rolled back; the
   * enqueue itself goes to the queue's own store and is not part of the unit of
   * work.
   */
  function Submit(rows: Store, queue: seq<Job>, p: Payload, enqueueFails: bool, now: Time): (r: Ingested)
    // a new id: exactly one PROCESSING row and exactly one job, nothing else changes
    ensures p.transactionId !in rows && AmountFits(Some(p.amount)) && !enqueueFails ==>
      && r.response == Accepted
      && r.rows.Keys == rows.Keys + {p.transactionId}
      && r.rows - {p.transactionId} == rows
      && r.rows[p.transactionId] == Row(Some(p.sourceAccount), Some(p.destinationAccount), Some(p.amount),
                                        Some(p.currency), Processing, now, None, None)
      && r.queue == queue + [Job(WorkerFunction, p.transactionId, 3, 600)]
    // a duplicate id: the same accepted response, and nothing changes
    ensures p.transactionId in rows && AmountFits(Some(p.amount)) ==>
      r == Ingested(rows, queue, Accepted)
    // a failed enqueue: the insert is rolled back and the error propagates
    ensures p.transactionId !in rows && AmountFits(Some(p.amount)) && enqueueFails ==>
      r == Ingested(rows, queue, Raised(EnqueueFailed))
    // an amount the column cannot hold: nothing changes and the error propagates
    ensures !AmountFits(Some(p.amount)) ==> r == Ingested(rows, queue, Raised(AmountOverflow))
    // a job is enqueued only on the path where the insert was committed
    ensures r.queue != queue <==> p.transactionId !in rows && p.transactionId in r.rows
  {
    match Insert(rows, p.transactionId, WebhookValues(p), now)
    case NumericOverflow => Ingested(rows, queue, Raised(AmountOverflow))
    case UniqueViolation => Ingested(rows, queue, Accepted)
    case Inserted(staged) =>
      if enqueueFails then Ingested(rows, queue, Raised(EnqueueFailed))
      else Ingested(staged, queue + [JobFor(p.transactionId)], Accepted)
  }

  /** A request keeps the table's lifecycle invariant. */
  lemma SubmitKeepsInvariant(rows: Store, queue: seq<Job>, p: Payload, enqueueFails: bool, now: Time)
    requires StoreInvariant(rows)
    ensures StoreInvariant(Submit(rows, queue, p, enqueueFails, now).rows)
  {
  }

  /** One delivery of the same payload: whether its enqueue raises, and its `now()`. */
  datatype Attempt = Attempt(enqueueFails: bool, now: Time)

  datatype Batch = Batch(rows: Store, queue: seq<Job>, responses: seq<Response>)

  /** The same payload submitted once per attempt, in order. */
  function SubmitAll(rows: Store, queue: seq<Job>, p: Payload, attempts: seq<Attempt>): (b: Batch)
    ensures |b.responses| == |attempts|
    decreases |attempts|
  {
    if attempts == [] then Batch(rows, queue, [])
    else
      var r := Submit(rows, queue, p, attempts[0].enqueueFails, attempts[0].now);
      var rest := SubmitAll(r.rows, r.queue, p, attempts[1..]);
      Batch(rest.rows, rest.queue, [r.response] + rest.responses)
  }

  /** Whether some attempt in `attempts[..n]` had its enqueue go through. */
  predicate SomeEnqueueSucceeds(attempts: seq<Attempt>, n: int)
  {
    exists i :: 0 <= i < n && i < |attempts| && !attempts[i].enqueueFails
  }

  /** Resubmitting an id already stored changes nothing and is always accepted. */
  lemma {:induction false} DuplicatesChangeNothing(rows: Store, queue: seq<Job>, p: Payload, attempts: seq<Attempt>)
    requires p.transactionId in rows && AmountFits(Some(p.amount))
    ensures var b := SubmitAll(rows, queue, p, attempts);
      b.rows == rows && b.queue == queue && forall i :: 0 <= i < |b.responses| ==> b.responses[i] == Accepted
  {
    if attempts != [] {
      DuplicatesChangeNothing(rows, queue, p, attempts[1..]);
    }
  }

  /**
   * Idempotent ingestion: submitting a new id any number of times stores one row
   * for it exactly when some enqueue went through, enqueues exactly one job for it
   * in that case and none otherwise, touches no other row, and accepts an attempt
   * exactly when its own enqueue went through or an earlier one had.
   */
  lemma {:induction false} SubmitAllIdempotent(rows: Store, queue: seq<Job>, p: Payload, attempts: seq<Attempt>)
    requires p.transactionId !in rows && AmountFits(Some(p.amount))
    ensures var b := SubmitAll(rows, queue, p, attempts);
      && (p.transactionId in b.rows <==> SomeEnqueueSucceeds(attempts, |attempts|))
      && b.rows - {p.transactionId} == rows
      && (p.transactionId in b.rows ==> b.rows[p.transactionId].status == Processing)
      && JobsFor(b.queue, p.transactionId) == JobsFor(queue, p.transactionId) + (if p.transactionId in b.rows then 1 else 0)
      && forall i :: 0 <= i < |attempts| ==>
           (b.responses[i] == Accepted <==> SomeEnqueueSucceeds(attempts, i + 1))
  {
    if attempts != [] {
      var id := p.transactionId;
      var r := Submit(rows, queue, p, attempts[0].enqueueFails, attempts[0].now);
      var b := SubmitAll(rows, queue, p, attempts);
      var tail := attempts[1..];
      if attempts[0].enqueueFails {
        SubmitAllIdempotent(rows, queue, p, tail);
        forall n | 0 <= n <= |tail| ensures SomeEnqueueSucceeds(attempts, n + 1) <==> SomeEnqueueSucceeds(tail, n) {
          if SomeEnqueueSucceeds(attempts, n + 1) {
            var i :| 0 <= i < n + 1 && i < |attempts| && !attempts[i].enqueueFails;
            assert tail[i - 1] == attempts[i];
          }
          if SomeEnqueueSucceeds(tail, n) {
            var i :| 0 <= i < n && i < |tail| && !tail[i].enqueueFails;
            assert attempts[i + 1] == tail[i];
          }
        }
        assert !SomeEnqueueSucceeds(attempts, 1);
      } else {
        DuplicatesChangeNothing(r.rows, r.queue, p, tail);
        JobsForAppend(queue, JobFor(id), id);
        forall n | 1 <= n <= |attempts| ensures SomeEnqueueSucceeds(attempts, n) {
          assert !attempts[0].enqueueFails;
        }
        forall i | 0 <= i < |attempts| ensures b.responses[i] == Accepted {
          if i > 0 { assert b.responses[i] == SubmitAll(r.rows, r.queue, p, tail).responses[i - 1]; }
        }
      }
    }
  }

  /**
   * A new id submitted N >= 1 times with every enqueue going through: exactly one
   * row and exactly one job for it, no other row changed, and all N answers 202.
   */
  lemma {:induction false} AllSucceedOneRowOneJob(rows: Store, queue: seq<Job>, p: Payload, attempts: seq<Attempt>)
    requires p.transactionId !in rows && AmountFits(Some(p.amount))
    requires JobsFor(queue, p.transactionId) == 0
    requires |attempts| >= 1 && forall i :: 0 <= i < |attempts| ==> !attempts[i].enqueueFails
    ensures var b := SubmitAll(rows, queue, p, attempts);
      && p.transactionId in b.rows
      && b.rows - {p.transactionId} == rows
      && JobsFor(b.queue, p.transactionId) == 1
      && forall i :: 0 <= i < |attempts| ==> HttpStatus(b.responses[i]) == 202
  {
    SubmitAllIdempotent(rows, queue, p, attempts);
    var b := SubmitAll(rows, queue, p, attempts);
    assert SomeEnqueueSucceeds(attempts, |attempts|) by { assert !attempts[0].enqueueFails; }
    forall i | 0 <= i < |attempts| ensures HttpStatus(b.responses[i]) == 202 {
      assert SomeEnqueueSucceeds(attempts, i + 1) by { assert !attempts[i].enqueueFails; }
    }
  }

  /** The columns the status query selects: every column except `last_error`. */
  datatype TransactionView = TransactionView(
    transactionId: string,
    sourceAccount: Option<string>,
    destinationAccount: Option<string>,
    amount: Option<Cents>,
    currency: Option<string>,
    status: string,
    createdAt: Time,
    processedAt: Option<Time>)

  /** The selected columns of one row, the status as the text stored in its column. */
  function ViewOf(id: string, row: Row): (v: TransactionView)
    ensures v.transactionId == id && ParseStatus(v.status) == Some(row.status)
    ensures v.processedAt == row.processedAt && v.createdAt == row.createdAt
    ensures v.sourceAccount == row.sourceAccount && v.destinationAccount == row.destinationAccount
    ensures v.amount == row.amount && v.currency == row.currency
  {
    StatusTextRoundTrip(row.status);
    TransactionView(id, row.sourceAccount, row.destinationAccount, row.amount, row.currency,
                    StatusText(row.status), row.createdAt, row.processedAt)
  }

  /** The query's answer: the row as a mapping, or "Transaction not found". */
  datatype Lookup = Found(view: TransactionView) | NotFound

  /** The HTTP status of a query: 200 with the row, or 404. */
  function LookupStatus(l: Lookup): (code: int)
    ensures code == 404 <==> l.NotFound?
  {
    if l.Found? then 200 else 404
  }
}
