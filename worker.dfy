/**
 * The background job that processes one transaction. One invocation is one unit
 * of work holding the row lock: it reads the row FOR UPDATE, inserts a PROCESSING
 * row if there is none, returns at once on a PROCESSED row, and otherwise runs the
 * external effect and marks the row PROCESSED, or FAILED and re-raises.
 *
 * The row lock serialises invocations for the same id, so each invocation is one
 * atomic step here. `Process` is the job as written, where the FAILED update is
 * rolled back by the re-raise that leaves the unit of work; `ProcessIntended` is
 * the job with that update committed. Service.Database.ProcessTransaction runs
 * `Process` step by step over the committed table and a staged copy.
 */
module Worker {
  import opened Wrappers
  import opened Schema

  /** The outcome of the external effect: it completes, or raises with `str(exc)`. */
  datatype Effect = Succeeds | Fails(message: string)

  /** How the job ends: it returns, or the effect's exception propagates to the queue. */
  datatype Outcome = Returned | Reraised(message: string)

  /**
   * One invocation: the table committed at its end, the staged copy its unit of
   * work had written when it ended, how it ended, and whether the effect ran.
   */
  datatype Invocation = Invocation(rows: Store, staged: Store, outcome: Outcome, effectRan: bool)

  /** The defensive INSERT supplies only the id, PROCESSING and `created_at`. */
  const DefensiveValues: Values := Values(None, None, None, None, Processing)

  predicate IsProcessed(rows: Store, id: string)
  {
    id in rows && rows[id].status == Processed
  }

  /** The table inside the unit of work once the row for `id` is locked or created. */
  function Locked(rows: Store, id: string, now: Time): (s: Store)
    ensures id in s && s - {id} == rows - {id}
    ensures id in rows ==> s == rows
    ensures id !in rows ==> s[id] == Row(None, None, None, None, Processing, now, None, None)
  {
    if id in rows then rows
    else
      // absent id and NULL amount: the INSERT cannot violate a constraint
      Insert(rows, id, DefensiveValues, now).rows
  }

  /** The success update: PROCESSED, `processed_at = now()`, `last_error = NULL`. */
  function MarkProcessed(row: Row, now: Time): Row
  {
    row.(status := Processed, processedAt := Some(now), lastError := None)
  }

  /** The failure update: FAILED and `last_error = str(exc)`. */
  function MarkFailed(row: Row, message: string): Row
  {
    row.(status := Failed, lastError := Some(message))
  }

  /** The job as written. */
  function Process(rows: Store, id: string, effect: Effect, now: Time): (r: Invocation)
    // only the row keyed by `id` is ever written
    ensures r.rows - {id} == rows - {id} && r.staged - {id} == rows - {id}
    // a PROCESSED row: return at once, the effect does not run, nothing changes
    ensures IsProcessed(rows, id) ==> r == Invocation(rows, rows, Returned, false)
    ensures !IsProcessed(rows, id) ==> r.effectRan
    // success: the committed row is PROCESSED, stamped, with no error; its other columns kept
    ensures !IsProcessed(rows, id) && effect.Succeeds? ==>
      && r.outcome == Returned
      && id in r.rows && r.rows[id].status == Processed
      && r.rows[id].processedAt == Some(now) && r.rows[id].lastError == None
      && (id in rows ==> r.rows[id] == rows[id].(status := Processed, processedAt := Some(now), lastError := None))
      && (id !in rows ==> r.rows[id] == Row(None, None, None, None, Processed, now, Some(now), None))
    // failure: FAILED and the message are staged, the exception leaves the unit of
    // work, and so the committed table is exactly what it was
    ensures !IsProcessed(rows, id) && effect.Fails? ==>
      && r.outcome == Reraised(effect.message)
      && id in r.staged && r.staged[id].status == Failed && r.staged[id].lastError == Some(effect.message)
      && r.rows == rows
  {
    if IsProcessed(rows, id) then Invocation(rows, rows, Returned, false)
    else
      var locked := Locked(rows, id, now);
      match effect
      case Succeeds =>
        var committed := locked[id := MarkProcessed(locked[id], now)];
        Invocation(committed, committed, Returned, true)
      case Fails(message) =>
        // `raise` inside `with engine.begin()`: the staged writes are rolled back
        Invocation(rows, locked[id := MarkFailed(locked[id], message)], Reraised(message), true)
  }

  /** The job with its failure update committed before the exception is re-raised. */
  function ProcessIntended(rows: Store, id: string, effect: Effect, now: Time): (r: Invocation)
    ensures r.rows == r.staged && r.rows - {id} == rows - {id}
    ensures IsProcessed(rows, id) ==> r == Invocation(rows, rows, Returned, false)
    ensures !IsProcessed(rows, id) ==> r.effectRan && id in r.rows
    ensures !IsProcessed(rows, id) && effect.Succeeds? ==>
      && r.outcome == Returned && r.rows[id].status == Processed
      && r.rows[id].processedAt == Some(now) && r.rows[id].lastError == None
    // failure: FAILED and the message are durable, and the exception still reaches the queue
    ensures !IsProcessed(rows, id) && effect.Fails? ==>
      && r.outcome == Reraised(effect.message)
      && r.rows[id].status == Failed && r.rows[id].lastError == Some(effect.message)
    // the rest of the row is kept: an existing row's other columns, or the defensive row's
    ensures id in rows && !IsProcessed(rows, id) && effect.Succeeds? ==>
      r.rows[id] == rows[id].(status := Processed, processedAt := Some(now), lastError := None)
    ensures id in rows && !IsProcessed(rows, id) && effect.Fails? ==>
      r.rows[id] == rows[id].(status := Failed, lastError := Some(effect.message))
    ensures id !in rows && effect.Succeeds? ==>
      r.rows[id] == Row(None, None, None, None, Processed, now, Some(now), None)
    ensures id !in rows && effect.Fails? ==>
      r.rows[id] == Row(None, None, None, None, Failed, now, None, Some(effect.message))
    ensures id in rows ==> r.rows[id].createdAt == rows[id].createdAt && r.rows[id].amount == rows[id].amount
  {
    if IsProcessed(rows, id) then Invocation(rows, rows, Returned, false)
    else
      var locked := Locked(rows, id, now);
      match effect
      case Succeeds =>
        var committed := locked[id := MarkProcessed(locked[id], now)];
        Invocation(committed, committed, Returned, true)
      case Fails(message) =>
        var committed := locked[id := MarkFailed(locked[id], message)];
        Invocation(committed, committed, Reraised(message), true)
  }

  /** An invocation keeps the table's lifecycle invariant. */
  lemma ProcessKeepsInvariant(rows: Store, id: string, effect: Effect, now: Time)
    requires StoreInvariant(rows)
    ensures StoreInvariant(Process(rows, id, effect, now).rows)
  {
  }

  /** The intended job keeps the table's lifecycle invariant too. */
  lemma ProcessIntendedKeepsInvariant(rows: Store, id: string, effect: Effect, now: Time)
    requires StoreInvariant(rows)
    ensures StoreInvariant(ProcessIntended(rows, id, effect, now).rows)
  {
  }

  /** No row of the table is FAILED and none carries an error. */
  predicate NoFailureRecorded(rows: Store)
  {
    forall id :: id in rows ==> rows[id].status != Failed && rows[id].lastError.None?
  }

  /**
   * As written, an invocation never commits a FAILED row or an error message: the
   * failure update exists only in the rolled-back unit of work.
   */
  lemma ProcessNeverRecordsFailure(rows: Store, id: string, effect: Effect, now: Time)
    requires NoFailureRecorded(rows)
    ensures NoFailureRecorded(Process(rows, id, effect, now).rows)
  {
  }

  /** A concrete run of the job as written: the FAILED mark is staged, then lost. */
  lemma FailedMarkIsRolledBack()
    ensures
      var rows := map["tx-1" := Row(Some("A"), Some("B"), Some(10000), Some("USD"), Processing, 0, None, None)];
      var r := Process(rows, "tx-1", Fails("downstream timeout"), 1);
      && r.staged["tx-1"].status == Failed
      && r.rows["tx-1"].status == Processing
      && r.rows["tx-1"].lastError == None
      && r.outcome == Reraised("downstream timeout")
  {
  }

  /**
   * Failure recording with the failure update committed: a failed attempt leaves the
   * row FAILED with its error, and a later successful retry leaves it PROCESSED,
   * stamped with that retry's time, with the error cleared.
   */
  lemma FailureThenRetry(rows: Store, id: string, message: string, failedAt: Time, retriedAt: Time)
    requires !IsProcessed(rows, id)
    ensures
      var failed := ProcessIntended(rows, id, Fails(message), failedAt).rows;
      var retried := ProcessIntended(failed, id, Succeeds, retriedAt).rows;
      && failed[id].status == Failed && failed[id].lastError == Some(message)
      && retried[id].status == Processed && retried[id].processedAt == Some(retriedAt)
      && retried[id].lastError == None
  {
  }

  /** One delivery of the job: the outcome of its effect and its `now()`. */
  datatype Delivery = Delivery(effect: Effect, now: Time)

  /**
   * The table after a sequence of deliveries of the job for one id, how many times
   * the effect ran, and how many of those runs ended in a committed PROCESSED row.
   */
  datatype Run = Run(rows: Store, effectRuns: nat, successes: nat)

  function Redeliver(rows: Store, id: string, ds: seq<Delivery>): Run
    decreases |ds|
  {
    if ds == [] then Run(rows, 0, 0)
    else
      var r := Process(rows, id, ds[0].effect, ds[0].now);
      var rest := Redeliver(r.rows, id, ds[1..]);
      var succeeded := r.effectRan && IsProcessed(r.rows, id);
      Run(rest.rows, rest.effectRuns + (if r.effectRan then 1 else 0), rest.successes + (if succeeded then 1 else 0))
  }

  /** The number of deliveries up to and including the first whose effect succeeds. */
  function RunsUntilSuccess(ds: seq<Delivery>): nat
  {
    if ds == [] then 0
    else if ds[0].effect.Succeeds? then 1
    else 1 + RunsUntilSuccess(ds[1..])
  }

  predicate SomeSucceeds(ds: seq<Delivery>)
  {
    exists i :: 0 <= i < |ds| && ds[i].effect.Succeeds?
  }

  /** Terminal monotonicity: once PROCESSED, any deliveries leave the table and the effect alone. */
  lemma {:induction false} ProcessedIsTerminal(rows: Store, id: string, ds: seq<Delivery>)
    requires IsProcessed(rows, id)
    ensures Redeliver(rows, id, ds) == Run(rows, 0, 0)
    decreases |ds|
  {
    if ds != [] {
      ProcessedIsTerminal(rows, id, ds[1..]);
    }
  }

  /**
   * No double effect: over any deliveries for one id, at most one effect run ends
   * in a committed PROCESSED row; the effect runs once per delivery up to the first
   * success and never after; the row ends PROCESSED exactly when it was already or
   * some delivery succeeded; and no other row changes.
   */
  lemma {:induction false} NoDoubleEffect(rows: Store, id: string, ds: seq<Delivery>)
    ensures var run := Redeliver(rows, id, ds);
      && run.successes <= 1
      && run.successes == (if !IsProcessed(rows, id) && SomeSucceeds(ds) then 1 else 0)
      && run.effectRuns == (if IsProcessed(rows, id) then 0 else RunsUntilSuccess(ds))
      && (IsProcessed(run.rows, id) <==> IsProcessed(rows, id) || SomeSucceeds(ds))
      && run.rows - {id} == rows - {id}
    decreases |ds|
  {
    if ds == [] {
    } else if IsProcessed(rows, id) {
      ProcessedIsTerminal(rows, id, ds);
    } else {
      var r := Process(rows, id, ds[0].effect, ds[0].now);
      if ds[0].effect.Succeeds? {
        ProcessedIsTerminal(r.rows, id, ds[1..]);
        assert SomeSucceeds(ds);
      } else {
        NoDoubleEffect(r.rows, id, ds[1..]);
        assert SomeSucceeds(ds) <==> SomeSucceeds(ds[1..]) by {
          if SomeSucceeds(ds) {
            var i :| 0 <= i < |ds| && ds[i].effect.Succeeds?;
            assert ds[1..][i - 1] == ds[i];
          }
          if SomeSucceeds(ds[1..]) {
            var i :| 0 <= i < |ds[1..]| && ds[1..][i].effect.Succeeds?;
            assert ds[i + 1] == ds[1..][i];
          }
        }
      }
    }
  }
}
