/**
 * The running service: the committed `transactions` table and the job queue as the
 * fields of one object, with the webhook handler, the job and the status query as
 * its operations. Each `with engine.begin()` block is a unit of work: it copies the
 * committed table into `staged`, writes only to `staged`, and assigns it back to
 * `rows` when the block ends normally; when an exception leaves the block the copy
 * is dropped.
 */
module Service {
  import opened Wrappers
  import opened Schema
  import opened Ingestion
  import opened Worker

  class Database {
    /** The committed contents of the `transactions` table. */
    var rows: Store
    /** The `transactions` job queue. */
    var queue: seq<Job>
    /** How many times the external effect has been started. */
    ghost var effects: nat

    /** A freshly provisioned table and an empty queue. */
    constructor ()
      ensures rows == map[] && queue == [] && effects == 0
      ensures StoreInvariant(rows)
    {
      rows := map[];
      queue := [];
      effects := 0;
    }

    /** POST /v1/webhooks/transactions. */
    method ReceiveWebhook(p: Payload, enqueueFails: bool, now: Time) returns (response: Response)
      modifies this
      ensures var r := Submit(old(rows), old(queue), p, enqueueFails, now);
        rows == r.rows && queue == r.queue && response == r.response
      ensures effects == old(effects)
      ensures old(StoreInvariant(rows)) ==> StoreInvariant(rows)
    {
      if StoreInvariant(rows) {
        SubmitKeepsInvariant(rows, queue, p, enqueueFails, now);
      }
      var staged := rows;
      var inserted := Insert(staged, p.transactionId, WebhookValues(p), now);
      match inserted {
        case NumericOverflow =>
          // not an IntegrityError: the exception leaves the block, nothing is committed
          response := Raised(AmountOverflow);
        case UniqueViolation =>
          // caught inside the block: the block ends normally having written nothing
          response := Accepted;
        case Inserted(withRow) =>
          staged := withRow;
          if enqueueFails {
            // the enqueue raised: the INSERT is rolled back with the block
            response := Raised(EnqueueFailed);
          } else {
            queue := queue + [JobFor(p.transactionId)];
            rows := staged;
            response := Accepted;
          }
      }
    }

    /** GET /v1/transactions/{transaction_id}: reads and never writes. */
    method GetTransaction(id: string) returns (r: Lookup)
      ensures r.NotFound? <==> id !in rows
      ensures r.Found? ==> r.view == ViewOf(id, rows[id])
      ensures LookupStatus(r) == 404 <==> id !in rows
    {
      if id in rows {
        r := Found(ViewOf(id, rows[id]));
      } else {
        r := NotFound;
      }
    }

    /** app.worker.process_transaction, as written. */
    method ProcessTransaction(id: string, effect: Effect, now: Time) returns (outcome: Outcome)
      modifies this
      ensures var r := Process(old(rows), id, effect, now);
        rows == r.rows && outcome == r.outcome && effects == old(effects) + (if r.effectRan then 1 else 0)
      ensures queue == old(queue)
      ensures old(StoreInvariant(rows)) ==> StoreInvariant(rows)
    {
      if StoreInvariant(rows) {
        ProcessKeepsInvariant(rows, id, effect, now);
      }
      var staged := rows;
      if id !in staged {
        // no row: insert a PROCESSING one and carry on
        staged := staged[id := NewRow(DefensiveValues, now)];
      } else if staged[id].status == Processed {
        // already done: return from inside the block, which commits nothing
        outcome := Returned;
        return;
      }
      effects := effects + 1;
      match effect {
        case Succeeds =>
          staged := staged[id := MarkProcessed(staged[id], now)];
          rows := staged;
          outcome := Returned;
        case Fails(message) =>
          staged := staged[id := MarkFailed(staged[id], message)];
          // `raise` inside the block: the FAILED update above is rolled back
          outcome := Reraised(message);
      }
    }
  }

  /**
   * Submit, query while pending, process, query again, resubmit: the request is
   * accepted both times, the job runs the effect once, and one row remains.
   */
  method EndToEnd()
  {
    var db := new Database();
    var p := Payload("tx-1", "A", "B", 10000, "USD");

    var first := db.ReceiveWebhook(p, false, 1);
    assert HttpStatus(first) == 202;
    assert db.queue == [Job("app.worker.process_transaction", "tx-1", 3, 600)];

    var pending := db.GetTransaction("tx-1");
    assert pending.Found? && pending.view.status == "PROCESSING";
    assert pending.view.processedAt == None;

    var outcome := db.ProcessTransaction("tx-1", Succeeds, 2);
    assert outcome == Returned && db.effects == 1;

    var done := db.GetTransaction("tx-1");
    assert done.Found? && done.view.status == "PROCESSED";
    assert done.view.processedAt == Some(2);

    var again := db.ReceiveWebhook(p, false, 3);
    assert HttpStatus(again) == 202;
    assert db.rows.Keys == {"tx-1"} && |db.queue| == 1;

    var redelivered := db.ProcessTransaction("tx-1", Fails("unused"), 4);
    assert redelivered == Returned && db.effects == 1;

    var missing := db.GetTransaction("tx-2");
    assert LookupStatus(missing) == 404;
  }
}
