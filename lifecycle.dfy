/**
 * The whole system as a sequence of atomic steps: webhook requests and job
 * invocations, interleaved in any order. Each step is one unit of work; the row
 * lock and the unique index make them serialisable, so a sequence of steps
 * covers every interleaving the database admits.
 */
module Lifecycle {
  import opened Wrappers
  import opened Schema
  import opened Ingestion
  import opened Worker

  datatype Event =
    | Webhook(payload: Payload, enqueueFails: bool, at: Time)
    | Work(id: string, effect: Effect, at: Time)

  /** The committed table and the queue. */
  datatype System = System(rows: Store, queue: seq<Job>)

  /** A freshly provisioned table and an empty queue. */
  function Initial(): System
  {
    System(CreateTableIfNotExists(Catalog(None)).transactions.value, [])
  }

  function Step(s: System, e: Event): System
  {
    match e
    case Webhook(p, enqueueFails, at) =>
      var r := Submit(s.rows, s.queue, p, enqueueFails, at);
      System(r.rows, r.queue)
    case Work(id, effect, at) =>
      System(Process(s.rows, id, effect, at).rows, s.queue)
  }

  function Replay(s: System, es: seq<Event>): System
    decreases |es|
  {
    if es == [] then s else Replay(Step(s, es[0]), es[1..])
  }

  /** Every id has at most one job, and only an id with a row has one. */
  ghost predicate EnqueuedAtMostOnce(s: System)
  {
    forall id :: JobsFor(s.queue, id) <= 1 && (JobsFor(s.queue, id) == 1 ==> id in s.rows)
  }

  ghost predicate Good(s: System)
  {
    StoreInvariant(s.rows) && EnqueuedAtMostOnce(s)
  }

  /** Rows are never deleted and their `created_at` never changes. */
  predicate RowsKept(before: Store, after: Store)
  {
    forall id :: id in before ==> id in after && after[id].createdAt == before[id].createdAt
  }

  lemma ProcessKeepsRows(rows: Store, id: string, effect: Effect, at: Time)
    ensures RowsKept(rows, Process(rows, id, effect, at).rows)
  {
  }

  lemma SubmitKeepsRows(rows: Store, queue: seq<Job>, p: Payload, enqueueFails: bool, at: Time)
    ensures RowsKept(rows, Submit(rows, queue, p, enqueueFails, at).rows)
  {
  }

  lemma StepKeepsGood(s: System, e: Event)
    requires Good(s)
    ensures Good(Step(s, e)) && RowsKept(s.rows, Step(s, e).rows)
  {
  }

  /**
   * Over any sequence of requests and job invocations, the lifecycle invariant and
   * the at-most-once enqueue hold, no row is deleted, no `created_at` changes, and
   * the queue only grows.
   */
  lemma {:induction false} ReplayKeepsGood(s: System, es: seq<Event>)
    requires Good(s)
    ensures var t := Replay(s, es); Good(t) && RowsKept(s.rows, t.rows) && s.queue <= t.queue
    decreases |es|
  {
    if es != [] {
      StepKeepsGood(s, es[0]);
      ReplayKeepsGood(Step(s, es[0]), es[1..]);
    }
  }

  lemma StepNeverRecordsFailure(s: System, e: Event)
    requires NoFailureRecorded(s.rows)
    ensures NoFailureRecorded(Step(s, e).rows)
  {
  }

  /**
   * As written, no sequence of steps starting from a table with no failure ever
   * commits a FAILED row or a `last_error`.
   */
  lemma {:induction false} ReplayNeverRecordsFailure(s: System, es: seq<Event>)
    requires NoFailureRecorded(s.rows)
    ensures NoFailureRecorded(Replay(s, es).rows)
    decreases |es|
  {
    if es != [] {
      StepNeverRecordsFailure(s, es[0]);
      ReplayNeverRecordsFailure(Step(s, es[0]), es[1..]);
    }
  }

  /**
   * Everything reachable from a freshly provisioned table: each id has at most one
   * job, every row keeps the lifecycle invariant, and no row is ever FAILED.
   */
  lemma Reachable(es: seq<Event>)
    ensures var t := Replay(Initial(), es);
      && EnqueuedAtMostOnce(t)
      && StoreInvariant(t.rows)
      && NoFailureRecorded(t.rows)
  {
    ReplayKeepsGood(Initial(), es);
    ReplayNeverRecordsFailure(Initial(), es);
  }
}
