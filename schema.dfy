/**
 * The `transactions` table: its row shape, its column constraints, the INSERT
 * statement the rest of the system issues against it, and the provisioning step
 * that creates it.
 */
module Schema {
  import opened Wrappers

  /** The three values the CHECK constraint on `status` admits. */
  datatype Status = Processing | Processed | Failed

  /** An instant as returned by the database's `now()`; its value is never inspected. */
  type Time = nat

  /** A NUMERIC(18,2) amount, held as an integer number of cents. */
  type Cents = int

  /** NUMERIC(18,2) keeps 16 integer digits and 2 fractional digits: |amount| < 10^16 units. */
  const AmountBoundCents: int := 1_000_000_000_000_000_000

  /** The text stored in the `status` column. */
  function StatusText(s: Status): string
  {
    match s
    case Processing => "PROCESSING"
    case Processed => "PROCESSED"
    case Failed => "FAILED"
  }

  /** The CHECK constraint on `status`: a text is admitted exactly when it names a status. */
  function ParseStatus(t: string): (r: Option<Status>)
    ensures r.Some? <==> t == "PROCESSING" || t == "PROCESSED" || t == "FAILED"
    ensures r.Some? ==> StatusText(r.value) == t
  {
    if t == "PROCESSING" then Some(Processing)
    else if t == "PROCESSED" then Some(Processed)
    else if t == "FAILED" then Some(Failed)
    else None
  }

  /** Every status is stored as a text the CHECK constraint admits, and reads back as itself. */
  lemma StatusTextRoundTrip(s: Status)
    ensures ParseStatus(StatusText(s)) == Some(s)
  {
  }

  /** Whether a (nullable) amount fits the NUMERIC(18,2) column. */
  predicate AmountFits(a: Option<Cents>)
  {
    a.None? || -AmountBoundCents < a.value < AmountBoundCents
  }

  /**
   * One row, without the `transaction_id` key (a Store maps the key to its row)
   * and without the surrogate `id` column, which nothing reads.
   */
  datatype Row = Row(
    sourceAccount: Option<string>,
    destinationAccount: Option<string>,
    amount: Option<Cents>,
    currency: Option<string>,
    status: Status,
    createdAt: Time,
    processedAt: Option<Time>,
    lastError: Option<string>)

  /**
   * The table, keyed by `transaction_id`. The column is NOT NULL UNIQUE, so a map
   * from id to row is exactly the set of rows it admits: at most one row per id.
   */
  type Store = map<string, Row>

  /** The columns an INSERT supplies; every other column takes its default. */
  datatype Values = Values(
    sourceAccount: Option<string>,
    destinationAccount: Option<string>,
    amount: Option<Cents>,
    currency: Option<string>,
    status: Status)

  /**
   * The row an INSERT of `v` creates: `created_at` defaults to the transaction's
   * `now()`, `processed_at` and `last_error` have no default and start NULL.
   */
  function NewRow(v: Values, now: Time): Row
  {
    Row(v.sourceAccount, v.destinationAccount, v.amount, v.currency, v.status, now, None, None)
  }

  datatype InsertResult = Inserted(rows: Store) | UniqueViolation | NumericOverflow

  /**
   * INSERT INTO transactions. The amount is coerced to NUMERIC(18,2) when the new
   * tuple is formed, before the unique index is consulted, so an overflowing amount
   * fails even for an id that already exists.
   */
  function Insert(s: Store, id: string, v: Values, now: Time): (r: InsertResult)
    ensures r.NumericOverflow? <==> !AmountFits(v.amount)
    ensures r.UniqueViolation? <==> AmountFits(v.amount) && id in s
    ensures r.Inserted? ==> id !in s && r.rows.Keys == s.Keys + {id} && r.rows - {id} == s
    ensures r.Inserted? ==> r.rows[id] == NewRow(v, now)
    ensures r.Inserted? ==> r.rows[id].processedAt.None? && r.rows[id].lastError.None?
  {
    if !AmountFits(v.amount) then NumericOverflow
    else if id in s then UniqueViolation
    else Inserted(s[id := NewRow(v, now)])
  }

  /** What the column types demand of a row. */
  predicate Conforms(row: Row)
  {
    AmountFits(row.amount)
  }

  /**
   * The lifecycle invariant on one row: `processed_at` is set exactly when the row
   * is PROCESSED, and `last_error` is set only on a FAILED row.
   */
  predicate Consistent(row: Row)
  {
    && Conforms(row)
    && (row.processedAt.Some? <==> row.status == Processed)
    && (row.lastError.Some? ==> row.status == Failed)
  }

  /** The lifecycle invariant on the whole table. */
  predicate StoreInvariant(s: Store)
  {
    forall id :: id in s ==> Consistent(s[id])
  }

  /** An INSERT of a PROCESSING row into a consistent table keeps it consistent. */
  lemma InsertKeepsInvariant(s: Store, id: string, v: Values, now: Time)
    requires StoreInvariant(s)
    requires v.status == Processing
    ensures var r := Insert(s, id, v, now); r.Inserted? ==> StoreInvariant(r.rows)
  {
  }

  /** The database catalog as far as this system cares: the table exists or not. */
  datatype Catalog = Catalog(transactions: Option<Store>)

  /** CREATE TABLE IF NOT EXISTS transactions. */
  function CreateTableIfNotExists(c: Catalog): (r: Catalog)
    ensures r.transactions.Some?
    ensures c.transactions.Some? ==> r == c
    ensures c.transactions.None? ==> r.transactions.value == map[]
    ensures c.transactions.None? || StoreInvariant(c.transactions.value) ==> StoreInvariant(r.transactions.value)
  {
    if c.transactions.Some? then c else Catalog(Some(map[]))
  }

  /** Provisioning twice leaves the same single table as provisioning once. */
  lemma ProvisionIdempotent(c: Catalog)
    ensures CreateTableIfNotExists(CreateTableIfNotExists(c)) == CreateTableIfNotExists(c)
  {
  }
}
