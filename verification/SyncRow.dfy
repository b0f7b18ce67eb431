/** One `FinancialSync` row, the event it belongs to, and the writes that record an outcome. */
module SyncRow {
  import opened Common
  import opened ErpLedger
  import Backoff

  const MAX_ATTEMPTS := 5

  datatype SyncStatus = PENDING | PROCESSING | SUCCESS | FAILED | RETRYING | DEAD_LETTER

  datatype Provider = INTERNAL | LEDGIX_ERP

  datatype EventType =
    | SUBSCRIPTION_ACTIVATED | SUBSCRIPTION_RENEWED | SUBSCRIPTION_CANCELED
    | PAYMENT_SUCCEEDED | PAYMENT_FAILED | REFUND_ISSUED | REFUND_PARTIAL
    | CHARGEBACK_CREATED | CHARGEBACK_REVERSED

  datatype PayloadFields = PayloadFields(
    amountMinor: Option<int>, currency: Option<string>, description: Option<string>,
    customerReference: Option<string>, payMethod: Option<string>, reference: Option<string>,
    taxMinor: Option<int>, discountMinor: Option<int>)

  /** What never changes about a sync: its provider and its append-only event. */
  datatype Source = Source(provider: Provider, kind: EventType, organizationId: string,
                           customerId: Option<string>, fields: PayloadFields)

  datatype HistoryEntry = HistoryEntry(number: nat, status: SyncStatus, at: int)

  /**
   An organization's connection as an attempt reads it: the row's id, and the ledger that its address and
   company name at that time.
   */
  datatype Connection = Connection(id: nat, ledger: nat)

  /**
   `error` is the sync's `SyncError` row, holding its `resolved` flag. `rearmed` counts retries. Of the
   connection only the id is stored; the ledger it led to is remembered.
   */
  datatype Row = Row(status: SyncStatus, attemptCount: nat, nextAttemptAt: Option<int>,
                     connection: Option<Connection>, invoice: Option<nat>, receipt: Option<nat>,
                     payment: Option<nat>, history: seq<HistoryEntry>, error: Option<bool>,
                     rearmed: nat)

  datatype Outcome =
    | Ok(connection: Option<Connection>, invoice: Option<nat>, receipt: Option<nat>, payment: Option<nat>)
    | Failed

  const NewRow := Row(PENDING, 0, None, None, None, None, None, [], None, 0)

  /** Event types that get a full invoice, receipt and payment chain. */
  predicate IsCharge(kind: EventType) {
    kind.SUBSCRIPTION_ACTIVATED? || kind.SUBSCRIPTION_RENEWED? || kind.PAYMENT_SUCCEEDED?
  }

  predicate NeedsCharge(src: Source) {
    src.provider == LEDGIX_ERP && IsCharge(src.kind)
  }

  /** The request body of step `k`, whose path names document `parent`. */
  function DocFor(src: Source, k: Step, parent: nat): Document {
    var amount := src.fields.amountMinor.GetOr(0);
    var currency := src.fields.currency.GetOr("USD");
    match k
    case InvoiceStep =>
      Invoice(src.fields.customerReference.OrElse(src.customerId).GetOr(src.organizationId),
              amount, currency, src.fields.description,
              src.fields.taxMinor.GetOr(0), src.fields.discountMinor.GetOr(0))
    case ReceiptStep => Receipt(parent, amount, currency)
    case PaymentStep =>
      Payment(parent, src.fields.payMethod.GetOr("unknown"), src.fields.reference)
  }

  /** Due for the sweep at time `now`. */
  predicate Due(r: Row, now: int) {
    && (r.status == PENDING || r.status == RETRYING)
    && (r.nextAttemptAt.None? || r.nextAttemptAt.value <= now)
  }

  predicate Retryable(r: Row) {
    r.status == FAILED || r.status == DEAD_LETTER
  }

  /** The transaction that ends attempt `number`. Fields an outcome leaves undefined keep their value. */
  function Recorded(r: Row, number: nat, o: Outcome, now: int): Row {
    match o
    case Ok(c, i, rc, p) =>
      r.(status := SUCCESS, connection := c.OrElse(r.connection), invoice := i.OrElse(r.invoice),
         receipt := rc.OrElse(r.receipt), payment := p.OrElse(r.payment),
         history := r.history + [HistoryEntry(number, SUCCESS, now)])
    case Failed =>
      var exhausted := number >= MAX_ATTEMPTS;
      var status := if exhausted then DEAD_LETTER else RETRYING;
      r.(status := status, attemptCount := number,
         nextAttemptAt := if exhausted then None else Some(now + Backoff.BackoffMs(number)),
         history := r.history + [HistoryEntry(number, status, now)],
         error := if exhausted then Some(false) else r.error)
  }

  /** The transaction of a manual retry that read `hadError` before it. */
  function Rearmed(r: Row, hadError: bool, now: int): Row {
    r.(status := PENDING, nextAttemptAt := Some(now), rearmed := r.rearmed + 1,
       error := if hadError && r.error.Some? then Some(true) else r.error)
  }
}
