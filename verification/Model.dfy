/** The rows of the payment tables and the values that travel between the
    API server, Postgres and the card processor (PSP). */
module Model {

  datatype Option<+T> = None | Some(value: T)

  /** UUIDs and other identifiers.  Fresh ones come from a counter. */
  type Uuid = int

  /** Card tokens, as the mock PSP tells them apart; TokOther is any text it does not know. */
  datatype Token =
    | TokSuccess
    | TokInsufficientFunds
    | TokCardDeclined
    | TokTimeout
    | TokNetworkError
    | TokEmpty
    | TokOther(text: string)

  /** The tokens for which the PSP captures money, sooner or later. */
  predicate Charges(t: Token) {
    t.TokSuccess? || t.TokTimeout?
  }

  /** Failure codes: the two decline codes and the text of a rejected request. */
  datatype FailureCode = InsufficientFunds | CardDeclined | Rejected(status: int)

  /** What is promised of a payment with a token: the card is charged, or the
      payment fails with a code, or its outcome stays unknown. */
  datatype Fate = Charging | Declining(code: FailureCode) | Uncertain

  function FateOf(t: Token): Fate {
    match t
    case TokSuccess => Charging
    case TokTimeout => Charging
    case TokInsufficientFunds => Declining(InsufficientFunds)
    case TokCardDeclined => Declining(CardDeclined)
    case TokNetworkError => Uncertain
    case TokEmpty => Declining(Rejected(400))
    case TokOther(_) => Declining(Rejected(400))
  }

  datatype InvoiceStatus = Draft | Open | Paid | Void | Uncollectible
  datatype Invoice = Invoice(business: Uuid, currency: string, amount: int, status: InvoiceStatus)

  datatype AttemptStatus = Pending | Succeeded | Failed
  datatype Attempt = Attempt(
    invoice: Uuid,
    business: Uuid,
    amount: int,
    currency: string,
    status: AttemptStatus,
    pspRef: Option<Uuid>,
    failureCode: Option<FailureCode>)

  /** SHA-256 of the invoice id and the card token, taken to be injective. */
  datatype RequestHash = Sha256(invoice: Uuid, token: Token)

  /** UNIQUE (business_id, idempotency_key). */
  datatype KeyId = KeyId(business: Uuid, key: Uuid)
  datatype KeyRow = KeyRow(invoice: Uuid, hash: RequestHash, attempt: Option<Uuid>)

  /** UNIQUE (event_type, source_id), where source_id is the attempt id followed by the type. */
  datatype EventType = PaymentSucceeded | PaymentFailed
  datatype EventKey = EventKey(etype: EventType, source: Uuid)

  datatype InboundStatus = InPending | InProcessed | InFailed

  /** The committed rows.  An outbox row is represented by its payload, the attempt it reports. */
  datatype Db = Db(
    invoices: map<Uuid, Invoice>,
    attempts: map<Uuid, Attempt>,
    keys: map<KeyId, KeyRow>,
    outbox: map<EventKey, Attempt>,
    inbound: map<Uuid, InboundStatus>)

  /** One call of PayInvoice. */
  datatype PayReq = PayReq(business: Uuid, key: Uuid, invoice: Uuid, token: Token)

  function KeyOf(q: PayReq): KeyId {
    KeyId(q.business, q.key)
  }

  function HashPayRequest(q: PayReq): RequestHash {
    Sha256(q.invoice, q.token)
  }

  datatype PayError =
    | InvoiceNotFound
    | InvoiceNotOwned
    | InvoiceAlreadyPaid
    | InvoiceVoid
    | InvoiceUncollectible
    | PaymentInProgress
    | IdempotencyConflict
    | NoRows      // a read that found nothing where the code expects a row
    | Fault       // a statement failed: connection lost, cancelled, ...

  /** The error payableInvoice returns, if any. */
  function PayableInvoice(s: InvoiceStatus): Option<PayError> {
    match s
    case Draft => None
    case Open => None
    case Paid => Some(InvoiceAlreadyPaid)
    case Void => Some(InvoiceVoid)
    case Uncollectible => Some(InvoiceUncollectible)
  }

  function NewAttempt(q: PayReq, inv: Invoice): Attempt {
    Attempt(q.invoice, q.business, inv.amount, inv.currency, Pending, None, None)
  }

  /** The attempt after persistSuccess has written to it. */
  function AsSucceeded(row: Attempt, ref: Uuid): Attempt {
    row.(status := Succeeded, pspRef := Some(ref), failureCode := None)
  }

  /** The attempt row after persistFailure has written to it. */
  function AsFailed(row: Attempt, code: FailureCode): Attempt {
    row.(status := Failed, pspRef := None, failureCode := Some(code))
  }

  predicate PendingOn(db: Db, i: Uuid) {
    exists a :: a in db.attempts && db.attempts[a].invoice == i && db.attempts[a].status.Pending?
  }

  /** A new attempt for q may start: its key is free, and its invoice is its
      business's own, to be paid and not being paid. */
  ghost predicate CanStart(db: Db, q: PayReq) {
    && KeyOf(q) !in db.keys
    && q.invoice in db.invoices
    && db.invoices[q.invoice].business == q.business
    && (db.invoices[q.invoice].status.Draft? || db.invoices[q.invoice].status.Open?)
    && !PendingOn(db, q.invoice)
  }

  /** createPendingAttempt as one atomic change of the committed rows. */
  function StartAttempt(db: Db, q: PayReq, id: Uuid): Db
    requires q.invoice in db.invoices
  {
    var inv := db.invoices[q.invoice];
    db.(invoices := if inv.status.Draft? then db.invoices[q.invoice := inv.(status := Open)] else db.invoices,
        keys := db.keys[KeyOf(q) := KeyRow(q.invoice, HashPayRequest(q), Some(id))],
        attempts := db.attempts[id := NewAttempt(q, inv)])
  }

  function MarkPaidIfOpen(db: Db, i: Uuid): map<Uuid, Invoice> {
    if i in db.invoices && (db.invoices[i].status.Draft? || db.invoices[i].status.Open?)
    then db.invoices[i := db.invoices[i].(status := Paid)]
    else db.invoices
  }

  /** ON CONFLICT (event_type, source_id) DO NOTHING. */
  function Enqueue(db: Db, e: EventKey, payload: Attempt): map<EventKey, Attempt> {
    if e in db.outbox then db.outbox else db.outbox[e := payload]
  }

  /** persistSuccess as one atomic change of the committed rows. */
  function Settle(db: Db, id: Uuid, ref: Uuid): Db {
    if id !in db.attempts || db.attempts[id].status.Failed? then db
    else
      var row := AsSucceeded(db.attempts[id], ref);
      db.(attempts := if db.attempts[id].status.Pending? then db.attempts[id := row] else db.attempts,
          invoices := MarkPaidIfOpen(db, row.invoice),
          outbox := Enqueue(db, EventKey(PaymentSucceeded, id), row))
  }

  /** UPDATE ... SET status = 'FAILED' ... WHERE id = $4 AND status = 'PENDING'. */
  function FailIfPending(db: Db, id: Uuid, code: FailureCode): Db {
    if id in db.attempts && db.attempts[id].status.Pending?
    then db.(attempts := db.attempts[id := AsFailed(db.attempts[id], code)])
    else db
  }

  // ---------------------------------------------------------------- how rows may change

  /** The columns no statement ever changes. */
  predicate SameFixed(a: Attempt, b: Attempt) {
    a.invoice == b.invoice && a.business == b.business && a.amount == b.amount && a.currency == b.currency
  }

  /** Rows are never deleted, fixed columns never change, a settled attempt is frozen. */
  predicate DbGrows(db: Db, db': Db) {
    && (forall i :: i in db.invoices ==>
          && i in db'.invoices
          && db'.invoices[i].business == db.invoices[i].business
          && db'.invoices[i].amount == db.invoices[i].amount
          && db'.invoices[i].currency == db.invoices[i].currency
          && (db.invoices[i].status.Draft? || db.invoices[i].status.Open?
              || db'.invoices[i].status == db.invoices[i].status))
    && (forall a :: a in db.attempts ==>
          && a in db'.attempts
          && SameFixed(db.attempts[a], db'.attempts[a])
          && (!db.attempts[a].status.Pending? ==> db'.attempts[a] == db.attempts[a]))
    && (forall k :: k in db.keys ==> k in db'.keys && db'.keys[k] == db.keys[k])
    && (forall e :: e in db.outbox ==> e in db'.outbox && db'.outbox[e] == db.outbox[e])
  }
}
