/** What the payment service's methods amount to, as atomic changes of the rows. */
module PaymentSpec {
  import opened Model
  import opened PspClient
  import SingleFlight
  import P = Protocol
  import Signature

  // ---------------------------------------------------------------- a payment

  datatype Start = Started(row: Attempt) | Refuses(error: PayError) | KeyTaken | Broken

  /** createPendingAttempt on rows that nobody else changes. */
  function StartOutcome(db: Db, q: PayReq, id: Uuid): Start {
    if q.invoice !in db.invoices then Refuses(InvoiceNotFound)
    else
      var inv := db.invoices[q.invoice];
      if inv.business != q.business then Refuses(InvoiceNotOwned)
      else if PayableInvoice(inv.status).Some? then Refuses(PayableInvoice(inv.status).value)
      else if KeyOf(q) in db.keys then KeyTaken
      else if PendingOn(db, q.invoice) || id in db.attempts then Refuses(PaymentInProgress)
      else Started(NewAttempt(q, inv))
  }

  /** The invoice is there and the caller's own. */
  predicate Owned(db: Db, q: PayReq) {
    q.invoice in db.invoices && db.invoices[q.invoice].business == q.business
  }

  /** Why q is refused, if it is. */
  ghost predicate Deserves(db: Db, q: PayReq, id: Uuid, error: PayError) {
    match error
    case InvoiceNotFound => q.invoice !in db.invoices
    case InvoiceNotOwned => q.invoice in db.invoices && db.invoices[q.invoice].business != q.business
    case InvoiceAlreadyPaid => Owned(db, q) && db.invoices[q.invoice].status == Paid
    case InvoiceVoid => Owned(db, q) && db.invoices[q.invoice].status == Void
    case InvoiceUncollectible => Owned(db, q) && db.invoices[q.invoice].status == Uncollectible
    case PaymentInProgress =>
      && Owned(db, q) && db.invoices[q.invoice].status in {Draft, Open} && KeyOf(q) !in db.keys
      && (PendingOn(db, q.invoice) || id in db.attempts)
    case _ => false
  }

  /** An attempt starts exactly on an invoice of the caller's own that is to be
      paid and not being paid, under a free key; everything else has its reason. */
  lemma StartOutcomeIff(db: Db, q: PayReq, id: Uuid)
    ensures StartOutcome(db, q, id).Started? <==> CanStart(db, q) && id !in db.attempts
    ensures forall error :: StartOutcome(db, q, id) == Refuses(error) <==> Deserves(db, q, id, error)
    ensures StartOutcome(db, q, id).KeyTaken? <==>
              Owned(db, q) && db.invoices[q.invoice].status in {Draft, Open} && KeyOf(q) in db.keys
    ensures !StartOutcome(db, q, id).Broken?
  {
  }

  /** Post the failure of attempt id. */
  function Posted(db: Db, id: Uuid, failed: Attempt): Db {
    db.(outbox := Enqueue(db, EventKey(PaymentFailed, id), failed))
  }

  function ShownFailed(row: Attempt, code: FailureCode): Attempt {
    row.(status := Failed, failureCode := Some(code))
  }

  /** The attempt shown once verdict v is recorded on the rows `later`. */
  function Shown(v: Verdict, later: Db, id: Uuid, row: Attempt): Attempt
    requires id in later.attempts
  {
    var stored := later.attempts[id];
    match v
    case LeavePending => row
    case RecordFailure(code) => if stored.status.Pending? then ShownFailed(row, code) else stored
    case RecordSuccess(ref) => if stored.status.Failed? then stored else AsSucceeded(stored, ref)
  }

  /** The rows once verdict v is recorded.  persistFailure is two transactions:
      others turn what the first one leaves into `mid` before the second. */
  ghost predicate RowsAfter(v: Verdict, later: Db, mid: Db, id: Uuid, row: Attempt, last: Db)
    requires id in later.attempts
  {
    match v
    case LeavePending => last == later
    case RecordFailure(code) =>
      && DbGrows(FailIfPending(later, id, code), mid)
      && last == if later.attempts[id].status.Pending? then Posted(mid, id, ShownFailed(row, code)) else mid
    case RecordSuccess(ref) => last == Settle(later, id, ref)
  }

  /** The rows when recording verdict v reported an error: everything, nothing, or
      a failed attempt without its event. */
  ghost predicate RowsCutShort(v: Verdict, later: Db, mid: Db, id: Uuid, row: Attempt, last: Db) {
    match v
    case LeavePending => false
    case RecordFailure(code) =>
      && (mid == later || DbGrows(FailIfPending(later, id, code), mid))
      && (|| last == mid
          || (id in later.attempts && later.attempts[id].status.Pending? && mid != later
              && last == Posted(mid, id, ShownFailed(row, code))))
    case RecordSuccess(ref) => last == later || last == Settle(later, id, ref)
  }

  /** Every attempt's invoice exists. */
  ghost predicate ForeignKeys(db: Db) {
    forall a :: a in db.attempts ==> db.attempts[a].invoice in db.invoices
  }

  /** The row a statement looks for is not there. */
  predicate MissingRow(db: Db, attempt: Uuid, invoice: Uuid) {
    attempt !in db.attempts || invoice !in db.invoices
  }

  // ---------------------------------------------------------------- what recording an outcome means

  /** Attempt id was pending and is paid: it is SUCCEEDED under the PSP's
      reference, its invoice is PAID if it was DRAFT or OPEN, its event is posted,
      and nothing else has changed. */
  ghost predicate PaidFor(before: Db, after: Db, id: Uuid, ref: Uuid) {
    && id in before.attempts && before.attempts[id].status == Pending
    && id in after.attempts && after.attempts[id].status == Succeeded
    && after.attempts[id].pspRef == Some(ref) && after.attempts[id].failureCode == None
    && SameFixed(before.attempts[id], after.attempts[id])
    && OthersSame(before, after, id)
    && (before.attempts[id].invoice in before.invoices ==> IsSettledInvoice(before, after, before.attempts[id].invoice))
    && EventKey(PaymentSucceeded, id) in after.outbox
    && (EventKey(PaymentSucceeded, id) !in before.outbox ==>
          after.outbox[EventKey(PaymentSucceeded, id)] == after.attempts[id])
  }

  ghost predicate IsSettledInvoice(before: Db, after: Db, i: Uuid)
    requires i in before.invoices
  {
    && i in after.invoices
    && after.invoices[i] ==
       if before.invoices[i].status in {Draft, Open} then before.invoices[i].(status := Paid) else before.invoices[i]
  }

  /** No attempt but id, no invoice but its own, no event but its own, no key and no inbound event has changed. */
  ghost predicate OthersSame(before: Db, after: Db, id: Uuid)
    requires id in before.attempts
  {
    && before.attempts.Keys == after.attempts.Keys
    && (forall a :: a in before.attempts && a != id ==> after.attempts[a] == before.attempts[a])
    && before.invoices.Keys == after.invoices.Keys
    && (forall i :: i in before.invoices && i != before.attempts[id].invoice ==>
          after.invoices[i] == before.invoices[i])
    && (forall e :: e in before.outbox ==> e in after.outbox && after.outbox[e] == before.outbox[e])
    && (forall e :: e in after.outbox && e.source != id ==> e in before.outbox)
    && after.keys == before.keys && after.inbound == before.inbound
  }

  /** A success is recorded: a pending attempt is paid, a failed one stays as it
      is, and one that is settled already still has its invoice PAID and its event. */
  ghost predicate SuccessRecorded(before: Db, after: Db, id: Uuid, ref: Uuid) {
    && id in before.attempts
    && match before.attempts[id].status
       case Pending => PaidFor(before, after, id, ref)
       case Failed => after == before
       case Succeeded =>
         && after.attempts == before.attempts && OthersSame(before, after, id)
         && (before.attempts[id].invoice in before.invoices ==>
               IsSettledInvoice(before, after, before.attempts[id].invoice))
         && EventKey(PaymentSucceeded, id) in after.outbox
  }

  lemma SettleRecordsSuccess(db: Db, id: Uuid, ref: Uuid)
    requires id in db.attempts
    ensures SuccessRecorded(db, Settle(db, id, ref), id, ref)
  {
  }

  /** A failure is recorded: an attempt that was pending is FAILED with the code,
      and its event, which shows it as stored, is posted after others have acted;
      one that is settled already stays as it is. */
  ghost predicate FailureRecorded(before: Db, after: Db, id: Uuid, code: FailureCode) {
    && id in before.attempts && id in after.attempts
    && if before.attempts[id].status == Pending then
         && after.attempts[id] == before.attempts[id].(status := Failed, pspRef := None, failureCode := Some(code))
         && EventKey(PaymentFailed, id) in after.outbox
       else after.attempts[id] == before.attempts[id]
  }

  /** A row that was read while PENDING has no reference yet. */
  predicate IsPlain(row: Attempt) {
    row.status.Pending? && row.pspRef.None?
  }

  /** persistFailure records the failure, and unless the event was there before,
      what it posts is the attempt as it is stored. */
  lemma FailureIsRecorded(later: Db, mid: Db, id: Uuid, row: Attempt, code: FailureCode, last: Db)
    requires id in later.attempts && RowsAfter(RecordFailure(code), later, mid, id, row, last)
    ensures FailureRecorded(later, last, id, code)
    ensures last.attempts == mid.attempts && last.invoices == mid.invoices && last.keys == mid.keys
    ensures later.attempts[id].status.Pending? && IsPlain(row) && CopyOf(row, later, id) ==>
              && Shown(RecordFailure(code), later, id, row) == last.attempts[id]
              && (EventKey(PaymentFailed, id) !in mid.outbox ==>
                    last.outbox[EventKey(PaymentFailed, id)] == last.attempts[id])
  {
    assert id in mid.attempts && mid.attempts[id] == FailIfPending(later, id, code).attempts[id];
  }

  /** The in-memory attempt is a copy of the stored one. */
  predicate CopyOf(row: Attempt, db: Db, id: Uuid) {
    id in db.attempts && SameFixed(row, db.attempts[id])
  }

  /** The rows at the moments of a call: at its first lookup, once the invoice
      was locked, at its second lookup, when the PSP's verdict was recorded, and
      before the event of a failure was posted. */
  datatype Moments = Moments(first: Db, locked: Db, read: Db, later: Db, mid: Db)

  /** The call returned attempt id with the verdict recorded. */
  ghost predicate Charged(id: Uuid, row: Attempt, v: Verdict, m: Moments, last: Db, r: P.Result) {
    && id in m.later.attempts
    && r == P.Returned(id, Shown(v, m.later, id, row))
    && RowsAfter(v, m.later, m.mid, id, row, last)
  }

  /** The key row is of a request for the same invoice with the same card token. */
  predicate IsFor(key: KeyRow, q: PayReq) {
    key.invoice == q.invoice && key.hash == Sha256(q.invoice, q.token)
  }

  /** What replaying a key amounts to. */
  ghost predicate Replayed(q: PayReq, key: KeyRow, v: Verdict, read: Db, m: Moments, last: Db, r: P.Result) {
    if key.hash != HashPayRequest(q) || key.invoice != q.invoice then
      r == P.Refused(IdempotencyConflict) && last == read
    else if key.attempt.None? then r == P.Refused(PaymentInProgress) && last == read
    else if key.attempt.value !in read.attempts then r == P.Refused(NoRows) && last == read
    else
      var id := key.attempt.value;
      if read.attempts[id].status.Pending? then Charged(id, read.attempts[id], v, m, last, r)
      else r == P.Returned(id, read.attempts[id]) && last == read
  }

  /** What a call of PayInvoice with fresh id amounts to. */
  ghost predicate Pays(q: PayReq, id: Uuid, v: Verdict, m: Moments, last: Db, r: P.Result) {
    if KeyOf(q) in m.first.keys then Replayed(q, m.first.keys[KeyOf(q)], v, m.first, m, last, r)
    else match StartOutcome(m.locked, q, id)
      case Refuses(error) => r == P.Refused(error) && last == m.locked
      case KeyTaken => KeyOf(q) in m.read.keys && Replayed(q, m.read.keys[KeyOf(q)], v, m.read, m, last, r)
      case Started(row) => DbGrows(StartAttempt(m.locked, q, id), m.later) && Charged(id, row, v, m, last, r)
      case Broken => false
  }

  /** What a replay of `key` that a failing statement ended has left. */
  ghost predicate ReplayCut(q: PayReq, key: KeyRow, v: Verdict, read: Db, m: Moments, last: Db) {
    && key.hash == HashPayRequest(q) && key.invoice == q.invoice && key.attempt.Some?
    && (|| last == read
        || var a := key.attempt.value;
           && a in read.attempts && read.attempts[a].status.Pending?
           && RowsCutShort(v, m.later, m.mid, a, read.attempts[a], last))
  }

  /** What a call that a failing statement ended has left: whole transactions of
      its own attempt or of the one its key names, or that attempt failed without
      its event.  The last transaction may have taken effect all the same. */
  ghost predicate CutShort(q: PayReq, id: Uuid, v: Verdict, m: Moments, last: Db) {
    if KeyOf(q) in m.first.keys then last == m.first || ReplayCut(q, m.first.keys[KeyOf(q)], v, m.first, m, last)
    else
      || last == m.locked
      || match StartOutcome(m.locked, q, id)
         case Started(row) =>
           || last == StartAttempt(m.locked, q, id)
           || (DbGrows(StartAttempt(m.locked, q, id), m.later) && RowsCutShort(v, m.later, m.mid, id, row, last))
         case KeyTaken =>
           || last == m.read
           || (KeyOf(q) in m.read.keys && ReplayCut(q, m.read.keys[KeyOf(q)], v, m.read, m, last))
         case _ => false
  }

  /** Moments follow each other. */
  ghost predicate InOrder(m: Moments, last: Db) {
    DbGrows(m.first, m.locked) && DbGrows(m.locked, m.read) && DbGrows(m.read, m.later) && DbGrows(m.later, last)
  }

  /** A call with result r is a payment, a refusal or a replay, or was cut short. */
  ghost predicate Accounted(q: PayReq, id: Uuid, v: Verdict, m: Moments, last: Db, r: P.Result) {
    && InOrder(m, last)
    && (|| Pays(q, id, v, m, last, r)
        || (r in {P.Refused(Fault), P.Refused(NoRows)} && CutShort(q, id, v, m, last))
        || (r == P.Refused(InvoiceNotFound) && KeyOf(q) !in m.first.keys && last == m.locked))
  }

  /** A replay, or one that was cut short. */
  ghost predicate ReplayedOrCut(q: PayReq, key: KeyRow, v: Verdict, m: Moments, last: Db, r: P.Result) {
    && DbGrows(m.read, m.later) && DbGrows(m.later, last)
    && (|| Replayed(q, key, v, m.read, m, last, r)
        || (r in {P.Refused(Fault), P.Refused(NoRows)} && ReplayCut(q, key, v, m.read, m, last)))
  }

  /** A call under a new key on an invoice that is not to be paid does nothing and is refused. */
  predicate RefusesUnpayable(q: PayReq, m: Moments, last: Db, r: P.Result) {
    KeyOf(q) !in m.first.keys && q.invoice in m.locked.invoices
    && m.locked.invoices[q.invoice].status !in {Draft, Open} ==>
      last == m.locked && r.Refused?
  }

  lemma FoundIsAccounted(q: PayReq, id: Uuid, v: Verdict, m: Moments, last: Db, r: P.Result)
    requires m.first == m.locked == m.read && KeyOf(q) in m.first.keys
    requires ReplayedOrCut(q, m.first.keys[KeyOf(q)], v, m, last, r)
    ensures Replayed(q, m.first.keys[KeyOf(q)], v, m.read, m, last, r) ==> Pays(q, id, v, m, last, r)
    ensures Accounted(q, id, v, m, last, r) && RefusesUnpayable(q, m, last, r)
  {
    GrowsSelf(m.first);
  }

  lemma TakenIsAccounted(q: PayReq, id: Uuid, v: Verdict, m: Moments, last: Db, r: P.Result)
    requires DbGrows(m.first, m.locked) && DbGrows(m.locked, m.read) && KeyOf(q) !in m.first.keys
    requires StartOutcome(m.locked, q, id).KeyTaken? && KeyOf(q) in m.read.keys
    requires ReplayedOrCut(q, m.read.keys[KeyOf(q)], v, m, last, r)
    ensures Replayed(q, m.read.keys[KeyOf(q)], v, m.read, m, last, r) ==> Pays(q, id, v, m, last, r)
    ensures Accounted(q, id, v, m, last, r) && RefusesUnpayable(q, m, last, r)
  {
  }

  lemma StartedIsAccounted(q: PayReq, id: Uuid, v: Verdict, m: Moments, last: Db, r: P.Result, row: Attempt)
    requires KeyOf(q) !in m.first.keys && StartOutcome(m.locked, q, id) == Started(row)
    requires DbGrows(m.first, m.locked) && m.read == m.locked
    requires DbGrows(StartAttempt(m.locked, q, id), m.later) && DbGrows(m.later, last)
    requires || Charged(id, row, v, m, last, r)
             || (r in {P.Refused(Fault), P.Refused(NoRows)} && RowsCutShort(v, m.later, m.mid, id, row, last))
    ensures Charged(id, row, v, m, last, r) ==> Pays(q, id, v, m, last, r)
    ensures Accounted(q, id, v, m, last, r) && RefusesUnpayable(q, m, last, r)
  {
    StartedInOrder(q, id, m, last);
    StartOutcomeIff(m.locked, q, id);
  }

  /** Nothing was done after the lock, or only the start. */
  lemma LockedIsAccounted(q: PayReq, id: Uuid, v: Verdict, m: Moments, last: Db, r: P.Result)
    requires KeyOf(q) !in m.first.keys && DbGrows(m.first, m.locked) && m.locked == m.read == m.later
    requires var start := StartOutcome(m.locked, q, id);
             || (last == m.locked
                 && (|| r == P.Refused(Fault) || r == P.Refused(InvoiceNotFound)
                     || (start.Refuses? && r == P.Refused(start.error))))
             || (r == P.Refused(Fault) && start.Started? && last == StartAttempt(m.locked, q, id))
    ensures var start := StartOutcome(m.locked, q, id);
            last == m.locked && start.Refuses? && r == P.Refused(start.error) ==> Pays(q, id, v, m, last, r)
    ensures Accounted(q, id, v, m, last, r) && RefusesUnpayable(q, m, last, r)
  {
    GrowsSelf(m.locked);
    BrokenInOrder(q, id, m.locked, last);
  }

  /** One of the two lookups of the key failed, or the second one found none. */
  lemma UnreadIsAccounted(q: PayReq, id: Uuid, v: Verdict, m: Moments, last: Db, r: P.Result)
    requires DbGrows(m.first, m.locked) && DbGrows(m.locked, m.read) && m.read == m.later == last
    requires m.first == m.locked == last || (KeyOf(q) !in m.first.keys && StartOutcome(m.locked, q, id).KeyTaken?)
    requires r == P.Refused(Fault) || r == P.Refused(NoRows)
    ensures Accounted(q, id, v, m, last, r) && RefusesUnpayable(q, m, last, r)
  {
    GrowsSelf(last);
  }

  // ---------------------------------------------------------------- rows only grow

  lemma GrowsSelf(db: Db)
    ensures DbGrows(db, db)
  {
  }

  lemma CopyStays(row: Attempt, db: Db, db': Db, id: Uuid)
    requires DbGrows(db, db')
    ensures CopyOf(row, db, id) ==> CopyOf(row, db', id)
  {
  }

  lemma GrowsOn(a: Db, b: Db, c: Db)
    requires DbGrows(a, b) && DbGrows(b, c)
    ensures DbGrows(a, c)
  {
  }

  lemma StartGrows(db: Db, q: PayReq, id: Uuid)
    requires StartOutcome(db, q, id).Started?
    ensures DbGrows(db, StartAttempt(db, q, id))
  {
  }

  lemma StartedInOrder(q: PayReq, id: Uuid, m: Moments, last: Db)
    requires DbGrows(m.first, m.locked) && m.read == m.locked && StartOutcome(m.locked, q, id).Started?
    requires DbGrows(StartAttempt(m.locked, q, id), m.later) && DbGrows(m.later, last)
    ensures InOrder(m, last)
  {
    StartGrows(m.locked, q, id);
    GrowsSelf(m.locked);
    GrowsOn(m.locked, StartAttempt(m.locked, q, id), m.later);
  }

  lemma BrokenInOrder(q: PayReq, id: Uuid, seen: Db, last: Db)
    requires last == seen || (StartOutcome(seen, q, id).Started? && last == StartAttempt(seen, q, id))
    ensures DbGrows(seen, last)
  {
    GrowsSelf(seen);
    if StartOutcome(seen, q, id).Started? {
      StartGrows(seen, q, id);
    }
  }

  lemma SettleGrows(db: Db, id: Uuid, ref: Uuid)
    ensures DbGrows(db, Settle(db, id, ref))
  {
  }

  lemma FailGrows(db: Db, id: Uuid, code: FailureCode)
    ensures DbGrows(db, FailIfPending(db, id, code))
  {
  }

  /** What persistSuccess's statements have made of the rows before it posts the event. */
  lemma SettledInSteps(begun: Db, rows: Db, id: Uuid, ref: Uuid, row: Attempt)
    requires id in begun.attempts && !begun.attempts[id].status.Failed?
    requires CopyOf(row, begun, id) ==> row == AsSucceeded(begun.attempts[id], ref)
    requires rows.keys == begun.keys && rows.inbound == begun.inbound && rows.outbox == begun.outbox
    requires rows.invoices == MarkPaidIfOpen(begun, row.invoice)
    requires rows.attempts == if begun.attempts[id].status.Pending?
                              then begun.attempts[id := AsSucceeded(begun.attempts[id], ref)] else begun.attempts
    ensures CopyOf(row, begun, id) ==>
              rows.(outbox := Enqueue(rows, EventKey(PaymentSucceeded, id), row)) == Settle(begun, id, ref)
  {
  }

  lemma PostedGrows(db: Db, id: Uuid, failed: Attempt)
    ensures DbGrows(db, Posted(db, id, failed))
  {
  }

  lemma RecordGrows(v: Verdict, later: Db, mid: Db, id: Uuid, row: Attempt, last: Db)
    requires || RowsCutShort(v, later, mid, id, row, last)
             || (id in later.attempts && RowsAfter(v, later, mid, id, row, last))
    ensures DbGrows(later, last)
  {
    GrowsSelf(later);
    match v
    case LeavePending =>
    case RecordFailure(code) =>
      FailGrows(later, id, code);
      PostedGrows(mid, id, ShownFailed(row, code));
      if mid != later {
        GrowsOn(later, FailIfPending(later, id, code), mid);
      }
      GrowsOn(later, mid, last);
    case RecordSuccess(ref) => SettleGrows(later, id, ref);
  }

  // ---------------------------------------------------------------- webhooks

  /** What json.Unmarshal and the two checks after it make of a webhook's body. */
  datatype Decoded = Malformed | NoEventId | NoEventType | Decoded(msg: SingleFlight.Msg)

  datatype HookResult =
    | HookOk
    | HookRejected(why: Signature.VerifyResult)
    | HookInvalid
    | HookFailed

  function CodeOf(m: SingleFlight.Msg): FailureCode {
    if m.code.None? then CardDeclined else m.code.value
  }

  function VerdictOfMsg(m: SingleFlight.Msg): Verdict {
    if m.succeeded then RecordSuccess(m.ref) else if m.failed then RecordFailure(CodeOf(m)) else LeavePending
  }

  /** The rows when the attempt was read, when the verdict was recorded, before
      the event of a failure was posted, and once the webhook was applied. */
  datatype HookMoments = HookMoments(first: Db, seen: Db, mid: Db, applied: Db)

  /** What applying message m amounts to. */
  ghost predicate Hooked(m: SingleFlight.Msg, t: HookMoments) {
    if m.key.None? || m.key.value !in t.first.attempts then t.applied == t.first
    else
      && m.key.value in t.seen.attempts
      && RowsAfter(VerdictOfMsg(m), t.seen, t.mid, m.key.value, t.first.attempts[m.key.value], t.applied)
  }

  /** A charge that succeeded is recorded as a success under the webhook's
      reference, one that failed as a failure with its code, anything else not at all. */
  ghost predicate WebhookApplied(m: SingleFlight.Msg, t: HookMoments) {
    if m.key.None? || (!m.succeeded && !m.failed) then t.applied == t.first
    else if m.key.value !in t.first.attempts then t.applied == t.first
    else if m.succeeded then
      t.applied == Settle(t.seen, m.key.value, m.ref) && SuccessRecorded(t.seen, t.applied, m.key.value, m.ref)
    else FailureRecorded(t.seen, t.applied, m.key.value, if m.code.None? then CardDeclined else m.code.value)
  }

  lemma HookedIsApplied(m: SingleFlight.Msg, t: HookMoments)
    requires Hooked(m, t) && (m.succeeded || m.failed || t.seen == t.first)
    ensures WebhookApplied(m, t)
  {
    if m.key.Some? && m.key.value in t.first.attempts {
      if m.succeeded {
        SettleRecordsSuccess(t.seen, m.key.value, m.ref);
      } else if m.failed {
        FailureIsRecorded(t.seen, t.mid, m.key.value, t.first.attempts[m.key.value], CodeOf(m), t.applied);
      }
    }
  }

  ghost predicate HookCutShort(m: SingleFlight.Msg, t: HookMoments) {
    && m.key.Some? && m.key.value in t.first.attempts
    && RowsCutShort(VerdictOfMsg(m), t.seen, t.mid, m.key.value, t.first.attempts[m.key.value], t.applied)
  }

  predicate IsProcessed(db: Db, event: Uuid) {
    event in db.inbound && db.inbound[event].InProcessed?
  }

  /** The rows agree but for the inbound events. */
  predicate SamePayments(db: Db, db': Db) {
    db.(inbound := db'.inbound) == db'
  }
}
