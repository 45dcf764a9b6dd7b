/** What holds in every reachable state of the protocol. */
module Invariant {
  import opened Model
  import opened SingleFlight
  import opened Protocol

  // ---------------------------------------------------------------- the committed rows

  /** psp_transaction_id and failure_code are set exactly when the status says so. */
  predicate WellShaped(a: Attempt) {
    match a.status
    case Pending => a.pspRef.None? && a.failureCode.None?
    case Succeeded => a.pspRef.Some? && a.failureCode.None?
    case Failed => a.pspRef.None? && a.failureCode.Some?
  }

  /** Idempotency rows and attempts name each other. */
  ghost predicate KeysOk(db: Db, origin: map<Uuid, PayReq>) {
    && (forall k :: k in db.keys ==>
          && db.keys[k].attempt.Some?
          && db.keys[k].attempt.value in db.attempts
          && db.keys[k].attempt.value in origin
          && KeyOf(origin[db.keys[k].attempt.value]) == k
          && db.keys[k].invoice == origin[db.keys[k].attempt.value].invoice
          && db.keys[k].hash == HashPayRequest(origin[db.keys[k].attempt.value]))
    && (forall a :: a in db.attempts <==> a in origin)
    && (forall a :: a in db.attempts ==>
          KeyOf(origin[a]) in db.keys && db.keys[KeyOf(origin[a])].attempt == Some(a))
  }

  ghost predicate AttemptOk(db: Db, origin: map<Uuid, PayReq>, a: Uuid)
    requires a in db.attempts && a in origin
  {
    var row := db.attempts[a];
    && row.invoice == origin[a].invoice && row.business == origin[a].business
    && row.invoice in db.invoices
    && db.invoices[row.invoice].business == row.business
    && db.invoices[row.invoice].amount == row.amount
    && db.invoices[row.invoice].currency == row.currency
    && WellShaped(row)
  }

  ghost predicate OneLive(db: Db) {
    forall a, b :: a in db.attempts && b in db.attempts && a != b
                   && db.attempts[a].invoice == db.attempts[b].invoice ==>
      db.attempts[a].status.Failed? || db.attempts[b].status.Failed?
  }

  ghost predicate HasAttempt(db: Db, i: Uuid) {
    exists a :: a in db.attempts && db.attempts[a].invoice == i
  }

  ghost predicate HasSucceeded(db: Db, i: Uuid) {
    exists a :: a in db.attempts && db.attempts[a].invoice == i && db.attempts[a].status.Succeeded?
  }

  ghost predicate InvoiceOk(db: Db, i: Uuid)
    requires i in db.invoices
  {
    && db.invoices[i].amount > 0
    && match db.invoices[i].status
       case Open => HasAttempt(db, i) && !HasSucceeded(db, i)
       case Paid => HasSucceeded(db, i)
       case _ => !HasAttempt(db, i)
  }

  ghost predicate OutboxOk(db: Db) {
    && (forall e :: e in db.outbox ==>
          && e.source in db.attempts
          && db.outbox[e] == db.attempts[e.source]
          && db.attempts[e.source].status == (if e.etype.PaymentSucceeded? then Succeeded else Failed))
    && (forall a :: a in db.attempts && db.attempts[a].status.Succeeded? ==> EventKey(PaymentSucceeded, a) in db.outbox)
  }

  ghost predicate DbInv(db: Db, origin: map<Uuid, PayReq>) {
    && KeysOk(db, origin)
    && (forall a :: a in db.attempts ==> AttemptOk(db, origin, a))
    && OneLive(db)
    && (forall i :: i in db.invoices ==> InvoiceOk(db, i))
    && OutboxOk(db)
  }

  // ---------------------------------------------------------------- the rows and the PSP

  /** An attempt has failed with the code that is promised of its token, or was
      charged under its psp_ref. */
  ghost predicate SettledOk(db: Db, origin: map<Uuid, PayReq>, psp: Psp) {
    && (forall a :: a in db.attempts && a in origin && db.attempts[a].status.Failed? ==>
          FailsWith(origin[a].token, db.attempts[a].failureCode))
    && (forall a :: a in db.attempts && db.attempts[a].status.Succeeded? ==>
          db.attempts[a].pspRef.Some? && HasCapture(psp, a, db.attempts[a].pspRef.value))
  }

  predicate FailsWith(t: Token, code: Option<FailureCode>) {
    code.Some? && FateOf(t) == Declining(code.value)
  }

  /** Request q asks for attempt k's money with the card token of the request that made k. */
  predicate Genuine(db: Db, origin: map<Uuid, PayReq>, q: ChargeReq) {
    && q.key.Some?
    && q.key.value in db.attempts && q.key.value in origin
    && q.token == origin[q.key.value].token
    && q.amount == db.attempts[q.key.value].amount
    && q.currency == db.attempts[q.key.value].currency
  }

  ghost predicate CallsOk(db: Db, origin: map<Uuid, PayReq>, psp: Psp) {
    && (forall r :: r in psp.procs ==>
          && Genuine(db, origin, psp.procs[r].req)
          && (psp.procs[r].stage.Replied? ==> psp.procs[r].stage.decider == psp.procs[r].req.token))
    && (forall e :: e in psp.entries ==>
          psp.entries[e].key in origin && psp.entries[e].token == origin[psp.entries[e].key].token)
  }

  /** Every capture is of an attempt's own amount. */
  ghost predicate CapturesOk(db: Db, origin: map<Uuid, PayReq>, psp: Psp) {
    && (forall i :: 0 <= i < |psp.ledger| ==>
          var c := psp.ledger[i];
          && c.key.Some? && c.key.value in db.attempts && c.key.value in origin
          && c.amount == db.attempts[c.key.value].amount
          && c.currency == db.attempts[c.key.value].currency
          && Charges(origin[c.key.value].token))
    && (forall m :: m in psp.mail ==> m.key.Some? && m.key.value in db.attempts)
  }

  /** A webhook marked PROCESSED has been applied, unless its read failed. */
  ghost predicate InboundOk(db: Db, psp: Psp, missed: set<Uuid>) {
    && (forall e :: e in db.inbound ==> e < psp.next)
    && forall m :: m in psp.mail && m.event in db.inbound && db.inbound[m.event].InProcessed? && m.event !in missed ==>
      m.key.Some? && m.key.value in db.attempts && db.attempts[m.key.value].status.Succeeded?
  }

  // ---------------------------------------------------------------- answers

  /** A refusal because of the invoice tells the truth about it, then and ever after. */
  ghost predicate RefusalOk(db: Db, q: PayReq, error: PayError) {
    match error
    case InvoiceNotOwned => q.invoice in db.invoices && db.invoices[q.invoice].business != q.business
    case InvoiceAlreadyPaid => q.invoice in db.invoices && db.invoices[q.invoice].status.Paid?
    case InvoiceVoid => q.invoice in db.invoices && db.invoices[q.invoice].status.Void?
    case InvoiceUncollectible => q.invoice in db.invoices && db.invoices[q.invoice].status.Uncollectible?
    case PaymentInProgress => HasAttempt(db, q.invoice)
    case _ => true
  }

  /** An answer shows the attempt of its own request: as it is for ever if the
      attempt was settled, and still PENDING only after an unknown outcome. */
  ghost predicate AnswerOk(s: Shared, ans: Answer) {
    match ans.result
    case Returned(id, row) =>
      && id in s.db.attempts && id in s.origin && s.origin[id] == ans.req
      && SameFixed(row, s.db.attempts[id]) && WellShaped(row)
      && (if row.status.Pending? then ans.unknown else row == s.db.attempts[id])
    case Refused(error) =>
      && !error.NoRows?
      && RefusalOk(s.db, ans.req, error)
      && (error.IdempotencyConflict? ==>
            && KeyOf(ans.req) in s.db.keys
            && s.db.keys[KeyOf(ans.req)].attempt.Some?
            && s.db.keys[KeyOf(ans.req)].attempt.value in s.origin
            && s.origin[s.db.keys[KeyOf(ans.req)].attempt.value] != ans.req)
  }

  ghost predicate SharedInv(s: Shared) {
    match s
    case Shared(db, origin, psp, missed) =>
      && DbInv(db, origin)
      && PspInv(psp)
      && SettledOk(db, origin, psp)
      && CallsOk(db, origin, psp)
      && CapturesOk(db, origin, psp)
      && InboundOk(db, psp, missed)
  }

  /** Identifiers in use were handed out before, and only finished calls have answered. */
  ghost predicate IdsOk(w: World) {
    && (forall h :: h in w.handlers ==> h < w.next)
    && (forall h :: h in w.answers ==> h < w.next && h !in w.handlers)
    && (forall a :: a in w.origin ==> a < w.next)
  }

  // ---------------------------------------------------------------- handlers

  /** The invoice row read under the lock is still the committed one. */
  predicate Locked(s: Shared, q: PayReq, inv: Invoice) {
    && q.invoice in s.db.invoices && s.db.invoices[q.invoice] == inv
    && inv.business == q.business
    && (inv.status.Draft? || inv.status.Open?)
  }

  /** The attempt a job may touch: its own request's, or the one its webhook names. */
  ghost predicate Mine(s: Shared, job: Job, id: Uuid) {
    && id in s.db.attempts && id in s.origin
    && match job
       case Pay(q) => s.origin[id] == q
       case Hook(m) => m in s.psp.mail && m.key == Some(id)
  }

  ghost predicate Settling(s: Shared, hd: Handler, id: Uuid, row: Attempt, ref: Uuid) {
    && Mine(s, hd.job, id)
    && SameFixed(row, s.db.attempts[id])
    && HasCapture(s.psp, id, ref)
  }

  ghost predicate HandlerOk(s: Shared, hd: Handler) {
    match hd.pc
    case Lookup => hd.job.Pay?
    case LockInvoice => hd.job.Pay?
    case OpenInvoice(inv) => hd.job.Pay? && Locked(s, hd.job.req, inv)
    case InsertKey(inv) => hd.job.Pay? && Locked(s, hd.job.req, inv)
    case CheckPending(inv) => hd.job.Pay? && Locked(s, hd.job.req, inv) && KeyOf(hd.job.req) !in s.db.keys
    case InsertAttempt(inv) =>
      && hd.job.Pay? && Locked(s, hd.job.req, inv)
      && KeyOf(hd.job.req) !in s.db.keys && !PendingOn(s.db, hd.job.req.invoice)
    case CommitStart(inv) =>
      && hd.job.Pay? && Locked(s, hd.job.req, inv)
      && KeyOf(hd.job.req) !in s.db.keys && !PendingOn(s.db, hd.job.req.invoice)
    case Relookup => hd.job.Pay? && KeyOf(hd.job.req) in s.db.keys
    case Replay(id) => hd.job.Pay? && Mine(s, hd.job, id)
    case CallPsp(id, row) =>
      hd.job.Pay? && Mine(s, hd.job, id) && SameFixed(row, s.db.attempts[id]) && row.status.Pending? && WellShaped(row)
    case Await(id, row, call) =>
      && hd.job.Pay? && Mine(s, hd.job, id) && SameFixed(row, s.db.attempts[id]) && row.status.Pending?
      && WellShaped(row)
      && call in s.psp.procs && s.psp.procs[call].req.key == Some(id)
    case LockSettle(id, row, ref) => Settling(s, hd, id, row, ref)
    case MarkSucceeded(id, row, ref) => Settling(s, hd, id, row, ref)
    case Reread(id, row, ref) => Settling(s, hd, id, row, ref) && !s.db.attempts[id].status.Pending?
    case MarkPaid(id, row, ref, first) =>
      Settling(s, hd, id, row, ref) && s.db.attempts[id].status == (if first then Pending else Succeeded)
    case EnqueueSuccess(id, row, ref, first, pay) =>
      Settling(s, hd, id, row, ref) && s.db.attempts[id].status == (if first then Pending else Succeeded)
      && pay == IsOpen(s, row.invoice)
    case CommitSettle(id, row, ref, first, pay, post) =>
      Settling(s, hd, id, row, ref) && s.db.attempts[id].status == (if first then Pending else Succeeded)
      && pay == IsOpen(s, row.invoice)
      && post == (EventKey(PaymentSucceeded, id) !in s.db.outbox)
    case MarkFailed(id, row, code) =>
      && hd.job.Pay? && Mine(s, hd.job, id) && SameFixed(row, s.db.attempts[id])
      && row.status.Pending? && WellShaped(row) && FailsWith(s.origin[id].token, Some(code))
    case RereadFailed(id) => hd.job.Pay? && Mine(s, hd.job, id) && !s.db.attempts[id].status.Pending?
    case EnqueueFailure(id, row) =>
      hd.job.Pay? && Mine(s, hd.job, id) && row == s.db.attempts[id] && row.status.Failed?
    case HookCreate => hd.job.Hook? && hd.job.msg in s.psp.mail
    case HookExisting => hd.job.Hook? && hd.job.msg in s.psp.mail
    case HookFetch => hd.job.Hook? && hd.job.msg in s.psp.mail
    case HookMark(st) =>
      && hd.job.Hook? && hd.job.msg in s.psp.mail
      && (st.InProcessed? && hd.job.msg.event !in s.missed ==> (
            && hd.job.msg.key.Some? && hd.job.msg.key.value in s.db.attempts
            && s.db.attempts[hd.job.msg.key.value].status.Succeeded?))
  }

  /** No lock has two holders. */
  ghost predicate Exclusive(w: World) {
    forall g, h, r :: g in w.handlers && h in w.handlers && g != h && Holds(w.handlers[g], r) ==>
      !Holds(w.handlers[h], r)
  }

  ghost predicate HandlersOk(w: World) {
    forall h :: h in w.handlers ==> HandlerOk(SharedOf(w), w.handlers[h])
  }

  ghost predicate AnswersOk(w: World) {
    forall h :: h in w.answers ==> AnswerOk(SharedOf(w), w.answers[h])
  }

  ghost predicate Inv(w: World) {
    && IdsOk(w)
    && SharedInv(SharedOf(w))
    && HandlersOk(w)
    && AnswersOk(w)
    && Exclusive(w)
  }

  // ---------------------------------------------------------------- how the shared state may change

  ghost predicate PspGrows(p: Psp, p': Psp) {
    && p.ledger <= p'.ledger
    && p.mail <= p'.mail
    && (forall r :: r in p.procs ==> r in p'.procs && p'.procs[r].req == p.procs[r].req)
  }

  ghost predicate Grows(s: Shared, s': Shared) {
    && DbGrows(s.db, s'.db)
    && (forall a :: a in s.origin ==> a in s'.origin && s'.origin[a] == s.origin[a])
    && PspGrows(s.psp, s'.psp)
    && s.missed <= s'.missed
  }

  /** Nothing hd's locks protect has changed. */
  ghost predicate Undisturbed(db: Db, db': Db, hd: Handler) {
    && (forall i :: Holds(hd, InvoiceRow(i)) && i in db.invoices ==>
          i in db'.invoices && db'.invoices[i] == db.invoices[i] && (PendingOn(db', i) ==> PendingOn(db, i)))
    && (forall k :: Holds(hd, KeySlot(k)) && k in db'.keys ==> k in db.keys)
    && (forall a :: Holds(hd, AttemptRow(a)) && a in db.attempts ==>
          a in db'.attempts && db'.attempts[a] == db.attempts[a])
    && (forall e :: Holds(hd, OutboxSlot(e)) && e in db'.outbox ==> e in db.outbox)
  }

  /** Moving on to pc gains no lock but the one the handler waited for. */
  ghost predicate GainsOnlyWanted(hd: Handler, pc: Pc) {
    forall r :: Holds(Handler(hd.job, pc), r) ==> Holds(hd, r) || Wants(hd) == Some(r)
  }

  /** `other` holds no lock that hd has or is about to get. */
  ghost predicate Apart(hd: Handler, other: Handler) {
    forall r :: Holds(hd, r) || Wants(hd) == Some(r) ==> !Holds(other, r)
  }

  /** hd changes only what its own locks protect. */
  ghost predicate Respects(db: Db, db': Db, hd: Handler) {
    forall other :: Apart(hd, other) ==> Undisturbed(db, db', other)
  }

  /** What a step of handler hd must establish, without looking at any other handler. */
  ghost predicate OutcomeOk(s: Shared, next: Uuid, hd: Handler, o: Outcome) {
    match o
    case Continue(s', next', pc) =>
      && SharedInv(s') && Grows(s, s') && Respects(s.db, s'.db, hd)
      && next <= next' && (forall a :: a in s'.origin ==> a in s.origin || a < next')
      && HandlerOk(s', Handler(hd.job, pc)) && GainsOnlyWanted(hd, pc)
    case Finish(s', answer) =>
      && SharedInv(s') && Grows(s, s') && Respects(s.db, s'.db, hd)
      && s'.origin == s.origin
      && (answer.Some? ==> AnswerOk(s', answer.value))
  }
}
