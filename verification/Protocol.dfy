/** The payment protocol as a step machine.  One step is one database
    statement, one message to or from the PSP, one step of the PSP, or a fault.

    A transaction's writes stay private to its handler, recorded in its program
    counter, until its commit applies them to the committed rows; its locks are
    a function of the program counter too, so a crash drops both at once. */
module Protocol {
  import opened Model
  import opened SingleFlight
  import opened PspClient

  /** What a handler serves: a payment request or an inbound webhook. */
  datatype Job = Pay(req: PayReq) | Hook(msg: Msg)

  /** The statement a handler executes next.  `row` is the in-memory attempt. */
  datatype Pc =
    // PayInvoice
    | Lookup
    // createPendingAttempt, one transaction
    | LockInvoice
    | OpenInvoice(inv: Invoice)
    | InsertKey(inv: Invoice)
    | CheckPending(inv: Invoice)
    | InsertAttempt(inv: Invoice)
    | CommitStart(inv: Invoice)
    // PayInvoice after a unique violation, and replayIdempotentPay
    | Relookup
    | Replay(id: Uuid)
    // chargeAndSettle
    | CallPsp(id: Uuid, row: Attempt)
    | Await(id: Uuid, row: Attempt, call: Uuid)
    // persistSuccess, one transaction
    | LockSettle(id: Uuid, row: Attempt, ref: Uuid)
    | MarkSucceeded(id: Uuid, row: Attempt, ref: Uuid)
    | Reread(id: Uuid, row: Attempt, ref: Uuid)
    | MarkPaid(id: Uuid, row: Attempt, ref: Uuid, first: bool)
    | EnqueueSuccess(id: Uuid, row: Attempt, ref: Uuid, first: bool, pay: bool)
    | CommitSettle(id: Uuid, row: Attempt, ref: Uuid, first: bool, pay: bool, post: bool)
    // persistFailure, separate statements
    | MarkFailed(id: Uuid, row: Attempt, code: FailureCode)
    | RereadFailed(id: Uuid)
    | EnqueueFailure(id: Uuid, row: Attempt)
    // ProcessPSPWebhook and applyWebhook
    | HookCreate
    | HookExisting
    | HookFetch
    | HookMark(st: InboundStatus)

  datatype Handler = Handler(job: Job, pc: Pc)

  /** What a finished PayInvoice returned. */
  datatype Result = Returned(id: Uuid, row: Attempt) | Refused(error: PayError)

  /** `unknown`: the call had seen a timeout or an unavailable PSP. */
  datatype Answer = Answer(req: PayReq, result: Result, unknown: bool)

  /** `origin` remembers which request created an attempt, `missed` the webhook
      events whose read of their attempt failed, `answers` what each finished call
      told its client; no step looks at any of them. */
  datatype World = World(
    db: Db,
    origin: map<Uuid, PayReq>,
    psp: Psp,
    missed: set<Uuid>,
    handlers: map<Uuid, Handler>,
    answers: map<Uuid, Answer>,
    next: Uuid)

  /** What all handlers share. */
  datatype Shared = Shared(db: Db, origin: map<Uuid, PayReq>, psp: Psp, missed: set<Uuid>)

  function SharedOf(w: World): Shared {
    Shared(w.db, w.origin, w.psp, w.missed)
  }

  // ---------------------------------------------------------------- locks

  datatype Resource =
    | InvoiceRow(invoice: Uuid)      // SELECT ... FOR UPDATE
    | KeySlot(key: KeyId)            // UNIQUE (business_id, idempotency_key), uncommitted insert
    | AttemptRow(attempt: Uuid)      // UPDATE payment_attempts
    | PendingSlot(owner: Uuid)       // idx_one_pending_attempt_per_invoice, uncommitted insert
    | OutboxSlot(event: EventKey)    // UNIQUE (event_type, source_id), uncommitted insert

  predicate InStartTx(pc: Pc) {
    pc.OpenInvoice? || pc.InsertKey? || pc.CheckPending? || pc.InsertAttempt? || pc.CommitStart?
  }

  predicate InSettleTx(pc: Pc) {
    pc.MarkSucceeded? || pc.Reread? || pc.MarkPaid? || pc.EnqueueSuccess? || pc.CommitSettle?
  }

  predicate Holds(h: Handler, r: Resource) {
    match r
    case InvoiceRow(i) =>
      || (h.job.Pay? && InStartTx(h.pc) && h.job.req.invoice == i)
      || (InSettleTx(h.pc) && h.pc.row.invoice == i)
    case KeySlot(k) =>
      h.job.Pay? && (h.pc.CheckPending? || h.pc.InsertAttempt? || h.pc.CommitStart?) && KeyOf(h.job.req) == k
    case AttemptRow(a) =>
      (h.pc.MarkPaid? || h.pc.EnqueueSuccess? || h.pc.CommitSettle?) && h.pc.first && h.pc.id == a
    case PendingSlot(i) =>
      h.job.Pay? && h.pc.CommitStart? && h.job.req.invoice == i
    case OutboxSlot(e) =>
      h.pc.CommitSettle? && h.pc.post && e == EventKey(PaymentSucceeded, h.pc.id)
  }

  /** The lock or index slot the next statement needs. */
  function Wants(h: Handler): Option<Resource> {
    match h.pc
    case LockInvoice => if h.job.Pay? then Some(InvoiceRow(h.job.req.invoice)) else None
    case InsertKey(_) => if h.job.Pay? then Some(KeySlot(KeyOf(h.job.req))) else None
    case InsertAttempt(_) => if h.job.Pay? then Some(PendingSlot(h.job.req.invoice)) else None
    case LockSettle(_, row, _) => Some(InvoiceRow(row.invoice))
    case MarkSucceeded(id, _, _) => Some(AttemptRow(id))
    case EnqueueSuccess(id, _, _, _, _) => Some(OutboxSlot(EventKey(PaymentSucceeded, id)))
    case MarkFailed(id, _, _) => Some(AttemptRow(id))
    case EnqueueFailure(id, _) => Some(OutboxSlot(EventKey(PaymentFailed, id)))
    case _ => None
  }

  /** Handler h waits for g: g holds what h's next statement needs. */
  predicate WaitsFor(w: World, h: Uuid, g: Uuid) {
    && h in w.handlers && g in w.handlers && g != h
    && Wants(w.handlers[h]).Some?
    && Holds(w.handlers[g], Wants(w.handlers[h]).value)
  }

  ghost predicate Blocked(w: World, h: Uuid) {
    exists g :: WaitsFor(w, h, g)
  }

  // ---------------------------------------------------------------- what one statement does

  /** A handler's step changes what all handlers share, and either moves the
      handler on or ends it, perhaps with an answer to its client. */
  datatype Outcome =
    | Continue(s: Shared, next: Uuid, pc: Pc)
    | Finish(s: Shared, answer: Option<Answer>)

  /** PayInvoice returns. */
  function Reply(s: Shared, q: PayReq, result: Result, unknown: bool): Outcome {
    Finish(s, Some(Answer(q, result, unknown)))
  }

  /** persistSuccess or persistFailure is done: PayInvoice returns the attempt,
      a webhook handler goes on to mark its event. */
  function Resume(s: Shared, next: Uuid, job: Job, id: Uuid, row: Attempt): Outcome {
    if job.Pay? then Reply(s, job.req, Returned(id, row), false) else Continue(s, next, HookMark(InProcessed))
  }

  /** A statement returned an error. */
  function Abort(s: Shared, next: Uuid, job: Job, error: PayError): Outcome {
    if job.Pay? then Reply(s, job.req, Refused(error), false) else Continue(s, next, HookMark(InFailed))
  }

  /** replayIdempotentPay up to its read of the attempt. */
  function FoundKey(s: Shared, next: Uuid, q: PayReq, row: KeyRow): Outcome {
    if row.hash != HashPayRequest(q) || row.invoice != q.invoice then Reply(s, q, Refused(IdempotencyConflict), false)
    else if row.attempt.None? then Reply(s, q, Refused(PaymentInProgress), false)
    else Continue(s, next, Replay(row.attempt.value))
  }

  /** The writes of createPendingAttempt. */
  function ApplyStart(db: Db, q: PayReq, inv: Invoice, id: Uuid): Db {
    db.(invoices := if inv.status.Draft? then db.invoices[q.invoice := inv.(status := Open)] else db.invoices,
        keys := db.keys[KeyOf(q) := KeyRow(q.invoice, HashPayRequest(q), Some(id))],
        attempts := db.attempts[id := NewAttempt(q, inv)])
  }

  /** The writes of persistSuccess, as its statements decided them. */
  function ApplySettle(db: Db, pc: Pc): Db
    requires pc.CommitSettle? && pc.row.invoice in db.invoices && pc.id in db.attempts
  {
    var done := AsSucceeded(pc.row, pc.ref);
    db.(attempts := if pc.first then db.attempts[pc.id := AsSucceeded(db.attempts[pc.id], pc.ref)] else db.attempts,
        invoices := if pc.pay then db.invoices[pc.row.invoice := db.invoices[pc.row.invoice].(status := Paid)]
                    else db.invoices,
        outbox := if pc.post then db.outbox[EventKey(PaymentSucceeded, pc.id) := done] else db.outbox)
  }

  function Started(s: Shared, q: PayReq, inv: Invoice, id: Uuid): Shared {
    s.(db := ApplyStart(s.db, q, inv, id), origin := s.origin[id := q])
  }

  /** The HTTP request to the PSP, with the attempt's id as its idempotency key. */
  function ChargeOf(q: PayReq, id: Uuid, row: Attempt): ChargeReq {
    ChargeReq(Some(id), q.token, row.amount, row.currency)
  }

  predicate IsOpen(s: Shared, i: Uuid) {
    i in s.db.invoices && (s.db.invoices[i].status.Draft? || s.db.invoices[i].status.Open?)
  }

  /** PayInvoice, createPendingAttempt and replayIdempotentPay.  The UUID of a
      new attempt is drawn where the attempt becomes visible, at the commit. */
  ghost function PayEffect(s: Shared, next: Uuid, q: PayReq, pc: Pc): Outcome {
    match pc
    case Lookup =>
      if KeyOf(q) in s.db.keys then FoundKey(s, next, q, s.db.keys[KeyOf(q)]) else Continue(s, next, LockInvoice)
    case LockInvoice =>
      if q.invoice !in s.db.invoices then Reply(s, q, Refused(InvoiceNotFound), false)
      else
        var inv := s.db.invoices[q.invoice];
        if inv.business != q.business then Reply(s, q, Refused(InvoiceNotOwned), false)
        else if PayableInvoice(inv.status).Some? then Reply(s, q, Refused(PayableInvoice(inv.status).value), false)
        else Continue(s, next, if inv.status.Draft? then OpenInvoice(inv) else InsertKey(inv))
    case OpenInvoice(inv) => Continue(s, next, InsertKey(inv))
    case InsertKey(inv) => Continue(s, next, if KeyOf(q) in s.db.keys then Relookup else CheckPending(inv))
    case CheckPending(inv) =>
      if PendingOn(s.db, q.invoice) then Reply(s, q, Refused(PaymentInProgress), false)
      else Continue(s, next, InsertAttempt(inv))
    case InsertAttempt(inv) =>
      if PendingOn(s.db, q.invoice) then Reply(s, q, Refused(PaymentInProgress), false)
      else Continue(s, next, CommitStart(inv))
    case CommitStart(inv) => Continue(Started(s, q, inv, next), next + 1, CallPsp(next, NewAttempt(q, inv)))
    case Relookup =>
      if KeyOf(q) in s.db.keys then FoundKey(s, next, q, s.db.keys[KeyOf(q)]) else Reply(s, q, Refused(NoRows), false)
    case Replay(id) =>
      if id !in s.db.attempts then Reply(s, q, Refused(NoRows), false)
      else if !s.db.attempts[id].status.Pending? then Reply(s, q, Returned(id, s.db.attempts[id]), false)
      else Continue(s, next, CallPsp(id, s.db.attempts[id]))
    case CallPsp(id, row) =>
      Continue(s.(psp := Send(s.psp, ChargeOf(q, id, row))), next, Await(id, row, s.psp.next))
    case Await(id, row, call) =>
      if call in s.psp.procs && s.psp.procs[call].stage.Replied?
      then Receive(s, next, q, pc, Got(s.psp.procs[call].stage.httpCode, s.psp.procs[call].stage.resp))
      else Continue(s, next, pc)
    case _ => SettleEffect(s, next, Pay(q), pc)
  }

  /** chargeAndSettle once the HTTP call is over. */
  function Receive(s: Shared, next: Uuid, q: PayReq, pc: Pc, t: Transport): Outcome
    requires pc.Await?
  {
    match VerdictOf(Classify(t))
    case LeavePending => Reply(s, q, Returned(pc.id, pc.row), true)
    case RecordFailure(code) => Continue(s, next, MarkFailed(pc.id, pc.row, code))
    case RecordSuccess(ref) => Continue(s, next, LockSettle(pc.id, pc.row, ref))
  }

  /** persistSuccess and persistFailure. */
  function SettleEffect(s: Shared, next: Uuid, job: Job, pc: Pc): Outcome {
    match pc
    case LockSettle(id, row, ref) =>
      if row.invoice !in s.db.invoices then Abort(s, next, job, NoRows)
      else Continue(s, next, MarkSucceeded(id, row, ref))
    case MarkSucceeded(id, row, ref) =>
      Continue(s, next, if id in s.db.attempts && s.db.attempts[id].status.Pending? then MarkPaid(id, row, ref, true)
                        else Reread(id, row, ref))
    case Reread(id, row, ref) =>
      if id !in s.db.attempts then Abort(s, next, job, NoRows)
      else if !s.db.attempts[id].status.Succeeded? then Resume(s, next, job, id, s.db.attempts[id])
      else Continue(s, next, MarkPaid(id, s.db.attempts[id], ref, false))
    case MarkPaid(id, row, ref, first) => Continue(s, next, EnqueueSuccess(id, row, ref, first, IsOpen(s, row.invoice)))
    case EnqueueSuccess(id, row, ref, first, pay) =>
      Continue(s, next, CommitSettle(id, row, ref, first, pay, EventKey(PaymentSucceeded, id) !in s.db.outbox))
    case CommitSettle(id, row, ref, first, pay, post) =>
      if row.invoice in s.db.invoices && id in s.db.attempts
      then Resume(s.(db := ApplySettle(s.db, pc)), next, job, id, AsSucceeded(row, ref))
      else Abort(s, next, job, NoRows)
    case MarkFailed(id, row, code) =>
      if id in s.db.attempts && s.db.attempts[id].status.Pending? then
        var failed := row.(status := Failed, failureCode := Some(code));
        Continue(s.(db := FailIfPending(s.db, id, code)), next, EnqueueFailure(id, failed))
      else Continue(s, next, RereadFailed(id))
    case RereadFailed(id) =>
      if id !in s.db.attempts then Abort(s, next, job, NoRows) else Resume(s, next, job, id, s.db.attempts[id])
    case EnqueueFailure(id, row) =>
      Resume(s.(db := s.db.(outbox := Enqueue(s.db, EventKey(PaymentFailed, id), row))), next, job, id, row)
    case _ => Continue(s, next, pc)
  }

  function WithInbound(s: Shared, event: Uuid, st: InboundStatus): Shared {
    s.(db := s.db.(inbound := s.db.inbound[event := st]))
  }

  /** ProcessPSPWebhook and applyWebhook, for a message whose signature is good. */
  function HookEffect(s: Shared, next: Uuid, m: Msg, pc: Pc): Outcome {
    match pc
    case HookCreate =>
      if m.event in s.db.inbound then Continue(s, next, HookExisting)
      else Continue(WithInbound(s, m.event, InPending), next, HookFetch)
    case HookExisting =>
      if m.event in s.db.inbound && s.db.inbound[m.event].InProcessed? then Finish(s, None)
      else Continue(s, next, HookFetch)
    case HookFetch =>
      if m.key.None? || m.key.value !in s.db.attempts then Continue(s, next, HookMark(InProcessed))
      else
        var id, row := m.key.value, s.db.attempts[m.key.value];
        if m.succeeded then Continue(s, next, LockSettle(id, row, m.ref))
        else if m.failed then
          Continue(s, next, MarkFailed(id, row, if m.code.None? then CardDeclined else m.code.value))
        else Continue(s, next, HookMark(InProcessed))
    case HookMark(st) => Finish(WithInbound(s, m.event, st), None)
    case _ => SettleEffect(s, next, Hook(m), pc)
  }

  ghost function Effect(s: Shared, next: Uuid, hd: Handler): Outcome {
    match hd.job
    case Pay(q) => PayEffect(s, next, q, hd.pc)
    case Hook(m) => HookEffect(s, next, m, hd.pc)
  }

  /** Any statement can fail but the wait for the PSP, whose errors are outcomes,
      and applyWebhook's read, whose errors are taken for an unknown attempt.  A
      failure right before the call of the PSP is one of the commit before it,
      reported too late. */
  predicate CanBreak(pc: Pc) {
    !pc.Await? && !pc.HookFetch?
  }

  /** Commits that end a handler's work on an attempt: they can take effect and
      still be reported as failed. */
  predicate CanLoseAck(pc: Pc) {
    pc.CommitSettle? || pc.EnqueueFailure?
  }

  /** The next statement fails: its transaction is rolled back. */
  function BreakEffect(s: Shared, next: Uuid, hd: Handler): Outcome {
    match hd.job
    case Pay(q) => Reply(s, q, Refused(if hd.pc.LockInvoice? then InvoiceNotFound else Fault), false)
    case Hook(m) =>
      if hd.pc.HookCreate? || hd.pc.HookExisting? || hd.pc.HookMark? then Finish(s, None)
      else Continue(s, next, HookMark(InFailed))
  }

  /** applyWebhook's read fails, and is taken for an unknown attempt. */
  function MissEffect(s: Shared, next: Uuid, hd: Handler): Outcome
    requires hd.job.Hook?
  {
    Continue(s.(missed := s.missed + {hd.job.msg.event}), next, HookMark(InProcessed))
  }

  /** The HTTP transport sends the request to the PSP once more, and waits for that one. */
  function ResendEffect(s: Shared, next: Uuid, hd: Handler): Outcome
    requires hd.job.Pay? && hd.pc.Await?
  {
    var id, row := hd.pc.id, hd.pc.row;
    Continue(s.(psp := Send(s.psp, ChargeOf(hd.job.req, id, row))), next, Await(id, row, s.psp.next))
  }

  // ---------------------------------------------------------------- the machine

  function Apply(w: World, h: Uuid, o: Outcome): World
    requires h in w.handlers
  {
    match o
    case Continue(s, next, pc) =>
      World(s.db, s.origin, s.psp, s.missed, w.handlers[h := Handler(w.handlers[h].job, pc)], w.answers, next)
    case Finish(s, answer) =>
      var answers := if answer.Some? then w.answers[h := answer.value] else w.answers;
      World(s.db, s.origin, s.psp, s.missed, w.handlers - {h}, answers, w.next)
  }

  function Enter(w: World, hd: Handler): World {
    w.(handlers := w.handlers[w.next := hd], next := w.next + 1)
  }

  datatype Action =
    | Call(req: PayReq)               // a client calls PayInvoice
    | Deliver(msg: Msg)               // a webhook arrives, perhaps again
    | Run(h: Uuid)                    // a handler executes its next statement
    | GiveUp(h: Uuid, why: Transport) // the HTTP call to the PSP times out or breaks
    | Resend(h: Uuid)                 // the connection breaks, and the request is sent again
    | Break(h: Uuid)                  // the handler's next statement fails
    | Miss(h: Uuid)                   // applyWebhook's read of the attempt fails
    | LoseAck(h: Uuid)                // it takes effect, but the handler is told it failed
    | Crash(h: Uuid)                  // the server loses the handler, its locks and its uncommitted writes
    | PspMove(r: Uuid)                // the PSP moves on with a request

  ghost predicate Enabled(w: World, a: Action) {
    match a
    case Call(_) => true
    case Deliver(m) => m in w.psp.mail
    case Run(h) => h in w.handlers && !Blocked(w, h)
    case GiveUp(h, why) => h in w.handlers && w.handlers[h].job.Pay? && w.handlers[h].pc.Await? && !why.Got?
                           && VerdictOf(Classify(why)).LeavePending?
    case Resend(h) => h in w.handlers && w.handlers[h].job.Pay? && w.handlers[h].pc.Await?
    case Break(h) => h in w.handlers && CanBreak(w.handlers[h].pc)
    case Miss(h) => h in w.handlers && w.handlers[h].job.Hook? && w.handlers[h].pc.HookFetch?
    case LoseAck(h) => h in w.handlers && !Blocked(w, h) && CanLoseAck(w.handlers[h].pc)
    case Crash(h) => h in w.handlers
    case PspMove(r) => Ready(w.psp, r)
  }

  ghost function Do(w: World, a: Action): World
    requires Enabled(w, a)
  {
    match a
    case Call(q) => Enter(w, Handler(Pay(q), Lookup))
    case Deliver(m) => Enter(w, Handler(Hook(m), HookCreate))
    case Run(h) => Apply(w, h, Effect(SharedOf(w), w.next, w.handlers[h]))
    case GiveUp(h, why) => Apply(w, h, Receive(SharedOf(w), w.next, w.handlers[h].job.req, w.handlers[h].pc, why))
    case Resend(h) => Apply(w, h, ResendEffect(SharedOf(w), w.next, w.handlers[h]))
    case Break(h) => Apply(w, h, BreakEffect(SharedOf(w), w.next, w.handlers[h]))
    case Miss(h) => Apply(w, h, MissEffect(SharedOf(w), w.next, w.handlers[h]))
    case LoseAck(h) => Apply(w, h, BreakEffect(Effect(SharedOf(w), w.next, w.handlers[h]).s, w.next, w.handlers[h]))
    case Crash(h) => Apply(w, h, Finish(SharedOf(w), None))
    case PspMove(r) => w.(psp := Step(w.psp, r))
  }

  /** Any invoices the service and its operators may have left, none of them
      paid or being paid, and nothing else. */
  ghost predicate Init(w: World) {
    && w.db.attempts == map[] && w.db.keys == map[] && w.db.outbox == map[] && w.db.inbound == map[]
    && (forall i :: i in w.db.invoices ==>
          w.db.invoices[i].amount > 0
          && (w.db.invoices[i].status.Draft? || w.db.invoices[i].status.Void?
              || w.db.invoices[i].status.Uncollectible?))
    && w.origin == map[] && w.psp == EMPTY_PSP && w.missed == {} && w.handlers == map[] && w.answers == map[]
    && w.next == 0
  }

  ghost predicate Next(w: World, w': World) {
    exists a :: Enabled(w, a) && w' == Do(w, a)
  }

  ghost predicate StepAt(t: seq<World>, n: int)
    requires 0 <= n < |t| - 1
  {
    Next(t[n], t[n + 1])
  }

  ghost predicate IsRun(t: seq<World>) {
    && |t| > 0
    && Init(t[0])
    && forall n :: 0 <= n < |t| - 1 ==> StepAt(t, n)
  }
}
