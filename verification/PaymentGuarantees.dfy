/** What a caller of the payment service may rely on, and what its calls keep. */
module PaymentGuarantees {
  import opened Model
  import opened SingleFlight
  import opened PspClient
  import P = Protocol
  import opened Invariant
  import opened SharedSteps
  import opened PaymentSpec

  // ---------------------------------------------------------------- what a caller may rely on

  /** A call that comes back with an attempt whose outcome is known has left the
      key row naming that attempt and that very request, and the attempt settled
      as shown. */
  lemma ReturnedMeansSettled(q: PayReq, id: Uuid, v: Verdict, m: Moments, last: Db, r: P.Result)
    requires Pays(q, id, v, m, last, r) && InOrder(m, last) && r.Returned? && !v.LeavePending?
    ensures KeyOf(q) in last.keys && last.keys[KeyOf(q)] == KeyRow(q.invoice, HashPayRequest(q), Some(r.id))
    ensures r.id in last.attempts && !r.row.status.Pending? && last.attempts[r.id].status == r.row.status
  {
    if KeyOf(q) in m.first.keys {
      InOrderGrows(m, last);
      ReplayMeansSettled(q, m.first.keys[KeyOf(q)], v, m.first, m, last, r);
    } else if StartOutcome(m.locked, q, id).KeyTaken? {
      InOrderGrows(m, last);
      ReplayMeansSettled(q, m.read.keys[KeyOf(q)], v, m.read, m, last, r);
    } else {
      StartMeansSettled(q, id, v, m, last, r);
    }
  }

  lemma InOrderGrows(m: Moments, last: Db)
    requires InOrder(m, last)
    ensures DbGrows(m.first, last) && DbGrows(m.read, last)
  {
    GrowsOn(m.read, m.later, last);
    GrowsOn(m.first, m.locked, m.read);
    GrowsOn(m.first, m.read, last);
  }

  lemma StartMeansSettled(q: PayReq, id: Uuid, v: Verdict, m: Moments, last: Db, r: P.Result)
    requires StartOutcome(m.locked, q, id).Started? && !v.LeavePending?
    requires DbGrows(StartAttempt(m.locked, q, id), m.later) && DbGrows(m.later, last)
    requires Charged(id, NewAttempt(q, m.locked.invoices[q.invoice]), v, m, last, r)
    ensures KeyOf(q) in last.keys && last.keys[KeyOf(q)] == KeyRow(q.invoice, HashPayRequest(q), Some(r.id))
    ensures r.id in last.attempts && !r.row.status.Pending? && last.attempts[r.id].status == r.row.status
  {
    GrowsOn(StartAttempt(m.locked, q, id), m.later, last);
    ChargedMeansSettled(id, NewAttempt(q, m.locked.invoices[q.invoice]), v, m, last, r);
  }

  lemma ChargedMeansSettled(id: Uuid, row: Attempt, v: Verdict, m: Moments, last: Db, r: P.Result)
    requires Charged(id, row, v, m, last, r) && !v.LeavePending?
    ensures id in last.attempts && !r.row.status.Pending? && last.attempts[id].status == r.row.status
  {
  }

  lemma ReplayMeansSettled(q: PayReq, key: KeyRow, v: Verdict, read: Db, m: Moments, last: Db, r: P.Result)
    requires Replayed(q, key, v, read, m, last, r) && r.Returned? && !v.LeavePending?
    requires KeyOf(q) in read.keys && read.keys[KeyOf(q)] == key && DbGrows(read, last)
    ensures KeyOf(q) in last.keys && last.keys[KeyOf(q)] == KeyRow(q.invoice, HashPayRequest(q), Some(r.id))
    ensures r.id in last.attempts && !r.row.status.Pending? && last.attempts[r.id].status == r.row.status
  {
    if read.attempts[r.id].status.Pending? {
      ChargedMeansSettled(r.id, read.attempts[r.id], v, m, last, r);
    }
  }

  /** Sending a request again once its outcome is known is harmless: if invoice
      and card are the same, the stored attempt comes back and no row changes,
      whatever the PSP would answer; otherwise the call conflicts, and no row
      changes either. */
  lemma SecondCallReplays(q: PayReq, id: Uuid, v: Verdict, m: Moments, last: Db, r: P.Result,
                          q': PayReq, id': Uuid, v': Verdict, m': Moments, last': Db, r': P.Result)
    requires Pays(q, id, v, m, last, r) && InOrder(m, last) && r.Returned? && !v.LeavePending?
    requires Pays(q', id', v', m', last', r') && KeyOf(q') == KeyOf(q) && DbGrows(last, m'.first)
    ensures last' == m'.first
    ensures r.id in last.attempts
    ensures r' == if q' == q then P.Returned(r.id, last.attempts[r.id]) else P.Refused(IdempotencyConflict)
  {
    ReturnedMeansSettled(q, id, v, m, last, r);
    SettledKeyReplays(q, r.id, last, q', id', v', m', last', r');
  }

  /** A call for a key whose attempt is settled only reads. */
  lemma SettledKeyReplays(q: PayReq, a: Uuid, db: Db,
                          q': PayReq, id': Uuid, v': Verdict, m': Moments, last': Db, r': P.Result)
    requires KeyOf(q) in db.keys && db.keys[KeyOf(q)] == KeyRow(q.invoice, HashPayRequest(q), Some(a))
    requires a in db.attempts && !db.attempts[a].status.Pending?
    requires Pays(q', id', v', m', last', r') && KeyOf(q') == KeyOf(q) && DbGrows(db, m'.first)
    ensures last' == m'.first
    ensures r' == if q' == q then P.Returned(a, db.attempts[a]) else P.Refused(IdempotencyConflict)
  {
    assert KeyOf(q) in m'.first.keys && m'.first.keys[KeyOf(q)] == db.keys[KeyOf(q)];
    assert m'.first.attempts[a] == db.attempts[a];
  }

  // ---------------------------------------------------------------- what a first call makes of the PSP's answer

  /** The outcome is unknown. */
  predicate NoAnswer(t: Transport) {
    t.TimedOut? || t.Dropped? || t.httpCode >= 500 || (t.Garbled? && t.httpCode < 400)
  }

  predicate IsApproval(t: Transport) {
    t.Got? && t.httpCode < 400 && t.resp.status.RespSucceeded? && t.resp.ref.Some?
  }

  predicate IsRefusal(t: Transport) {
    !NoAnswer(t) && (t.Garbled? || t.httpCode >= 400 || !t.resp.status.RespSucceeded?)
  }

  function RefusalCode(t: Transport): FailureCode
    requires IsRefusal(t)
  {
    if t.httpCode >= 400 then Rejected(t.httpCode)
    else if t.resp.code.Some? then t.resp.code.value else CardDeclined
  }

  /** A call under a new key that may start starts a PENDING attempt over the
      invoice's amount.  Unless somebody else settles it meanwhile, it stays so if
      the outcome is unknown, is paid if the PSP approves, and fails, with the
      PSP's code, if it refuses; the call returns it as it is stored. */
  lemma FirstCallMeans(q: PayReq, id: Uuid, t: Transport, m: Moments, last: Db, r: P.Result)
    requires Pays(q, id, VerdictOf(Classify(t)), m, last, r) && InOrder(m, last) && KeyOf(q) !in m.first.keys
    requires CanStart(m.locked, q) && id !in m.locked.attempts
    ensures r.Returned? && r.id == id && id in m.later.attempts && id in last.attempts
    ensures KeyOf(q) in last.keys && last.keys[KeyOf(q)].attempt == Some(id)
    ensures last.attempts[id].invoice == q.invoice && last.attempts[id].amount == m.locked.invoices[q.invoice].amount
    ensures m.later.attempts[id].status == Pending ==>
              && (NoAnswer(t) ==> last == m.later && r.row.status == Pending)
              && (IsApproval(t) ==> PaidFor(m.later, last, id, t.resp.ref.value) && r.row == last.attempts[id])
              && (IsRefusal(t) ==> FailureRecorded(m.later, last, id, RefusalCode(t)) && r.row == last.attempts[id])
  {
    StartOutcomeIff(m.locked, q, id);
    VerdictTable(t);
    GrowsOn(StartAttempt(m.locked, q, id), m.later, last);
    var row := NewAttempt(q, m.locked.invoices[q.invoice]);
    if NoAnswer(t) {
    } else if IsApproval(t) {
      SettleRecordsSuccess(m.later, id, t.resp.ref.value);
    } else if IsRefusal(t) {
      FailureIsRecorded(m.later, m.mid, id, row, RefusalCode(t), last);
    }
  }

  // ---------------------------------------------------------------- the rows' invariant

  /** The invariant of the rows: keys and attempts in bijection, one live attempt
      an invoice, statuses and events that agree with it. */
  ghost predicate RowsOk(db: Db) {
    exists origin :: DbInv(db, origin)
  }

  lemma StartKeepsInv(db: Db, q: PayReq, id: Uuid)
    requires RowsOk(db) && CanStart(db, q) && id !in db.attempts
    ensures RowsOk(StartAttempt(db, q, id))
  {
    var origin :| DbInv(db, origin);
    var s, inv := Shared(db, origin), db.invoices[q.invoice];
    StartKeepsKeys(s, q, inv, id, StartAttempt(db, q, id));
    StartKeepsAttempts(s, q, inv, id, StartAttempt(db, q, id));
    StartKeepsInvoices(s, q, inv, id, StartAttempt(db, q, id));
    assert DbInv(StartAttempt(db, q, id), origin[id := q]);
  }

  /** The rows and who started them, beside an idle PSP. */
  function Shared(db: Db, origin: map<Uuid, PayReq>): P.Shared {
    P.Shared(db, origin, EMPTY_PSP, {})
  }

  lemma SettleKeepsInv(db: Db, id: Uuid, ref: Uuid)
    requires RowsOk(db)
    ensures RowsOk(Settle(db, id, ref))
  {
    var origin :| DbInv(db, origin);
    var s, db' := Shared(db, origin), Settle(db, id, ref);
    if id in db.attempts && db.attempts[id].status.Pending? {
      SettleKeepsRows(s, id, ref, db');
      SettleKeepsOutbox(s, id, ref, db');
      SettleKeepsInvoices(s, id, ref, db');
    } else if id in db.attempts && db.attempts[id].status.Succeeded? {
      SettleAgainIsNothing(s, id, ref);
    }
    assert DbInv(db', origin);
  }

  lemma FailKeepsInv(db: Db, id: Uuid, code: FailureCode)
    requires RowsOk(db)
    ensures RowsOk(FailIfPending(db, id, code))
  {
    var origin :| DbInv(db, origin);
    if id in db.attempts && db.attempts[id].status.Pending? {
      FailKeepsAttempts(db, origin, id, code);
      FailKeepsInvoices(db, origin, id, code);
    }
    assert DbInv(FailIfPending(db, id, code), origin);
  }

  lemma PostKeepsInv(db: Db, id: Uuid)
    requires RowsOk(db) && id in db.attempts && db.attempts[id].status.Failed?
    ensures RowsOk(Posted(db, id, db.attempts[id]))
  {
    var origin :| DbInv(db, origin);
    NotifyFailureKeepsRows(db, Posted(db, id, db.attempts[id]), origin, id);
  }

  lemma PendingIsPlain(db: Db, id: Uuid)
    requires RowsOk(db) && id in db.attempts
    ensures db.attempts[id].status.Pending? ==> IsPlain(db.attempts[id])
    ensures db.attempts[id].invoice in db.invoices
  {
    var origin :| DbInv(db, origin);
    assert AttemptOk(db, origin, id);
  }

  lemma PostedIsStored(later: Db, mid: Db, id: Uuid, row: Attempt, code: FailureCode)
    requires CopyOf(row, later, id) && later.attempts[id].status.Pending? && IsPlain(row)
    requires DbGrows(FailIfPending(later, id, code), mid)
    ensures id in mid.attempts && mid.attempts[id].status.Failed? && mid.attempts[id] == ShownFailed(row, code)
  {
    assert mid.attempts[id] == FailIfPending(later, id, code).attempts[id];
  }

  /** Recording a verdict keeps the invariant, in full or cut short. */
  lemma RecordKeepsInv(v: Verdict, later: Db, mid: Db, id: Uuid, row: Attempt, last: Db)
    requires RowsOk(later) && RowsOk(mid) && CopyOf(row, later, id)
    requires later.attempts[id].status.Pending? ==> IsPlain(row)
    requires RowsAfter(v, later, mid, id, row, last) || RowsCutShort(v, later, mid, id, row, last)
    ensures RowsOk(last)
  {
    match v
    case LeavePending =>
    case RecordSuccess(ref) => SettleKeepsInv(later, id, ref);
    case RecordFailure(code) =>
      if last != mid {
        PostedIsStored(later, mid, id, row, code);
        PostKeepsInv(mid, id);
      }
  }

  /** Whatever becomes of a call, if others leave the rows in order at the moments
      at which they act, so does the call. */
  lemma PayKeepsInv(q: PayReq, id: Uuid, v: Verdict, m: Moments, last: Db, r: P.Result)
    requires Accounted(q, id, v, m, last, r)
    requires RowsOk(m.first) && RowsOk(m.locked) && RowsOk(m.read) && RowsOk(m.later) && RowsOk(m.mid)
    ensures RowsOk(last)
  {
    var start := StartOutcome(m.locked, q, id);
    if KeyOf(q) in m.first.keys {
      FoundCases(q, id, v, m, last, r);
      ReplayKeepsInv(q, m.first.keys[KeyOf(q)], v, m.first, m, last, r);
    } else if start.Started? {
      StartedCases(q, id, v, m, last, r);
      StartedKeepsInv(q, id, v, m, last, r, start.row);
    } else if start.KeyTaken? && KeyOf(q) in m.read.keys {
      TakenCases(q, id, v, m, last, r);
      ReplayKeepsInv(q, m.read.keys[KeyOf(q)], v, m.read, m, last, r);
    } else {
      OtherCases(q, id, v, m, last, r);
    }
  }

  lemma FoundCases(q: PayReq, id: Uuid, v: Verdict, m: Moments, last: Db, r: P.Result)
    requires Accounted(q, id, v, m, last, r) && KeyOf(q) in m.first.keys
    ensures var key := m.first.keys[KeyOf(q)];
            last == m.first || Replayed(q, key, v, m.first, m, last, r) || ReplayCut(q, key, v, m.first, m, last)
    ensures DbGrows(m.first, m.later)
  {
    GrowsOn(m.first, m.locked, m.read);
    GrowsOn(m.first, m.read, m.later);
  }

  lemma TakenCases(q: PayReq, id: Uuid, v: Verdict, m: Moments, last: Db, r: P.Result)
    requires Accounted(q, id, v, m, last, r) && KeyOf(q) !in m.first.keys && KeyOf(q) in m.read.keys
    requires StartOutcome(m.locked, q, id).KeyTaken?
    ensures var key := m.read.keys[KeyOf(q)];
            || last == m.locked || last == m.read
            || Replayed(q, key, v, m.read, m, last, r) || ReplayCut(q, key, v, m.read, m, last)
    ensures DbGrows(m.read, m.later)
  {
  }

  lemma StartedCases(q: PayReq, id: Uuid, v: Verdict, m: Moments, last: Db, r: P.Result)
    requires Accounted(q, id, v, m, last, r) && KeyOf(q) !in m.first.keys && StartOutcome(m.locked, q, id).Started?
    ensures var row := StartOutcome(m.locked, q, id).row;
            || last == m.locked || last == StartAttempt(m.locked, q, id)
            || (DbGrows(StartAttempt(m.locked, q, id), m.later)
                && (Charged(id, row, v, m, last, r) || RowsCutShort(v, m.later, m.mid, id, row, last)))
  {
  }

  lemma OtherCases(q: PayReq, id: Uuid, v: Verdict, m: Moments, last: Db, r: P.Result)
    requires Accounted(q, id, v, m, last, r) && KeyOf(q) !in m.first.keys && !StartOutcome(m.locked, q, id).Started?
    requires StartOutcome(m.locked, q, id).KeyTaken? ==> KeyOf(q) !in m.read.keys
    ensures last == m.locked || last == m.read
  {
  }

  lemma ReplayKeepsInv(q: PayReq, key: KeyRow, v: Verdict, read: Db, m: Moments, last: Db, r: P.Result)
    requires Replayed(q, key, v, read, m, last, r) || ReplayCut(q, key, v, read, m, last) || RowsOk(last)
    requires RowsOk(read) && DbGrows(read, m.later) && RowsOk(m.later) && RowsOk(m.mid)
    ensures RowsOk(last)
  {
    if key.attempt.Some? && key.attempt.value in read.attempts && !RowsOk(last) {
      var a := key.attempt.value;
      PendingIsPlain(read, a);
      RecordKeepsInv(v, m.later, m.mid, a, read.attempts[a], last);
    }
  }

  lemma StartedKeepsInv(q: PayReq, id: Uuid, v: Verdict, m: Moments, last: Db, r: P.Result, row: Attempt)
    requires StartOutcome(m.locked, q, id) == Started(row)
    requires RowsOk(m.locked) && RowsOk(m.later) && RowsOk(m.mid)
    requires || last == StartAttempt(m.locked, q, id)
             || (DbGrows(StartAttempt(m.locked, q, id), m.later)
                 && (Charged(id, row, v, m, last, r) || RowsCutShort(v, m.later, m.mid, id, row, last)))
             || last == m.locked
    ensures RowsOk(last)
  {
    StartOutcomeIff(m.locked, q, id);
    StartKeepsInv(m.locked, q, id);
    if last != StartAttempt(m.locked, q, id) && last != m.locked {
      RecordKeepsInv(v, m.later, m.mid, id, row, last);
    }
  }

  /** So does a webhook. */
  lemma WebhookKeepsInv(m: Msg, t: HookMoments)
    requires t.applied == t.first || Hooked(m, t) || HookCutShort(m, t)
    requires DbGrows(t.first, t.seen) && RowsOk(t.first) && RowsOk(t.seen) && RowsOk(t.mid)
    ensures RowsOk(t.applied)
  {
    if t.applied != t.first && m.key.Some? && m.key.value in t.first.attempts {
      var a := m.key.value;
      PendingIsPlain(t.first, a);
      RecordKeepsInv(VerdictOfMsg(m), t.seen, t.mid, a, t.first.attempts[a], t.applied);
    }
  }

  // ---------------------------------------------------------------- the service and the protocol agree

  function StepsLeft(pc: P.Pc): nat {
    match pc
    case LockInvoice => 6
    case OpenInvoice(_) => 5
    case InsertKey(_) => 4
    case CheckPending(_) => 3
    case InsertAttempt(_) => 2
    case CommitStart(_) => 1
    case _ => 0
  }

  /** The statements of createPendingAttempt, with nobody else in between. */
  ghost function StartAlone(s: P.Shared, next: Uuid, q: PayReq, pc: P.Pc): P.Outcome
    decreases StepsLeft(pc)
  {
    var o := P.PayEffect(s, next, q, pc);
    if o.Continue? && 0 < StepsLeft(o.pc) < StepsLeft(pc) then StartAlone(o.s, o.next, q, o.pc) else o
  }

  /** Where a handler of the protocol is after them. */
  predicate StandsAs(o: P.Outcome, start: Start, s: P.Shared, q: PayReq, id: Uuid)
    requires start == StartOutcome(s.db, q, id)
  {
    match start
    case Refuses(error) => o == P.Reply(s, q, P.Refused(error), false)
    case KeyTaken => o == P.Continue(s, id, P.Relookup)
    case Started(row) =>
      && o.Continue? && o.pc == P.CallPsp(id, row)
      && o.s == s.(db := StartAttempt(s.db, q, id), origin := s.origin[id := q])
    case Broken => false
  }

  /** They do what the service's method does. */
  lemma StartsAlike(s: P.Shared, q: PayReq, id: Uuid)
    requires id !in s.db.attempts
    ensures StandsAs(StartAlone(s, id, q, P.LockInvoice), StartOutcome(s.db, q, id), s, q, id)
  {
    StartOutcomeIff(s.db, q, id);
    if Owned(s.db, q) && s.db.invoices[q.invoice].status in {Draft, Open} {
      InsertsAlike(s, q, id, s.db.invoices[q.invoice]);
    }
  }

  lemma InsertsAlike(s: P.Shared, q: PayReq, id: Uuid, inv: Invoice)
    requires Owned(s.db, q) && s.db.invoices[q.invoice] == inv && id !in s.db.attempts
    ensures StartAlone(s, id, q, P.InsertKey(inv)) ==
              if KeyOf(q) in s.db.keys then P.Continue(s, id, P.Relookup)
              else if PendingOn(s.db, q.invoice) then P.Reply(s, q, P.Refused(PaymentInProgress), false)
              else P.PayEffect(s, id, q, P.CommitStart(inv))
  {
    assert StartAlone(s, id, q, P.CommitStart(inv)) == P.PayEffect(s, id, q, P.CommitStart(inv));
    if KeyOf(q) !in s.db.keys && !PendingOn(s.db, q.invoice) {
      assert StartAlone(s, id, q, P.InsertAttempt(inv)) == StartAlone(s, id, q, P.CommitStart(inv));
      assert StartAlone(s, id, q, P.CheckPending(inv)) == StartAlone(s, id, q, P.InsertAttempt(inv));
    }
  }

  /** A key row that is found leads both to the same refusal, or to its attempt. */
  lemma ReplaysAlike(s: P.Shared, next: Uuid, q: PayReq, key: KeyRow, v: Verdict, m: Moments, last: Db, r: P.Result)
    requires Replayed(q, key, v, s.db, m, last, r)
    ensures var o := P.FoundKey(s, next, q, key);
            && (!IsFor(key, q) || key.attempt.None? ==> r.Refused? && o == P.Reply(s, q, r, false) && last == s.db)
            && (IsFor(key, q) && key.attempt.Some? ==> o == P.Continue(s, next, P.Replay(key.attempt.value)))
            && (r == P.Refused(PaymentInProgress) <==> IsFor(key, q) && key.attempt.None?)
  {
  }

  function SettleWith(v: Verdict, id: Uuid, row: Attempt): P.Pc {
    match v
    case LeavePending => P.HookMark(InProcessed)
    case RecordFailure(code) => P.MarkFailed(id, row, code)
    case RecordSuccess(ref) => P.LockSettle(id, row, ref)
  }

  /** A webhook's message leads the protocol's handler where it leads the service. */
  lemma WebhooksAlike(s: P.Shared, next: Uuid, m: Msg)
    ensures P.HookEffect(s, next, m, P.HookFetch) ==
              P.Continue(s, next,
                if m.key.None? || m.key.value !in s.db.attempts then P.HookMark(InProcessed)
                else SettleWith(VerdictOfMsg(m), m.key.value, s.db.attempts[m.key.value]))
  {
  }
}
