/** The payment service: its methods change the tables statement by statement and
    overwrite the attempt they are handed.  Each is proved against what it
    amounts to as atomic changes of the rows. */
module PaymentService {
  import opened Model
  import opened PspClient
  import SingleFlight
  import Signature
  import P = Protocol
  import opened Tables
  import opened PaymentSpec

  /** The attempt in memory that the service reads and overwrites. */
  class AttemptCell {
    const id: Uuid
    var row: Attempt

    constructor (id: Uuid, row: Attempt)
      ensures this.id == id && this.row == row
    {
      this.id, this.row := id, row;
    }
  }

  // ---------------------------------------------------------------- the service

  class Service {
    const db: Database
    const pspWebhookSecret: string

    constructor (db: Database, pspWebhookSecret: string)
      ensures this.db == db && this.pspWebhookSecret == pspWebhookSecret
    {
      this.db, this.pspWebhookSecret := db, pspWebhookSecret;
    }

    /** One transaction.  `seen` are the rows once the invoice row is locked. */
    method CreatePendingAttempt(q: PayReq, id: Uuid) returns (r: Start, ghost seen: Db)
      modifies db
      ensures DbGrows(old(db.Rows()), seen) && db.faults >= old(db.faults)
      ensures r == StartOutcome(seen, q, id)
              || (db.faults > old(db.faults) && (r.Broken? || r == Refuses(InvoiceNotFound)))
      ensures r.Started? ==>
                && CanStart(seen, q) && id !in seen.attempts
                && r.row.status == Pending && r.row.amount == seen.invoices[q.invoice].amount
      ensures r.Refuses? && db.faults == old(db.faults) ==> Deserves(seen, q, id, r.error)
      ensures r.Started? ==> db.Rows() == StartAttempt(seen, q, id)
      ensures !r.Started? ==>
                || db.Rows() == seen
                || (r.Broken? && StartOutcome(seen, q, id).Started? && db.Rows() == StartAttempt(seen, q, id))
    {
      var locked := db.LockInvoice(q.invoice);
      var begun := db.Rows();
      seen := begun;
      StartOutcomeIff(seen, q, id);
      if !locked.Ok? {
        return Refuses(InvoiceNotFound), seen;
      }
      var inv := locked.value;
      if inv.business != q.business {
        return Refuses(InvoiceNotOwned), seen;
      }
      if PayableInvoice(inv.status).Some? {
        return Refuses(PayableInvoice(inv.status).value), seen;
      }
      if inv.status.Draft? {
        var ok := db.UpdateInvoiceStatus(q.invoice, Open);
        if !ok {
          db.Rollback(begun);
          return Broken, seen;
        }
      }
      var created := db.CreateKey(KeyOf(q), KeyRow(q.invoice, HashPayRequest(q), Some(id)));
      if !created.Ok? {
        db.Rollback(begun);
        return if created.UniqueViolation? then KeyTaken else Broken, seen;
      }
      var pending := db.GetPendingByInvoice(q.invoice);
      if !pending.NoRow? {
        db.Rollback(begun);
        return if pending.Ok? then Refuses(PaymentInProgress) else Broken, seen;
      }
      created := db.CreateAttempt(id, NewAttempt(q, inv));
      if !created.Ok? {
        db.Rollback(begun);
        return if created.UniqueViolation? then Refuses(PaymentInProgress) else Broken, seen;
      }
      var committed := db.Commit(begun);
      r := if committed then Started(NewAttempt(q, inv)) else Broken;
    }

    /** One transaction.  `seen` are the rows once it has the invoice row and the attempt row. */
    method PersistSuccess(cell: AttemptCell, ref: Uuid) returns (err: Option<PayError>, ghost seen: Db)
      modifies db, cell
      ensures DbGrows(old(db.Rows()), seen)
      ensures err.None? ==> cell.id in seen.attempts
      ensures err.None? && CopyOf(old(cell.row), old(db.Rows()), cell.id) ==>
                && db.Rows() == Settle(seen, cell.id, ref)
                && cell.row == Shown(RecordSuccess(ref), seen, cell.id, old(cell.row))
      ensures err.Some? && CopyOf(old(cell.row), old(db.Rows()), cell.id) ==>
                db.Rows() == seen || db.Rows() == Settle(seen, cell.id, ref)
      ensures err.Some? ==> err == Some(Fault) || err == Some(NoRows)
      ensures db.faults >= old(db.faults) && old(db.inbound).Keys <= db.inbound.Keys
      ensures err.Some? ==> db.faults > old(db.faults) || MissingRow(seen, cell.id, old(cell.row).invoice)
    {
      ghost var before := db.Rows();
      var locked := db.LockInvoice(cell.row.invoice);
      seen := db.Rows();
      if !locked.Ok? {
        return Some(if locked.NoRow? then NoRows else Fault), seen;
      }
      // The UPDATE waits for the attempt's row.
      db.OthersCommit();
      var begun := db.Rows();
      GrowsOn(before, seen, begun);
      CopyStays(cell.row, before, begun, cell.id);
      seen := begun;
      err := SettleLocked(cell, ref, begun);
    }

    /** The rest of persistSuccess, once it has both rows. */
    method SettleLocked(cell: AttemptCell, ref: Uuid, begun: Db) returns (err: Option<PayError>)
      requires begun == db.Rows()
      modifies db, cell
      ensures err.None? ==> cell.id in begun.attempts
      ensures err.None? && CopyOf(old(cell.row), begun, cell.id) ==>
                && db.Rows() == Settle(begun, cell.id, ref)
                && cell.row == Shown(RecordSuccess(ref), begun, cell.id, old(cell.row))
      ensures err.Some? && CopyOf(old(cell.row), begun, cell.id) ==>
                db.Rows() == begun || db.Rows() == Settle(begun, cell.id, ref)
      ensures err.Some? ==> err == Some(Fault) || err == Some(NoRows)
      ensures db.faults >= old(db.faults) && db.inbound == begun.inbound
      ensures err.Some? ==> db.faults > old(db.faults) || cell.id !in begun.attempts
    {
      var updated := db.UpdateAttemptIfPending(cell.id, Succeeded, Some(ref), None);
      if !updated.Ok? {
        db.Rollback(begun);
        return Some(Fault);
      }
      if !updated.value {
        var existing := db.GetAttempt(cell.id);
        if !existing.Ok? {
          return Some(if existing.NoRow? then NoRows else Fault);
        }
        cell.row := existing.value;
        if !existing.value.status.Succeeded? {
          var committed := db.Commit(begun);
          return if committed then None else Some(Fault);
        }
      }
      err := FinishSettle(cell, ref, begun);
    }

    /** Its invoice, its event, and the commit, once the attempt is SUCCEEDED. */
    method FinishSettle(cell: AttemptCell, ref: Uuid, begun: Db) returns (err: Option<PayError>)
      requires cell.id in begun.attempts && !begun.attempts[cell.id].status.Failed?
      requires db.Rows() == begun.(attempts := db.attempts)
      requires db.attempts == if begun.attempts[cell.id].status.Pending?
                              then begun.attempts[cell.id := AsSucceeded(begun.attempts[cell.id], ref)]
                              else begun.attempts
      modifies db, cell
      ensures err.None? || err == Some(Fault)
      ensures CopyOf(old(cell.row), begun, cell.id) ==>
                && (err.None? ==> db.Rows() == Settle(begun, cell.id, ref)
                                  && cell.row == AsSucceeded(begun.attempts[cell.id], ref))
                && (err.Some? ==> db.Rows() == begun || db.Rows() == Settle(begun, cell.id, ref))
      ensures db.faults >= old(db.faults) && db.inbound == begun.inbound
      ensures err.Some? ==> db.faults > old(db.faults)
    {
      var paid := db.MarkInvoicePaidIfOpen(cell.row.invoice);
      if !paid {
        db.Rollback(begun);
        return Some(Fault);
      }
      cell.row := AsSucceeded(cell.row, ref);
      SettledInSteps(begun, db.Rows(), cell.id, ref, cell.row);
      var posted := db.CreateEvent(EventKey(PaymentSucceeded, cell.id), cell.row);
      if !posted {
        db.Rollback(begun);
        return Some(Fault);
      }
      var committed := db.Commit(begun);
      err := if committed then None else Some(Fault);
    }

    /** Two statements, each its own transaction.  `seen` are the rows when the
        first one has the attempt row, `mid` those before the second one. */
    method PersistFailure(cell: AttemptCell, code: FailureCode)
      returns (err: Option<PayError>, ghost seen: Db, ghost mid: Db)
      modifies db, cell
      ensures DbGrows(old(db.Rows()), seen)
      ensures err.None? && cell.id in old(db.attempts) ==>
                && cell.id in seen.attempts
                && RowsAfter(RecordFailure(code), seen, mid, cell.id, old(cell.row), db.Rows())
                && cell.row == Shown(RecordFailure(code), seen, cell.id, old(cell.row))
      ensures err.Some? ==> RowsCutShort(RecordFailure(code), seen, mid, cell.id, old(cell.row), db.Rows())
      ensures err.Some? ==> err == Some(Fault) || err == Some(NoRows)
      ensures err.None? && CopyOf(old(cell.row), old(db.Rows()), cell.id) && IsPlain(old(cell.row)) ==>
                cell.row == db.attempts[cell.id]
      ensures db.faults >= old(db.faults) && old(db.inbound).Keys <= db.inbound.Keys
      ensures err.Some? ==> db.faults > old(db.faults) || cell.id !in seen.attempts
    {
      // The UPDATE waits for the attempt's row.
      db.OthersCommit();
      seen := db.Rows();
      var updated := db.UpdateAttemptIfPending(cell.id, Failed, None, Some(code));
      mid := db.Rows();
      GrowsSelf(mid);
      if !updated.Ok? {
        return Some(Fault), seen, mid;
      }
      db.OthersCommit();
      mid := db.Rows();
      if !updated.value {
        var existing := db.GetAttempt(cell.id);
        if !existing.Ok? {
          return Some(if existing.NoRow? then NoRows else Fault), seen, mid;
        }
        assert cell.id in seen.attempts ==> mid.attempts[cell.id] == seen.attempts[cell.id];
        cell.row := existing.value;
        return None, seen, mid;
      }
      cell.row := cell.row.(status := Failed, failureCode := Some(code));
      var posted := db.CreateEvent(EventKey(PaymentFailed, cell.id), cell.row);
      err := if posted then None else Some(Fault);
    }

    /** The PSP's answer is t; others commit while it is awaited.  `later` are
        the rows when the verdict is recorded. */
    method ChargeAndSettle(cell: AttemptCell, t: Transport)
      returns (err: Option<PayError>, ghost later: Db, ghost mid: Db)
      requires CopyOf(cell.row, db.Rows(), cell.id)
      modifies db, cell
      ensures DbGrows(old(db.Rows()), later) && DbGrows(later, db.Rows())
      ensures cell.id in later.attempts
      ensures err.None? ==> RowsAfter(VerdictOf(Classify(t)), later, mid, cell.id, old(cell.row), db.Rows())
      ensures err.None? ==> cell.row == Shown(VerdictOf(Classify(t)), later, cell.id, old(cell.row))
      ensures err.Some? ==> RowsCutShort(VerdictOf(Classify(t)), later, mid, cell.id, old(cell.row), db.Rows())
      ensures err.Some? ==> err == Some(Fault) || err == Some(NoRows)
      ensures db.faults >= old(db.faults)
      ensures err.Some? ==> db.faults > old(db.faults) || old(cell.row).invoice !in later.invoices
    {
      ghost var before, row := db.Rows(), cell.row;
      db.OthersCommit();
      ghost var waiting := db.Rows();
      later, mid := waiting, waiting;
      GrowsSelf(waiting);
      match VerdictOf(Classify(t)) {
        case LeavePending => err := None;
        case RecordFailure(code) => err, later, mid := PersistFailure(cell, code);
        case RecordSuccess(ref) => err, later := PersistSuccess(cell, ref);
      }
      GrowsOn(before, waiting, later);
      RecordGrows(VerdictOf(Classify(t)), later, mid, cell.id, row, db.Rows());
    }

    method ReplayIdempotentPay(q: PayReq, key: KeyRow, t: Transport) returns (r: P.Result, ghost m: Moments)
      modifies db
      ensures m.first == m.locked == m.read == old(db.Rows())
      ensures ReplayedOrCut(q, key, VerdictOf(Classify(t)), m, db.Rows(), r)
      ensures db.faults >= old(db.faults)
      ensures Replayed(q, key, VerdictOf(Classify(t)), m.read, m, db.Rows(), r)
              || db.faults > old(db.faults) || !ForeignKeys(m.read)
      ensures r == P.Refused(IdempotencyConflict) <==> !IsFor(key, q)
      ensures r == P.Refused(PaymentInProgress) <==> IsFor(key, q) && key.attempt == None
    {
      ghost var rows := db.Rows();
      m := Moments(rows, rows, rows, rows, rows);
      GrowsSelf(rows);
      if key.hash != HashPayRequest(q) || key.invoice != q.invoice {
        return P.Refused(IdempotencyConflict), m;
      }
      if key.attempt.None? {
        return P.Refused(PaymentInProgress), m;
      }
      var found := db.GetAttempt(key.attempt.value);
      if !found.Ok? {
        return P.Refused(if found.NoRow? then NoRows else Fault), m;
      }
      if !found.value.status.Pending? {
        return P.Returned(key.attempt.value, found.value), m;
      }
      var cell := new AttemptCell(key.attempt.value, found.value);
      var err;
      ghost var later, mid;
      err, later, mid := ChargeAndSettle(cell, t);
      m := m.(later := later, mid := mid);
      r := if err.Some? then P.Refused(err.value) else P.Returned(cell.id, cell.row);
    }

    method PayInvoice(q: PayReq, id: Uuid, t: Transport) returns (r: P.Result, ghost m: Moments)
      modifies db
      ensures m.first == old(db.Rows()) && Accounted(q, id, VerdictOf(Classify(t)), m, db.Rows(), r)
      ensures db.faults >= old(db.faults)
      ensures db.faults == old(db.faults) && ForeignKeys(m.read) ==>
                Pays(q, id, VerdictOf(Classify(t)), m, db.Rows(), r)
      ensures RefusesUnpayable(q, m, db.Rows(), r)
    {
      ghost var first, v := db.Rows(), VerdictOf(Classify(t));
      var found := db.GetByKey(KeyOf(q));
      if found.Ok? {
        r, m := ReplayIdempotentPay(q, found.value, t);
        FoundIsAccounted(q, id, v, m, db.Rows(), r);
        return;
      }
      if found.Failure? {
        m := Moments(first, first, first, first, first);
        r := P.Refused(Fault);
        UnreadIsAccounted(q, id, v, m, first, r);
        return;
      }
      var start;
      ghost var rows;
      start, rows := CreatePendingAttempt(q, id);
      m := Moments(first, rows, rows, rows, rows);
      match start {
        case Refuses(error) =>
          r := P.Refused(error);
          LockedIsAccounted(q, id, v, m, db.Rows(), r);
        case Broken =>
          r := P.Refused(Fault);
          LockedIsAccounted(q, id, v, m, db.Rows(), r);
        case KeyTaken =>
          r, m := ReplayTakenKey(q, id, t, first, rows);
        case Started(row) =>
          var cell := new AttemptCell(id, row);
          var err;
          ghost var later, mid;
          err, later, mid := ChargeAndSettle(cell, t);
          m := Moments(first, rows, rows, later, mid);
          r := if err.Some? then P.Refused(err.value) else P.Returned(cell.id, cell.row);
          StartedIsAccounted(q, id, v, m, db.Rows(), r, row);
      }
    }

    /** PayInvoice once the insert of its key has failed: another call has the key. */
    method ReplayTakenKey(q: PayReq, id: Uuid, t: Transport, ghost first: Db, ghost locked: Db)
      returns (r: P.Result, ghost m: Moments)
      requires locked == db.Rows() && DbGrows(first, locked)
      requires KeyOf(q) !in first.keys && StartOutcome(locked, q, id).KeyTaken?
      modifies db
      ensures m.first == first && Accounted(q, id, VerdictOf(Classify(t)), m, db.Rows(), r)
      ensures db.faults >= old(db.faults)
      ensures db.faults == old(db.faults) && ForeignKeys(m.read) ==>
                Pays(q, id, VerdictOf(Classify(t)), m, db.Rows(), r)
      ensures RefusesUnpayable(q, m, db.Rows(), r)
    {
      ghost var v := VerdictOf(Classify(t));
      db.OthersCommit();
      var again := db.GetByKey(KeyOf(q));
      if !again.Ok? {
        m := Moments(first, locked, db.Rows(), db.Rows(), db.Rows());
        r := P.Refused(if again.NoRow? then NoRows else Fault);
        UnreadIsAccounted(q, id, v, m, m.read, r);
        return;
      }
      r, m := ReplayIdempotentPay(q, again.value, t);
      m := m.(first := first, locked := locked);
      TakenIsAccounted(q, id, v, m, db.Rows(), r);
    }

    /** applyWebhook.  A read that fails is taken for an unknown attempt: `missed`. */
    method ApplyWebhook(m: SingleFlight.Msg) returns (err: Option<PayError>, ghost t: HookMoments, ghost missed: bool)
      modifies db
      ensures t.first == old(db.Rows()) && t.applied == db.Rows()
      ensures DbGrows(t.first, t.seen)
      ensures err.None? ==> if missed then t.applied == t.first else Hooked(m, t)
      ensures err.Some? ==> HookCutShort(m, t)
      ensures err.None? ==> missed || WebhookApplied(m, t)
      ensures db.faults >= old(db.faults) && old(db.inbound).Keys <= db.inbound.Keys
      ensures missed ==> err.None? && t.applied == t.first
      ensures missed ==> db.faults > old(db.faults) || (m.key.Some? && m.key.value !in t.first.attempts)
      ensures err.Some? ==> db.faults > old(db.faults) || !ForeignKeys(t.first)
    {
      ghost var rows := db.Rows();
      t, missed := HookMoments(rows, rows, rows, rows), false;
      GrowsSelf(rows);
      if m.key.None? {
        return None, t, false;
      }
      var found := db.GetAttempt(m.key.value);
      if !found.Ok? {
        return None, t, true;
      }
      var cell := new AttemptCell(m.key.value, found.value);
      ghost var seen, mid := rows, rows;
      if m.succeeded {
        err, seen := PersistSuccess(cell, m.ref);
      } else if m.failed {
        err, seen, mid := PersistFailure(cell, CodeOf(m));
      } else {
        err := None;
      }
      t := HookMoments(rows, seen, mid, db.Rows());
      if err.None? {
        HookedIsApplied(m, t);
      }
    }

    /** ProcessPSPWebhook: `text` is the raw body and `body` what it decodes to. */
    method ProcessPSPWebhook(id: string, header: string, sig: Signature.Sig, text: string, body: Decoded, now: int)
      returns (r: HookResult, ghost t: HookMoments, ghost missed: bool, ghost failed: bool)
      modifies db
      ensures var check := Signature.Verify(pspWebhookSecret, id, header, sig, text, now);
              && (r.HookRejected? <==> !check.Accepted?) && (r.HookRejected? ==> r.why == check)
              && (r.HookInvalid? <==> check.Accepted? && !body.Decoded?)
      ensures r.HookRejected? || r.HookInvalid? ==> db.Rows() == old(db.Rows())
      ensures body.Decoded? && IsProcessed(old(db.Rows()), body.msg.event) ==> db.Rows() == old(db.Rows())
      ensures SamePayments(t.applied, db.Rows()) && SamePayments(t.first, old(db.Rows()))
      ensures DbGrows(t.first, t.seen)
      ensures r.HookOk? && !IsProcessed(old(db.Rows()), body.msg.event) ==>
                && (missed || (Hooked(body.msg, t) && WebhookApplied(body.msg, t)))
                && body.msg.event in t.applied.inbound
                && db.inbound == t.applied.inbound[body.msg.event := InProcessed]
      ensures failed ==>
                && r.HookFailed? && HookCutShort(body.msg, t) && body.msg.event in t.applied.inbound
                && (|| db.inbound == t.applied.inbound[body.msg.event := InFailed]
                    || (db.inbound == t.applied.inbound && db.faults > old(db.faults)))
      ensures failed && db.faults <= old(db.faults) + 1 && ForeignKeys(t.first) ==>
                db.inbound == t.applied.inbound[body.msg.event := InFailed]
      ensures r.HookFailed? && !failed ==>
                t.applied == t.first || (Hooked(body.msg, t) && WebhookApplied(body.msg, t))
      ensures missed ==> t.applied == t.first
      ensures missed ==>
                && body.Decoded?
                && (db.faults > old(db.faults) || (body.msg.key.Some? && body.msg.key.value !in t.first.attempts))
      ensures r.HookFailed? ==> db.faults > old(db.faults) || !ForeignKeys(t.first)
      ensures db.faults >= old(db.faults)
    {
      ghost var rows := db.Rows();
      t, missed, failed := HookMoments(rows, rows, rows, rows), false, false;
      var check := Signature.Verify(pspWebhookSecret, id, header, sig, text, now);
      if !check.Accepted? {
        return HookRejected(check), t, missed, failed;
      }
      if !body.Decoded? {
        return HookInvalid, t, missed, failed;
      }
      var m := body.msg;
      var created := db.CreateInbound(m.event);
      if created.Failure? {
        return HookFailed, t, missed, failed;
      }
      if created.UniqueViolation? {
        var existing := db.GetInbound(m.event);
        if !existing.Ok? {
          return HookFailed, t, missed, failed;
        }
        if existing.value.InProcessed? {
          return HookOk, t, missed, failed;
        }
      }
      var err;
      err, t, missed := ApplyWebhook(m);
      if err.Some? {
        failed := true;
        var _ := db.MarkInbound(m.event, InFailed);
        return HookFailed, t, missed, failed;
      }
      var marked := db.MarkInbound(m.event, InProcessed);
      r := if marked then HookOk else HookFailed;
    }
  }
}
