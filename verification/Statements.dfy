/** Statements that change nothing all handlers share: they read, or write into
    an open transaction, and move their handler on. */
module Statements {
  import opened Model
  import opened SingleFlight
  import opened PspClient
  import opened Protocol
  import opened Invariant

  /** The handler moves on, or answers its client, and nothing shared changes. */
  ghost predicate StaysPut(s: Shared, next: Uuid, hd: Handler, o: Outcome) {
    && o.s == s
    && match o
       case Continue(_, next', pc) => next' == next && HandlerOk(s, Handler(hd.job, pc)) && GainsOnlyWanted(hd, pc)
       case Finish(_, answer) => answer.Some? ==> AnswerOk(s, answer.value)
  }

  predicate IsQuiet(pc: Pc) {
    && !pc.CommitStart? && !pc.CallPsp? && !pc.CommitSettle? && !pc.MarkFailed? && !pc.EnqueueFailure?
    && !pc.HookCreate? && !pc.HookMark?
  }

  /** A program counter outside the two transactions holds no lock. */
  lemma FreeMoves(hd: Handler, pc: Pc)
    requires !InStartTx(pc) && !InSettleTx(pc)
    ensures GainsOnlyWanted(hd, pc)
  {
  }

  // ---------------------------------------------------------------- PayInvoice and createPendingAttempt

  lemma FoundKeyStays(s: Shared, next: Uuid, hd: Handler)
    requires KeysOk(s.db, s.origin) && hd.job.Pay? && KeyOf(hd.job.req) in s.db.keys
    ensures StaysPut(s, next, hd, FoundKey(s, next, hd.job.req, s.db.keys[KeyOf(hd.job.req)]))
  {
    var a := s.db.keys[KeyOf(hd.job.req)].attempt.value;
    assert a in s.db.attempts && a in s.origin;
    FreeMoves(hd, Replay(a));
  }

  lemma LookupStays(s: Shared, next: Uuid, hd: Handler)
    requires KeysOk(s.db, s.origin) && HandlerOk(s, hd) && (hd.pc.Lookup? || hd.pc.Relookup?)
    ensures StaysPut(s, next, hd, Effect(s, next, hd))
  {
    if KeyOf(hd.job.req) in s.db.keys {
      FoundKeyStays(s, next, hd);
    } else {
      FreeMoves(hd, LockInvoice);
    }
  }

  lemma PendingHasAttempt(db: Db, i: Uuid)
    requires PendingOn(db, i)
    ensures HasAttempt(db, i)
  {
    var a :| a in db.attempts && db.attempts[a].invoice == i && db.attempts[a].status.Pending?;
    assert db.attempts[a].invoice == i;
  }

  lemma StartStays(s: Shared, next: Uuid, hd: Handler)
    requires HandlerOk(s, hd) && (hd.pc.LockInvoice? || (InStartTx(hd.pc) && !hd.pc.CommitStart?))
    ensures StaysPut(s, next, hd, Effect(s, next, hd))
  {
    if PendingOn(s.db, hd.job.req.invoice) {
      PendingHasAttempt(s.db, hd.job.req.invoice);
    }
  }

  lemma ReplayStays(s: Shared, next: Uuid, hd: Handler)
    requires HandlerOk(s, hd) && (hd.pc.Replay? || hd.pc.RereadFailed?) && WellShaped(s.db.attempts[hd.pc.id])
    ensures StaysPut(s, next, hd, Effect(s, next, hd))
  {
    FreeMoves(hd, CallPsp(hd.pc.id, s.db.attempts[hd.pc.id]));
  }

  // ---------------------------------------------------------------- chargeAndSettle

  /** The verdict on t suits attempt id. */
  ghost predicate Suits(s: Shared, id: Uuid, t: Transport)
    requires id in s.origin
  {
    var v := VerdictOf(Classify(t));
    && (v.RecordFailure? ==> FailsWith(s.origin[id].token, Some(v.code)))
    && (v.RecordSuccess? ==> HasCapture(s.psp, id, v.ref))
  }

  lemma ReceiveStays(s: Shared, next: Uuid, hd: Handler, t: Transport)
    requires HandlerOk(s, hd) && hd.pc.Await? && Suits(s, hd.pc.id, t)
    ensures StaysPut(s, next, hd, Receive(s, next, hd.job.req, hd.pc, t))
  {
    match VerdictOf(Classify(t))
    case LeavePending =>
    case RecordFailure(code) => FreeMoves(hd, MarkFailed(hd.pc.id, hd.pc.row, code));
    case RecordSuccess(ref) => FreeMoves(hd, LockSettle(hd.pc.id, hd.pc.row, ref));
  }

  lemma AwaitStays(s: Shared, next: Uuid, hd: Handler)
    requires HandlerOk(s, hd) && hd.pc.Await?
    requires s.psp.procs[hd.pc.call].stage.Replied? ==>
               Suits(s, hd.pc.id, Got(s.psp.procs[hd.pc.call].stage.httpCode, s.psp.procs[hd.pc.call].stage.resp))
    ensures StaysPut(s, next, hd, Effect(s, next, hd))
  {
    if s.psp.procs[hd.pc.call].stage.Replied? {
      ReceiveStays(s, next, hd, Got(s.psp.procs[hd.pc.call].stage.httpCode, s.psp.procs[hd.pc.call].stage.resp));
    } else {
      FreeMoves(hd, hd.pc);
    }
  }

  // ---------------------------------------------------------------- persistSuccess

  lemma SettleStays(s: Shared, next: Uuid, hd: Handler)
    requires HandlerOk(s, hd) && (hd.pc.LockSettle? || (InSettleTx(hd.pc) && !hd.pc.CommitSettle?))
    requires s.db.attempts[hd.pc.id].invoice in s.db.invoices && !s.db.attempts[hd.pc.id].status.Failed?
    ensures StaysPut(s, next, hd, Effect(s, next, hd))
  {
  }

  // ---------------------------------------------------------------- ProcessPSPWebhook

  lemma HookStays(s: Shared, next: Uuid, hd: Handler)
    requires HandlerOk(s, hd) && (hd.pc.HookExisting? || hd.pc.HookFetch?)
    requires var m := hd.job.msg;
             && m.succeeded && m.key.Some? && m.key.value in s.db.attempts && m.key.value in s.origin
             && HasCapture(s.psp, m.key.value, m.ref)
    ensures StaysPut(s, next, hd, Effect(s, next, hd))
  {
    var m := hd.job.msg;
    FreeMoves(hd, HookFetch);
    FreeMoves(hd, LockSettle(m.key.value, s.db.attempts[m.key.value], m.ref));
  }
}
