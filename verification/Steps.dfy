/** Every statement, looked at on its own, establishes what the framework asks
    of it; so every step of the protocol keeps the invariant. */
module Steps {
  import opened Model
  import opened SingleFlight
  import opened SingleFlightProofs
  import opened PspClient
  import opened Protocol
  import opened Invariant
  import opened Framework
  import opened SharedSteps
  import opened Statements

  // ---------------------------------------------------------------- putting an outcome together

  lemma Unchanged(s: Shared, hd: Handler)
    ensures Grows(s, s) && Respects(s.db, s.db, hd)
  {
  }

  lemma StaysPutOk(s: Shared, next: Uuid, hd: Handler, o: Outcome)
    requires SharedInv(s) && StaysPut(s, next, hd, o)
    ensures OutcomeOk(s, next, hd, o)
  {
    Unchanged(s, hd);
  }

  /** A statement that changes what is shared. */
  lemma WriteOk(s: Shared, next: Uuid, hd: Handler, o: Outcome)
    requires SharedInv(o.s) && Grows(s, o.s) && Respects(s.db, o.s.db, hd)
    requires match o
             case Continue(s', next', pc) =>
               && next <= next' && (forall a :: a in s'.origin ==> a in s.origin || a < next')
               && HandlerOk(s', Handler(hd.job, pc)) && GainsOnlyWanted(hd, pc)
             case Finish(s', answer) => s'.origin == s.origin && (answer.Some? ==> AnswerOk(s', answer.value))
    ensures OutcomeOk(s, next, hd, o)
  {
  }

  // ---------------------------------------------------------------- statements that only move their handler on

  lemma RowsAreShaped(s: Shared, a: Uuid)
    requires SharedInv(s) && a in s.db.attempts
    ensures a in s.origin && WellShaped(s.db.attempts[a]) && s.db.attempts[a].invoice in s.db.invoices
  {
    assert AttemptOk(s.db, s.origin, a);
  }

  /** What the PSP answered matches the card token of the attempt. */
  lemma ReplyMatchesToken(s: Shared, call: Uuid, id: Uuid)
    requires SharedInv(s) && call in s.psp.procs && s.psp.procs[call].req.key == Some(id)
    requires s.psp.procs[call].stage.Replied?
    ensures id in s.origin
    ensures var t := Got(s.psp.procs[call].stage.httpCode, s.psp.procs[call].stage.resp);
            && Suits(s, id, t)
            && (VerdictOf(Classify(t)).LeavePending? <==> FateOf(s.origin[id].token).Uncertain?)
  {
    var st := s.psp.procs[call].stage;
    assert Genuine(s.db, s.origin, s.psp.procs[call].req);
    assert StageOk(s.psp, call);
    VerdictIsSafe(st.decider, Got(st.httpCode, st.resp), st.httpCode, st.resp);
  }

  /** A webhook names a charged attempt. */
  lemma WebhookIsTrue(s: Shared, m: Msg)
    requires SharedInv(s) && m in s.psp.mail
    ensures m.succeeded && m.key.Some? && m.key.value in s.db.attempts && m.key.value in s.origin
    ensures HasCapture(s.psp, m.key.value, m.ref)
  {
  }

  lemma QuietPayOk(s: Shared, next: Uuid, hd: Handler)
    requires SharedInv(s) && HandlerOk(s, hd) && IsQuiet(hd.pc)
    requires hd.pc.Lookup? || hd.pc.Relookup? || hd.pc.LockInvoice? || InStartTx(hd.pc) || hd.pc.Replay?
    ensures OutcomeOk(s, next, hd, Effect(s, next, hd))
  {
    if hd.pc.Lookup? || hd.pc.Relookup? {
      LookupStays(s, next, hd);
    } else if hd.pc.Replay? {
      RowsAreShaped(s, hd.pc.id);
      ReplayStays(s, next, hd);
    } else {
      StartStays(s, next, hd);
    }
    StaysPutOk(s, next, hd, Effect(s, next, hd));
  }

  lemma QuietSettleOk(s: Shared, next: Uuid, hd: Handler)
    requires SharedInv(s) && HandlerOk(s, hd) && IsQuiet(hd.pc)
    requires hd.pc.Await? || hd.pc.LockSettle? || InSettleTx(hd.pc) || hd.pc.RereadFailed?
    ensures OutcomeOk(s, next, hd, Effect(s, next, hd))
  {
    if hd.pc.Await? {
      if s.psp.procs[hd.pc.call].stage.Replied? {
        ReplyMatchesToken(s, hd.pc.call, hd.pc.id);
      }
      AwaitStays(s, next, hd);
    } else if hd.pc.RereadFailed? {
      RowsAreShaped(s, hd.pc.id);
      ReplayStays(s, next, hd);
    } else {
      RowsAreShaped(s, hd.pc.id);
      CapturedNotFailed(s, hd.pc.id, hd.pc.ref);
      SettleStays(s, next, hd);
    }
    StaysPutOk(s, next, hd, Effect(s, next, hd));
  }

  lemma QuietHookOk(s: Shared, next: Uuid, hd: Handler)
    requires SharedInv(s) && HandlerOk(s, hd) && (hd.pc.HookExisting? || hd.pc.HookFetch?)
    ensures OutcomeOk(s, next, hd, Effect(s, next, hd))
  {
    WebhookIsTrue(s, hd.job.msg);
    HookStays(s, next, hd);
    StaysPutOk(s, next, hd, Effect(s, next, hd));
  }

  // ---------------------------------------------------------------- createPendingAttempt commits

  /** The commit touches only rows and slots its own locks protect. */
  lemma StartRespects(db: Db, hd: Handler, id: Uuid)
    requires hd.job.Pay? && hd.pc.CommitStart? && id !in db.attempts
    ensures Respects(db, ApplyStart(db, hd.job.req, hd.pc.inv, id), hd)
  {
    var q := hd.job.req;
    var db' := ApplyStart(db, q, hd.pc.inv, id);
    assert Holds(hd, InvoiceRow(q.invoice)) && Holds(hd, KeySlot(KeyOf(q)));
    forall other | Apart(hd, other)
      ensures Undisturbed(db, db', other)
    {
      forall i | Holds(other, InvoiceRow(i)) && PendingOn(db', i)
        ensures PendingOn(db, i)
      {
        var a :| a in db'.attempts && db'.attempts[a].invoice == i && db'.attempts[a].status.Pending?;
        assert a in db.attempts && db.attempts[a] == db'.attempts[a];
      }
    }
  }

  lemma ReadyToCall(s: Shared, job: Job, id: Uuid, row: Attempt)
    requires job.Pay? && id in s.origin && s.origin[id] == job.req && id in s.db.attempts && s.db.attempts[id] == row
    requires row.status.Pending? && WellShaped(row)
    ensures HandlerOk(s, Handler(job, CallPsp(id, row)))
  {
  }

  lemma CommitStartIs(s: Shared, next: Uuid, hd: Handler)
    requires hd.pc.CommitStart? && hd.job.Pay?
    ensures var q, inv := hd.job.req, hd.pc.inv;
            Effect(s, next, hd) == Continue(Started(s, q, inv, next), next + 1, CallPsp(next, NewAttempt(q, inv)))
  {
  }

  lemma StartedOk(s: Shared, hd: Handler, id: Uuid)
    requires SharedInv(s) && HandlerOk(s, hd) && hd.pc.CommitStart? && id !in s.origin
    ensures var s' := Started(s, hd.job.req, hd.pc.inv, id);
            SharedInv(s') && Grows(s, s') && Respects(s.db, s'.db, hd)
  {
    StartKeepsShared(s, hd.job.req, hd.pc.inv, id, Started(s, hd.job.req, hd.pc.inv, id));
    StartRespects(s.db, hd, id);
  }

  lemma CommitStartOk(s: Shared, next: Uuid, hd: Handler)
    requires SharedInv(s) && HandlerOk(s, hd) && hd.pc.CommitStart? && next !in s.origin
    ensures OutcomeOk(s, next, hd, Effect(s, next, hd))
  {
    var q, inv := hd.job.req, hd.pc.inv;
    CommitStartIs(s, next, hd);
    StartedOk(s, hd, next);
    ReadyToCall(Started(s, q, inv, next), hd.job, next, NewAttempt(q, inv));
    FreeMoves(hd, CallPsp(next, NewAttempt(q, inv)));
    WriteOk(s, next, hd, Effect(s, next, hd));
  }

  // ---------------------------------------------------------------- chargeAndSettle sends

  lemma CallPspIs(s: Shared, next: Uuid, hd: Handler)
    requires hd.pc.CallPsp? && HandlerOk(s, hd)
    ensures var q := ChargeOf(hd.job.req, hd.pc.id, hd.pc.row);
            var s' := s.(psp := Send(s.psp, q));
            && Effect(s, next, hd) == Continue(s', next, Await(hd.pc.id, hd.pc.row, s.psp.next))
            && Genuine(s.db, s.origin, q)
            && HandlerOk(s', Handler(hd.job, Await(hd.pc.id, hd.pc.row, s.psp.next)))
  {
  }

  lemma SendOk(s: Shared, hd: Handler, q: ChargeReq)
    requires SharedInv(s) && Genuine(s.db, s.origin, q)
    ensures var s' := s.(psp := Send(s.psp, q)); SharedInv(s') && Grows(s, s') && Respects(s.db, s'.db, hd)
  {
    SendKeepsShared(s, q, s.(psp := Send(s.psp, q)));
    Unchanged(s, hd);
  }

  lemma SentOk(s: Shared, next: Uuid, hd: Handler, q: ChargeReq, o: Outcome)
    requires SharedInv(s) && Genuine(s.db, s.origin, q)
    requires o.Continue? && o.s == s.(psp := Send(s.psp, q)) && o.next == next && o.pc.Await?
    requires HandlerOk(o.s, Handler(hd.job, o.pc))
    ensures OutcomeOk(s, next, hd, o)
  {
    SendOk(s, hd, q);
    FreeMoves(hd, o.pc);
    WriteOk(s, next, hd, o);
  }

  lemma CallPspOk(s: Shared, next: Uuid, hd: Handler)
    requires SharedInv(s) && HandlerOk(s, hd) && hd.pc.CallPsp?
    ensures OutcomeOk(s, next, hd, Effect(s, next, hd))
  {
    CallPspIs(s, next, hd);
    SentOk(s, next, hd, ChargeOf(hd.job.req, hd.pc.id, hd.pc.row), Effect(s, next, hd));
  }

  // ---------------------------------------------------------------- persistSuccess commits

  /** The commit touches only rows and slots its own locks protect. */
  lemma SettleRespects(s: Shared, hd: Handler)
    requires SharedInv(s) && HandlerOk(s, hd) && hd.pc.CommitSettle?
    ensures Respects(s.db, Settle(s.db, hd.pc.id, hd.pc.ref), hd)
  {
    var id, ref := hd.pc.id, hd.pc.ref;
    if hd.pc.first {
      assert Holds(hd, InvoiceRow(s.db.attempts[id].invoice)) && Holds(hd, AttemptRow(id));
      assert hd.pc.post ==> Holds(hd, OutboxSlot(EventKey(PaymentSucceeded, id)));
      forall other | Apart(hd, other)
        ensures Undisturbed(s.db, Settle(s.db, id, ref), other)
      {
        SettleDisturbsNobody(s.db, id, ref, other);
      }
    } else {
      SettleAgainIsNothing(s, id, ref);
    }
  }

  lemma SettleDisturbsNobody(db: Db, id: Uuid, ref: Uuid, hd: Handler)
    requires id in db.attempts && db.attempts[id].status.Pending?
    requires !Holds(hd, InvoiceRow(db.attempts[id].invoice)) && !Holds(hd, AttemptRow(id))
    requires EventKey(PaymentSucceeded, id) in db.outbox || !Holds(hd, OutboxSlot(EventKey(PaymentSucceeded, id)))
    ensures Undisturbed(db, Settle(db, id, ref), hd)
  {
    var db' := Settle(db, id, ref);
    forall i | PendingOn(db', i)
      ensures PendingOn(db, i)
    {
      var a :| a in db'.attempts && db'.attempts[a].invoice == i && db'.attempts[a].status.Pending?;
      assert db.attempts[a] == db'.attempts[a];
    }
  }

  /** The client is shown the row as it is committed. */
  lemma SettledRowShown(s: Shared, hd: Handler, s': Shared)
    requires SharedInv(s) && hd.pc.CommitSettle? && hd.job.Pay? && HandlerOk(s, hd)
    requires s' == s.(db := Settle(s.db, hd.pc.id, hd.pc.ref)) && SharedInv(s')
    ensures AnswerOk(s', Answer(hd.job.req, Returned(hd.pc.id, AsSucceeded(hd.pc.row, hd.pc.ref)), false))
  {
    SettleIsAtomic(s, hd);
    if !hd.pc.first {
      SameRef(s, hd.pc.id, hd.pc.ref);
    }
    assert AttemptOk(s'.db, s'.origin, hd.pc.id);
  }

  lemma SettledStateOk(s: Shared, hd: Handler, s': Shared)
    requires SharedInv(s) && HandlerOk(s, hd) && hd.pc.CommitSettle?
    requires s' == s.(db := Settle(s.db, hd.pc.id, hd.pc.ref))
    ensures SharedInv(s') && Grows(s, s') && Respects(s.db, s'.db, hd)
    ensures hd.pc.id in s'.db.attempts && s'.db.attempts[hd.pc.id].status.Succeeded?
  {
    SettleKeepsShared(s, hd.pc.id, hd.pc.ref, s');
    SettleRespects(s, hd);
  }

  lemma SettledMarks(s: Shared, hd: Handler, s': Shared)
    requires HandlerOk(s, hd) && hd.pc.CommitSettle? && hd.job.Hook? && s'.psp == s.psp
    requires hd.pc.id in s'.db.attempts && s'.db.attempts[hd.pc.id].status.Succeeded?
    ensures HandlerOk(s', Handler(hd.job, HookMark(InProcessed))) && GainsOnlyWanted(hd, HookMark(InProcessed))
  {
    FreeMoves(hd, HookMark(InProcessed));
  }

  lemma CommitSettleIs(s: Shared, next: Uuid, hd: Handler)
    requires hd.pc.CommitSettle? && HandlerOk(s, hd) && hd.pc.row.invoice in s.db.invoices
    requires ApplySettle(s.db, hd.pc) == Settle(s.db, hd.pc.id, hd.pc.ref)
    ensures var s' := s.(db := Settle(s.db, hd.pc.id, hd.pc.ref));
            Effect(s, next, hd) == Resume(s', next, hd.job, hd.pc.id, AsSucceeded(hd.pc.row, hd.pc.ref))
  {
  }

  lemma CommitSettleOk(s: Shared, next: Uuid, hd: Handler)
    requires SharedInv(s) && HandlerOk(s, hd) && hd.pc.CommitSettle?
    ensures OutcomeOk(s, next, hd, Effect(s, next, hd))
  {
    var s' := s.(db := Settle(s.db, hd.pc.id, hd.pc.ref));
    SettleIsAtomic(s, hd);
    CommitSettleIs(s, next, hd);
    SettledStateOk(s, hd, s');
    if hd.job.Pay? {
      SettledRowShown(s, hd, s');
    } else {
      SettledMarks(s, hd, s');
    }
    WriteOk(s, next, hd, Effect(s, next, hd));
  }

  // ---------------------------------------------------------------- persistFailure

  lemma FailRespects(db: Db, code: FailureCode, hd: Handler)
    requires hd.pc.MarkFailed?
    ensures Respects(db, FailIfPending(db, hd.pc.id, code), hd)
  {
    var db' := FailIfPending(db, hd.pc.id, code);
    forall i | PendingOn(db', i)
      ensures PendingOn(db, i)
    {
      var a :| a in db'.attempts && db'.attempts[a].invoice == i && db'.attempts[a].status.Pending?;
      assert db.attempts[a] == db'.attempts[a];
    }
    assert Wants(hd) == Some(AttemptRow(hd.pc.id));
  }

  lemma MarkFailedIs(s: Shared, next: Uuid, hd: Handler)
    requires hd.pc.MarkFailed? && HandlerOk(s, hd)
    ensures var id, code := hd.pc.id, hd.pc.code;
            if s.db.attempts[id].status.Pending? then
              var s' := s.(db := FailIfPending(s.db, id, code));
              var pc := EnqueueFailure(id, hd.pc.row.(status := Failed, failureCode := Some(code)));
              && Effect(s, next, hd) == Continue(s', next, pc)
              && (WellShaped(s.db.attempts[id]) ==> HandlerOk(s', Handler(hd.job, pc)))
            else StaysPut(s, next, hd, Effect(s, next, hd))
  {
    FreeMoves(hd, RereadFailed(hd.pc.id));
  }

  lemma MarkFailedOk(s: Shared, next: Uuid, hd: Handler)
    requires SharedInv(s) && HandlerOk(s, hd) && hd.pc.MarkFailed?
    ensures OutcomeOk(s, next, hd, Effect(s, next, hd))
  {
    var id, row, code := hd.pc.id, hd.pc.row, hd.pc.code;
    MarkFailedIs(s, next, hd);
    if s.db.attempts[id].status.Pending? {
      RowsAreShaped(s, id);
      FailKeepsShared(s, id, code, s.(db := FailIfPending(s.db, id, code)));
      FailRespects(s.db, code, hd);
      FreeMoves(hd, EnqueueFailure(id, row.(status := Failed, failureCode := Some(code))));
      WriteOk(s, next, hd, Effect(s, next, hd));
    } else {
      StaysPutOk(s, next, hd, Effect(s, next, hd));
    }
  }

  /** Changes outside invoices, attempts, keys and success events disturb nobody. */
  lemma SameAttemptsDisturbNobody(db: Db, db': Db, hd: Handler)
    requires db'.invoices == db.invoices && db'.attempts == db.attempts && db'.keys == db.keys
    requires forall e :: e in db'.outbox && e !in db.outbox ==> e.etype.PaymentFailed?
    ensures Respects(db, db', hd)
  {
    assert forall i :: PendingOn(db', i) ==> PendingOn(db, i);
  }

  lemma EnqueueFailureIs(s: Shared, next: Uuid, hd: Handler)
    requires hd.pc.EnqueueFailure? && HandlerOk(s, hd) && WellShaped(hd.pc.row)
    ensures var s' := s.(db := s.db.(outbox := Enqueue(s.db, EventKey(PaymentFailed, hd.pc.id), hd.pc.row)));
            && Effect(s, next, hd) == Reply(s', hd.job.req, Returned(hd.pc.id, hd.pc.row), false)
            && AnswerOk(s', Answer(hd.job.req, Returned(hd.pc.id, hd.pc.row), false))
  {
  }

  lemma EnqueueFailureOk(s: Shared, next: Uuid, hd: Handler)
    requires SharedInv(s) && HandlerOk(s, hd) && hd.pc.EnqueueFailure?
    ensures OutcomeOk(s, next, hd, Effect(s, next, hd))
  {
    var id, row := hd.pc.id, hd.pc.row;
    RowsAreShaped(s, id);
    EnqueueFailureIs(s, next, hd);
    NotifyFailureKeepsShared(s, id, Effect(s, next, hd).s);
    SameAttemptsDisturbNobody(s.db, Effect(s, next, hd).s.db, hd);
    WriteOk(s, next, hd, Effect(s, next, hd));
  }

  // ---------------------------------------------------------------- ProcessPSPWebhook writes

  lemma HookCreateIs(s: Shared, next: Uuid, hd: Handler)
    requires hd.pc.HookCreate? && HandlerOk(s, hd)
    ensures var m := hd.job.msg;
            if m.event in s.db.inbound then StaysPut(s, next, hd, Effect(s, next, hd))
            else
              && Effect(s, next, hd) == Continue(WithInbound(s, m.event, InPending), next, HookFetch)
              && HandlerOk(WithInbound(s, m.event, InPending), Handler(hd.job, HookFetch))
  {
    FreeMoves(hd, HookExisting);
  }

  lemma HookCreateOk(s: Shared, next: Uuid, hd: Handler)
    requires SharedInv(s) && HandlerOk(s, hd) && hd.pc.HookCreate?
    ensures OutcomeOk(s, next, hd, Effect(s, next, hd))
  {
    var m := hd.job.msg;
    HookCreateIs(s, next, hd);
    if m.event in s.db.inbound {
      StaysPutOk(s, next, hd, Effect(s, next, hd));
    } else {
      InboundKeepsShared(s, m, InPending, WithInbound(s, m.event, InPending));
      SameAttemptsDisturbNobody(s.db, WithInbound(s, m.event, InPending).db, hd);
      FreeMoves(hd, HookFetch);
      WriteOk(s, next, hd, Effect(s, next, hd));
    }
  }

  lemma HookMarkOk(s: Shared, next: Uuid, hd: Handler)
    requires SharedInv(s) && HandlerOk(s, hd) && hd.pc.HookMark?
    ensures OutcomeOk(s, next, hd, Effect(s, next, hd))
  {
    var st := hd.pc.st;
    InboundKeepsShared(s, hd.job.msg, st, WithInbound(s, hd.job.msg.event, st));
    SameAttemptsDisturbNobody(s.db, WithInbound(s, hd.job.msg.event, st).db, hd);
  }

  // ---------------------------------------------------------------- every step

  lemma QuietOk(s: Shared, next: Uuid, hd: Handler)
    requires SharedInv(s) && HandlerOk(s, hd) && IsQuiet(hd.pc)
    ensures OutcomeOk(s, next, hd, Effect(s, next, hd))
  {
    if hd.pc.HookExisting? || hd.pc.HookFetch? {
      QuietHookOk(s, next, hd);
    } else if hd.pc.Await? || hd.pc.LockSettle? || InSettleTx(hd.pc) || hd.pc.RereadFailed? {
      QuietSettleOk(s, next, hd);
    } else {
      QuietPayOk(s, next, hd);
    }
  }

  lemma PayWritesOk(s: Shared, next: Uuid, hd: Handler)
    requires SharedInv(s) && HandlerOk(s, hd) && next !in s.origin
    requires (hd.pc.CommitStart? || hd.pc.CallPsp? || hd.pc.CommitSettle?)
    ensures OutcomeOk(s, next, hd, Effect(s, next, hd))
  {
    match hd.pc
    case CommitStart(_) => CommitStartOk(s, next, hd);
    case CallPsp(_, _) => CallPspOk(s, next, hd);
    case CommitSettle(_, _, _, _, _, _) => CommitSettleOk(s, next, hd);
  }

  lemma OtherWritesOk(s: Shared, next: Uuid, hd: Handler)
    requires SharedInv(s) && HandlerOk(s, hd)
    requires hd.pc.MarkFailed? || hd.pc.EnqueueFailure? || hd.pc.HookCreate? || hd.pc.HookMark?
    ensures OutcomeOk(s, next, hd, Effect(s, next, hd))
  {
    match hd.pc
    case MarkFailed(_, _, _) => MarkFailedOk(s, next, hd);
    case EnqueueFailure(_, _) => EnqueueFailureOk(s, next, hd);
    case HookCreate => HookCreateOk(s, next, hd);
    case HookMark(_) => HookMarkOk(s, next, hd);
  }

  lemma EffectOk(s: Shared, next: Uuid, hd: Handler)
    requires SharedInv(s) && HandlerOk(s, hd) && next !in s.origin
    ensures OutcomeOk(s, next, hd, Effect(s, next, hd))
  {
    if IsQuiet(hd.pc) {
      QuietOk(s, next, hd);
    } else if hd.pc.CommitStart? || hd.pc.CallPsp? || hd.pc.CommitSettle? {
      PayWritesOk(s, next, hd);
    } else {
      OtherWritesOk(s, next, hd);
    }
  }

  lemma FreshId(w: World)
    requires Inv(w)
    ensures w.next !in w.db.attempts && w.next !in w.origin
  {
  }

  lemma RunKeepsInv(w: World, h: Uuid)
    requires Inv(w) && h in w.handlers && !Blocked(w, h)
    ensures Inv(Apply(w, h, Effect(SharedOf(w), w.next, w.handlers[h])))
  {
    EffectOk(SharedOf(w), w.next, w.handlers[h]);
    ApplyKeepsInv(w, h, Effect(SharedOf(w), w.next, w.handlers[h]));
  }

  lemma GiveUpKeepsInv(w: World, h: Uuid, why: Transport)
    requires Inv(w) && Enabled(w, GiveUp(h, why))
    ensures Inv(Do(w, GiveUp(h, why)))
  {
    var hd := w.handlers[h];
    LeaveKeepsInv(w, h, Some(Answer(hd.job.req, Returned(hd.pc.id, hd.pc.row), true)));
  }

  lemma BreakKeepsInv(w: World, h: Uuid)
    requires Inv(w) && Enabled(w, Break(h))
    ensures Inv(Do(w, Break(h)))
  {
    var job := w.handlers[h].job;
    if job.Pay? {
      BreakPayKeepsInv(w, h);
    } else {
      BreakHookKeepsInv(w, h);
    }
  }

  lemma BreakPayKeepsInv(w: World, h: Uuid)
    requires Inv(w) && Enabled(w, Break(h)) && w.handlers[h].job.Pay?
    ensures Inv(Do(w, Break(h)))
  {
    var q := w.handlers[h].job.req;
    var error := if w.handlers[h].pc.LockInvoice? then InvoiceNotFound else Fault;
    LeaveKeepsInv(w, h, Some(Answer(q, Refused(error), false)));
  }

  lemma BreakHookKeepsInv(w: World, h: Uuid)
    requires Inv(w) && Enabled(w, Break(h)) && w.handlers[h].job.Hook?
    ensures Inv(Do(w, Break(h)))
  {
    assert HandlerOk(SharedOf(w), w.handlers[h]);
    if w.handlers[h].pc.HookCreate? || w.handlers[h].pc.HookExisting? || w.handlers[h].pc.HookMark? {
      LeaveKeepsInv(w, h, None);
    } else {
      JobIsKnown(SharedOf(w), w.handlers[h]);
      RetreatKeepsInv(w, h, HookMark(InFailed));
    }
  }

  /** A webhook handler serves a webhook the PSP sent. */
  lemma JobIsKnown(s: Shared, hd: Handler)
    requires HandlerOk(s, hd) && hd.job.Hook?
    ensures hd.job.msg in s.psp.mail
  {
  }

  lemma ResendIs(s: Shared, next: Uuid, hd: Handler)
    requires hd.pc.Await? && HandlerOk(s, hd)
    ensures var q := ChargeOf(hd.job.req, hd.pc.id, hd.pc.row);
            var s' := s.(psp := Send(s.psp, q));
            && ResendEffect(s, next, hd) == Continue(s', next, Await(hd.pc.id, hd.pc.row, s.psp.next))
            && Genuine(s.db, s.origin, q)
            && HandlerOk(s', Handler(hd.job, Await(hd.pc.id, hd.pc.row, s.psp.next)))
  {
  }

  lemma ResendOk(s: Shared, next: Uuid, hd: Handler)
    requires SharedInv(s) && HandlerOk(s, hd) && hd.pc.Await?
    ensures OutcomeOk(s, next, hd, ResendEffect(s, next, hd))
  {
    ResendIs(s, next, hd);
    SentOk(s, next, hd, ChargeOf(hd.job.req, hd.pc.id, hd.pc.row), ResendEffect(s, next, hd));
  }

  lemma ResendKeepsInv(w: World, h: Uuid)
    requires Inv(w) && Enabled(w, Resend(h))
    ensures Inv(Do(w, Resend(h)))
  {
    assert HandlerOk(SharedOf(w), w.handlers[h]);
    ResendOk(SharedOf(w), w.next, w.handlers[h]);
    ApplyKeepsInv(w, h, ResendEffect(SharedOf(w), w.next, w.handlers[h]));
  }

  lemma MissOk(s: Shared, next: Uuid, hd: Handler)
    requires SharedInv(s) && HandlerOk(s, hd) && hd.pc.HookFetch?
    ensures OutcomeOk(s, next, hd, MissEffect(s, next, hd))
  {
    FreeMoves(hd, HookMark(InProcessed));
    MissKeepsShared(s, hd.job.msg.event);
    Unchanged(s, hd);
    WriteOk(s, next, hd, MissEffect(s, next, hd));
  }

  lemma MissKeepsShared(s: Shared, event: Uuid)
    requires SharedInv(s)
    ensures SharedInv(s.(missed := s.missed + {event})) && Grows(s, s.(missed := s.missed + {event}))
  {
  }

  lemma MissKeepsInv(w: World, h: Uuid)
    requires Inv(w) && Enabled(w, Miss(h))
    ensures Inv(Do(w, Miss(h)))
  {
    assert HandlerOk(SharedOf(w), w.handlers[h]);
    MissOk(SharedOf(w), w.next, w.handlers[h]);
    ApplyKeepsInv(w, h, MissEffect(SharedOf(w), w.next, w.handlers[h]));
  }

  lemma LoseAckOk(s: Shared, next: Uuid, hd: Handler)
    requires SharedInv(s) && HandlerOk(s, hd) && next !in s.origin && CanLoseAck(hd.pc)
    ensures OutcomeOk(s, next, hd, BreakEffect(Effect(s, next, hd).s, next, hd))
  {
    EffectOk(s, next, hd);
    LateEffectsKeepIds(s, next, hd);
    ReportedFailedOk(s, next, hd, Effect(s, next, hd).s);
  }

  lemma ReportedFailedOk(s: Shared, next: Uuid, hd: Handler, s': Shared)
    requires SharedInv(s') && Grows(s, s') && Respects(s.db, s'.db, hd) && s'.origin == s.origin && CanLoseAck(hd.pc)
    requires hd.job.Hook? ==> hd.job.msg in s'.psp.mail
    ensures OutcomeOk(s, next, hd, BreakEffect(s', next, hd))
  {
    BreakIs(s', next, hd);
    WriteOk(s, next, hd, BreakEffect(s', next, hd));
  }

  lemma BreakIs(s: Shared, next: Uuid, hd: Handler)
    requires CanLoseAck(hd.pc)
    ensures match hd.job
            case Pay(q) =>
              && BreakEffect(s, next, hd) == Reply(s, q, Refused(Fault), false)
              && AnswerOk(s, Answer(q, Refused(Fault), false))
            case Hook(m) =>
              && BreakEffect(s, next, hd) == Continue(s, next, HookMark(InFailed))
              && (m in s.psp.mail ==> HandlerOk(s, Handler(hd.job, HookMark(InFailed))))
              && GainsOnlyWanted(hd, HookMark(InFailed))
  {
    FreeMoves(hd, HookMark(InFailed));
  }

  lemma LateEffectsKeepIds(s: Shared, next: Uuid, hd: Handler)
    requires CanLoseAck(hd.pc)
    ensures Effect(s, next, hd).s.origin == s.origin && Effect(s, next, hd).s.psp == s.psp
    ensures HandlerOk(s, hd) && hd.job.Hook? ==> hd.job.msg in s.psp.mail
  {
  }

  lemma LoseAckKeepsInv(w: World, h: Uuid)
    requires Inv(w) && Enabled(w, LoseAck(h))
    ensures Inv(Do(w, LoseAck(h)))
  {
    LoseAckOk(SharedOf(w), w.next, w.handlers[h]);
    ApplyKeepsInv(w, h, BreakEffect(Effect(SharedOf(w), w.next, w.handlers[h]).s, w.next, w.handlers[h]));
  }

  lemma PspMoveKeepsInv(w: World, r: Uuid)
    requires Inv(w) && Ready(w.psp, r)
    ensures Inv(w.(psp := Step(w.psp, r)))
  {
    var s' := SharedOf(w).(psp := Step(w.psp, r));
    PspStepKeepsShared(SharedOf(w), r, s');
    PspChangeKeepsInv(w, s');
  }

  lemma DoKeepsInv(w: World, a: Action)
    requires Inv(w) && Enabled(w, a)
    ensures Inv(Do(w, a))
  {
    match a
    case Run(h) => RunKeepsInv(w, h);
    case LoseAck(h) => LoseAckKeepsInv(w, h);
    case Miss(h) => MissKeepsInv(w, h);
    case Resend(h) => ResendKeepsInv(w, h);
    case PspMove(r) => PspMoveKeepsInv(w, r);
    case _ => ComingAndGoingKeepsInv(w, a);
  }

  lemma ComingAndGoingKeepsInv(w: World, a: Action)
    requires Inv(w) && Enabled(w, a) && !a.Run? && !a.LoseAck? && !a.Miss? && !a.Resend? && !a.PspMove?
    ensures Inv(Do(w, a))
  {
    if a.Call? || a.Deliver? {
      ArrivalKeepsInv(w, a);
    } else {
      match a
      case GiveUp(h, why) => GiveUpKeepsInv(w, h, why);
      case Break(h) => BreakKeepsInv(w, h);
      case Crash(h) => LeaveKeepsInv(w, h, None);
    }
  }

  lemma ArrivalKeepsInv(w: World, a: Action)
    requires Inv(w) && Enabled(w, a) && (a.Call? || a.Deliver?)
    ensures Inv(Do(w, a))
  {
    var hd := if a.Call? then Handler(Pay(a.req), Lookup) else Handler(Hook(a.msg), HookCreate);
    EnterKeepsInv(w, hd);
  }

  lemma InitHasInv(w: World)
    requires Init(w)
    ensures Inv(w)
  {
  }

  /** The invariant holds throughout every run. */
  lemma {:induction false} RunHasInv(t: seq<World>, n: nat)
    requires IsRun(t) && n < |t|
    ensures Inv(t[n])
  {
    if n == 0 {
      InitHasInv(t[0]);
    } else {
      RunHasInv(t, n - 1);
      assert StepAt(t, n - 1);
      var a :| Enabled(t[n - 1], a) && t[n] == Do(t[n - 1], a);
      DoKeepsInv(t[n - 1], a);
    }
  }
}
