/** What clients and merchants see: statuses, keys, answers and outbox events agree. */
module Agreement {
  import opened Model
  import opened SingleFlight
  import opened PspClient
  import opened Protocol
  import opened Invariant
  import opened SharedSteps
  import opened Steps
  import opened Money

  ghost predicate LiveOn(db: Db, i: Uuid, a: Uuid) {
    a in db.attempts && db.attempts[a].invoice == i && !db.attempts[a].status.Failed?
  }

  /** At most one attempt of an invoice has not failed, and the invoice's status tells how far it is. */
  lemma InvoiceStatusMeaning(t: seq<World>, n: nat, i: Uuid)
    requires IsRun(t) && n < |t| && i in t[n].db.invoices
    ensures forall a, b :: LiveOn(t[n].db, i, a) && LiveOn(t[n].db, i, b) ==> a == b
    ensures t[n].db.invoices[i].status.Draft? ==> !HasAttempt(t[n].db, i)
    ensures t[n].db.invoices[i].status.Open? ==> HasAttempt(t[n].db, i) && !HasSucceeded(t[n].db, i)
    ensures t[n].db.invoices[i].status.Paid? <==> HasSucceeded(t[n].db, i)
    ensures PendingOn(t[n].db, i) ==> t[n].db.invoices[i].status.Open?
  {
    RunHasInv(t, n);
    var db := t[n].db;
    assert InvoiceOk(db, i);
    if HasSucceeded(db, i) {
      var a :| a in db.attempts && db.attempts[a].invoice == i && db.attempts[a].status.Succeeded?;
      SucceededMeansPaid(SharedOf(t[n]), a);
    }
    if PendingOn(db, i) {
      var a :| a in db.attempts && db.attempts[a].invoice == i && db.attempts[a].status.Pending?;
      PendingMeansOpen(SharedOf(t[n]), a);
    }
  }

  ghost predicate Names(db: Db, k: KeyId, a: Uuid) {
    k in db.keys && db.keys[k].attempt == Some(a)
  }

  /** Idempotency rows and attempts are in bijection, and the two rows agree on business and invoice. */
  lemma KeysAndAttempts(t: seq<World>, n: nat)
    requires IsRun(t) && n < |t|
    ensures forall k :: k in t[n].db.keys ==>
              exists a :: a in t[n].db.attempts && Names(t[n].db, k, a)
                          && t[n].db.attempts[a].business == k.business
                          && t[n].db.attempts[a].invoice == t[n].db.keys[k].invoice
    ensures forall a :: a in t[n].db.attempts ==> exists k :: Names(t[n].db, k, a)
    ensures forall a, k, k' :: Names(t[n].db, k, a) && Names(t[n].db, k', a) ==> k == k'
  {
    RunHasInv(t, n);
    var db, origin := t[n].db, t[n].origin;
    forall k | k in db.keys
      ensures exists a :: a in db.attempts && Names(db, k, a)
                          && db.attempts[a].business == k.business && db.attempts[a].invoice == db.keys[k].invoice
    {
      var a := db.keys[k].attempt.value;
      assert a in db.attempts && a in origin && AttemptOk(db, origin, a) && Names(db, k, a);
    }
    forall a | a in db.attempts
      ensures exists k :: Names(db, k, a)
    {
      assert Names(db, KeyOf(origin[a]), a);
    }
    forall a, k, k' | Names(db, k, a) && Names(db, k', a)
      ensures k == k'
    {
      assert KeyOf(origin[db.keys[k].attempt.value]) == k;
    }
  }

  /** The outbox holds a payment.succeeded event for exactly the SUCCEEDED
      attempts, a payment.failed event for none but FAILED ones, and each event
      shows the attempt as it is stored. */
  lemma OutboxExact(t: seq<World>, n: nat, a: Uuid)
    requires IsRun(t) && n < |t|
    ensures EventKey(PaymentSucceeded, a) in t[n].db.outbox <==>
              a in t[n].db.attempts && t[n].db.attempts[a].status.Succeeded?
    ensures EventKey(PaymentFailed, a) in t[n].db.outbox ==> a in t[n].db.attempts && t[n].db.attempts[a].status.Failed?
    ensures forall e :: e in t[n].db.outbox && e.source == a ==>
              a in t[n].db.attempts && t[n].db.outbox[e] == t[n].db.attempts[a]
  {
    RunHasInv(t, n);
    var s, f := EventKey(PaymentSucceeded, a), EventKey(PaymentFailed, a);
    assert s in t[n].db.outbox ==> s.source in t[n].db.attempts;
    assert f in t[n].db.outbox ==> f.source in t[n].db.attempts;
  }

  /** Idempotent agreement: two calls with one (business, key), at any two
      moments, that return an attempt asked for the same thing and return the
      same attempt; once settled it is the same to both in every field. */
  lemma SameKeySameAnswer(t: seq<World>, m: nat, n: nat, g: Uuid, h: Uuid, x: Answer, y: Answer)
    requires IsRun(t) && m <= n < |t| && g in t[m].answers && h in t[n].answers
    requires x == t[m].answers[g] && y == t[n].answers[h]
    requires x.result.Returned? && y.result.Returned? && KeyOf(x.req) == KeyOf(y.req)
    ensures x.req == y.req && x.result.id == y.result.id
    ensures SameFixed(x.result.row, y.result.row)
    ensures !x.result.row.status.Pending? && !y.result.row.status.Pending? ==> x.result.row == y.result.row
  {
    RunHasInv(t, n);
    RunGrows(t, m, n);
    assert AnswerOk(SharedOf(t[n]), x) && AnswerOk(SharedOf(t[n]), y);
    var db, origin := t[n].db, t[n].origin;
    assert Names(db, KeyOf(origin[x.result.id]), x.result.id) && Names(db, KeyOf(origin[y.result.id]), y.result.id);
  }

  /** A payment ends as its card token says: SUCCEEDED only if the card is to be
      charged, FAILED only with the very code that is promised, and never at all
      while the token leaves its outcome open. */
  lemma TokenDecides(t: seq<World>, n: nat, a: Uuid)
    requires IsRun(t) && n < |t| && a in t[n].db.attempts
    ensures a in t[n].origin
    ensures var row, fate := t[n].db.attempts[a], FateOf(t[n].origin[a].token);
            && (row.status.Succeeded? ==> fate.Charging?)
            && (row.status.Failed? ==> row.failureCode.Some? && fate == Declining(row.failureCode.value))
            && (fate.Uncertain? ==> row.status.Pending?)
  {
    RunHasInv(t, n);
    if t[n].db.attempts[a].status.Succeeded? {
      CapturedNotFailed(SharedOf(t[n]), a, t[n].db.attempts[a].pspRef.value);
    }
  }

  /** An attempt with tok_network_error is for ever neither paid nor failed: it
      stays PENDING, no money is taken, no event is posted, the PSP sends no
      webhook about it, and every call that returns it says so, as unknown. */
  lemma NetworkErrorStaysPending(t: seq<World>, n: nat, a: Uuid)
    requires IsRun(t) && n < |t| && a in t[n].db.attempts && a in t[n].origin && t[n].origin[a].token.TokNetworkError?
    ensures t[n].db.attempts[a].status.Pending?
    ensures forall e :: e in t[n].db.outbox ==> e.source != a
    ensures forall ref :: !HasCapture(t[n].psp, a, ref)
    ensures forall m :: m in t[n].psp.mail ==> m.key != Some(a)
    ensures forall h :: h in t[n].answers && ReturnsAttempt(t[n].answers[h], a) ==>
              t[n].answers[h].result.row.status.Pending? && t[n].answers[h].unknown
  {
    TokenDecides(t, n, a);
    RunHasInv(t, n);
    NeverCaptured(SharedOf(t[n]), a);
    forall h | h in t[n].answers && ReturnsAttempt(t[n].answers[h], a)
      ensures t[n].answers[h].result.row.status.Pending? && t[n].answers[h].unknown
    {
      assert AnswerOk(SharedOf(t[n]), t[n].answers[h]);
    }
  }

  predicate ReturnsAttempt(x: Answer, a: Uuid) {
    x.result.Returned? && x.result.id == a
  }

  lemma NeverCaptured(s: Shared, a: Uuid)
    requires SharedInv(s) && a in s.origin && !Charges(s.origin[a].token)
    ensures forall ref :: !HasCapture(s.psp, a, ref)
    ensures forall m :: m in s.psp.mail ==> m.key != Some(a)
  {
    forall ref | HasCapture(s.psp, a, ref)
      ensures false
    {
      CapturedNotFailed(s, a, ref);
    }
    forall m | m in s.psp.mail
      ensures m.key != Some(a)
    {
      WebhookIsTrue(s, m);
    }
  }

  /** A PENDING attempt is returned only after a timeout or an unavailable PSP;
      FAILED and SUCCEEDED are answered only as the card token says, FAILED with
      its code; and no lookup that must find a row ever misses it. */
  lemma AnswersAreHonest(t: seq<World>, n: nat, h: Uuid, x: Answer)
    requires IsRun(t) && n < |t| && h in t[n].answers && x == t[n].answers[h]
    ensures x.result.Returned? && x.result.row.status.Pending? ==> x.unknown
    ensures x.result.Returned? && x.result.row.status.Failed? ==>
              x.result.row.failureCode.Some? && FateOf(x.req.token) == Declining(x.result.row.failureCode.value)
    ensures x.result.Returned? && x.result.row.status.Succeeded? ==> FateOf(x.req.token).Charging?
    ensures x.result != Refused(NoRows)
    ensures x.result.Refused? ==> RefusalOk(t[n].db, x.req, x.result.error)
    ensures x.result == Refused(IdempotencyConflict) ==>
              exists a :: a in t[n].origin && KeyOf(t[n].origin[a]) == KeyOf(x.req) && t[n].origin[a] != x.req
  {
    RunHasInv(t, n);
    assert AnswerOk(SharedOf(t[n]), x);
    if x.result.Returned? && x.result.row.status.Succeeded? {
      CapturedNotFailed(SharedOf(t[n]), x.result.id, x.result.row.pspRef.value);
    }
    if x.result == Refused(IdempotencyConflict) {
      var a := t[n].db.keys[KeyOf(x.req)].attempt.value;
      assert a in t[n].origin && t[n].origin[a] != x.req;
    }
  }

  /** A call that looks its key up after the key's record was committed replays
      that record's attempt if and only if it is for the same invoice and card
      token; otherwise it is refused as a conflict. */
  lemma LookupDecides(t: seq<World>, n: nat, h: Uuid)
    requires IsRun(t) && n < |t| && h in t[n].handlers && t[n].handlers[h].pc.Lookup? && t[n].handlers[h].job.Pay?
    requires KeyOf(t[n].handlers[h].job.req) in t[n].db.keys
    ensures var q := t[n].handlers[h].job.req;
            var row := t[n].db.keys[KeyOf(q)];
            var o := Effect(SharedOf(t[n]), t[n].next, t[n].handlers[h]);
            && row.attempt.Some? && row.attempt.value in t[n].origin
            && var first := t[n].origin[row.attempt.value];
               if q.invoice == first.invoice && q.token == first.token
               then o == Continue(SharedOf(t[n]), t[n].next, Replay(row.attempt.value))
               else o == Reply(SharedOf(t[n]), q, Refused(IdempotencyConflict), false)
  {
    RunHasInv(t, n);
    var q := t[n].handlers[h].job.req;
    var a := t[n].db.keys[KeyOf(q)].attempt.value;
    assert a in t[n].origin;
  }

  /** What the statements of a call do once the record of the very same request
      is committed: it is refused as already paid if and only if the invoice is
      PAID when it locks it; otherwise its insert of the key fails and it replays
      the attempt. */
  lemma KnownKeyEffects(s: Shared, next: Uuid, q: PayReq)
    requires SharedInv(s) && Committed(s.db, q)
    ensures q.invoice in s.db.invoices && s.db.keys[KeyOf(q)].attempt.Some?
    ensures var inv, a := s.db.invoices[q.invoice], s.db.keys[KeyOf(q)].attempt.value;
            && (inv.status.Paid? || inv.status.Open?)
            && PayEffect(s, next, q, Lookup) == Continue(s, next, Replay(a))
            && PayEffect(s, next, q, LockInvoice) ==
                 (if inv.status.Paid? then Reply(s, q, Refused(InvoiceAlreadyPaid), false)
                  else Continue(s, next, InsertKey(inv)))
            && (forall i :: PayEffect(s, next, q, OpenInvoice(i)) == Continue(s, next, InsertKey(i)))
            && (forall i :: PayEffect(s, next, q, InsertKey(i)) == Continue(s, next, Relookup))
            && PayEffect(s, next, q, Relookup) == Continue(s, next, Replay(a))
  {
    var a := s.db.keys[KeyOf(q)].attempt.value;
    assert a in s.db.attempts && a in s.origin && AttemptOk(s.db, s.origin, a);
    assert InvoiceOk(s.db, q.invoice);
    assert HasAttempt(s.db, q.invoice);
  }

  /** The key row of just this request is there. */
  predicate Committed(db: Db, q: PayReq) {
    KeyOf(q) in db.keys && db.keys[KeyOf(q)].invoice == q.invoice && db.keys[KeyOf(q)].hash == HashPayRequest(q)
  }

  /** The attempt a call works on, once it has one. */
  function WorksOn(pc: Pc): Option<Uuid> {
    match pc
    case Replay(id) => Some(id)
    case CallPsp(id, _) => Some(id)
    case Await(id, _, _) => Some(id)
    case LockSettle(id, _, _) => Some(id)
    case MarkSucceeded(id, _, _) => Some(id)
    case Reread(id, _, _) => Some(id)
    case MarkPaid(id, _, _, _) => Some(id)
    case EnqueueSuccess(id, _, _, _, _) => Some(id)
    case CommitSettle(id, _, _, _, _, _) => Some(id)
    case MarkFailed(id, _, _) => Some(id)
    case RereadFailed(id) => Some(id)
    case EnqueueFailure(id, _) => Some(id)
    case _ => None
  }

  /** The step goes on with attempt a, or returns it. */
  predicate KeepsTo(o: Outcome, origin: map<Uuid, PayReq>, a: Uuid) {
    && o.s.origin == origin
    && match o
       case Continue(_, _, pc) => WorksOn(pc) == Some(a)
       case Finish(_, answer) => answer.Some? && answer.value.result.Returned? && answer.value.result.id == a
  }

  lemma PayKeepsTo(s: Shared, next: Uuid, hd: Handler, a: Uuid)
    requires HandlerOk(s, hd) && hd.job.Pay? && WorksOn(hd.pc) == Some(a)
    requires hd.pc.Replay? || hd.pc.CallPsp? || hd.pc.Await?
    ensures KeepsTo(Effect(s, next, hd), s.origin, a)
  {
  }

  lemma SettleKeepsTo(s: Shared, next: Uuid, hd: Handler, a: Uuid)
    requires HandlerOk(s, hd) && hd.job.Pay? && WorksOn(hd.pc) == Some(a)
    requires !hd.pc.Replay? && !hd.pc.CallPsp? && !hd.pc.Await?
    requires a in s.db.attempts && s.db.attempts[a].invoice in s.db.invoices
    ensures KeepsTo(Effect(s, next, hd), s.origin, a)
  {
  }

  /** From then on the call works on that attempt until it returns it: it never
      starts another one and is never refused, unless a statement fails. */
  lemma CallKeepsToItsAttempt(t: seq<World>, n: nat, h: Uuid, a: Uuid)
    requires IsRun(t) && n < |t| && h in t[n].handlers && t[n].handlers[h].job.Pay?
    requires WorksOn(t[n].handlers[h].pc) == Some(a)
    ensures KeepsTo(Effect(SharedOf(t[n]), t[n].next, t[n].handlers[h]), t[n].origin, a)
  {
    RunHasInv(t, n);
    var s, hd := SharedOf(t[n]), t[n].handlers[h];
    assert HandlerOk(s, hd);
    if hd.pc.Replay? || hd.pc.CallPsp? || hd.pc.Await? {
      PayKeepsTo(s, t[n].next, hd, a);
    } else {
      assert AttemptOk(s.db, s.origin, a);
      SettleKeepsTo(s, t[n].next, hd, a);
    }
  }
}
