/** Every change of the shared state keeps the shared invariant. */
module SharedSteps {
  import opened Model
  import opened SingleFlight
  import opened SingleFlightProofs
  import opened PspClient
  import opened Protocol
  import opened Invariant

  /** A change of the rows alone: what the PSP knows about them stays true. */
  lemma LinksStay(s: Shared, s': Shared)
    requires SharedInv(s) && Grows(s, s') && s'.psp == s.psp && s'.db.inbound == s.db.inbound
    requires DbInv(s'.db, s'.origin) && SettledOk(s'.db, s'.origin, s'.psp)
    ensures SharedInv(s')
  {
    forall r | r in s'.psp.procs
      ensures Genuine(s'.db, s'.origin, s'.psp.procs[r].req)
    {
      assert Genuine(s.db, s.origin, s.psp.procs[r].req);
      var a := s.psp.procs[r].req.key.value;
      assert a in s.db.attempts;
    }
    forall m | m in s'.psp.mail && m.event in s'.db.inbound && s'.db.inbound[m.event].InProcessed?
               && m.event !in s'.missed
      ensures m.key.Some? && m.key.value in s'.db.attempts && s'.db.attempts[m.key.value].status.Succeeded?
    {
      var a := m.key.value;
      assert a in s.db.attempts;
    }
  }

  // ---------------------------------------------------------------- createPendingAttempt commits

  /** Although its reads happened statements ago, the commit does what the whole
      of createPendingAttempt would do at this very moment. */
  lemma StartIsAtomic(s: Shared, q: PayReq, inv: Invoice, id: Uuid)
    requires HandlerOk(s, Handler(Pay(q), CommitStart(inv)))
    ensures ApplyStart(s.db, q, inv, id) == StartAttempt(s.db, q, id)
    ensures KeyOf(q) !in s.db.keys && !PendingOn(s.db, q.invoice)
    ensures PayableInvoice(s.db.invoices[q.invoice].status).None? && s.db.invoices[q.invoice].business == q.business
  {
  }

  /** Nothing on the invoice is live when an attempt starts. */
  lemma NoneLive(db: Db, i: Uuid)
    requires i in db.invoices && InvoiceOk(db, i)
    requires (db.invoices[i].status.Draft? || db.invoices[i].status.Open?) && !PendingOn(db, i)
    ensures forall a :: a in db.attempts && db.attempts[a].invoice == i ==> db.attempts[a].status.Failed?
  {
    forall a | a in db.attempts && db.attempts[a].invoice == i
      ensures db.attempts[a].status.Failed?
    {
      assert HasAttempt(db, i);
      assert db.attempts[a].status.Succeeded? ==> HasSucceeded(db, i);
    }
  }

  lemma StartKeepsKeys(s: Shared, q: PayReq, inv: Invoice, id: Uuid, db': Db)
    requires KeysOk(s.db, s.origin) && KeyOf(q) !in s.db.keys && q.invoice in s.db.invoices && id !in s.origin
    requires db' == ApplyStart(s.db, q, inv, id)
    ensures KeysOk(db', s.origin[id := q])
  {
  }

  lemma StartKeepsAttempts(s: Shared, q: PayReq, inv: Invoice, id: Uuid, db': Db)
    requires DbInv(s.db, s.origin) && HandlerOk(s, Handler(Pay(q), CommitStart(inv))) && id !in s.origin
    requires db' == ApplyStart(s.db, q, inv, id)
    ensures forall a :: a in db'.attempts ==> a in s.origin[id := q] && AttemptOk(db', s.origin[id := q], a)
  {
    forall a | a in db'.attempts
      ensures a in s.origin[id := q] && AttemptOk(db', s.origin[id := q], a)
    {
      assert a != id ==> a in s.db.attempts && AttemptOk(s.db, s.origin, a);
    }
  }

  lemma StartKeepsInvoices(s: Shared, q: PayReq, inv: Invoice, id: Uuid, db': Db)
    requires DbInv(s.db, s.origin) && HandlerOk(s, Handler(Pay(q), CommitStart(inv))) && id !in s.origin
    requires db' == ApplyStart(s.db, q, inv, id)
    ensures OneLive(db') && OutboxOk(db')
    ensures forall i :: i in db'.invoices ==> InvoiceOk(db', i)
  {
    NoneLive(s.db, q.invoice);
    assert db'.attempts[id].invoice == q.invoice;
    assert HasAttempt(db', q.invoice);
    forall i | i in db'.invoices
      ensures InvoiceOk(db', i)
    {
      assert InvoiceOk(s.db, i);
      assert HasSucceeded(s.db, i) <==> HasSucceeded(db', i) by { SameSucceeded(s.db, db', id, i); }
      assert i != q.invoice ==> (HasAttempt(s.db, i) <==> HasAttempt(db', i)) by { SameAttempts(s.db, db', id, i); }
    }
  }

  lemma SameSucceeded(db: Db, db': Db, id: Uuid, i: Uuid)
    requires id !in db.attempts && id in db'.attempts && db'.attempts[id].status.Pending?
    requires db'.attempts == db.attempts[id := db'.attempts[id]]
    ensures HasSucceeded(db, i) <==> HasSucceeded(db', i)
  {
    if HasSucceeded(db, i) {
      var a :| a in db.attempts && db.attempts[a].invoice == i && db.attempts[a].status.Succeeded?;
      assert db'.attempts[a] == db.attempts[a];
    }
  }

  lemma SameAttempts(db: Db, db': Db, id: Uuid, i: Uuid)
    requires id !in db.attempts && id in db'.attempts
    requires db'.attempts == db.attempts[id := db'.attempts[id]]
    ensures db'.attempts[id].invoice != i ==> (HasAttempt(db, i) <==> HasAttempt(db', i))
    ensures HasAttempt(db, i) ==> HasAttempt(db', i)
  {
    if HasAttempt(db, i) {
      var a :| a in db.attempts && db.attempts[a].invoice == i;
      assert db'.attempts[a] == db.attempts[a];
    }
  }

  lemma StartKeepsShared(s: Shared, q: PayReq, inv: Invoice, id: Uuid, s': Shared)
    requires SharedInv(s) && HandlerOk(s, Handler(Pay(q), CommitStart(inv))) && id !in s.origin
    requires s' == Started(s, q, inv, id)
    ensures SharedInv(s') && Grows(s, s')
  {
    StartKeepsKeys(s, q, inv, id, s'.db);
    StartKeepsAttempts(s, q, inv, id, s'.db);
    StartKeepsInvoices(s, q, inv, id, s'.db);
    StartGrows(s, q, inv, id, s');
    LinksStay(s, s');
  }

  lemma StartGrows(s: Shared, q: PayReq, inv: Invoice, id: Uuid, s': Shared)
    requires SharedInv(s) && HandlerOk(s, Handler(Pay(q), CommitStart(inv))) && id !in s.origin
    requires s' == Started(s, q, inv, id)
    ensures Grows(s, s') && SettledOk(s'.db, s'.origin, s'.psp)
  {
    StartDbGrows(s.db, q, inv, id);
    StartKeepsSettled(s.db, s'.db, s.origin, q, id, s.psp);
  }

  lemma StartDbGrows(db: Db, q: PayReq, inv: Invoice, id: Uuid)
    requires q.invoice in db.invoices && db.invoices[q.invoice] == inv && (inv.status.Draft? || inv.status.Open?)
    requires KeyOf(q) !in db.keys && id !in db.attempts
    ensures DbGrows(db, ApplyStart(db, q, inv, id))
  {
  }

  lemma StartKeepsSettled(db: Db, db': Db, origin: map<Uuid, PayReq>, q: PayReq, id: Uuid, psp: Psp)
    requires SettledOk(db, origin, psp) && id !in db.attempts && id !in origin
    requires id in db'.attempts && db'.attempts[id].status.Pending?
    requires db'.attempts == db.attempts[id := db'.attempts[id]]
    ensures SettledOk(db', origin[id := q], psp)
  {
  }

  // ---------------------------------------------------------------- persistSuccess commits

  /** The commit of persistSuccess does what the whole transaction would do at this very moment. */
  lemma SettleIsAtomic(s: Shared, hd: Handler)
    requires SharedInv(s) && hd.pc.CommitSettle? && HandlerOk(s, hd)
    ensures hd.pc.row.invoice in s.db.invoices
    ensures ApplySettle(s.db, hd.pc) == Settle(s.db, hd.pc.id, hd.pc.ref)
    ensures AsSucceeded(hd.pc.row, hd.pc.ref) == AsSucceeded(s.db.attempts[hd.pc.id], hd.pc.ref)
  {
    var id := hd.pc.id;
    assert AttemptOk(s.db, s.origin, id);
  }

  /** A succeeded attempt keeps the reference it has: the PSP never chose another. */
  lemma SameRef(s: Shared, id: Uuid, ref: Uuid)
    requires SharedInv(s) && id in s.db.attempts && s.db.attempts[id].status.Succeeded?
    requires HasCapture(s.psp, id, ref)
    ensures s.db.attempts[id] == AsSucceeded(s.db.attempts[id], ref)
  {
    CaptureUnique(s.psp, id, ref, s.db.attempts[id].pspRef.value);
    assert AttemptOk(s.db, s.origin, id);
  }

  /** A captured attempt has not failed. */
  lemma CapturedNotFailed(s: Shared, id: Uuid, ref: Uuid)
    requires SharedInv(s) && HasCapture(s.psp, id, ref)
    ensures id in s.db.attempts && id in s.origin
    ensures !s.db.attempts[id].status.Failed? && Charges(s.origin[id].token)
  {
    var i :| 0 <= i < |s.psp.ledger| && s.psp.ledger[i].key == Some(id) && s.psp.ledger[i].ref == ref;
    assert s.psp.ledger[i].key.value == id;
  }

  /** An invoice with a captured attempt is OPEN while the attempt is pending. */
  lemma PendingMeansOpen(s: Shared, id: Uuid)
    requires DbInv(s.db, s.origin) && id in s.db.attempts && s.db.attempts[id].status.Pending?
    ensures s.db.attempts[id].invoice in s.db.invoices
    ensures s.db.invoices[s.db.attempts[id].invoice].status.Open?
  {
    var i := s.db.attempts[id].invoice;
    assert AttemptOk(s.db, s.origin, id);
    assert InvoiceOk(s.db, i);
    assert HasAttempt(s.db, i);
    assert !HasSucceeded(s.db, i);
  }

  lemma SucceededMeansPaid(s: Shared, id: Uuid)
    requires DbInv(s.db, s.origin) && id in s.db.attempts && s.db.attempts[id].status.Succeeded?
    ensures s.db.attempts[id].invoice in s.db.invoices
    ensures s.db.invoices[s.db.attempts[id].invoice].status.Paid?
  {
    var i := s.db.attempts[id].invoice;
    assert AttemptOk(s.db, s.origin, id);
    assert InvoiceOk(s.db, i);
    assert HasAttempt(s.db, i) && HasSucceeded(s.db, i);
  }

  /** Settling what is settled changes nothing. */
  lemma SettleAgainIsNothing(s: Shared, id: Uuid, ref: Uuid)
    requires DbInv(s.db, s.origin)
    requires id in s.db.attempts && s.db.attempts[id].status.Succeeded?
    ensures Settle(s.db, id, ref) == s.db
  {
    SucceededMeansPaid(s, id);
  }

  lemma SettleKeepsRows(s: Shared, id: Uuid, ref: Uuid, db': Db)
    requires DbInv(s.db, s.origin) && id in s.db.attempts && s.db.attempts[id].status.Pending?
    requires db' == Settle(s.db, id, ref)
    ensures KeysOk(db', s.origin)
    ensures forall a :: a in db'.attempts ==> AttemptOk(db', s.origin, a)
  {
    PendingMeansOpen(s, id);
    assert AttemptOk(s.db, s.origin, id);
    forall a | a in db'.attempts
      ensures AttemptOk(db', s.origin, a)
    {
      assert AttemptOk(s.db, s.origin, a);
    }
  }

  lemma SettleKeepsOutbox(s: Shared, id: Uuid, ref: Uuid, db': Db)
    requires DbInv(s.db, s.origin) && id in s.db.attempts && s.db.attempts[id].status.Pending?
    requires db' == Settle(s.db, id, ref)
    ensures OneLive(db') && OutboxOk(db')
  {
  }

  lemma SettleKeepsInvoices(s: Shared, id: Uuid, ref: Uuid, db': Db)
    requires DbInv(s.db, s.origin) && id in s.db.attempts && s.db.attempts[id].status.Pending?
    requires db' == Settle(s.db, id, ref)
    ensures forall i :: i in db'.invoices ==> InvoiceOk(db', i)
  {
    PendingMeansOpen(s, id);
    forall i | i in db'.invoices
      ensures InvoiceOk(db', i)
    {
      assert InvoiceOk(s.db, i);
      UpdateKeepsAttempts(s.db, db', id, i);
      if i == s.db.attempts[id].invoice {
        assert db'.attempts[id].invoice == i && db'.attempts[id].status.Succeeded?;
        assert HasSucceeded(db', i);
      }
    }
  }

  /** Rewriting one pending attempt of another invoice changes nothing for invoice i. */
  lemma UpdateKeepsAttempts(db: Db, db': Db, id: Uuid, i: Uuid)
    requires id in db.attempts && id in db'.attempts && db.attempts[id].status.Pending?
    requires db'.attempts == db.attempts[id := db'.attempts[id]] && db'.attempts[id].invoice == db.attempts[id].invoice
    ensures HasAttempt(db, i) <==> HasAttempt(db', i)
    ensures db'.attempts[id].status.Failed? || i != db.attempts[id].invoice ==>
              (HasSucceeded(db, i) <==> HasSucceeded(db', i))
  {
    if HasAttempt(db, i) {
      var a :| a in db.attempts && db.attempts[a].invoice == i;
      assert db'.attempts[a].invoice == i;
    }
    if HasAttempt(db', i) {
      var a :| a in db'.attempts && db'.attempts[a].invoice == i;
      assert db.attempts[a].invoice == i;
    }
    if HasSucceeded(db, i) {
      var a :| a in db.attempts && db.attempts[a].invoice == i && db.attempts[a].status.Succeeded?;
      assert db'.attempts[a] == db.attempts[a];
    }
    if HasSucceeded(db', i) && (db'.attempts[id].status.Failed? || i != db.attempts[id].invoice) {
      var a :| a in db'.attempts && db'.attempts[a].invoice == i && db'.attempts[a].status.Succeeded?;
      assert db'.attempts[a] == db.attempts[a];
    }
  }

  lemma SettleKeepsShared(s: Shared, id: Uuid, ref: Uuid, s': Shared)
    requires SharedInv(s) && HasCapture(s.psp, id, ref)
    requires s' == s.(db := Settle(s.db, id, ref))
    ensures SharedInv(s') && Grows(s, s')
    ensures id in s'.db.attempts && s'.db.attempts[id].status.Succeeded?
  {
    CapturedNotFailed(s, id, ref);
    if s.db.attempts[id].status.Pending? {
      SettleKeepsRows(s, id, ref, s'.db);
      SettleKeepsOutbox(s, id, ref, s'.db);
      SettleKeepsInvoices(s, id, ref, s'.db);
      SettleGrows(s, id, ref, s');
      LinksStay(s, s');
    } else {
      SettleAgainIsNothing(s, id, ref);
    }
  }

  lemma SettleGrows(s: Shared, id: Uuid, ref: Uuid, s': Shared)
    requires SharedInv(s) && HasCapture(s.psp, id, ref)
    requires id in s.db.attempts && s.db.attempts[id].status.Pending?
    requires s' == s.(db := Settle(s.db, id, ref))
    ensures Grows(s, s') && SettledOk(s'.db, s'.origin, s'.psp)
  {
    SettleDbGrows(s.db, id, ref);
    SettleKeepsSettled(s.db, s.origin, s.psp, id, ref);
  }

  lemma SettleKeepsSettled(db: Db, origin: map<Uuid, PayReq>, psp: Psp, id: Uuid, ref: Uuid)
    requires SettledOk(db, origin, psp) && HasCapture(psp, id, ref)
    requires id in db.attempts && db.attempts[id].status.Pending?
    ensures SettledOk(Settle(db, id, ref), origin, psp)
  {
  }

  lemma SettleDbGrows(db: Db, id: Uuid, ref: Uuid)
    requires id in db.attempts && db.attempts[id].status.Pending?
    ensures DbGrows(db, Settle(db, id, ref))
  {
  }

  // ---------------------------------------------------------------- persistFailure

  lemma FailKeepsShared(s: Shared, id: Uuid, code: FailureCode, s': Shared)
    requires SharedInv(s) && id in s.db.attempts && s.db.attempts[id].status.Pending?
    requires FailsWith(s.origin[id].token, Some(code))
    requires s' == s.(db := FailIfPending(s.db, id, code))
    ensures SharedInv(s') && Grows(s, s')
  {
    FailKeepsRows(s, id, code, s');
    FailDbGrows(s.db, id, code);
    LinksStay(s, s');
  }

  lemma FailDbGrows(db: Db, id: Uuid, code: FailureCode)
    ensures DbGrows(db, FailIfPending(db, id, code))
  {
  }

  lemma FailKeepsRows(s: Shared, id: Uuid, code: FailureCode, s': Shared)
    requires SharedInv(s) && id in s.db.attempts && s.db.attempts[id].status.Pending?
    requires FailsWith(s.origin[id].token, Some(code))
    requires s' == s.(db := FailIfPending(s.db, id, code))
    ensures DbInv(s'.db, s'.origin) && SettledOk(s'.db, s'.origin, s'.psp)
  {
    FailKeepsAttempts(s.db, s.origin, id, code);
    FailKeepsInvoices(s.db, s.origin, id, code);
  }

  lemma FailKeepsAttempts(db: Db, origin: map<Uuid, PayReq>, id: Uuid, code: FailureCode)
    requires DbInv(db, origin) && id in db.attempts && db.attempts[id].status.Pending?
    ensures var db' := FailIfPending(db, id, code);
            && KeysOk(db', origin) && OneLive(db') && OutboxOk(db')
            && forall a :: a in db'.attempts ==> AttemptOk(db', origin, a)
  {
    var db' := FailIfPending(db, id, code);
    forall a | a in db'.attempts
      ensures AttemptOk(db', origin, a)
    {
      assert AttemptOk(db, origin, a);
    }
  }

  lemma FailKeepsInvoices(db: Db, origin: map<Uuid, PayReq>, id: Uuid, code: FailureCode)
    requires DbInv(db, origin) && id in db.attempts && db.attempts[id].status.Pending?
    ensures var db' := FailIfPending(db, id, code);
            forall i :: i in db'.invoices ==> InvoiceOk(db', i)
  {
    var db' := FailIfPending(db, id, code);
    assert db'.attempts[id].invoice == db.attempts[id].invoice;
    forall i | i in db'.invoices
      ensures InvoiceOk(db', i)
    {
      assert InvoiceOk(db, i);
      UpdateKeepsAttempts(db, db', id, i);
    }
  }

  lemma NotifyFailureKeepsShared(s: Shared, id: Uuid, s': Shared)
    requires SharedInv(s) && id in s.db.attempts && s.db.attempts[id].status.Failed?
    requires s' == s.(db := s.db.(outbox := Enqueue(s.db, EventKey(PaymentFailed, id), s.db.attempts[id])))
    ensures SharedInv(s') && Grows(s, s')
  {
    NotifyFailureKeepsRows(s.db, s'.db, s.origin, id);
    NotifyGrows(s, s', EventKey(PaymentFailed, id));
    SettledOkByAttempts(s, s');
    LinksStay(s, s');
  }

  lemma NotifyGrows(s: Shared, s': Shared, e: EventKey)
    requires exists payload :: s' == s.(db := s.db.(outbox := Enqueue(s.db, e, payload)))
    ensures Grows(s, s')
  {
  }

  lemma SettledOkByAttempts(s: Shared, s': Shared)
    requires SettledOk(s.db, s.origin, s.psp) && s'.db.attempts == s.db.attempts && s'.origin == s.origin
    requires s'.psp == s.psp
    ensures SettledOk(s'.db, s'.origin, s'.psp)
  {
  }

  lemma NotifyFailureKeepsRows(db: Db, db': Db, origin: map<Uuid, PayReq>, id: Uuid)
    requires DbInv(db, origin) && id in db.attempts && db.attempts[id].status.Failed?
    requires db' == db.(outbox := Enqueue(db, EventKey(PaymentFailed, id), db.attempts[id]))
    ensures DbInv(db', origin)
  {
    InvoicesUnchanged(db, db');
  }

  lemma InvoicesUnchanged(db: Db, db': Db)
    requires db'.invoices == db.invoices && db'.attempts == db.attempts
    requires forall i :: i in db.invoices ==> InvoiceOk(db, i)
    ensures forall i :: i in db'.invoices ==> InvoiceOk(db', i)
  {
    forall i | i in db'.invoices
      ensures InvoiceOk(db', i)
    {
      assert InvoiceOk(db, i);
      assert HasAttempt(db, i) <==> HasAttempt(db', i);
      assert HasSucceeded(db, i) <==> HasSucceeded(db', i);
    }
  }

  // ---------------------------------------------------------------- inbound events

  lemma InboundKeepsShared(s: Shared, m: Msg, st: InboundStatus, s': Shared)
    requires SharedInv(s) && m in s.psp.mail
    requires st.InProcessed? && m.event !in s.missed ==>
              m.key.Some? && m.key.value in s.db.attempts && s.db.attempts[m.key.value].status.Succeeded?
    requires s' == s.(db := s.db.(inbound := s.db.inbound[m.event := st]))
    ensures SharedInv(s') && Grows(s, s')
  {
    InboundKeepsRows(s.db, s'.db, s.origin);
    InboundKeepsCalls(s, s');
    InboundKeepsInbound(s, m, st, s');
    InboundDbGrows(s.db, s'.db);
  }

  lemma InboundDbGrows(db: Db, db': Db)
    requires db' == db.(inbound := db'.inbound)
    ensures DbGrows(db, db')
  {
  }

  lemma InboundKeepsCalls(s: Shared, s': Shared)
    requires CallsOk(s.db, s.origin, s.psp) && CapturesOk(s.db, s.origin, s.psp) && SettledOk(s.db, s.origin, s.psp)
    requires s'.db.attempts == s.db.attempts && s'.origin == s.origin && s'.psp == s.psp
    ensures CallsOk(s'.db, s'.origin, s'.psp) && CapturesOk(s'.db, s'.origin, s'.psp)
    ensures SettledOk(s'.db, s'.origin, s'.psp)
  {
    forall r | r in s'.psp.procs
      ensures Genuine(s'.db, s'.origin, s'.psp.procs[r].req)
    {
      assert Genuine(s.db, s.origin, s.psp.procs[r].req);
    }
  }

  lemma InboundKeepsInbound(s: Shared, m: Msg, st: InboundStatus, s': Shared)
    requires SharedInv(s) && m in s.psp.mail
    requires st.InProcessed? && m.event !in s.missed ==>
              m.key.Some? && m.key.value in s.db.attempts && s.db.attempts[m.key.value].status.Succeeded?
    requires s' == s.(db := s.db.(inbound := s.db.inbound[m.event := st]))
    ensures InboundOk(s'.db, s'.psp, s'.missed)
  {
  }

  lemma InboundKeepsRows(db: Db, db': Db, origin: map<Uuid, PayReq>)
    requires DbInv(db, origin) && db' == db.(inbound := db'.inbound)
    ensures DbInv(db', origin)
  {
    InvoicesUnchanged(db, db');
  }

  // ---------------------------------------------------------------- the PSP

  lemma SendKeepsShared(s: Shared, q: ChargeReq, s': Shared)
    requires SharedInv(s) && Genuine(s.db, s.origin, q)
    requires s' == s.(psp := Send(s.psp, q))
    ensures SharedInv(s') && Grows(s, s')
  {
    SendKeepsInv(s.psp, q);
    CapturesStay(s.psp, s'.psp);
  }

  lemma PspStepGrows(p: Psp, r: Uuid)
    requires PspInv(p) && Ready(p, r)
    ensures PspGrows(p, Step(p, r)) && p.next <= Step(p, r).next
    ensures Step(p, r).procs.Keys == p.procs.Keys
  {
  }

  lemma PspStepKeepsEntries(p: Psp, r: Uuid)
    requires PspInv(p) && Ready(p, r)
    ensures forall e :: e in p.entries ==>
              && e in Step(p, r).entries
              && Step(p, r).entries[e].key == p.entries[e].key && Step(p, r).entries[e].token == p.entries[e].token
  {
  }

  /** What a step of the PSP adds is about the request that moved. */
  lemma PspStepAdds(p: Psp, r: Uuid)
    requires PspInv(p) && Ready(p, r) && p.procs[r].req.key.Some?
    ensures forall e :: e in Step(p, r).entries && e !in p.entries ==>
              && Step(p, r).entries[e].key == p.procs[r].req.key.value
              && Step(p, r).entries[e].token == p.procs[r].req.token
    ensures forall i :: |p.ledger| <= i < |Step(p, r).ledger| ==>
              var c := Step(p, r).ledger[i];
              && c.key == p.procs[r].req.key && c.amount == p.procs[r].req.amount
              && c.currency == p.procs[r].req.currency
              && Charges(p.procs[r].req.token)
    ensures forall m :: m in Step(p, r).mail && m !in p.mail ==> m.key == p.procs[r].req.key && p.next <= m.event
    ensures forall s :: s in p.procs && s != r ==> Step(p, r).procs[s] == p.procs[s]
  {
  }

  /** The answer a request gets was decided by the token of some request for its key. */
  lemma PspStepDecider(p: Psp, r: Uuid)
    requires PspInv(p) && Ready(p, r) && Step(p, r).procs[r].stage.Replied?
    ensures (p.procs[r].stage.Waiting? && Step(p, r).procs[r].stage.decider == p.entries[p.procs[r].stage.e].token)
            || Step(p, r).procs[r].stage.decider == p.procs[r].req.token
  {
  }

  lemma PspStepKeepsCalls(s: Shared, r: Uuid, s': Shared)
    requires SharedInv(s) && Ready(s.psp, r) && s' == s.(psp := Step(s.psp, r))
    requires PspGrows(s.psp, s'.psp)
    ensures CallsOk(s'.db, s'.origin, s'.psp)
  {
    PspStepGrows(s.psp, r);
    PspStepKeepsEntries(s.psp, r);
    assert Genuine(s.db, s.origin, s.psp.procs[r].req);
    PspStepAdds(s.psp, r);
    if s'.psp.procs[r].stage.Replied? {
      PspStepDecider(s.psp, r);
    }
    forall c | c in s'.psp.procs
      ensures Genuine(s'.db, s'.origin, s'.psp.procs[c].req)
    {
      assert Genuine(s.db, s.origin, s.psp.procs[c].req);
    }
  }

  lemma PspStepKeepsCaptures(s: Shared, r: Uuid, s': Shared)
    requires SharedInv(s) && Ready(s.psp, r) && s' == s.(psp := Step(s.psp, r))
    requires PspGrows(s.psp, s'.psp)
    ensures CapturesOk(s'.db, s'.origin, s'.psp) && InboundOk(s'.db, s'.psp, s'.missed)
  {
    PspStepGrows(s.psp, r);
    assert Genuine(s.db, s.origin, s.psp.procs[r].req);
    PspStepAdds(s.psp, r);
  }

  lemma PspStepKeepsShared(s: Shared, r: Uuid, s': Shared)
    requires SharedInv(s) && Ready(s.psp, r) && s' == s.(psp := Step(s.psp, r))
    ensures SharedInv(s') && Grows(s, s')
  {
    PspStepGrows(s.psp, r);
    PspStepKeepsCalls(s, r, s');
    PspStepKeepsCaptures(s, r, s');
    StepKeepsInv(s.psp, r);
    CapturesStay(s.psp, s'.psp);
  }
}
