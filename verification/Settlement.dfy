/** Settling a charge: once or often, in whatever order, by whatever path. */
module Settlement {
  import opened Model
  import opened SingleFlight
  import opened SingleFlightProofs
  import opened PspClient
  import opened Protocol
  import opened Invariant
  import opened SharedSteps
  import opened Steps
  import opened Money

  /** Apply a sequence of webhook deliveries, one after the other. */
  function SettleAll(db: Db, ds: seq<Msg>): Db
    requires forall m :: m in ds ==> m.key.Some?
  {
    if ds == [] then db
    else
      var last := ds[|ds| - 1];
      Settle(SettleAll(db, ds[..|ds| - 1]), last.key.value, last.ref)
  }

  ghost predicate Named(ds: seq<Msg>, a: Uuid) {
    exists m :: m in ds && m.key == Some(a)
  }

  /** The reference the PSP chose for a captured attempt. */
  ghost function RefOf(psp: Psp, a: Uuid): (ref: Uuid)
    requires exists r :: HasCapture(psp, a, r)
    ensures HasCapture(psp, a, ref)
  {
    var r :| HasCapture(psp, a, r);
    r
  }

  /** What deliveries do to one attempt. */
  ghost function AfterDeliveries(s: Shared, ds: seq<Msg>, a: Uuid): Attempt
    requires a in s.db.attempts
  {
    if s.db.attempts[a].status.Pending? && Named(ds, a) && exists r :: HasCapture(s.psp, a, r)
    then AsSucceeded(s.db.attempts[a], RefOf(s.psp, a))
    else s.db.attempts[a]
  }

  /** db' is db with some attempts settled and nothing else changed. */
  ghost predicate OnlySettled(db: Db, db': Db) {
    && db'.keys == db.keys && db'.inbound == db.inbound
    && db'.invoices.Keys == db.invoices.Keys && db'.attempts.Keys == db.attempts.Keys
    && (forall i :: i in db.invoices ==>
          db'.invoices[i] == db.invoices[i] || db'.invoices[i] == db.invoices[i].(status := Paid))
    && (forall e: EventKey :: e.etype.PaymentFailed? ==> (e in db'.outbox <==> e in db.outbox))
  }

  lemma {:induction false} DeliveriesSettle(s: Shared, ds: seq<Msg>)
    requires SharedInv(s) && forall m :: m in ds ==> m in s.psp.mail && m.key.Some?
    ensures Delivered(s, ds, SettleAll(s.db, ds))
  {
    if ds == [] {
      NothingDelivered(s);
    } else {
      var rest, last := ds[..|ds| - 1], ds[|ds| - 1];
      assert last in ds && rest + [last] == ds;
      DeliveriesSettle(s, rest);
      OneMoreDelivery(s, SettleAll(s.db, rest), rest, last);
    }
  }

  lemma NothingDelivered(s: Shared)
    requires SharedInv(s)
    ensures Delivered(s, [], s.db)
  {
    assert s.(db := s.db) == s;
  }

  /** db is what the rows of s become by the deliveries ds. */
  ghost predicate Delivered(s: Shared, ds: seq<Msg>, db: Db) {
    && SharedInv(s.(db := db))
    && OnlySettled(s.db, db)
    && forall a :: a in s.db.attempts ==> db.attempts[a] == AfterDeliveries(s, ds, a)
  }

  lemma OneMoreDelivery(s: Shared, db: Db, rest: seq<Msg>, last: Msg)
    requires SharedInv(s) && last in s.psp.mail && last.key.Some?
    requires Delivered(s, rest, db)
    ensures Delivered(s, rest + [last], Settle(db, last.key.value, last.ref))
  {
    var s1, id := s.(db := db), last.key.value;
    assert HasCapture(s1.psp, id, last.ref);
    SettleKeepsShared(s1, id, last.ref, s1.(db := Settle(db, id, last.ref)));
    CapturedNotFailed(s1, id, last.ref);
    SettleOnlySettles(s.db, db, id, last.ref);
    forall a | a in s.db.attempts
      ensures Settle(db, id, last.ref).attempts[a] == AfterDeliveries(s, rest + [last], a)
    {
      NamedByOneMore(rest, last, a);
      OneMoreOnAttempt(s, db, rest, last, a);
    }
  }

  lemma OneMoreOnAttempt(s: Shared, db: Db, rest: seq<Msg>, last: Msg, a: Uuid)
    requires PspInv(s.psp) && last in s.psp.mail && last.key.Some?
    requires a in s.db.attempts && a in db.attempts && last.key.value in db.attempts
    requires db.attempts[a] == AfterDeliveries(s, rest, a)
    requires !db.attempts[last.key.value].status.Failed?
    requires Named(rest + [last], a) <==> Named(rest, a) || last.key == Some(a)
    ensures Settle(db, last.key.value, last.ref).attempts[a] == AfterDeliveries(s, rest + [last], a)
  {
    if last.key == Some(a) {
      assert HasCapture(s.psp, a, last.ref);
      CaptureUnique(s.psp, a, last.ref, RefOf(s.psp, a));
    }
  }

  lemma SettleOnlySettles(db: Db, db': Db, id: Uuid, ref: Uuid)
    requires OnlySettled(db, db') && id in db'.attempts
    ensures OnlySettled(db, Settle(db', id, ref))
  {
  }

  lemma NamedByOneMore(rest: seq<Msg>, last: Msg, a: Uuid)
    ensures Named(rest + [last], a) <==> Named(rest, a) || last.key == Some(a)
  {
    if Named(rest, a) {
      var m :| m in rest && m.key == Some(a);
      assert m in rest + [last];
    }
    assert last in rest + [last];
  }

  /** Rows that obey the invariant and were only settled are determined by their attempts. */
  lemma DeterminedByAttempts(s: Shared, db: Db, db': Db)
    requires DbInv(s.db, s.origin) && DbInv(db, s.origin) && DbInv(db', s.origin)
    requires OnlySettled(s.db, db) && OnlySettled(s.db, db') && db.attempts == db'.attempts
    ensures db == db'
  {
    forall i | i in s.db.invoices
      ensures db.invoices[i] == db'.invoices[i]
    {
      assert InvoiceOk(db, i) && InvoiceOk(db', i) && InvoiceOk(s.db, i);
      StatusByAttempts(s.db, db, db', i);
    }
    OutboxByAttempts(s.db, db, db');
  }

  lemma StatusByAttempts(db0: Db, db: Db, db': Db, i: Uuid)
    requires i in db0.invoices && OnlySettled(db0, db) && OnlySettled(db0, db') && db.attempts == db'.attempts
    requires InvoiceOk(db, i) && InvoiceOk(db', i)
    ensures db.invoices[i] == db'.invoices[i]
  {
    assert HasSucceeded(db, i) <==> HasSucceeded(db', i);
    assert HasAttempt(db, i) <==> HasAttempt(db', i);
    if HasSucceeded(db, i) {
      assert HasAttempt(db, i);
    }
  }

  lemma OutboxByAttempts(db0: Db, db: Db, db': Db)
    requires OutboxOk(db) && OutboxOk(db')
    requires OnlySettled(db0, db) && OnlySettled(db0, db') && db.attempts == db'.attempts
    ensures db.outbox == db'.outbox
  {
    forall e: EventKey
      ensures e in db.outbox <==> e in db'.outbox
      ensures e in db.outbox ==> db.outbox[e] == db'.outbox[e]
    {
      if e.etype.PaymentSucceeded? {
        assert e == EventKey(PaymentSucceeded, e.source);
      }
    }
  }

  /** Any two sequences of deliveries of the PSP's webhooks that contain the same
      webhooks, however often and in whatever order, leave exactly the same
      invoices, attempts, keys and outbox. */
  lemma DeliveriesCommute(t: seq<World>, n: nat, ds: seq<Msg>, es: seq<Msg>)
    requires IsRun(t) && n < |t|
    requires forall m :: m in ds ==> m in t[n].psp.mail && m.key.Some?
    requires forall m :: m in es ==> m in t[n].psp.mail && m.key.Some?
    requires forall m :: m in ds <==> m in es
    ensures SettleAll(t[n].db, ds) == SettleAll(t[n].db, es)
  {
    RunHasInv(t, n);
    SameDeliveries(SharedOf(t[n]), ds, es);
  }

  lemma SameDeliveries(s: Shared, ds: seq<Msg>, es: seq<Msg>)
    requires SharedInv(s) && forall m :: m in ds ==> m in s.psp.mail && m.key.Some?
    requires forall m :: m in ds <==> m in es
    ensures SettleAll(s.db, ds) == SettleAll(s.db, es)
  {
    DeliveriesSettle(s, ds);
    DeliveriesSettle(s, es);
    SameDelivered(s, ds, es, SettleAll(s.db, ds), SettleAll(s.db, es));
    DeterminedByAttempts(s, SettleAll(s.db, ds), SettleAll(s.db, es));
  }

  lemma SameDelivered(s: Shared, ds: seq<Msg>, es: seq<Msg>, db: Db, db': Db)
    requires Delivered(s, ds, db) && Delivered(s, es, db')
    requires forall m :: m in ds <==> m in es
    ensures db.attempts == db'.attempts
  {
    forall a | a in s.db.attempts
      ensures db.attempts[a] == db'.attempts[a]
    {
      assert Named(ds, a) <==> Named(es, a);
    }
  }

  /** Once its card is charged, an attempt can end in one way only, whichever of
      the call, its repetitions and the webhooks settles it, in whatever order and
      however often: the rows are those of the one settlement under the PSP's
      reference. */
  lemma SettledAlike(t: seq<World>, m: nat, n: nat, a: Uuid, ref: Uuid)
    requires IsRun(t) && m <= n < |t|
    requires a in t[m].db.attempts && t[m].db.attempts[a].status.Pending? && HasCapture(t[m].psp, a, ref)
    ensures a in t[n].db.attempts
    ensures t[n].db.attempts[a].status.Pending? || (
              var once := Settle(t[m].db, a, ref);
              var i := t[m].db.attempts[a].invoice;
              && t[n].db.attempts[a] == once.attempts[a]
              && i in once.invoices && i in t[n].db.invoices && t[n].db.invoices[i] == once.invoices[i]
              && EventKey(PaymentSucceeded, a) in t[n].db.outbox
              && t[n].db.outbox[EventKey(PaymentSucceeded, a)] == once.attempts[a]
              && EventKey(PaymentFailed, a) !in t[n].db.outbox)
  {
    RunHasInv(t, m);
    RunHasInv(t, n);
    RunGrows(t, m, n);
    CapturesStay(t[m].psp, t[n].psp);
    var s, s' := SharedOf(t[m]), SharedOf(t[n]);
    CapturedNotFailed(s', a, ref);
    if !s'.db.attempts[a].status.Pending? {
      EndsAsSettled(s, s', a, ref);
    }
  }

  lemma EndsAsSettled(s: Shared, s': Shared, a: Uuid, ref: Uuid)
    requires SharedInv(s) && SharedInv(s') && DbGrows(s.db, s'.db)
    requires a in s.db.attempts && s.db.attempts[a].status.Pending? && a in s'.db.attempts
    requires s'.db.attempts[a].status.Succeeded? && HasCapture(s'.psp, a, ref)
    ensures var once := Settle(s.db, a, ref);
            var i := s.db.attempts[a].invoice;
            && s'.db.attempts[a] == once.attempts[a]
            && i in once.invoices && i in s'.db.invoices && s'.db.invoices[i] == once.invoices[i]
            && EventKey(PaymentSucceeded, a) in s'.db.outbox
            && s'.db.outbox[EventKey(PaymentSucceeded, a)] == once.attempts[a]
            && EventKey(PaymentFailed, a) !in s'.db.outbox
  {
    PendingMeansOpen(s, a);
    SucceededMeansPaid(s', a);
    SameRef(s', a, ref);
    assert SameFixed(s.db.attempts[a], s'.db.attempts[a]);
  }

  /** A webhook marked PROCESSED, unless its read failed, has settled its attempt
      under the reference the PSP chose, exactly once: the invoice is PAID and
      the one payment.succeeded event shows the stored attempt. */
  lemma ProcessedMeansSettled(t: seq<World>, n: nat, m: Msg)
    requires IsRun(t) && n < |t| && m in t[n].psp.mail
    requires m.event in t[n].db.inbound && t[n].db.inbound[m.event].InProcessed? && m.event !in t[n].missed
    ensures m.key.Some? && m.key.value in t[n].db.attempts
    ensures var row := t[n].db.attempts[m.key.value];
            && row.status.Succeeded? && row.pspRef == Some(m.ref)
            && row.invoice in t[n].db.invoices && t[n].db.invoices[row.invoice].status.Paid?
            && EventKey(PaymentSucceeded, m.key.value) in t[n].db.outbox
            && t[n].db.outbox[EventKey(PaymentSucceeded, m.key.value)] == row
    ensures Settle(t[n].db, m.key.value, m.ref) == t[n].db
  {
    RunHasInv(t, n);
    var s, id := SharedOf(t[n]), m.key.value;
    assert HasCapture(s.psp, id, m.ref);
    SameRef(s, id, m.ref);
    SucceededMeansPaid(s, id);
    SettleAgainIsNothing(s, id, m.ref);
  }

  /** Both transactions are atomic: their commits change the rows as if the whole
      transaction had run at that moment, and nothing else ever commits for them. */
  lemma CommitsAreAtomic(t: seq<World>, n: nat, h: Uuid)
    requires IsRun(t) && n < |t| && h in t[n].handlers
    requires t[n].handlers[h].pc.CommitStart? || t[n].handlers[h].pc.CommitSettle?
    ensures var w, hd := t[n], t[n].handlers[h];
            var w' := Apply(w, h, Effect(SharedOf(w), w.next, hd));
            if hd.pc.CommitSettle? then
              w'.db == Settle(w.db, hd.pc.id, hd.pc.ref) && HasCapture(w.psp, hd.pc.id, hd.pc.ref)
            else
              && hd.job.Pay? && hd.job.req.invoice in w.db.invoices
              && w'.db == StartAttempt(w.db, hd.job.req, w.next)
              && KeyOf(hd.job.req) !in w.db.keys && !PendingOn(w.db, hd.job.req.invoice) && w.next !in w.db.attempts
              && PayableInvoice(w.db.invoices[hd.job.req.invoice].status).None?
  {
    RunHasInv(t, n);
    assert HandlerOk(SharedOf(t[n]), t[n].handlers[h]);
    if t[n].handlers[h].pc.CommitSettle? {
      SettleCommits(SharedOf(t[n]), t[n].next, t[n].handlers[h]);
    } else {
      FreshId(t[n]);
      StartCommits(SharedOf(t[n]), t[n].next, t[n].handlers[h]);
    }
  }

  lemma SettleCommits(s: Shared, next: Uuid, hd: Handler)
    requires SharedInv(s) && HandlerOk(s, hd) && hd.pc.CommitSettle?
    ensures Effect(s, next, hd).s.db == Settle(s.db, hd.pc.id, hd.pc.ref) && HasCapture(s.psp, hd.pc.id, hd.pc.ref)
  {
    SettleIsAtomic(s, hd);
    CommitSettleIs(s, next, hd);
  }

  lemma StartCommits(s: Shared, next: Uuid, hd: Handler)
    requires HandlerOk(s, hd) && hd.pc.CommitStart?
    ensures hd.job.Pay? && hd.job.req.invoice in s.db.invoices
    ensures Effect(s, next, hd).s.db == StartAttempt(s.db, hd.job.req, next)
    ensures KeyOf(hd.job.req) !in s.db.keys && !PendingOn(s.db, hd.job.req.invoice)
    ensures PayableInvoice(s.db.invoices[hd.job.req.invoice].status).None?
  {
    StartIsAtomic(s, hd.job.req, hd.pc.inv, next);
  }
}
