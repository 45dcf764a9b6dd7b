/** Runs that show what the code allows although one would not expect it. */
module Witnesses {
  import opened Model
  import opened SingleFlight
  import opened PspClient
  import opened Protocol
  import opened Invariant
  import opened Steps
  import opened FailureEvents
  import opened Announcements
  import opened Stranded
  import opened Rescue

  const THE_REF: Uuid := 2
  const THE_EVENT: Uuid := 3

  function TheMsg(): Msg {
    Msg(THE_EVENT, true, false, Some(1), THE_REF, None)
  }

  /** The PSP's three steps on its first request, for a card it charges. */
  lemma ChargedAtPsp(t: seq<World>, c: ChargeReq) returns (t': seq<World>)
    requires IsRun(t) && Charges(c.token) && c.key.Some? && t[|t| - 1].psp == Send(EMPTY_PSP, c)
    ensures IsRun(t')
    ensures var w, w' := t[|t| - 1], t'[|t'| - 1];
            && w' == w.(psp := w'.psp)
            && w'.psp.procs == map[0 := Proc(c, Replied(200, Response(RespSucceeded, Some(THE_REF), None), c.token))]
            && w'.psp.mail == {Msg(THE_EVENT, true, false, c.key, THE_REF, None)}
            && w'.psp.ledger == [Capture(c.key, THE_REF, c.amount, c.currency)]
  {
    t' := Extend(t, PspMove(0));
    t' := Extend(t', PspMove(0));
    t' := Extend(t', PspMove(0));
  }

  // ---------------------------------------------------------------- a webhook that is marked PROCESSED and lost

  /** The server sends the charge and dies; the card is charged. */
  lemma ChargedAndDead(i: Uuid, inv: Invoice, q: PayReq) returns (t: seq<World>)
    requires q.invoice == i && inv.business == q.business && inv.status.Draft? && inv.amount > 0 && Charges(q.token)
    ensures IsRun(t)
    ensures var w := t[|t| - 1];
            && w.handlers == map[] && w.next == 2 && w.db.attempts == map[1 := NewAttempt(q, inv)]
            && w.db.inbound == map[]
            && w.psp.mail == {TheMsg()} && HasCapture(w.psp, 1, THE_REF)
  {
    t := StartedRun(i, inv, q);
    t := ExtendAlone(t, 0, Handler(Pay(q), CallPsp(1, NewAttempt(q, inv))));
    t := ChargedAtPsp(t, ChargeOf(q, 1, NewAttempt(q, inv)));
    assert t[|t| - 1].psp.ledger[0].key == Some(1);
    t := Extend(t, Crash(0));
  }

  /** The webhook arrives. */
  lemma DeliveredRun(t: seq<World>) returns (t': seq<World>)
    requires IsRun(t)
    requires var w := t[|t| - 1];
             w.handlers == map[] && w.next == 2 && w.db.inbound == map[] && TheMsg() in w.psp.mail
    ensures IsRun(t')
    ensures var w, w' := t[|t| - 1], t'[|t'| - 1];
            && w'.handlers == map[2 := Handler(Hook(TheMsg()), HookFetch)] && w'.psp == w.psp
            && w'.db == w.db.(inbound := map[THE_EVENT := InPending])
  {
    t' := Extend(t, Deliver(TheMsg()));
    assert t'[|t'| - 1].handlers == map[2 := Handler(Hook(TheMsg()), HookCreate)];
    t' := ExtendAlone(t', 2, Handler(Hook(TheMsg()), HookCreate));
  }

  /** The read of its attempt fails. */
  lemma MissedRun(t: seq<World>) returns (t': seq<World>)
    requires IsRun(t) && t[|t| - 1].handlers == map[2 := Handler(Hook(TheMsg()), HookFetch)]
    requires t[|t| - 1].db.inbound == map[THE_EVENT := InPending]
    ensures IsRun(t')
    ensures var w, w' := t[|t| - 1], t'[|t'| - 1];
            w'.handlers == map[] && w'.psp == w.psp && w'.db == w.db.(inbound := map[THE_EVENT := InProcessed])
  {
    t' := Extend(t, Miss(2));
    assert t'[|t'| - 1].handlers == map[2 := Handler(Hook(TheMsg()), HookMark(InProcessed))];
    AloneIsFree(t'[|t'| - 1], 2);
    t' := Extend(t', Run(2));
  }

  /** A card is charged, the server dies, and the webhook, whose read of the
      attempt fails, is marked PROCESSED: the attempt is PENDING and stays so in
      every continuation in which the client does not ask again. */
  lemma MissStrandsAttempt(i: Uuid, inv: Invoice, q: PayReq) returns (t: seq<World>)
    requires q.invoice == i && inv.business == q.business && inv.status.Draft? && inv.amount > 0 && Charges(q.token)
    ensures IsRun(t)
    ensures var w := t[|t| - 1];
            && 1 in w.db.attempts && w.db.attempts[1].status.Pending? && HasCapture(w.psp, 1, THE_REF)
            && TheMsg() in w.psp.mail && THE_EVENT in w.db.inbound && w.db.inbound[THE_EVENT].InProcessed?
            && forall w' :: Reaches(w, w', 1) ==> 1 in w'.db.attempts && w'.db.attempts[1].status.Pending?
  {
    t := ChargedAndDead(i, inv, q);
    t := DeliveredRun(t);
    t := MissedRun(t);
    LastIsStranded(t, NewAttempt(q, inv));
  }

  lemma LastIsStranded(t: seq<World>, row: Attempt)
    requires IsRun(t) && row.status.Pending? && t[|t| - 1].handlers == map[] && t[|t| - 1].db.attempts == map[1 := row]
    requires TheMsg() in t[|t| - 1].psp.mail && t[|t| - 1].db.inbound == map[THE_EVENT := InProcessed]
    ensures forall w' :: Reaches(t[|t| - 1], w', 1) ==> 1 in w'.db.attempts && w'.db.attempts[1].status.Pending?
  {
    MissedIsStranded(t[|t| - 1], row);
    StrandedInRun(t, |t| - 1, 1);
  }

  lemma MissedIsStranded(w: World, row: Attempt)
    requires w.handlers == map[] && w.db.attempts == map[1 := row] && row.status.Pending?
    requires TheMsg() in w.psp.mail && w.db.inbound == map[THE_EVENT := InProcessed]
    ensures IsStranded(w, 1)
  {
    assert IsSpent(w, TheMsg(), 1);
  }

  // -------------------- a call that is refused although its request was paid

  /** Handler h moves beside handler g, who holds nothing. */
  lemma ExtendBeside(t: seq<World>, h: Uuid, hd: Handler, g: Uuid, gd: Handler) returns (t': seq<World>)
    requires IsRun(t) && g != h && t[|t| - 1].handlers == map[h := hd, g := gd] && (gd.pc.Lookup? || gd.pc.LockInvoice?)
    ensures IsRun(t')
    ensures var w, w', o := t[|t| - 1], t'[|t'| - 1], Effect(SharedOf(t[|t| - 1]), t[|t| - 1].next, hd);
            && SharedOf(w') == o.s
            && (match o
                case Continue(_, next, pc) =>
                  w'.handlers == map[h := Handler(hd.job, pc), g := gd] && w'.next == next && w'.answers == w.answers
                case Finish(_, answer) =>
                  w'.handlers == map[g := gd] && w'.next == w.next
                  && w'.answers == if answer.Some? then w.answers[h := answer.value] else w.answers)
  {
    assert forall r :: !Holds(gd, r);
    t' := Extend(t, Run(h));
  }

  /** Two calls of one request, both before its key is committed: handler 1 is
      about to lock the invoice, handler 0 has committed attempt 2. */
  lemma TwoCalls(i: Uuid, inv: Invoice, q: PayReq) returns (t: seq<World>)
    requires q.invoice == i && inv.business == q.business && inv.status.Draft? && inv.amount > 0
    ensures IsRun(t)
    ensures var w, waits := t[|t| - 1], Handler(Pay(q), LockInvoice);
            && w.handlers == map[0 := Handler(Pay(q), CallPsp(2, NewAttempt(q, inv))), 1 := waits]
            && w.psp == EMPTY_PSP && w.answers == map[] && w.next == 3
            && w.db == Db(map[i := inv.(status := Open)], map[2 := NewAttempt(q, inv)],
                          map[KeyOf(q) := KeyRow(i, HashPayRequest(q), Some(2))], map[], map[])
  {
    t := TwoLookups(i, inv, q);
    var waits := Handler(Pay(q), LockInvoice);
    t := ExtendBeside(t, 0, Handler(Pay(q), LockInvoice), 1, waits);
    t := ExtendBeside(t, 0, Handler(Pay(q), OpenInvoice(inv)), 1, waits);
    t := ExtendBeside(t, 0, Handler(Pay(q), InsertKey(inv)), 1, waits);
    t := StartBeside(t, i, inv, q);
  }

  lemma TwoLookups(i: Uuid, inv: Invoice, q: PayReq) returns (t: seq<World>)
    requires q.invoice == i && inv.business == q.business && inv.status.Draft? && inv.amount > 0
    ensures IsRun(t)
    ensures var w, waits := t[|t| - 1], Handler(Pay(q), LockInvoice);
            && w.handlers == map[0 := waits, 1 := waits] && w.psp == EMPTY_PSP && w.answers == map[] && w.next == 2
            && w.db == Db(map[i := inv], map[], map[], map[], map[])
  {
    t := [World(Db(map[i := inv], map[], map[], map[], map[]), map[], EMPTY_PSP, {}, map[], map[], 0)];
    var looks, waits := Handler(Pay(q), Lookup), Handler(Pay(q), LockInvoice);
    t := Extend(t, Call(q));
    t := Extend(t, Call(q));
    assert t[|t| - 1].handlers == map[0 := looks, 1 := looks];
    t := ExtendBeside(t, 0, looks, 1, looks);
    assert t[|t| - 1].handlers == map[1 := looks, 0 := waits];
    t := ExtendBeside(t, 1, looks, 0, waits);
  }

  lemma StartBeside(t: seq<World>, i: Uuid, inv: Invoice, q: PayReq) returns (t': seq<World>)
    requires IsRun(t) && q.invoice == i && inv.status.Draft?
    requires var w := t[|t| - 1];
             && w.handlers == map[0 := Handler(Pay(q), CheckPending(inv)), 1 := Handler(Pay(q), LockInvoice)]
             && w.psp == EMPTY_PSP && w.answers == map[] && w.next == 2
             && w.db == Db(map[i := inv], map[], map[], map[], map[])
    ensures IsRun(t')
    ensures var w := t'[|t'| - 1];
            && w.handlers ==
                 map[0 := Handler(Pay(q), CallPsp(2, NewAttempt(q, inv))), 1 := Handler(Pay(q), LockInvoice)]
            && w.psp == EMPTY_PSP && w.answers == map[] && w.next == 3
            && w.db == Db(map[i := inv.(status := Open)], map[2 := NewAttempt(q, inv)],
                          map[KeyOf(q) := KeyRow(i, HashPayRequest(q), Some(2))], map[], map[])
  {
    var waits := Handler(Pay(q), LockInvoice);
    t' := ExtendBeside(t, 0, Handler(Pay(q), CheckPending(inv)), 1, waits);
    t' := ExtendBeside(t', 0, Handler(Pay(q), InsertAttempt(inv)), 1, waits);
    t' := ExtendBeside(t', 0, Handler(Pay(q), CommitStart(inv)), 1, waits);
  }

  /** The first call's charge is answered. */
  lemma ChargedBeside(t: seq<World>, q: PayReq, row: Attempt) returns (t': seq<World>)
    requires IsRun(t) && Charges(q.token) && t[|t| - 1].psp == EMPTY_PSP
    requires t[|t| - 1].handlers == map[0 := Handler(Pay(q), CallPsp(2, row)), 1 := Handler(Pay(q), LockInvoice)]
    ensures IsRun(t')
    ensures var w, w' := t[|t| - 1], t'[|t'| - 1];
            && w'.handlers == map[0 := Handler(Pay(q), LockSettle(2, row, THE_REF)), 1 := Handler(Pay(q), LockInvoice)]
            && w'.db == w.db && w'.answers == w.answers
  {
    var waits := Handler(Pay(q), LockInvoice);
    t' := ExtendBeside(t, 0, Handler(Pay(q), CallPsp(2, row)), 1, waits);
    t' := ChargedAtPsp(t', ChargeOf(q, 2, row));
    t' := ExtendBeside(t', 0, Handler(Pay(q), Await(2, row, 0)), 1, waits);
  }

  /** The first call settles its attempt and returns it. */
  lemma SettledBeside(t: seq<World>, i: Uuid, inv: Invoice, q: PayReq, row: Attempt) returns (t': seq<World>)
    requires IsRun(t) && t[|t| - 1].answers == map[] && row.invoice == i && row.status.Pending?
    requires var w := t[|t| - 1];
             && w.handlers == map[0 := Handler(Pay(q), LockSettle(2, row, THE_REF)), 1 := Handler(Pay(q), LockInvoice)]
             && w.db.invoices == map[i := inv] && inv.status.Open? && w.db.attempts == map[2 := row]
             && w.db.outbox == map[]
    ensures IsRun(t')
    ensures var w' := t'[|t'| - 1];
            && w'.handlers == map[1 := Handler(Pay(q), LockInvoice)]
            && w'.db.invoices == map[i := inv.(status := Paid)]
            && w'.answers == map[0 := Answer(q, Returned(2, AsSucceeded(row, THE_REF)), false)]
  {
    t' := PaidBeside(t, i, inv, q, row);
    t' := CommittedBeside(t', i, inv, q, row);
  }

  lemma PaidBeside(t: seq<World>, i: Uuid, inv: Invoice, q: PayReq, row: Attempt) returns (t': seq<World>)
    requires IsRun(t) && row.invoice == i && row.status.Pending?
    requires var w := t[|t| - 1];
             && w.handlers == map[0 := Handler(Pay(q), LockSettle(2, row, THE_REF)), 1 := Handler(Pay(q), LockInvoice)]
             && w.db.invoices == map[i := inv] && inv.status.Open? && w.db.attempts == map[2 := row]
    ensures IsRun(t')
    ensures var w, w' := t[|t| - 1], t'[|t'| - 1];
            && w'.handlers ==
                 map[0 := Handler(Pay(q), EnqueueSuccess(2, row, THE_REF, true, true)),
                     1 := Handler(Pay(q), LockInvoice)]
            && w'.db == w.db && w'.answers == w.answers
  {
    t' := MarkedBeside(t, q, row);
    t' := ExtendBeside(t', 0, Handler(Pay(q), MarkPaid(2, row, THE_REF, true)), 1, Handler(Pay(q), LockInvoice));
  }

  lemma MarkedBeside(t: seq<World>, q: PayReq, row: Attempt) returns (t': seq<World>)
    requires IsRun(t) && row.status.Pending?
    requires var w := t[|t| - 1];
             && w.handlers == map[0 := Handler(Pay(q), LockSettle(2, row, THE_REF)), 1 := Handler(Pay(q), LockInvoice)]
             && row.invoice in w.db.invoices && w.db.attempts == map[2 := row]
    ensures IsRun(t')
    ensures var w, w' := t[|t| - 1], t'[|t'| - 1];
            && w'.handlers ==
                 map[0 := Handler(Pay(q), MarkPaid(2, row, THE_REF, true)), 1 := Handler(Pay(q), LockInvoice)]
            && w'.db == w.db && w'.answers == w.answers
  {
    var waits := Handler(Pay(q), LockInvoice);
    t' := ExtendBeside(t, 0, Handler(Pay(q), LockSettle(2, row, THE_REF)), 1, waits);
    t' := ExtendBeside(t', 0, Handler(Pay(q), MarkSucceeded(2, row, THE_REF)), 1, waits);
  }

  lemma CommittedBeside(t: seq<World>, i: Uuid, inv: Invoice, q: PayReq, row: Attempt) returns (t': seq<World>)
    requires IsRun(t) && t[|t| - 1].answers == map[] && row.invoice == i
    requires var w := t[|t| - 1];
             && w.handlers ==
                  map[0 := Handler(Pay(q), EnqueueSuccess(2, row, THE_REF, true, true)),
                      1 := Handler(Pay(q), LockInvoice)]
             && w.db.invoices == map[i := inv] && w.db.attempts == map[2 := row] && w.db.outbox == map[]
    ensures IsRun(t')
    ensures var w' := t'[|t'| - 1];
            && w'.handlers == map[1 := Handler(Pay(q), LockInvoice)]
            && w'.db.invoices == map[i := inv.(status := Paid)]
            && w'.answers == map[0 := Answer(q, Returned(2, AsSucceeded(row, THE_REF)), false)]
  {
    var waits := Handler(Pay(q), LockInvoice);
    t' := ExtendBeside(t, 0, Handler(Pay(q), EnqueueSuccess(2, row, THE_REF, true, true)), 1, waits);
    t' := SettleBeside(t', q, row);
  }

  lemma SettleBeside(t: seq<World>, q: PayReq, row: Attempt) returns (t': seq<World>)
    requires IsRun(t) && row.invoice in t[|t| - 1].db.invoices && t[|t| - 1].db.attempts == map[2 := row]
    requires t[|t| - 1].handlers ==
               map[0 := Handler(Pay(q), CommitSettle(2, row, THE_REF, true, true, true)),
                   1 := Handler(Pay(q), LockInvoice)]
    ensures IsRun(t')
    ensures var w, w', i := t[|t| - 1], t'[|t'| - 1], row.invoice;
            && w'.handlers == map[1 := Handler(Pay(q), LockInvoice)]
            && w'.db.invoices == w.db.invoices[i := w.db.invoices[i].(status := Paid)]
            && w'.answers == w.answers[0 := Answer(q, Returned(2, AsSucceeded(row, THE_REF)), false)]
  {
    var commits := Handler(Pay(q), CommitSettle(2, row, THE_REF, true, true, true));
    t' := ExtendBeside(t, 0, commits, 1, Handler(Pay(q), LockInvoice));
  }

  /** One and the same request, sent twice at once, is paid, and answered both
      with the SUCCEEDED attempt and with ErrInvoiceAlreadyPaid. */
  lemma PaidYetRefused(i: Uuid, inv: Invoice, q: PayReq) returns (t: seq<World>)
    requires q.invoice == i && inv.business == q.business && inv.status.Draft? && inv.amount > 0 && Charges(q.token)
    ensures IsRun(t)
    ensures var w := t[|t| - 1];
            && w.handlers == map[]
            && w.answers == map[0 := Answer(q, Returned(2, AsSucceeded(NewAttempt(q, inv), THE_REF)), false),
                                1 := Answer(q, Refused(InvoiceAlreadyPaid), false)]
  {
    var row := NewAttempt(q, inv);
    t := TwoCalls(i, inv, q);
    t := ChargedBeside(t, q, row);
    t := SettledBeside(t, i, inv.(status := Open), q, row);
    t := RefusedAfter(t, i, inv, q);
  }

  lemma RefusedAfter(t: seq<World>, i: Uuid, inv: Invoice, q: PayReq) returns (t': seq<World>)
    requires IsRun(t) && q.invoice == i && inv.business == q.business
    requires var w := t[|t| - 1];
             w.handlers == map[1 := Handler(Pay(q), LockInvoice)] && w.db.invoices == map[i := inv.(status := Paid)]
    ensures IsRun(t') && t'[|t'| - 1].handlers == map[]
    ensures t'[|t'| - 1].answers == t[|t| - 1].answers[1 := Answer(q, Refused(InvoiceAlreadyPaid), false)]
  {
    AloneIsFree(t[|t| - 1], 1);
    t' := Extend(t, Run(1));
  }
}
