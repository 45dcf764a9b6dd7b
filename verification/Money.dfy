/** What the invariant means for money: at most one charge per invoice, of
    exactly its amount, in every run. */
module Money {
  import opened Model
  import opened SingleFlight
  import opened SingleFlightProofs
  import opened PspClient
  import opened Protocol
  import opened Invariant
  import opened Framework
  import opened SharedSteps
  import opened Steps

  // ---------------------------------------------------------------- whole runs

  lemma GrowsTransitive(s: Shared, s': Shared, s'': Shared)
    requires Grows(s, s') && Grows(s', s'')
    ensures Grows(s, s'')
  {
  }

  /** No call's answer is forgotten or changed. */
  ghost predicate AnswersStay(w: World, w': World) {
    forall h :: h in w.answers ==> h in w'.answers && w'.answers[h] == w.answers[h]
  }

  lemma DoGrows(w: World, a: Action)
    requires Inv(w) && Enabled(w, a)
    ensures Grows(SharedOf(w), SharedOf(Do(w, a))) && AnswersStay(w, Do(w, a))
  {
    AnswersStayPut(w, a);
    match a
    case Run(h) => StatementGrows(w, h);
    case LoseAck(h) => LateStatementGrows(w, h);
    case Resend(h) => ResendGrows(w, h);
    case PspMove(r) => PspMoveGrows(SharedOf(w), r);
    case _ => RowsStay(w, a);
  }

  /** Only the call itself is answered, and it has had no answer before. */
  lemma AnswersStayPut(w: World, a: Action)
    requires IdsOk(w) && Enabled(w, a)
    ensures AnswersStay(w, Do(w, a))
  {
  }

  lemma StatementGrows(w: World, h: Uuid)
    requires Inv(w) && Enabled(w, Run(h))
    ensures Grows(SharedOf(w), SharedOf(Do(w, Run(h))))
  {
    EffectGrows(w, h);
  }

  lemma EffectGrows(w: World, h: Uuid)
    requires Inv(w) && h in w.handlers
    ensures Grows(SharedOf(w), Effect(SharedOf(w), w.next, w.handlers[h]).s)
  {
    assert HandlerOk(SharedOf(w), w.handlers[h]);
    EffectOk(SharedOf(w), w.next, w.handlers[h]);
  }

  lemma LateStatementGrows(w: World, h: Uuid)
    requires Inv(w) && Enabled(w, LoseAck(h))
    ensures Grows(SharedOf(w), SharedOf(Do(w, LoseAck(h))))
  {
    EffectGrows(w, h);
  }

  lemma ResendGrows(w: World, h: Uuid)
    requires Inv(w) && Enabled(w, Resend(h))
    ensures Grows(SharedOf(w), SharedOf(Do(w, Resend(h))))
  {
    assert HandlerOk(SharedOf(w), w.handlers[h]);
    ResendOk(SharedOf(w), w.next, w.handlers[h]);
  }

  /** Arrivals, failures and departures change no row. */
  lemma RowsStay(w: World, a: Action)
    requires IdsOk(w) && Enabled(w, a) && !a.Run? && !a.LoseAck? && !a.Resend? && !a.PspMove?
    ensures Grows(SharedOf(w), SharedOf(Do(w, a))) && AnswersStay(w, Do(w, a))
    ensures Do(w, a).db == w.db && Do(w, a).psp == w.psp
  {
  }

  lemma PspMoveGrows(s: Shared, r: Uuid)
    requires SharedInv(s) && Ready(s.psp, r)
    ensures Grows(s, s.(psp := Step(s.psp, r)))
  {
    PspStepGrows(s.psp, r);
  }

  lemma NextGrows(t: seq<World>, n: nat)
    requires IsRun(t) && n < |t| - 1
    ensures Grows(SharedOf(t[n]), SharedOf(t[n + 1])) && AnswersStay(t[n], t[n + 1])
  {
    RunHasInv(t, n);
    assert StepAt(t, n);
    var a :| Enabled(t[n], a) && t[n + 1] == Do(t[n], a);
    DoGrows(t[n], a);
  }

  /** Rows, captures and answers of an earlier moment are still there later,
      and settled rows are unchanged. */
  lemma {:induction false} RunGrows(t: seq<World>, m: nat, n: nat)
    requires IsRun(t) && m <= n < |t|
    ensures Grows(SharedOf(t[m]), SharedOf(t[n])) && AnswersStay(t[m], t[n])
    decreases n
  {
    if m == n {
      GrowsReflexive(SharedOf(t[n]));
    } else {
      RunGrows(t, m, n - 1);
      NextGrows(t, n - 1);
      GrowsTransitive(SharedOf(t[m]), SharedOf(t[n - 1]), SharedOf(t[n]));
    }
  }

  lemma GrowsReflexive(s: Shared)
    ensures Grows(s, s)
  {
  }

  // ---------------------------------------------------------------- what was captured for an invoice

  /** Capture c took money for an attempt on invoice i. */
  predicate IsFor(c: Capture, origin: map<Uuid, PayReq>, i: Uuid) {
    c.key.Some? && c.key.value in origin && origin[c.key.value].invoice == i
  }

  /** The total taken from cards for invoice i. */
  function Captured(ledger: seq<Capture>, origin: map<Uuid, PayReq>, i: Uuid): int {
    if ledger == [] then 0
    else
      var c := ledger[|ledger| - 1];
      Captured(ledger[..|ledger| - 1], origin, i) + if IsFor(c, origin, i) then c.amount else 0
  }

  /** How often a card was charged for invoice i. */
  function Charged(ledger: seq<Capture>, origin: map<Uuid, PayReq>, i: Uuid): nat {
    if ledger == [] then 0
    else Charged(ledger[..|ledger| - 1], origin, i) + if IsFor(ledger[|ledger| - 1], origin, i) then 1 else 0
  }

  lemma {:induction false} NoneFor(ledger: seq<Capture>, origin: map<Uuid, PayReq>, i: Uuid)
    requires forall n :: 0 <= n < |ledger| ==> !IsFor(ledger[n], origin, i)
    ensures Captured(ledger, origin, i) == 0 && Charged(ledger, origin, i) == 0
  {
    if ledger != [] {
      NoneFor(ledger[..|ledger| - 1], origin, i);
    }
  }

  lemma {:induction false} OneFor(ledger: seq<Capture>, origin: map<Uuid, PayReq>, i: Uuid, n: nat)
    requires n < |ledger| && IsFor(ledger[n], origin, i)
    requires forall m :: 0 <= m < |ledger| && m != n ==> !IsFor(ledger[m], origin, i)
    ensures Captured(ledger, origin, i) == ledger[n].amount && Charged(ledger, origin, i) == 1
  {
    var rest := ledger[..|ledger| - 1];
    if n == |ledger| - 1 {
      NoneFor(rest, origin, i);
    } else {
      OneFor(rest, origin, i, n);
    }
  }

  /** Two captures for one invoice are the same capture. */
  lemma CaptureIsUnique(s: Shared, i: Uuid, m: nat, n: nat)
    requires SharedInv(s) && m < |s.psp.ledger| && n < |s.psp.ledger|
    requires IsFor(s.psp.ledger[m], s.origin, i) && IsFor(s.psp.ledger[n], s.origin, i)
    ensures m == n
  {
    var a, b := s.psp.ledger[m].key.value, s.psp.ledger[n].key.value;
    assert HasCapture(s.psp, a, s.psp.ledger[m].ref) && HasCapture(s.psp, b, s.psp.ledger[n].ref);
    CapturedNotFailed(s, a, s.psp.ledger[m].ref);
    CapturedNotFailed(s, b, s.psp.ledger[n].ref);
    assert AttemptOk(s.db, s.origin, a) && AttemptOk(s.db, s.origin, b);
    assert a == b;
  }

  /** Where the money of an invoice is. */
  lemma MoneyOf(s: Shared, i: Uuid)
    requires SharedInv(s) && i in s.db.invoices
    ensures Charged(s.psp.ledger, s.origin, i) == 0 ==> Captured(s.psp.ledger, s.origin, i) == 0
    ensures Charged(s.psp.ledger, s.origin, i) != 0 ==>
              Charged(s.psp.ledger, s.origin, i) == 1 && Captured(s.psp.ledger, s.origin, i) == s.db.invoices[i].amount
    ensures Charged(s.psp.ledger, s.origin, i) != 0 <==> CapturedOn(s, i)
  {
    if n :| 0 <= n < |s.psp.ledger| && IsFor(s.psp.ledger[n], s.origin, i) {
      forall m | 0 <= m < |s.psp.ledger| && m != n
        ensures !IsFor(s.psp.ledger[m], s.origin, i)
      {
        if IsFor(s.psp.ledger[m], s.origin, i) {
          CaptureIsUnique(s, i, m, n);
        }
      }
      OneFor(s.psp.ledger, s.origin, i, n);
      var a := s.psp.ledger[n].key.value;
      assert AttemptOk(s.db, s.origin, a);
      assert HasCapture(s.psp, a, s.psp.ledger[n].ref);
    } else {
      NoneFor(s.psp.ledger, s.origin, i);
    }
  }

  ghost predicate CapturedOn(s: Shared, i: Uuid) {
    exists n :: 0 <= n < |s.psp.ledger| && IsFor(s.psp.ledger[n], s.origin, i)
  }

  lemma PaidMeansCaptured(s: Shared, i: Uuid)
    requires SharedInv(s) && i in s.db.invoices && s.db.invoices[i].status.Paid?
    ensures CapturedOn(s, i)
  {
    assert InvoiceOk(s.db, i);
    var a :| a in s.db.attempts && s.db.attempts[a].invoice == i && s.db.attempts[a].status.Succeeded?;
    assert AttemptOk(s.db, s.origin, a);
    assert HasCapture(s.psp, a, s.db.attempts[a].pspRef.value);
    var n :| 0 <= n < |s.psp.ledger| && s.psp.ledger[n].key == Some(a)
             && s.psp.ledger[n].ref == s.db.attempts[a].pspRef.value;
    assert s.psp.ledger[n].key.value == a;
    assert IsFor(s.psp.ledger[n], s.origin, i);
  }

  /** No double charge: whatever clients, timeouts, webhooks and crashes do, an
      invoice is charged at most once, what was captured for it is nothing or
      exactly its amount, and it is exactly its amount if the invoice is PAID. */
  lemma NoDoubleCharge(t: seq<World>, n: nat, i: Uuid)
    requires IsRun(t) && n < |t| && i in t[0].db.invoices
    ensures i in t[n].db.invoices && t[n].db.invoices[i].amount == t[0].db.invoices[i].amount
    ensures Charged(t[n].psp.ledger, t[n].origin, i) <= 1
    ensures Captured(t[n].psp.ledger, t[n].origin, i) in {0, t[0].db.invoices[i].amount}
    ensures t[n].db.invoices[i].status.Paid? ==> Captured(t[n].psp.ledger, t[n].origin, i) == t[0].db.invoices[i].amount
  {
    RunHasInv(t, n);
    RunGrows(t, 0, n);
    MoneyOf(SharedOf(t[n]), i);
    if t[n].db.invoices[i].status.Paid? {
      PaidMeansCaptured(SharedOf(t[n]), i);
    }
  }

  /** FAILED is safe: an attempt once stored as FAILED stays as it is, and at no
      later moment has the PSP captured anything under its id. */
  lemma FailedIsSafe(t: seq<World>, m: nat, n: nat, a: Uuid)
    requires IsRun(t) && m <= n < |t|
    requires a in t[m].db.attempts && t[m].db.attempts[a].status.Failed?
    ensures a in t[n].db.attempts && t[n].db.attempts[a] == t[m].db.attempts[a]
    ensures forall ref :: !HasCapture(t[n].psp, a, ref)
  {
    RunHasInv(t, n);
    RunGrows(t, m, n);
    forall ref | HasCapture(t[n].psp, a, ref)
      ensures false
    {
      CapturedNotFailed(SharedOf(t[n]), a, ref);
    }
  }

  /** SUCCEEDED is final, and its psp_transaction_id is the PSP's own reference
      for the one capture made under the attempt's id. */
  lemma SucceededIsCharged(t: seq<World>, m: nat, n: nat, a: Uuid)
    requires IsRun(t) && m <= n < |t|
    requires a in t[m].db.attempts && t[m].db.attempts[a].status.Succeeded?
    ensures a in t[n].db.attempts && t[n].db.attempts[a] == t[m].db.attempts[a] && t[m].db.attempts[a].pspRef.Some?
    ensures forall ref :: HasCapture(t[n].psp, a, ref) <==> ref == t[m].db.attempts[a].pspRef.value
  {
    RunHasInv(t, n);
    RunGrows(t, m, n);
    var ref := t[n].db.attempts[a].pspRef.value;
    forall ref' | HasCapture(t[n].psp, a, ref')
      ensures ref' == ref
    {
      CaptureUnique(t[n].psp, a, ref, ref');
    }
  }
}
