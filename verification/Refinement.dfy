/** The protocol refines an atomic machine with one small state per invoice:
    whatever is interleaved, timed out or lost, each step of the protocol is one
    step of that machine or none at all. */
module Refinement {
  import opened Model
  import opened SingleFlight
  import opened SingleFlightProofs
  import opened PspClient
  import opened Protocol
  import opened Invariant
  import opened Framework
  import opened SharedSteps
  import opened Steps
  import opened Money

  /** What has become of an invoice. */
  datatype Phase =
    | Due                            // nothing is under way
    | Authorising(a: Uuid, t: Token) // one attempt is pending, its card not charged
    | Taken(a: Uuid, ref: Uuid)      // one attempt is pending, its card charged once
    | Settled(a: Uuid, ref: Uuid)    // paid
    | Closed                         // void or uncollectible

  /** The atomic machine. */
  predicate PhaseStep(p: Phase, p': Phase) {
    match p
    case Due => p'.Authorising?
    case Authorising(a, t) => if Charges(t) then p'.Taken? && p'.a == a else p'.Due?
    case Taken(a, ref) => p' == Settled(a, ref)
    case Settled(_, _) => false
    case Closed => false
  }

  ghost predicate PendingFor(s: Shared, i: Uuid, a: Uuid) {
    a in s.db.attempts && s.db.attempts[a].invoice == i && s.db.attempts[a].status.Pending?
  }

  /** The refinement relation. */
  ghost predicate PhaseIs(s: Shared, i: Uuid, p: Phase)
    requires i in s.db.invoices
  {
    match p
    case Due =>
      && IsOpen(s, i)
      && forall a :: a in s.db.attempts && s.db.attempts[a].invoice == i ==> s.db.attempts[a].status.Failed?
    case Authorising(a, t) =>
      && PendingFor(s, i, a) && a in s.origin && t == s.origin[a].token
      && forall ref :: !HasCapture(s.psp, a, ref)
    case Taken(a, ref) => PendingFor(s, i, a) && HasCapture(s.psp, a, ref)
    case Settled(a, ref) =>
      && s.db.invoices[i].status.Paid?
      && a in s.db.attempts && s.db.attempts[a].invoice == i && s.db.attempts[a].status.Succeeded?
      && s.db.attempts[a].pspRef == Some(ref)
    case Closed => s.db.invoices[i].status.Void? || s.db.invoices[i].status.Uncollectible?
  }

  // ---------------------------------------------------------------- the relation is a function

  lemma PhaseExists(s: Shared, i: Uuid) returns (p: Phase)
    requires SharedInv(s) && i in s.db.invoices
    ensures PhaseIs(s, i, p)
  {
    assert InvoiceOk(s.db, i);
    if a :| PendingFor(s, i, a) {
      if ref :| HasCapture(s.psp, a, ref) {
        p := Taken(a, ref);
      } else {
        p := Authorising(a, s.origin[a].token);
      }
    } else if HasSucceeded(s.db, i) {
      var a :| a in s.db.attempts && s.db.attempts[a].invoice == i && s.db.attempts[a].status.Succeeded?;
      SucceededMeansPaid(s, a);
      p := Settled(a, s.db.attempts[a].pspRef.value);
    } else if IsOpen(s, i) {
      forall a | a in s.db.attempts && s.db.attempts[a].invoice == i
        ensures s.db.attempts[a].status.Failed?
      {
        assert !PendingFor(s, i, a);
      }
      p := Due;
    } else {
      p := Closed;
    }
  }

  /** The invoice's status and its attempts fit the phase. */
  ghost predicate Fits(db: Db, i: Uuid, p: Phase)
    requires i in db.invoices
  {
    && (p.Authorising? || p.Taken? ==> db.invoices[i].status.Open?)
    && (p.Settled? <==> db.invoices[i].status.Paid?)
    && forall a :: a in db.attempts && db.attempts[a].invoice == i && !db.attempts[a].status.Failed? ==>
         !p.Due? && !p.Closed? && p.a == a
  }

  lemma PhaseFits(s: Shared, i: Uuid, p: Phase)
    requires SharedInv(s) && i in s.db.invoices && PhaseIs(s, i, p)
    ensures Fits(s.db, i, p)
  {
    assert InvoiceOk(s.db, i);
    if !p.Due? && !p.Closed? && s.db.attempts[p.a].status.Pending? {
      PendingMeansOpen(s, p.a);
    }
    forall a | a in s.db.attempts && s.db.attempts[a].invoice == i
      ensures !p.Closed?
    {
      assert HasAttempt(s.db, i);
    }
  }

  lemma PhaseIsUnique(s: Shared, i: Uuid, p: Phase, p': Phase)
    requires SharedInv(s) && i in s.db.invoices && PhaseIs(s, i, p) && PhaseIs(s, i, p')
    ensures p == p'
  {
    PhaseFits(s, i, p);
    PhaseFits(s, i, p');
    if p.Taken? && p'.Taken? {
      CaptureUnique(s.psp, p.a, p.ref, p'.ref);
    }
  }

  // ---------------------------------------------------------------- one step

  /** A step writes to at most one attempt, or lets the PSP charge at most one card. */
  ghost predicate OneMove(s: Shared, s': Shared) {
    && (forall i :: i in s.db.invoices && i in s'.db.invoices ==>
          || s'.db.invoices[i].status == s.db.invoices[i].status
          || s'.db.invoices[i].status.Open? || s'.db.invoices[i].status.Paid?)
    && (|| (s'.db.attempts == s.db.attempts && |s'.psp.ledger| <= |s.psp.ledger| + 1)
        || (s'.psp.ledger == s.psp.ledger && exists a :: WritesOnly(s.db, s'.db, a)))
  }

  ghost predicate WritesOnly(db: Db, db': Db, a: Uuid) {
    && a in db'.attempts
    && db'.attempts == db.attempts[a := db'.attempts[a]]
    && (if a in db.attempts then db.attempts[a].status.Pending? else db'.attempts[a].status.Pending?)
  }

  lemma EffectMovesOnce(s: Shared, next: Uuid, hd: Handler)
    requires SharedInv(s) && HandlerOk(s, hd) && next !in s.origin
    ensures OneMove(s, Effect(s, next, hd).s)
  {
    if hd.pc.CommitStart? || hd.pc.CommitSettle? || hd.pc.MarkFailed? {
      WriteMovesOnce(s, next, hd);
    } else {
      QuietEffect(s, next, hd);
      QuietMove(s, Effect(s, next, hd).s);
    }
  }

  lemma WriteMovesOnce(s: Shared, next: Uuid, hd: Handler)
    requires SharedInv(s) && HandlerOk(s, hd) && next !in s.origin
    requires hd.pc.CommitStart? || hd.pc.CommitSettle? || hd.pc.MarkFailed?
    ensures OneMove(s, Effect(s, next, hd).s)
  {
    if hd.pc.CommitStart? {
      StartMovesOnce(s, next, hd);
    } else if hd.pc.CommitSettle? {
      CommitMovesOnce(s, next, hd);
    } else {
      FailMovesOnce(s, next, hd);
    }
  }

  lemma QuietMove(s: Shared, s': Shared)
    requires s'.db.invoices == s.db.invoices && s'.db.attempts == s.db.attempts && s'.psp.ledger == s.psp.ledger
    ensures OneMove(s, s')
  {
  }

  lemma StartMovesOnce(s: Shared, next: Uuid, hd: Handler)
    requires hd.pc.CommitStart? && HandlerOk(s, hd) && next !in s.db.attempts
    ensures OneMove(s, Effect(s, next, hd).s)
  {
    assert WritesOnly(s.db, Effect(s, next, hd).s.db, next);
  }

  lemma FailMovesOnce(s: Shared, next: Uuid, hd: Handler)
    requires hd.pc.MarkFailed? && HandlerOk(s, hd)
    ensures OneMove(s, Effect(s, next, hd).s)
  {
    var id := hd.pc.id;
    if s.db.attempts[id].status.Pending? {
      assert WritesOnly(s.db, Effect(s, next, hd).s.db, id);
    }
  }

  lemma CommitMovesOnce(s: Shared, next: Uuid, hd: Handler)
    requires SharedInv(s) && HandlerOk(s, hd) && hd.pc.CommitSettle?
    ensures OneMove(s, Effect(s, next, hd).s)
  {
    SettleIsAtomic(s, hd);
    assert Effect(s, next, hd).s == s.(db := Settle(s.db, hd.pc.id, hd.pc.ref));
    SettleMovesOnce(s, hd.pc.id, hd.pc.ref, Effect(s, next, hd).s);
  }

  lemma SettleMovesOnce(s: Shared, id: Uuid, ref: Uuid, s': Shared)
    requires SharedInv(s) && HasCapture(s.psp, id, ref) && s' == s.(db := Settle(s.db, id, ref))
    ensures OneMove(s, s')
  {
    CapturedNotFailed(s, id, ref);
    if s.db.attempts[id].status.Pending? {
      assert WritesOnly(s.db, s'.db, id);
    } else {
      SettleAgainIsNothing(s, id, ref);
    }
  }

  lemma QuietEffect(s: Shared, next: Uuid, hd: Handler)
    requires HandlerOk(s, hd) && !hd.pc.CommitStart? && !hd.pc.CommitSettle? && !hd.pc.MarkFailed?
    ensures var s' := Effect(s, next, hd).s;
            s'.db.invoices == s.db.invoices && s'.db.attempts == s.db.attempts && s'.psp.ledger == s.psp.ledger
  {
    if hd.job.Hook? {
      QuietHook(s, next, hd);
    }
  }

  lemma QuietHook(s: Shared, next: Uuid, hd: Handler)
    requires HandlerOk(s, hd) && hd.job.Hook? && !hd.pc.CommitSettle? && !hd.pc.MarkFailed?
    ensures var s' := Effect(s, next, hd).s;
            s'.db.invoices == s.db.invoices && s'.db.attempts == s.db.attempts && s'.psp.ledger == s.psp.ledger
  {
  }

  lemma PspChargesOnce(p: Psp, r: Uuid)
    requires Ready(p, r)
    ensures |Step(p, r).ledger| <= |p.ledger| + 1
  {
  }

  lemma DoMovesOnce(w: World, a: Action)
    requires Inv(w) && Enabled(w, a)
    ensures OneMove(SharedOf(w), SharedOf(Do(w, a)))
  {
    match a
    case Run(h) => StatementMovesOnce(w, h);
    case LoseAck(h) => StatementMovesOnce(w, h);
    case _ => OtherwiseQuiet(w, a);
  }

  lemma StatementMovesOnce(w: World, h: Uuid)
    requires Inv(w) && h in w.handlers
    ensures OneMove(SharedOf(w), Effect(SharedOf(w), w.next, w.handlers[h]).s)
  {
    assert HandlerOk(SharedOf(w), w.handlers[h]);
    EffectMovesOnce(SharedOf(w), w.next, w.handlers[h]);
  }

  lemma OtherwiseQuiet(w: World, a: Action)
    requires Enabled(w, a) && !a.Run? && !a.LoseAck?
    ensures OneMove(SharedOf(w), SharedOf(Do(w, a)))
  {
    if a.PspMove? {
      PspChargesOnce(w.psp, a.r);
    } else {
      QuietMove(SharedOf(w), SharedOf(Do(w, a)));
    }
  }

  /** While the rows stay, the only change can be that a pending attempt's card is charged. */
  lemma ChargeMovesPhase(s: Shared, s': Shared, i: Uuid, p: Phase, p': Phase)
    requires SharedInv(s) && SharedInv(s') && Grows(s, s') && OneMove(s, s') && s'.db.attempts == s.db.attempts
    requires i in s.db.invoices && i in s'.db.invoices && PhaseIs(s, i, p) && PhaseIs(s', i, p')
    ensures p' == p || PhaseStep(p, p')
  {
    PhaseFits(s, i, p);
    PhaseFits(s', i, p');
    CapturesStay(s.psp, s'.psp);
    Fixed(s, s', i);
    if p'.Taken? {
      CapturedNotFailed(s', p'.a, p'.ref);
      if p.Taken? {
        CaptureUnique(s'.psp, p'.a, p'.ref, p.ref);
      }
    }
    SameRowsMovePhase(s, s', i, p, p');
  }

  lemma SameRowsMovePhase(s: Shared, s': Shared, i: Uuid, p: Phase, p': Phase)
    requires i in s.db.invoices && i in s'.db.invoices && PhaseIs(s, i, p) && PhaseIs(s', i, p')
    requires Fits(s.db, i, p) && Fits(s'.db, i, p') && s'.db.attempts == s.db.attempts
    requires !IsOpen(s, i) ==> s'.db.invoices[i].status == s.db.invoices[i].status
    requires s'.db.invoices[i].status in {s.db.invoices[i].status, Open, Paid}
    requires forall b :: b in s.origin ==> b in s'.origin && s'.origin[b] == s.origin[b]
    requires forall k, ref :: HasCapture(s.psp, k, ref) ==> HasCapture(s'.psp, k, ref)
    requires p'.Taken? ==>
              p'.a in s'.origin && Charges(s'.origin[p'.a].token) && (p.Taken? && p.a == p'.a ==> p.ref == p'.ref)
    ensures p' == p || PhaseStep(p, p')
  {
  }

  lemma SameCaptures(p: Psp, p': Psp)
    requires p'.ledger == p.ledger
    ensures forall k, ref :: HasCapture(p', k, ref) <==> HasCapture(p, k, ref)
  {
  }

  lemma Fixed(s: Shared, s': Shared, i: Uuid)
    requires Grows(s, s') && i in s.db.invoices
    ensures i in s'.db.invoices
    ensures !s.db.invoices[i].status.Draft? && !s.db.invoices[i].status.Open? ==>
              s'.db.invoices[i].status == s.db.invoices[i].status
    ensures forall a :: a in s.origin ==> a in s'.origin && s'.origin[a] == s.origin[a]
  {
  }

  /** A new attempt can only start a payment. */
  lemma StartMovesPhase(s: Shared, s': Shared, i: Uuid, p: Phase, p': Phase, a: Uuid)
    requires i in s.db.invoices && i in s'.db.invoices && PhaseIs(s, i, p) && PhaseIs(s', i, p')
    requires Fits(s.db, i, p) && Fits(s'.db, i, p')
    requires !IsOpen(s, i) ==> s'.db.invoices[i].status == s.db.invoices[i].status
    requires s'.db.invoices[i].status in {s.db.invoices[i].status, Open, Paid}
    requires forall b :: b in s.origin ==> b in s'.origin && s'.origin[b] == s.origin[b]
    requires forall k, ref :: HasCapture(s'.psp, k, ref) <==> HasCapture(s.psp, k, ref)
    requires a !in s.db.attempts && WritesOnly(s.db, s'.db, a) && forall ref :: !HasCapture(s.psp, a, ref)
    requires forall k, ref, ref' :: HasCapture(s.psp, k, ref) && HasCapture(s.psp, k, ref') ==> ref == ref'
    ensures p' == p || (p.Due? && p'.Authorising?)
  {
    assert forall b :: b in s.db.attempts ==> s'.db.attempts[b] == s.db.attempts[b];
    if p' != p && s'.db.attempts[a].invoice == i {
      assert p'.a == a;
    }
  }

  /** A write to a pending attempt can only end its payment. */
  lemma EndMovesPhase(s: Shared, s': Shared, i: Uuid, p: Phase, p': Phase, a: Uuid)
    requires i in s.db.invoices && i in s'.db.invoices && PhaseIs(s, i, p) && PhaseIs(s', i, p')
    requires Fits(s.db, i, p) && Fits(s'.db, i, p')
    requires !IsOpen(s, i) ==> s'.db.invoices[i].status == s.db.invoices[i].status
    requires s'.db.invoices[i].status in {s.db.invoices[i].status, Open, Paid}
    requires forall b :: b in s.origin ==> b in s'.origin && s'.origin[b] == s.origin[b]
    requires forall k, ref :: HasCapture(s'.psp, k, ref) <==> HasCapture(s.psp, k, ref)
    requires a in s.db.attempts && a in s.origin && WritesOnly(s.db, s'.db, a)
    requires s'.db.attempts[a].invoice == s.db.attempts[a].invoice
    requires Ended(s, s'.db.attempts[a], a)
    requires forall k, ref, ref' :: HasCapture(s.psp, k, ref) && HasCapture(s.psp, k, ref') ==> ref == ref'
    ensures p' == p || PhaseStep(p, p')
  {
    assert forall b :: b in s.db.attempts && b != a ==> b in s'.db.attempts && s'.db.attempts[b] == s.db.attempts[b];
    if p' != p && s.db.attempts[a].invoice == i {
      assert p.a == a;
    }
  }

  lemma WriteMovesPhase(s: Shared, s': Shared, i: Uuid, p: Phase, p': Phase, a: Uuid)
    requires SharedInv(s) && SharedInv(s') && Grows(s, s') && OneMove(s, s')
    requires s'.psp.ledger == s.psp.ledger && WritesOnly(s.db, s'.db, a)
    requires i in s.db.invoices && i in s'.db.invoices && PhaseIs(s, i, p) && PhaseIs(s', i, p')
    ensures p' == p || PhaseStep(p, p')
  {
    PhaseFits(s, i, p);
    PhaseFits(s', i, p');
    SameCaptures(s.psp, s'.psp);
    Fixed(s, s', i);
    forall k, ref, ref' | HasCapture(s.psp, k, ref) && HasCapture(s.psp, k, ref')
      ensures ref == ref'
    {
      CaptureUnique(s.psp, k, ref, ref');
    }
    if a !in s.db.attempts {
      NewIsUncharged(s, a);
      StartMovesPhase(s, s', i, p, p', a);
    } else {
      WrittenAttempt(s, s', a);
      EndMovesPhase(s, s', i, p, p', a);
    }
  }

  lemma NewIsUncharged(s: Shared, a: Uuid)
    requires SharedInv(s) && a !in s.db.attempts
    ensures forall ref :: !HasCapture(s.psp, a, ref)
  {
    forall ref | HasCapture(s.psp, a, ref)
      ensures false
    {
      CapturedNotFailed(s, a, ref);
    }
  }

  /** A pending attempt becomes SUCCEEDED only if it was charged, FAILED only if it never will be. */
  ghost predicate Ended(s: Shared, row: Attempt, a: Uuid)
    requires a in s.origin
  {
    && (row.status.Succeeded? ==> row.pspRef.Some? && HasCapture(s.psp, a, row.pspRef.value))
    && (row.status.Failed? ==> !Charges(s.origin[a].token) && forall ref :: !HasCapture(s.psp, a, ref))
  }

  lemma WrittenAttempt(s: Shared, s': Shared, a: Uuid)
    requires SharedInv(s) && SharedInv(s') && Grows(s, s') && s'.psp.ledger == s.psp.ledger
    requires a in s.db.attempts && s.db.attempts[a].status.Pending?
    ensures a in s'.db.attempts && a in s.origin && s'.db.attempts[a].invoice == s.db.attempts[a].invoice
    ensures Ended(s, s'.db.attempts[a], a)
  {
    SameCaptures(s.psp, s'.psp);
    if s'.db.attempts[a].status.Failed? {
      FailedIsUncharged(s', a);
    }
  }

  lemma FailedIsUncharged(s: Shared, a: Uuid)
    requires SharedInv(s) && a in s.db.attempts && s.db.attempts[a].status.Failed?
    ensures a in s.origin && !Charges(s.origin[a].token) && forall ref :: !HasCapture(s.psp, a, ref)
  {
    forall ref | HasCapture(s.psp, a, ref)
      ensures false
    {
      CapturedNotFailed(s, a, ref);
    }
  }

  /** Every step of the protocol is one step of the atomic machine or none, for every invoice. */
  lemma StepRefines(w: World, a: Action, i: Uuid, p: Phase) returns (p': Phase)
    requires Inv(w) && Enabled(w, a) && i in w.db.invoices && PhaseIs(SharedOf(w), i, p)
    ensures i in Do(w, a).db.invoices && PhaseIs(SharedOf(Do(w, a)), i, p')
    ensures p' == p || PhaseStep(p, p')
  {
    var s, s' := SharedOf(w), SharedOf(Do(w, a));
    DoKeepsInv(w, a);
    DoGrows(w, a);
    DoMovesOnce(w, a);
    p' := PhaseExists(s', i);
    if s'.db.attempts == s.db.attempts {
      ChargeMovesPhase(s, s', i, p, p');
    } else {
      var b :| WritesOnly(s.db, s'.db, b);
      WriteMovesPhase(s, s', i, p, p', b);
    }
  }

  // ---------------------------------------------------------------- whole runs

  /** `ps` follows run t on invoice i. */
  ghost predicate Follows(t: seq<World>, i: Uuid, ps: seq<Phase>) {
    && |ps| == |t|
    && (forall n :: 0 <= n < |t| ==> i in t[n].db.invoices && PhaseIs(SharedOf(t[n]), i, ps[n]))
    && (forall n :: 0 <= n < |t| - 1 ==> ps[n + 1] == ps[n] || PhaseStep(ps[n], ps[n + 1]))
  }

  lemma {:induction false} RunRefines(t: seq<World>, i: Uuid) returns (ps: seq<Phase>)
    requires IsRun(t) && i in t[0].db.invoices
    ensures Follows(t, i, ps) && (ps[0].Due? || ps[0].Closed?)
  {
    if |t| == 1 {
      InitHasInv(t[0]);
      var p := PhaseExists(SharedOf(t[0]), i);
      ps := [p];
    } else {
      var m := |t| - 2;
      PrefixIsRun(t, m + 1);
      ps := RunRefines(t[..m + 1], i);
      assert t[..m + 1][m] == t[m];
      var p := NextRefines(t, m, i, ps[m]);
      FollowsOn(t, i, ps, p);
      ps := ps + [p];
    }
  }

  lemma PrefixIsRun(t: seq<World>, n: nat)
    requires IsRun(t) && 0 < n <= |t|
    ensures IsRun(t[..n])
  {
    forall k | 0 <= k < n - 1
      ensures StepAt(t[..n], k)
    {
      assert StepAt(t, k);
    }
  }

  lemma NextRefines(t: seq<World>, m: nat, i: Uuid, p: Phase) returns (p': Phase)
    requires IsRun(t) && m < |t| - 1 && i in t[m].db.invoices && PhaseIs(SharedOf(t[m]), i, p)
    ensures i in t[m + 1].db.invoices && PhaseIs(SharedOf(t[m + 1]), i, p')
    ensures p' == p || PhaseStep(p, p')
  {
    assert StepAt(t, m);
    var a :| Enabled(t[m], a) && t[m + 1] == Do(t[m], a);
    RunHasInv(t, m);
    p' := StepRefines(t[m], a, i, p);
  }

  lemma FollowsOn(t: seq<World>, i: Uuid, ps: seq<Phase>, p: Phase)
    requires |t| >= 2 && Follows(t[..|t| - 1], i, ps)
    requires i in t[|t| - 1].db.invoices && PhaseIs(SharedOf(t[|t| - 1]), i, p)
    requires p == ps[|t| - 2] || PhaseStep(ps[|t| - 2], p)
    ensures Follows(t, i, ps + [p])
  {
    var front := t[..|t| - 1];
    assert forall n :: 0 <= n < |front| ==> front[n] == t[n];
  }

  /** The phases of a run are the only ones that follow it, and tell how much was taken from cards. */
  lemma PhaseTellsMoney(t: seq<World>, i: Uuid, ps: seq<Phase>, n: nat)
    requires IsRun(t) && n < |t| && Follows(t, i, ps)
    ensures forall p :: PhaseIs(SharedOf(t[n]), i, p) ==> p == ps[n]
    ensures Captured(t[n].psp.ledger, t[n].origin, i) ==
              if ps[n].Taken? || ps[n].Settled? then t[n].db.invoices[i].amount else 0
    ensures Charged(t[n].psp.ledger, t[n].origin, i) == if ps[n].Taken? || ps[n].Settled? then 1 else 0
    ensures ps[n].Taken? || ps[n].Settled? ==>
              exists k :: 0 <= k < |t[n].psp.ledger|
                          && t[n].psp.ledger[k].key == Some(ps[n].a) && t[n].psp.ledger[k].ref == ps[n].ref
  {
    RunHasInv(t, n);
    var s, p := SharedOf(t[n]), ps[n];
    forall p' | PhaseIs(s, i, p')
      ensures p' == p
    {
      PhaseIsUnique(s, i, p, p');
    }
    MoneyOf(s, i);
    PhaseTellsCaptured(s, i, p);
  }

  lemma PhaseTellsCaptured(s: Shared, i: Uuid, p: Phase)
    requires SharedInv(s) && i in s.db.invoices && PhaseIs(s, i, p)
    ensures CapturedOn(s, i) <==> p.Taken? || p.Settled?
    ensures p.Taken? || p.Settled? ==> HasCapture(s.psp, p.a, p.ref)
  {
    PhaseFits(s, i, p);
    if p.Taken? || p.Settled? {
      CapturedNotFailed(s, p.a, p.ref);
      var k :| 0 <= k < |s.psp.ledger| && s.psp.ledger[k].key == Some(p.a) && s.psp.ledger[k].ref == p.ref;
      assert AttemptOk(s.db, s.origin, p.a);
      assert IsFor(s.psp.ledger[k], s.origin, i);
    }
    if CapturedOn(s, i) {
      var k :| 0 <= k < |s.psp.ledger| && IsFor(s.psp.ledger[k], s.origin, i);
      var a := s.psp.ledger[k].key.value;
      assert HasCapture(s.psp, a, s.psp.ledger[k].ref);
      CapturedNotFailed(s, a, s.psp.ledger[k].ref);
      assert AttemptOk(s.db, s.origin, a);
    }
  }
}
