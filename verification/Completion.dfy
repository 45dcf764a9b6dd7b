/** A new payment, left alone, is carried out. */
module Completion {
  import opened Model
  import opened SingleFlight
  import opened Protocol
  import opened Invariant
  import opened Steps
  import opened Money
  import opened Runs
  import opened FailureEvents
  import opened Agreement
  import opened Recovery

  predicate IsEarly(pc: Pc) {
    pc.Lookup? || pc.LockInvoice? || InStartTx(pc)
  }

  /** Handler h serves q, alone, and has not committed anything. */
  ghost predicate Starting(w: World, h: Uuid, q: PayReq, db: Db) {
    && w.db == db && CanStart(db, q)
    && w.handlers.Keys == {h} && w.handlers[h].job == Pay(q) && IsEarly(w.handlers[h].pc)
  }

  /** It has committed attempt a, new since db. */
  ghost predicate Chose(w: World, h: Uuid, q: PayReq, db: Db, a: Uuid) {
    a !in db.attempts && OnCourse(w, h, q, a, true)
  }

  ghost predicate Underway(w: World, h: Uuid, q: PayReq, db: Db) {
    (Inv(w) && Starting(w, h, q, db)) || exists a :: Chose(w, h, q, db, a)
  }

  /** Until the commit each statement leads to the next one. */
  lemma EarlyAdvances(s: Shared, next: Uuid, hd: Handler, q: PayReq)
    requires HandlerOk(s, hd) && hd.job == Pay(q) && CanStart(s.db, q) && IsEarly(hd.pc)
    ensures var o := Effect(s, next, hd);
            && o.Continue? && ToGo(o.pc) < ToGo(hd.pc)
            && if hd.pc.CommitStart? then
                 o == Continue(Started(s, q, hd.pc.inv, next), next + 1, CallPsp(next, NewAttempt(q, hd.pc.inv)))
               else o.s == s && IsEarly(o.pc)
  {
  }

  lemma StartedIsPending(s: Shared, q: PayReq, inv: Invoice, id: Uuid)
    ensures StartedBy(Started(s, q, inv, id), q, id) && !IsFailed(Started(s, q, inv, id).db, id)
  {
  }

  lemma CommitMoves(w: World, h: Uuid, q: PayReq, db: Db)
    requires Starting(w, h, q, db) && w.handlers[h].pc.CommitStart? && Enabled(w, Run(h))
    requires HandlerOk(SharedOf(w), w.handlers[h])
    ensures var inv, w' := w.handlers[h].pc.inv, Do(w, Run(h));
            && SharedOf(w') == Started(SharedOf(w), q, inv, w.next) && w'.psp == w.psp
            && w'.handlers == map[h := Handler(Pay(q), CallPsp(w.next, NewAttempt(q, inv)))]
  {
    EarlyAdvances(SharedOf(w), w.next, w.handlers[h], q);
  }

  lemma CommitChooses(w: World, h: Uuid, q: PayReq, db: Db)
    requires Inv(w) && Starting(w, h, q, db) && w.handlers[h].pc.CommitStart? && Enabled(w, Run(h))
    ensures Chose(Do(w, Run(h)), h, q, db, w.next) && Left(Do(w, Run(h)), h) < Left(w, h)
  {
    DoKeepsInv(w, Run(h));
    assert HandlerOk(SharedOf(w), w.handlers[h]);
    CommitMoves(w, h, q, db);
    FreshId(w);
    CommittedIsRecovering(w, Do(w, Run(h)), h, q);
    RecoveringIsChosen(Do(w, Run(h)), h, q, db, w.next);
    CommitShortens(w, Do(w, Run(h)), h);
  }

  lemma CommittedIsRecovering(w: World, w': World, h: Uuid, q: PayReq)
    requires h in w.handlers && w.handlers[h].pc.CommitStart?
    requires SharedOf(w') == Started(SharedOf(w), q, w.handlers[h].pc.inv, w.next)
    requires w'.handlers == map[h := Handler(Pay(q), CallPsp(w.next, NewAttempt(q, w.handlers[h].pc.inv)))]
    ensures Recovering(w', h, q, w.next) && !Lost(w', w.next)
  {
    CommittedIsPending(w, w', h, q);
    SentIsRecovering(w', h, q, w.next);
  }

  lemma RecoveringIsChosen(w: World, h: Uuid, q: PayReq, db: Db, a: Uuid)
    requires Inv(w) && a !in db.attempts && Recovering(w, h, q, a) && !Lost(w, a)
    ensures Chose(w, h, q, db, a)
  {
  }

  lemma CommitShortens(w: World, w': World, h: Uuid)
    requires h in w.handlers && w.handlers[h].pc.CommitStart? && h in w'.handlers && w'.handlers[h].pc.CallPsp?
    requires w'.psp == w.psp
    ensures Left(w', h) < Left(w, h)
  {
  }

  lemma CommittedIsPending(w: World, w': World, h: Uuid, q: PayReq)
    requires h in w.handlers && w.handlers[h].pc.CommitStart?
    requires SharedOf(w') == Started(SharedOf(w), q, w.handlers[h].pc.inv, w.next)
    ensures StartedBy(SharedOf(w'), q, w.next) && !IsFailed(w'.db, w.next)
  {
    StartedIsPending(SharedOf(w), q, w.handlers[h].pc.inv, w.next);
  }

  lemma SentIsRecovering(w: World, h: Uuid, q: PayReq, a: Uuid)
    requires w.handlers.Keys == {h} && w.handlers[h].job == Pay(q) && w.handlers[h].pc.CallPsp?
    requires w.handlers[h].pc.id == a
    requires StartedBy(SharedOf(w), q, a) && !IsFailed(w.db, a)
    ensures Recovering(w, h, q, a) && !Lost(w, a)
  {
  }

  lemma EarlyStep(w: World, h: Uuid, q: PayReq, db: Db)
    requires Inv(w) && Starting(w, h, q, db) && !w.handlers[h].pc.CommitStart? && Enabled(w, Run(h))
    ensures Starting(Do(w, Run(h)), h, q, db) && Left(Do(w, Run(h)), h) < Left(w, h)
  {
    assert HandlerOk(SharedOf(w), w.handlers[h]);
    EarlyAdvances(SharedOf(w), w.next, w.handlers[h], q);
  }

  lemma PspStepWhileStarting(w: World, r: Uuid, h: Uuid, q: PayReq, db: Db)
    requires Starting(w, h, q, db) && Enabled(w, PspMove(r))
    ensures Starting(Do(w, PspMove(r)), h, q, db) && Left(Do(w, PspMove(r)), h) < Left(w, h)
  {
    PspStepAdvances(w.psp, r);
    OnlyMoverMoves(w.psp, r);
    TotalUpdated(w.psp.procs, r, Step(w.psp, r).procs[r]);
  }

  lemma StartingStep(w: World, w': World, h: Uuid, q: PayReq, db: Db)
    requires Inv(w) && Starting(w, h, q, db) && SoloStep(w, w')
    ensures Underway(w', h, q, db) && Left(w', h) < Left(w, h)
  {
    var x :| SoloAction(w, x) && Enabled(w, x) && w' == Do(w, x);
    if x.PspMove? {
      DoKeepsInv(w, x);
      PspStepWhileStarting(w, x.r, h, q, db);
    } else {
      StartingStatement(w, h, q, db);
    }
  }

  lemma StartingStatement(w: World, h: Uuid, q: PayReq, db: Db)
    requires Inv(w) && Starting(w, h, q, db) && Enabled(w, Run(h))
    ensures Underway(Do(w, Run(h)), h, q, db) && Left(Do(w, Run(h)), h) < Left(w, h)
  {
    if w.handlers[h].pc.CommitStart? {
      CommitChooses(w, h, q, db);
    } else {
      DoKeepsInv(w, Run(h));
      EarlyStep(w, h, q, db);
    }
  }

  lemma UnderwayStep(w: World, w': World, h: Uuid, q: PayReq, db: Db)
    requires Underway(w, h, q, db) && SoloStep(w, w')
    ensures Underway(w', h, q, db) && Left(w', h) < Left(w, h)
  {
    if a :| Chose(w, h, q, db, a) {
      SoloStepStaysOnCourse(w, w', h, q, a, true);
      assert Chose(w', h, q, db, a);
    } else {
      StartingStep(w, w', h, q, db);
    }
  }

  /** The run is over and some attempt, new since db, is what the card token says; or it can go on. */
  ghost predicate Completes(w: World, h: Uuid, q: PayReq, db: Db) {
    if w.handlers != map[] then exists w' :: SoloStep(w, w')
    else exists a :: a !in db.attempts && Ended(w, h, q, a, true)
  }

  lemma UnderwayCompletes(w: World, h: Uuid, q: PayReq, db: Db)
    requires Underway(w, h, q, db)
    ensures Completes(w, h, q, db)
  {
    if a :| Chose(w, h, q, db, a) {
      LastOfRun(w, h, q, a, true);
    } else {
      assert SoloAction(w, Run(h)) && Enabled(w, Run(h));
      assert SoloStep(w, Do(w, Run(h)));
    }
  }

  lemma NewRunCompletes(w: World, q: PayReq, ws: seq<World>)
    requires Inv(w) && w.handlers == map[] && CanStart(w.db, q) && SoloRun(w, q, ws)
    ensures |ws| <= Total(w.psp.procs) + 171 && Completes(ws[|ws| - 1], w.next, q, w.db)
  {
    CallUnderway(w, q);
    UnderwayThroughout(ws, w.next, q, w.db, |ws| - 1);
    UnderwayCompletes(ws[|ws| - 1], w.next, q, w.db);
  }

  lemma CallUnderway(w: World, q: PayReq)
    requires Inv(w) && w.handlers == map[] && CanStart(w.db, q)
    ensures Underway(Do(w, Call(q)), w.next, q, w.db) && Left(Do(w, Call(q)), w.next) == Total(w.psp.procs) + 170
  {
    DoKeepsInv(w, Call(q));
    assert Starting(Do(w, Call(q)), w.next, q, w.db);
  }

  lemma UnderwayThroughout(ws: seq<World>, h: Uuid, q: PayReq, db: Db, n: nat)
    requires n < |ws| && forall k :: 0 <= k < |ws| - 1 ==> SoloStepAt(ws, k)
    requires Underway(ws[0], h, q, db)
    ensures Underway(ws[n], h, q, db) && Left(ws[n], h) + n <= Left(ws[0], h)
  {
    var ok := v => Underway(v, h, q, db);
    var left := v => Left(v, h);
    forall k | 0 <= k < |ws| - 1
      ensures Drops(ws, ok, left, k)
    {
      assert SoloStepAt(ws, k);
      if ok(ws[k]) {
        UnderwayStep(ws[k], ws[k + 1], h, q, db);
      }
    }
    FallsThroughout(ws, ok, left, n);
  }

  /** From any reachable state whose handlers have all gone, whatever requests
      are still at the PSP: a call that may start a new attempt and runs alone
      ends, in every order of steps, with a new attempt that is paid if the card
      is one that is charged, has failed, uncharged, with the promised code and
      said so if the card is declined, and is PENDING for tok_network_error. */
  lemma NewPaymentCompletes(t: seq<World>, n: nat, q: PayReq, ws: seq<World>)
    requires IsRun(t) && n < |t| && t[n].handlers == map[]
    requires CanStart(t[n].db, q) && SoloRun(t[n], q, ws)
    ensures |ws| <= Total(t[n].psp.procs) + 171 && Completes(ws[|ws| - 1], t[n].next, q, t[n].db)
  {
    RunHasInv(t, n);
    NewRunCompletes(t[n], q, ws);
  }
}
