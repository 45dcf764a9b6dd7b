/** One call of PayInvoice, from the moment its key's record is committed to its
    end, whatever the others do in between. */
module Calls {
  import opened Model
  import opened SingleFlight
  import opened PspClient
  import opened Protocol
  import opened Invariant
  import opened SharedSteps
  import opened Statements
  import opened Steps
  import opened Money
  import opened Runs
  import opened Agreement

  /** Where the call may stand: it works on attempt a, or is about to look the
      key up; a call that looked it up too early may also stand before the lock
      of the invoice, before its insert of the key, or before its second lookup. */
  predicate OnTheWay(pc: Pc, a: Uuid, early: bool) {
    || WorksOn(pc) == Some(a) || pc.Lookup?
    || (early && (pc.LockInvoice? || pc.OpenInvoice? || pc.InsertKey? || pc.Relookup?))
  }

  /** What the call may answer: attempt a, or that a statement failed; if it
      looked the key up too early, also that the invoice is paid already. */
  predicate IsAnswer(db: Db, x: Answer, q: PayReq, a: Uuid, early: bool) {
    && x.req == q
    && match x.result
       case Returned(id, _) => id == a
       case Refused(error) =>
         || error.Fault?
         || (early && error.InvoiceNotFound?)
         || (early && error.InvoiceAlreadyPaid? && q.invoice in db.invoices && db.invoices[q.invoice].status.Paid?)
  }

  /** The key row of q names attempt a. */
  predicate KeyNames(db: Db, q: PayReq, a: Uuid) {
    Committed(db, q) && db.keys[KeyOf(q)].attempt == Some(a)
  }

  predicate GoesOn(o: Outcome, db: Db, q: PayReq, a: Uuid, early: bool) {
    match o
    case Continue(_, _, pc) => OnTheWay(pc, a, early)
    case Finish(_, answer) => answer.Some? && IsAnswer(db, answer.value, q, a, early)
  }

  // ---------------------------------------------------------------- one statement

  lemma EarlyGoesOn(s: Shared, next: Uuid, hd: Handler, q: PayReq, a: Uuid, early: bool)
    requires SharedInv(s) && hd.job == Pay(q) && KeyNames(s.db, q, a) && OnTheWay(hd.pc, a, early)
    requires WorksOn(hd.pc).None?
    ensures GoesOn(Effect(s, next, hd), s.db, q, a, early)
  {
    KnownKeyEffects(s, next, q);
    assert Effect(s, next, hd) == PayEffect(s, next, q, hd.pc);
  }

  lemma WorkGoesOn(s: Shared, next: Uuid, hd: Handler, q: PayReq, a: Uuid, early: bool)
    requires SharedInv(s) && HandlerOk(s, hd) && hd.job == Pay(q) && WorksOn(hd.pc) == Some(a)
    ensures GoesOn(Effect(s, next, hd), s.db, q, a, early)
  {
    if hd.pc.Replay? || hd.pc.CallPsp? || hd.pc.Await? {
      PayKeepsTo(s, next, hd, a);
    } else {
      SettlingRow(s, hd, a);
      SettleKeepsTo(s, next, hd, a);
    }
    AnswersItsRequest(s, next, hd);
  }

  lemma SettlingRow(s: Shared, hd: Handler, a: Uuid)
    requires SharedInv(s) && HandlerOk(s, hd) && hd.job.Pay? && WorksOn(hd.pc) == Some(a)
    ensures a in s.db.attempts && s.db.attempts[a].invoice in s.db.invoices
  {
    RowsAreShaped(s, a);
  }

  lemma AnswersItsRequest(s: Shared, next: Uuid, hd: Handler)
    requires hd.job.Pay?
    ensures var o := Effect(s, next, hd); o.Finish? && o.answer.Some? ==> o.answer.value.req == hd.job.req
  {
  }

  // ---------------------------------------------------------------- one step of the system

  /** The call is on its way, or over: it has answered as it may, or the server lost it. */
  predicate CallAt(w: World, h: Uuid, q: PayReq, a: Uuid, early: bool) {
    && h < w.next && KeyNames(w.db, q, a)
    && (h in w.handlers ==> w.handlers[h].job == Pay(q) && OnTheWay(w.handlers[h].pc, a, early))
    && (h in w.answers ==> IsAnswer(w.db, w.answers[h], q, a, early))
  }

  /** What is true of the call's key and answer stays true. */
  lemma PastStays(db: Db, db': Db, q: PayReq, a: Uuid, early: bool)
    requires KeyNames(db, q, a) && DbGrows(db, db')
    ensures KeyNames(db', q, a)
    ensures forall x :: IsAnswer(db, x, q, a, early) ==> IsAnswer(db', x, q, a, early)
  {
  }

  lemma StatementGoesOn(w: World, h: Uuid, q: PayReq, a: Uuid, early: bool)
    requires Inv(w) && CallAt(w, h, q, a, early) && h in w.handlers
    ensures GoesOn(Effect(SharedOf(w), w.next, w.handlers[h]), w.db, q, a, early)
  {
    assert HandlerOk(SharedOf(w), w.handlers[h]);
    if WorksOn(w.handlers[h].pc).None? {
      EarlyGoesOn(SharedOf(w), w.next, w.handlers[h], q, a, early);
    } else {
      WorkGoesOn(SharedOf(w), w.next, w.handlers[h], q, a, early);
    }
  }

  /** Failures, timeouts and crashes end the call; a request sent again does not. */
  predicate LeavesRight(o: Outcome, db: Db, q: PayReq, a: Uuid, early: bool) {
    o.Finish? && (o.answer.None? || IsAnswer(db, o.answer.value, q, a, early))
  }

  lemma MishapEnds(s: Shared, next: Uuid, hd: Handler, q: PayReq, a: Uuid, early: bool, why: Transport)
    requires hd.job == Pay(q) && OnTheWay(hd.pc, a, early)
    ensures LeavesRight(BreakEffect(s, next, hd), s.db, q, a, early)
    ensures hd.pc.Await? && VerdictOf(Classify(why)).LeavePending? ==>
              LeavesRight(Receive(s, next, q, hd.pc, why), s.db, q, a, early)
    ensures hd.pc.Await? ==> GoesOn(ResendEffect(s, next, hd), s.db, q, a, early)
  {
  }

  lemma OwnStep(w: World, h: Uuid, q: PayReq, a: Uuid, early: bool, o: Outcome)
    requires IdsOk(w) && CallAt(w, h, q, a, early) && h in w.handlers
    requires w.next <= Apply(w, h, o).next && DbGrows(w.db, o.s.db)
    requires GoesOn(o, w.db, q, a, early) || LeavesRight(o, w.db, q, a, early)
    ensures CallAt(Apply(w, h, o), h, q, a, early)
  {
    PastStays(w.db, o.s.db, q, a, early);
  }

  lemma RunStep(w: World, h: Uuid, q: PayReq, a: Uuid, early: bool)
    requires Inv(w) && CallAt(w, h, q, a, early) && Enabled(w, Run(h))
    ensures CallAt(Do(w, Run(h)), h, q, a, early)
  {
    var o := Effect(SharedOf(w), w.next, w.handlers[h]);
    StatementGoesOn(w, h, q, a, early);
    assert HandlerOk(SharedOf(w), w.handlers[h]);
    EffectOk(SharedOf(w), w.next, w.handlers[h]);
    OwnStep(w, h, q, a, early, o);
  }

  predicate IsMishap(x: Action) {
    x.GiveUp? || x.Resend? || x.Break? || x.LoseAck? || x.Crash?
  }

  lemma MishapStep(w: World, x: Action, q: PayReq, a: Uuid, early: bool)
    requires Inv(w) && Enabled(w, x) && IsMishap(x) && CallAt(w, x.h, q, a, early)
    ensures CallAt(Do(w, x), x.h, q, a, early)
  {
    DoGrows(w, x);
    var o := MishapOf(w, x, q, a, early);
    OwnStep(w, x.h, q, a, early, o);
  }

  lemma MishapOf(w: World, x: Action, q: PayReq, a: Uuid, early: bool) returns (o: Outcome)
    requires Enabled(w, x) && IsMishap(x) && CallAt(w, x.h, q, a, early)
    ensures Do(w, x) == Apply(w, x.h, o) && SharedOf(Do(w, x)) == o.s && w.next <= Do(w, x).next
    ensures GoesOn(o, w.db, q, a, early) || LeavesRight(o, w.db, q, a, early)
  {
    var s, hd := SharedOf(w), w.handlers[x.h];
    match x
    case GiveUp(h, why) =>
      MishapEnds(s, w.next, hd, q, a, early, why);
      o := Receive(s, w.next, q, hd.pc, why);
    case Resend(h) =>
      MishapEnds(s, w.next, hd, q, a, early, TimedOut);
      o := ResendEffect(s, w.next, hd);
    case Break(h) =>
      MishapEnds(s, w.next, hd, q, a, early, TimedOut);
      o := BreakEffect(s, w.next, hd);
    case LoseAck(h) =>
      MishapEnds(Effect(s, w.next, hd).s, w.next, hd, q, a, early, TimedOut);
      o := BreakEffect(Effect(s, w.next, hd).s, w.next, hd);
      assert o == Reply(Effect(s, w.next, hd).s, q, Refused(Fault), false);
    case Crash(h) => o := Finish(s, None);
  }

  lemma NextGrowsIds(w: World, x: Action)
    requires Inv(w) && Enabled(w, x)
    ensures w.next <= Do(w, x).next
  {
    if x.Run? {
      assert HandlerOk(SharedOf(w), w.handlers[x.h]);
      EffectOk(SharedOf(w), w.next, w.handlers[x.h]);
    }
  }

  /** Somebody else moves. */
  lemma OthersStep(w: World, x: Action, h: Uuid, q: PayReq, a: Uuid, early: bool)
    requires Inv(w) && Enabled(w, x) && CallAt(w, h, q, a, early) && !ActsFor(x, h)
    ensures CallAt(Do(w, x), h, q, a, early)
  {
    DoGrows(w, x);
    PastStays(w.db, Do(w, x).db, q, a, early);
    NextGrowsIds(w, x);
    OthersHandlers(w, x, h);
  }

  /** The action is one of handler h. */
  predicate ActsFor(x: Action, h: Uuid) {
    !x.Call? && !x.Deliver? && !x.PspMove? && x.h == h
  }

  lemma OthersHandlers(w: World, x: Action, h: Uuid)
    requires Enabled(w, x) && h < w.next && !ActsFor(x, h)
    ensures h in Do(w, x).handlers <==> h in w.handlers
    ensures h in w.handlers ==> Do(w, x).handlers[h] == w.handlers[h]
    ensures h in Do(w, x).answers <==> h in w.answers
    ensures h in w.answers ==> Do(w, x).answers[h] == w.answers[h]
  {
  }

  lemma CallStep(w: World, w': World, h: Uuid, q: PayReq, a: Uuid, early: bool)
    requires Inv(w) && CallAt(w, h, q, a, early) && Next(w, w')
    ensures CallAt(w', h, q, a, early)
  {
    var x :| Enabled(w, x) && w' == Do(w, x);
    if x.Run? && x.h == h {
      RunStep(w, h, q, a, early);
    } else if IsMishap(x) && x.h == h {
      MishapStep(w, x, q, a, early);
    } else {
      OthersStep(w, x, h, q, a, early);
    }
  }

  // ---------------------------------------------------------------- a whole call

  lemma {:induction false} CallOverRun(t: seq<World>, m: nat, n: nat, h: Uuid, q: PayReq, a: Uuid, early: bool)
    requires IsRun(t) && m <= n < |t| && CallAt(t[m], h, q, a, early)
    ensures CallAt(t[n], h, q, a, early)
    decreases n
  {
    if m < n {
      CallOverRun(t, m, n - 1, h, q, a, early);
      CallNext(t, n - 1, h, q, a, early);
    }
  }

  lemma CallNext(t: seq<World>, k: nat, h: Uuid, q: PayReq, a: Uuid, early: bool)
    requires IsRun(t) && k < |t| - 1 && CallAt(t[k], h, q, a, early)
    ensures CallAt(t[k + 1], h, q, a, early)
  {
    RunHasInv(t, k);
    assert StepAt(t, k);
    CallStep(t[k], t[k + 1], h, q, a, early);
  }

  /** A handler that is at work has not answered. */
  lemma NotAnswered(t: seq<World>, m: nat, h: Uuid)
    requires IsRun(t) && m < |t| && h in t[m].handlers
    ensures SharedInv(SharedOf(t[m])) && h < t[m].next && h !in t[m].answers
  {
    RunHasInv(t, m);
  }

  /** A call that looks its key up after the record of the very same request was
      committed works, at every later moment, on the attempt it names, until it
      answers with that attempt or with a failed statement, or the server loses
      it: it never starts another attempt and is never refused. */
  lemma LateCallReplays(t: seq<World>, m: nat, n: nat, h: Uuid)
    requires IsRun(t) && m <= n < |t| && h in t[m].handlers && t[m].handlers[h].job.Pay? && t[m].handlers[h].pc.Lookup?
    requires Committed(t[m].db, t[m].handlers[h].job.req)
    ensures var q := t[m].handlers[h].job.req;
            t[m].db.keys[KeyOf(q)].attempt.Some? && CallAt(t[n], h, q, t[m].db.keys[KeyOf(q)].attempt.value, false)
  {
    var q := t[m].handlers[h].job.req;
    NotAnswered(t, m, h);
    KnownKeyEffects(SharedOf(t[m]), t[m].next, q);
    CallOverRun(t, m, n, h, q, t[m].db.keys[KeyOf(q)].attempt.value, false);
  }

  /** A call that looked its key up before that record was committed, and has not
      started an attempt of its own, does so too; but it may also answer with
      ErrInvoiceAlreadyPaid, if the invoice is PAID as it locks it. */
  lemma EarlyCallReplays(t: seq<World>, m: nat, n: nat, h: Uuid)
    requires IsRun(t) && m <= n < |t| && h in t[m].handlers && t[m].handlers[h].job.Pay?
    requires var pc := t[m].handlers[h].pc; pc.LockInvoice? || pc.OpenInvoice? || pc.InsertKey? || pc.Relookup?
    requires Committed(t[m].db, t[m].handlers[h].job.req)
    ensures var q := t[m].handlers[h].job.req;
            t[m].db.keys[KeyOf(q)].attempt.Some? && CallAt(t[n], h, q, t[m].db.keys[KeyOf(q)].attempt.value, true)
  {
    var q := t[m].handlers[h].job.req;
    NotAnswered(t, m, h);
    KnownKeyEffects(SharedOf(t[m]), t[m].next, q);
    CallOverRun(t, m, n, h, q, t[m].db.keys[KeyOf(q)].attempt.value, true);
  }

  // ---------------------------------------------------------------- a call for something else

  /** The call is about to look its key up and find a record of another request,
      or over: it has answered with a conflict or a failed lookup, or the server lost it. */
  predicate MisfitAt(w: World, h: Uuid, q: PayReq) {
    && h < w.next && KeyOf(q) in w.db.keys && !Committed(w.db, q)
    && (h in w.handlers ==> w.handlers[h] == Handler(Pay(q), Lookup))
    && (h in w.answers ==>
          w.answers[h] in {Answer(q, Refused(IdempotencyConflict), false), Answer(q, Refused(Fault), false)})
  }

  lemma MisfitStays(db: Db, db': Db, q: PayReq)
    requires KeyOf(q) in db.keys && !Committed(db, q) && DbGrows(db, db')
    ensures KeyOf(q) in db'.keys && !Committed(db', q)
  {
  }

  lemma MisfitStep(w: World, w': World, h: Uuid, q: PayReq)
    requires Inv(w) && MisfitAt(w, h, q) && Next(w, w')
    ensures MisfitAt(w', h, q)
  {
    var x :| Enabled(w, x) && w' == Do(w, x);
    MisfitGrows(w, x, q);
    if (x.Run? || x.Break? || x.Crash?) && x.h == h {
      MisfitEnds(w, x, q);
    } else {
      OthersHandlers(w, x, h);
    }
  }

  lemma MisfitGrows(w: World, x: Action, q: PayReq)
    requires Inv(w) && Enabled(w, x) && KeyOf(q) in w.db.keys && !Committed(w.db, q)
    ensures w.next <= Do(w, x).next && KeyOf(q) in Do(w, x).db.keys && !Committed(Do(w, x).db, q)
  {
    DoGrows(w, x);
    MisfitStays(w.db, Do(w, x).db, q);
    NextGrowsIds(w, x);
  }

  lemma MisfitEnds(w: World, x: Action, q: PayReq)
    requires Enabled(w, x) && (x.Run? || x.Break? || x.Crash?) && MisfitAt(w, x.h, q) && x.h !in w.answers
    ensures var w' := Do(w, x);
            && x.h !in w'.handlers
            && (x.h in w'.answers ==>
                  w'.answers[x.h] in {Answer(q, Refused(IdempotencyConflict), false), Answer(q, Refused(Fault), false)})
  {
  }

  lemma MisfitNext(t: seq<World>, k: nat, h: Uuid, q: PayReq)
    requires IsRun(t) && k < |t| - 1 && MisfitAt(t[k], h, q)
    ensures MisfitAt(t[k + 1], h, q)
  {
    RunHasInv(t, k);
    assert StepAt(t, k);
    MisfitStep(t[k], t[k + 1], h, q);
  }

  lemma {:induction false} MisfitOverRun(t: seq<World>, m: nat, n: nat, h: Uuid, q: PayReq)
    requires IsRun(t) && m <= n < |t| && MisfitAt(t[m], h, q)
    ensures MisfitAt(t[n], h, q)
    decreases n
  {
    if m < n {
      MisfitOverRun(t, m, n - 1, h, q);
      MisfitNext(t, n - 1, h, q);
    }
  }

  /** A call with a used key but another invoice or card does nothing but look
      the key up: it answers with ErrIdempotencyConflict, unless its lookup fails
      or the server loses it. */
  lemma MisfitConflicts(t: seq<World>, m: nat, n: nat, h: Uuid)
    requires IsRun(t) && m <= n < |t| && h in t[m].handlers && t[m].handlers[h].job.Pay? && t[m].handlers[h].pc.Lookup?
    requires var q := t[m].handlers[h].job.req; KeyOf(q) in t[m].db.keys && !Committed(t[m].db, q)
    ensures MisfitAt(t[n], h, t[m].handlers[h].job.req)
  {
    NotAnswered(t, m, h);
    MisfitOverRun(t, m, n, h, t[m].handlers[h].job.req);
  }

  // ---------------------------------------------------------------- a call that is refused as in progress

  /** Attempt a is pending on q's invoice under another key. */
  ghost predicate InTheWay(w: World, q: PayReq, a: Uuid) {
    && a in w.db.attempts && a in w.origin
    && w.db.attempts[a].invoice == q.invoice && w.db.attempts[a].status.Pending?
    && KeyOf(w.origin[a]) != KeyOf(q)
  }

  predicate SaysInProgress(o: Outcome) {
    o.Finish? && o.answer.Some? && o.answer.value.result == Refused(PaymentInProgress)
  }

  lemma WhoSaysInProgress(s: Shared, next: Uuid, hd: Handler)
    requires KeysOk(s.db, s.origin) && HandlerOk(s, hd) && SaysInProgress(Effect(s, next, hd))
    ensures hd.job.Pay? && (hd.pc.CheckPending? || hd.pc.InsertAttempt?) && PendingOn(s.db, hd.job.req.invoice)
    ensures Effect(s, next, hd).answer.value.req == hd.job.req && KeyOf(hd.job.req) !in s.db.keys
  {
  }

  lemma NewRefusal(w: World, x: Action, h: Uuid)
    requires Inv(w) && Enabled(w, x) && h !in w.answers && h in Do(w, x).answers
    requires Do(w, x).answers[h].result == Refused(PaymentInProgress)
    ensures h in w.handlers && exists a :: InTheWay(w, Do(w, x).answers[h].req, a)
  {
    RefusedByStatement(w, x, h);
    var s, hd := SharedOf(w), w.handlers[h];
    assert HandlerOk(s, hd);
    WhoSaysInProgress(s, w.next, hd);
    PendingIsInTheWay(w, hd.job.req);
  }

  lemma RefusedByStatement(w: World, x: Action, h: Uuid)
    requires Enabled(w, x) && h !in w.answers && h in Do(w, x).answers
    requires Do(w, x).answers[h].result == Refused(PaymentInProgress)
    ensures x == Run(h) && h in w.handlers
    ensures SaysInProgress(Effect(SharedOf(w), w.next, w.handlers[h]))
    ensures Do(w, x).answers[h] == Effect(SharedOf(w), w.next, w.handlers[h]).answer.value
  {
  }

  lemma PendingIsInTheWay(w: World, q: PayReq)
    requires Inv(w) && PendingOn(w.db, q.invoice) && KeyOf(q) !in w.db.keys
    ensures exists a :: InTheWay(w, q, a)
  {
    var a :| a in w.db.attempts && w.db.attempts[a].invoice == q.invoice && w.db.attempts[a].status.Pending?;
    assert KeyOf(w.origin[a]) in w.db.keys;
    assert InTheWay(w, q, a);
  }

  /** ErrPaymentInProgress is the truth: at some moment of the call an attempt of
      another key was pending on the invoice. */
  lemma {:induction false} InProgressIsTrue(t: seq<World>, n: nat, h: Uuid) returns (m: nat, a: Uuid)
    requires IsRun(t) && n < |t| && h in t[n].answers && t[n].answers[h].result == Refused(PaymentInProgress)
    ensures m < n && h in t[m].handlers && InTheWay(t[m], t[n].answers[h].req, a)
    decreases n
  {
    FirstHasNone(t);
    if h in t[n - 1].answers {
      NextGrows(t, n - 1);
      m, a := InProgressIsTrue(t, n - 1, h);
    } else {
      var q := t[n].answers[h].req;
      m := n - 1;
      NextRefuses(t, m, h, q);
      a :| InTheWay(t[m], q, a);
    }
  }

  lemma FirstHasNone(t: seq<World>)
    requires IsRun(t)
    ensures t[0].answers == map[]
  {
  }

  lemma NextRefuses(t: seq<World>, k: nat, h: Uuid, q: PayReq)
    requires IsRun(t) && k < |t| - 1 && h !in t[k].answers && h in t[k + 1].answers
    requires t[k + 1].answers[h].result == Refused(PaymentInProgress) && t[k + 1].answers[h].req == q
    ensures h in t[k].handlers && exists a :: InTheWay(t[k], q, a)
  {
    RunHasInv(t, k);
    assert StepAt(t, k);
    var x :| Enabled(t[k], x) && t[k + 1] == Do(t[k], x);
    NewRefusal(t[k], x, h);
  }
}
