/** After a crash, sending the same request again brings the payment to its end. */
module Recovery {
  import opened Model
  import opened SingleFlight
  import opened SingleFlightProofs
  import opened PspClient
  import opened Protocol
  import opened Invariant
  import opened SharedSteps
  import opened Steps
  import opened Money
  import opened Sums
  import opened Runs
  import opened Refinement
  import opened FailureEvents
  import opened Agreement

  // ---------------------------------------------------------------- the call runs alone

  /** A statement of the only handler, once it has something to do, or a step of the PSP. */
  ghost predicate SoloAction(w: World, x: Action) {
    match x
    case Run(h) => h in w.handlers && (w.handlers[h].pc.Await? ==>
                     w.handlers[h].pc.call in w.psp.procs && w.psp.procs[w.handlers[h].pc.call].stage.Replied?)
    case PspMove(_) => true
    case _ => false
  }

  ghost predicate SoloStep(w: World, w': World) {
    exists x :: SoloAction(w, x) && Enabled(w, x) && w' == Do(w, x)
  }

  ghost predicate SoloStepAt(ws: seq<World>, n: int)
    requires 0 <= n < |ws| - 1
  {
    SoloStep(ws[n], ws[n + 1])
  }

  /** Call q arrives at an idle server and runs alone; every order of its statements and the PSP's steps. */
  ghost predicate SoloRun(w: World, q: PayReq, ws: seq<World>) {
    && |ws| > 0
    && ws[0] == Do(w, Call(q))
    && forall n :: 0 <= n < |ws| - 1 ==> SoloStepAt(ws, n)
  }

  /** Everything agrees that request q was paid by attempt a, call h's answer too. */
  ghost predicate PaidBy(w: World, h: Uuid, q: PayReq, a: Uuid) {
    && a in w.db.attempts
    && var row := w.db.attempts[a];
    && row.status.Succeeded? && row.invoice == q.invoice && row.pspRef.Some?
    && q.invoice in w.db.invoices && w.db.invoices[q.invoice].status.Paid?
    && EventKey(PaymentSucceeded, a) in w.db.outbox && w.db.outbox[EventKey(PaymentSucceeded, a)] == row
    && HasCapture(w.psp, a, row.pspRef.value)
    && Charged(w.psp.ledger, w.origin, q.invoice) == 1
    && Captured(w.psp.ledger, w.origin, q.invoice) == row.amount
    && h in w.answers && w.answers[h] == Answer(q, Returned(a, row), false)
  }

  /** Everything agrees that request q failed by attempt a, whose card is not charged, call h's answer too. */
  ghost predicate FailedBy(w: World, h: Uuid, q: PayReq, a: Uuid) {
    && a in w.db.attempts
    && var row := w.db.attempts[a];
    && row.status.Failed? && row.invoice == q.invoice && FailsWith(q.token, row.failureCode)
    && (forall ref :: !HasCapture(w.psp, a, ref))
    && h in w.answers && w.answers[h] == Answer(q, Returned(a, row), false)
  }

  /** Everything agrees that attempt a of request q is still PENDING, uncharged, and call h says so, as unknown. */
  ghost predicate LeftOpenBy(w: World, h: Uuid, q: PayReq, a: Uuid) {
    && a in w.db.attempts
    && var row := w.db.attempts[a];
    && row.status.Pending? && row.invoice == q.invoice
    && (forall ref :: !HasCapture(w.psp, a, ref))
    && h in w.answers && w.answers[h] == Answer(q, Returned(a, row), true)
  }

  // ---------------------------------------------------------------- how much is left to do

  function StageLeft(s: Stage): nat {
    match s
    case Arriving => 5
    case Owner(_) => 4
    case FailWrote(_) => 3
    case FailDeleted(_) => 2
    case Finishing(_) => 2
    case Waiting(_) => 1
    case Replied(_, _, _) => 0
  }

  /** Steps the PSP has left for all its requests, at most. */
  ghost function Total(procs: map<Uuid, Proc>): nat {
    Sum(map r | r in procs :: StageLeft(procs[r].stage))
  }

  lemma TotalUpdated(procs: map<Uuid, Proc>, r: Uuid, x: Proc)
    ensures Total(procs[r := x]) ==
              Total(procs) + StageLeft(x.stage) - if r in procs then StageLeft(procs[r].stage) else 0
  {
    var m := map s | s in procs :: StageLeft(procs[s].stage);
    var procs' := procs[r := x];
    assert (map s | s in procs' :: StageLeft(procs'[s].stage)) == m[r := StageLeft(x.stage)];
    SumUpdated(m, r, StageLeft(x.stage));
  }

  lemma PspStepAdvances(p: Psp, r: Uuid)
    requires Ready(p, r)
    ensures r in Step(p, r).procs && StageLeft(Step(p, r).procs[r].stage) < StageLeft(p.procs[r].stage)
  {
  }

  /** Statements a call has left, at most. */
  function ToGo(pc: Pc): nat {
    match pc
    case Lookup => 17
    case LockInvoice => 16
    case OpenInvoice(_) => 15
    case InsertKey(_) => 14
    case CheckPending(_) => 13
    case InsertAttempt(_) => 12
    case CommitStart(_) => 11
    case Replay(_) => 9
    case CallPsp(_, _) => 8
    case Await(_, _, _) => 7
    case LockSettle(_, _, _) => 6
    case MarkSucceeded(_, _, _) => 5
    case Reread(_, _, _) => 4
    case MarkPaid(_, _, _, _) => 3
    case EnqueueSuccess(_, _, _, _, _) => 2
    case CommitSettle(_, _, _, _, _, _) => 1
    case MarkFailed(_, _, _) => 2
    case RereadFailed(_) => 1
    case EnqueueFailure(_, _) => 1
    case _ => 0
  }

  /** Each call sends the PSP one request, which takes at most 5 steps there. */
  ghost function Left(w: World, h: Uuid): nat {
    Total(w.psp.procs) + if h in w.handlers then 10 * ToGo(w.handlers[h].pc) else 0
  }

  // ---------------------------------------------------------------- what a solo run keeps

  /** Attempt a was started by q. */
  ghost predicate StartedBy(s: Shared, q: PayReq, a: Uuid) {
    && a in s.db.attempts && a in s.origin && s.origin[a] == q
    && KeyOf(q) in s.db.keys && s.db.keys[KeyOf(q)] == KeyRow(q.invoice, HashPayRequest(q), Some(a))
  }

  /** The call is about to look its key up, or works on attempt a. */
  predicate OnTrack(pc: Pc, a: Uuid) {
    pc.Lookup? || WorksOn(pc) == Some(a)
  }

  /** Handler h serves q and is on its way, or has answered. */
  ghost predicate Recovering(w: World, h: Uuid, q: PayReq, a: Uuid) {
    && w.handlers.Keys <= {h}
    && StartedBy(SharedOf(w), q, a)
    && if h in w.handlers then w.handlers[h].job == Pay(q) && OnTrack(w.handlers[h].pc, a)
       else h in w.answers && exists row :: w.answers[h] == Answer(q, Returned(a, row), FateOf(q.token).Uncertain?)
  }

  /** The call's next statement brings it nearer its end, or it returns the attempt. */
  lemma CallAdvances(s: Shared, next: Uuid, hd: Handler, q: PayReq, a: Uuid)
    requires SharedInv(s) && HandlerOk(s, hd) && StartedBy(s, q, a) && hd.job == Pay(q) && OnTrack(hd.pc, a)
    requires hd.pc.Await? ==> hd.pc.call in s.psp.procs && s.psp.procs[hd.pc.call].stage.Replied?
    ensures Advances(Effect(s, next, hd), hd.pc, q, a)
  {
    if FateOf(q.token).Uncertain? {
      UncertainStaysOpen(s, hd, q, a);
    }
    if hd.pc.Lookup? || hd.pc.Replay? || hd.pc.CallPsp? {
      FirstStatements(s, next, hd, q, a);
    } else if hd.pc.Await? {
      ReplyMatchesToken(s, hd.pc.call, a);
      ChargeAdvances(s, next, hd, q, a);
    } else if hd.pc.MarkFailed? || hd.pc.RereadFailed? || hd.pc.EnqueueFailure? {
      FailAdvances(s, next, hd, q, a);
    } else {
      SettleAdvances(s, next, hd, q, a);
    }
  }

  predicate Advances(o: Outcome, pc: Pc, q: PayReq, a: Uuid) {
    if o.Continue? then WorksOn(o.pc) == Some(a) && ToGo(o.pc) < ToGo(pc)
    else
      && o.answer.Some? && o.answer.value.req == q && o.answer.value.unknown == FateOf(q.token).Uncertain?
      && o.answer.value.result.Returned? && o.answer.value.result.id == a
  }

  /** While the card token leaves the outcome open, the call never gets to settle the attempt. */
  lemma UncertainStaysOpen(s: Shared, hd: Handler, q: PayReq, a: Uuid)
    requires SharedInv(s) && HandlerOk(s, hd) && StartedBy(s, q, a) && hd.job == Pay(q) && OnTrack(hd.pc, a)
    requires FateOf(q.token).Uncertain?
    ensures hd.pc.Lookup? || hd.pc.Replay? || hd.pc.CallPsp? || hd.pc.Await?
    ensures s.db.attempts[a].status.Pending?
  {
    if InSettleTx(hd.pc) || hd.pc.LockSettle? {
      CapturedNotFailed(s, a, hd.pc.ref);
    } else if s.db.attempts[a].status.Succeeded? {
      CapturedNotFailed(s, a, s.db.attempts[a].pspRef.value);
    }
  }

  lemma FirstStatements(s: Shared, next: Uuid, hd: Handler, q: PayReq, a: Uuid)
    requires StartedBy(s, q, a) && hd.job == Pay(q) && OnTrack(hd.pc, a)
    requires FateOf(q.token).Uncertain? ==> s.db.attempts[a].status.Pending?
    requires hd.pc.Lookup? || hd.pc.Replay? || hd.pc.CallPsp?
    ensures Advances(Effect(s, next, hd), hd.pc, q, a)
  {
  }

  lemma ChargeAdvances(s: Shared, next: Uuid, hd: Handler, q: PayReq, a: Uuid)
    requires StartedBy(s, q, a) && hd.job == Pay(q) && OnTrack(hd.pc, a) && hd.pc.Await?
    requires hd.pc.call in s.psp.procs && s.psp.procs[hd.pc.call].stage.Replied?
    requires var stage := s.psp.procs[hd.pc.call].stage;
             VerdictOf(Classify(Got(stage.httpCode, stage.resp))).LeavePending? <==> FateOf(q.token).Uncertain?
    ensures Advances(Effect(s, next, hd), hd.pc, q, a)
  {
  }

  lemma FailAdvances(s: Shared, next: Uuid, hd: Handler, q: PayReq, a: Uuid)
    requires a in s.db.attempts && hd.job == Pay(q) && OnTrack(hd.pc, a) && !FateOf(q.token).Uncertain?
    requires hd.pc.MarkFailed? || hd.pc.RereadFailed? || hd.pc.EnqueueFailure?
    ensures Advances(Effect(s, next, hd), hd.pc, q, a)
  {
  }

  lemma SettleAdvances(s: Shared, next: Uuid, hd: Handler, q: PayReq, a: Uuid)
    requires SharedInv(s) && HandlerOk(s, hd) && hd.job == Pay(q) && OnTrack(hd.pc, a) && !FateOf(q.token).Uncertain?
    requires InSettleTx(hd.pc) || hd.pc.LockSettle?
    ensures Advances(Effect(s, next, hd), hd.pc, q, a)
  {
    SettlePremises(s, hd, a);
    SettleStatements(s, next, hd, q, a);
  }

  lemma SettlePremises(s: Shared, hd: Handler, a: Uuid)
    requires SharedInv(s) && HandlerOk(s, hd) && OnTrack(hd.pc, a)
    requires InSettleTx(hd.pc) || hd.pc.LockSettle?
    ensures a in s.db.attempts && s.db.attempts[a].invoice == hd.pc.row.invoice && hd.pc.row.invoice in s.db.invoices
    ensures hd.pc.Reread? ==> s.db.attempts[a].status.Succeeded?
  {
    CapturedNotFailed(s, a, hd.pc.ref);
    assert AttemptOk(s.db, s.origin, a);
  }

  lemma SettleStatements(s: Shared, next: Uuid, hd: Handler, q: PayReq, a: Uuid)
    requires hd.job == Pay(q) && OnTrack(hd.pc, a) && !FateOf(q.token).Uncertain?
    requires InSettleTx(hd.pc) || hd.pc.LockSettle?
    requires a in s.db.attempts && s.db.attempts[a].invoice == hd.pc.row.invoice && hd.pc.row.invoice in s.db.invoices
    requires hd.pc.Reread? ==> s.db.attempts[a].status.Succeeded?
    ensures Advances(Effect(s, next, hd), hd.pc, q, a)
  {
  }

  lemma CallChangesPsp(s: Shared, next: Uuid, hd: Handler)
    ensures var s' := Effect(s, next, hd).s;
            s'.psp == s.psp || (hd.pc.CallPsp? && s'.psp.procs == s.psp.procs[s.psp.next := s'.psp.procs[s.psp.next]]
                                && s.psp.next in s'.psp.procs && s'.psp.procs[s.psp.next].stage.Arriving?)
  {
  }

  lemma StartedStays(s: Shared, s': Shared, q: PayReq, a: Uuid)
    requires StartedBy(s, q, a) && Grows(s, s')
    ensures StartedBy(s', q, a)
  {
  }

  lemma RunAdvances(w: World, h: Uuid, q: PayReq, a: Uuid)
    requires Inv(w) && Recovering(w, h, q, a) && SoloAction(w, Run(h)) && Enabled(w, Run(h))
    ensures Recovering(Do(w, Run(h)), h, q, a) && Left(Do(w, Run(h)), h) < Left(w, h)
  {
    var s, hd := SharedOf(w), w.handlers[h];
    var o, w' := Effect(s, w.next, hd), Do(w, Run(h));
    CallAdvances(s, w.next, hd, q, a);
    CallChangesPsp(s, w.next, hd);
    if hd.pc.CallPsp? {
      NewRequest(s.psp);
      TotalUpdated(s.psp.procs, s.psp.next, o.s.psp.procs[s.psp.next]);
    }
    DoGrows(w, Run(h));
    StartedStays(s, SharedOf(w'), q, a);
    if o.Finish? {
      assert w'.answers[h] == Answer(q, Returned(a, o.answer.value.result.row), FateOf(q.token).Uncertain?);
    }
  }

  lemma NewRequest(p: Psp)
    requires PspInv(p)
    ensures p.next !in p.procs
  {
  }

  lemma PspMoveAdvances(w: World, r: Uuid, h: Uuid, q: PayReq, a: Uuid)
    requires Inv(w) && Recovering(w, h, q, a) && Enabled(w, PspMove(r))
    ensures Recovering(Do(w, PspMove(r)), h, q, a) && Left(Do(w, PspMove(r)), h) < Left(w, h)
  {
    var w' := Do(w, PspMove(r));
    DoGrows(w, PspMove(r));
    StartedStays(SharedOf(w), SharedOf(w'), q, a);
    PspStepAdvances(w.psp, r);
    OnlyMoverMoves(w.psp, r);
    TotalUpdated(w.psp.procs, r, w'.psp.procs[r]);
  }

  lemma OnlyMoverMoves(p: Psp, r: Uuid)
    requires Ready(p, r)
    ensures r in Step(p, r).procs && Step(p, r).procs == p.procs[r := Step(p, r).procs[r]]
  {
  }

  lemma SoloStepAdvances(w: World, w': World, h: Uuid, q: PayReq, a: Uuid)
    requires Inv(w) && Recovering(w, h, q, a) && SoloStep(w, w')
    ensures Inv(w') && Recovering(w', h, q, a) && Left(w', h) < Left(w, h)
  {
    var x :| SoloAction(w, x) && Enabled(w, x) && w' == Do(w, x);
    DoKeepsInv(w, x);
    ActionAdvances(w, x, h, q, a);
  }

  lemma ActionAdvances(w: World, x: Action, h: Uuid, q: PayReq, a: Uuid)
    requires Inv(w) && Recovering(w, h, q, a) && SoloAction(w, x) && Enabled(w, x)
    ensures Recovering(Do(w, x), h, q, a) && Left(Do(w, x), h) < Left(w, h)
  {
    match x
    case Run(_) => RunAdvances(w, h, q, a);
    case PspMove(r) => PspMoveAdvances(w, r, h, q, a);
    case _ =>
  }

  /** While the call waits for its answer, some request at the PSP can move. */
  lemma PspNeverStuck(p: Psp, r: Uuid) returns (s: Uuid)
    requires PspInv(p) && r in p.procs && !p.procs[r].stage.Replied?
    ensures Ready(p, s)
  {
    s := r;
    assert OwnerOk(p, r);
    if !Ready(p, r) {
      var e := p.procs[r].stage.e;
      assert HasOwner(p, e);
      s :| s in p.procs && Owns(p.procs[s].stage) && p.procs[s].stage.e == e;
      assert OwnerOk(p, s);
    }
  }

  lemma SoloNeverStuck(w: World, h: Uuid, q: PayReq, a: Uuid)
    requires Inv(w) && Recovering(w, h, q, a) && h in w.handlers
    ensures exists w' :: SoloStep(w, w')
  {
    var hd := w.handlers[h];
    assert HandlerOk(SharedOf(w), hd);
    var x := Run(h);
    if hd.pc.Await? && !w.psp.procs[hd.pc.call].stage.Replied? {
      var r := PspNeverStuck(w.psp, hd.pc.call);
      x := PspMove(r);
    }
    assert SoloAction(w, x) && Enabled(w, x);
    assert SoloStep(w, Do(w, x));
  }

  lemma AnsweredMeansSettled(w: World, h: Uuid, q: PayReq, a: Uuid)
    requires Inv(w) && Recovering(w, h, q, a) && h !in w.handlers
    ensures match FateOf(q.token)
            case Charging => PaidBy(w, h, q, a)
            case Declining(_) => FailedBy(w, h, q, a)
            case Uncertain => LeftOpenBy(w, h, q, a)
  {
    var row := w.answers[h].result.row;
    assert AnswerOk(SharedOf(w), w.answers[h]);
    if FateOf(q.token).Uncertain? {
      OpenMeansPending(SharedOf(w), w.answers[h], a);
    } else if row.status.Succeeded? {
      SucceededMeansCharged(SharedOf(w), q, a);
    } else {
      FailedIsUncharged(SharedOf(w), a);
    }
  }

  lemma SucceededMeansCharged(s: Shared, q: PayReq, a: Uuid)
    requires SharedInv(s) && StartedBy(s, q, a) && s.db.attempts[a].status.Succeeded?
    ensures var row := s.db.attempts[a];
            && FateOf(q.token).Charging? && row.invoice == q.invoice && row.pspRef.Some?
            && q.invoice in s.db.invoices && s.db.invoices[q.invoice].status.Paid?
            && EventKey(PaymentSucceeded, a) in s.db.outbox && s.db.outbox[EventKey(PaymentSucceeded, a)] == row
            && HasCapture(s.psp, a, row.pspRef.value)
            && Charged(s.psp.ledger, s.origin, q.invoice) == 1
            && Captured(s.psp.ledger, s.origin, q.invoice) == row.amount
  {
    assert AttemptOk(s.db, s.origin, a);
    CapturedNotFailed(s, a, s.db.attempts[a].pspRef.value);
    SucceededMeansPaid(s, a);
    PaidMeansCaptured(s, q.invoice);
    MoneyOf(s, q.invoice);
  }

  /** What is answered of an attempt with such a token is the stored row, PENDING and uncharged. */
  lemma OpenMeansPending(s: Shared, x: Answer, a: Uuid)
    requires SharedInv(s) && AnswerOk(s, x) && ReturnsAttempt(x, a) && FateOf(x.req.token).Uncertain?
    ensures a in s.db.attempts && s.db.attempts[a].status.Pending? && x.result.row == s.db.attempts[a]
    ensures forall ref :: !HasCapture(s.psp, a, ref)
  {
    NeverCaptured(s, a);
    assert AttemptOk(s.db, s.origin, a);
  }

  // ---------------------------------------------------------------- the theorem

  /** What every step of a solo run keeps. */
  ghost predicate OnCourse(w: World, h: Uuid, q: PayReq, a: Uuid, told: bool) {
    Inv(w) && Recovering(w, h, q, a) && (told ==> !Lost(w, a))
  }

  lemma SoloStepStaysOnCourse(w: World, w': World, h: Uuid, q: PayReq, a: Uuid, told: bool)
    requires OnCourse(w, h, q, a, told) && SoloStep(w, w')
    ensures OnCourse(w', h, q, a, told) && Left(w', h) < Left(w, h)
  {
    SoloStepAdvances(w, w', h, q, a);
    SoloStepNeverLoses(w, w', a);
  }

  lemma SoloStepNeverLoses(w: World, w': World, a: Uuid)
    requires Inv(w) && SoloStep(w, w')
    ensures !Lost(w, a) ==> !Lost(w', a)
  {
    var x :| SoloAction(w, x) && Enabled(w, x) && w' == Do(w, x);
    if !Lost(w, a) && Lost(w', a) {
      OnlyFaultsLose(w, x, a);
    }
  }

  lemma CallRecovers(w: World, q: PayReq, a: Uuid)
    requires Inv(w) && w.handlers == map[] && StartedBy(SharedOf(w), q, a)
    ensures var w' := Do(w, Call(q));
            OnCourse(w', w.next, q, a, !Lost(w, a)) && Left(w', w.next) == Total(w.psp.procs) + 170
  {
    DoKeepsInv(w, Call(q));
    if !Lost(w, a) && Lost(Do(w, Call(q)), a) {
      OnlyFaultsLose(w, Call(q), a);
    }
  }

  lemma KeyTellsStarter(s: Shared, q: PayReq) returns (a: Uuid)
    requires SharedInv(s)
    requires KeyOf(q) in s.db.keys && s.db.keys[KeyOf(q)].invoice == q.invoice
    requires s.db.keys[KeyOf(q)].hash == HashPayRequest(q)
    ensures StartedBy(s, q, a) && s.db.keys[KeyOf(q)].attempt == Some(a)
  {
    a := s.db.keys[KeyOf(q)].attempt.value;
    assert a in s.db.attempts && a in s.origin;
  }

  /** The run is over and has ended well, or it can go on. */
  ghost predicate EndsWell(w: World, h: Uuid, q: PayReq, a: Uuid, told: bool) {
    if w.handlers != map[] then exists w' :: SoloStep(w, w') else Ended(w, h, q, a, told)
  }

  lemma LastOfRun(w: World, h: Uuid, q: PayReq, a: Uuid, told: bool)
    requires OnCourse(w, h, q, a, told)
    ensures EndsWell(w, h, q, a, told)
  {
    if h in w.handlers {
      SoloNeverStuck(w, h, q, a);
    } else {
      AnsweredMeansSettled(w, h, q, a);
    }
  }

  lemma SoloRunEnds(w: World, q: PayReq, a: Uuid, ws: seq<World>, told: bool)
    requires Inv(w) && w.handlers == map[] && StartedBy(SharedOf(w), q, a) && SoloRun(w, q, ws) && told == !Lost(w, a)
    ensures |ws| <= Total(w.psp.procs) + 171 && EndsWell(ws[|ws| - 1], w.next, q, a, told)
  {
    CallRecovers(w, q, a);
    OnCourseEnds(ws, w.next, q, a, told);
  }

  lemma OnCourseEnds(ws: seq<World>, h: Uuid, q: PayReq, a: Uuid, told: bool)
    requires |ws| > 0 && forall k :: 0 <= k < |ws| - 1 ==> SoloStepAt(ws, k)
    requires OnCourse(ws[0], h, q, a, told)
    ensures |ws| <= Left(ws[0], h) + 1 && EndsWell(ws[|ws| - 1], h, q, a, told)
  {
    var ok, done := v => OnCourse(v, h, q, a, told), v => EndsWell(v, h, q, a, told);
    var left := v => Left(v, h);
    forall k | 0 <= k < |ws| - 1
      ensures Drops(ws, ok, left, k)
    {
      assert SoloStepAt(ws, k);
      if ok(ws[k]) {
        SoloStepStaysOnCourse(ws[k], ws[k + 1], h, q, a, told);
      }
    }
    forall v | ok(v)
      ensures done(v)
    {
      LastOfRun(v, h, q, a, told);
    }
    FallsToEnd(ws, ok, left, done);
  }

  /** The request is paid if its card is charged; it failed if the card is
      declined, and if the failure was not lost before, its event is posted; it is
      left open if the token says no more. */
  ghost predicate Ended(w: World, h: Uuid, q: PayReq, a: Uuid, told: bool) {
    match FateOf(q.token)
    case Charging => PaidBy(w, h, q, a)
    case Declining(_) => FailedBy(w, h, q, a) && (told ==> FailedEvent(a) in w.db.outbox)
    case Uncertain => LeftOpenBy(w, h, q, a)
  }

  /** Crash recovery: take any reachable state in which every handler has died,
      wherever it was, and a key row committed for q, with any card token.  Send q
      again and let it run alone.  Then every order in which the server and the PSP
      take their steps ends, nothing gets stuck on the way, and at the end q is
      paid by the attempt its key names if its card is one that is charged, failed
      by it, uncharged, with the promised code if its card is declined, and PENDING,
      uncharged, if the token is tok_network_error. */
  lemma RecoveryConverges(t: seq<World>, n: nat, q: PayReq, ws: seq<World>)
    requires IsRun(t) && n < |t| && t[n].handlers == map[]
    requires KeyOf(q) in t[n].db.keys
    requires t[n].db.keys[KeyOf(q)].invoice == q.invoice && t[n].db.keys[KeyOf(q)].hash == HashPayRequest(q)
    requires SoloRun(t[n], q, ws)
    ensures |ws| <= Total(t[n].psp.procs) + 171
    ensures t[n].db.keys[KeyOf(q)].attempt.Some?
    ensures var a := t[n].db.keys[KeyOf(q)].attempt.value;
            EndsWell(ws[|ws| - 1], t[n].next, q, a, !IsFailed(t[n].db, a) || FailedEvent(a) in t[n].db.outbox)
  {
    RunHasInv(t, n);
    var a := KeyTellsStarter(SharedOf(t[n]), q);
    SoloRunEnds(t[n], q, a, ws, !IsFailed(t[n].db, a) || FailedEvent(a) in t[n].db.outbox);
  }
}
