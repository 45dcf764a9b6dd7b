/** The payment.failed event: a crash can lose it, and exactly when it is lost. */
module FailureEvents {
  import opened Model
  import opened SingleFlight
  import opened PspClient
  import opened Protocol
  import opened Invariant
  import opened SharedSteps
  import opened Steps
  import opened Money
  import opened Refinement
  import opened Runs

  function FailedEvent(a: Uuid): EventKey {
    EventKey(PaymentFailed, a)
  }

  ghost predicate AboutToPost(w: World, a: Uuid) {
    exists h :: Posting(w, h, a)
  }

  /** Handler h stands between failing a and posting the event. */
  ghost predicate Posting(w: World, h: Uuid, a: Uuid) {
    h in w.handlers && w.handlers[h].pc.EnqueueFailure? && w.handlers[h].pc.id == a
  }

  /** The attempt has failed, and nobody has told or is about to. */
  ghost predicate Lost(w: World, a: Uuid) {
    && a in w.db.attempts && w.db.attempts[a].status.Failed?
    && FailedEvent(a) !in w.db.outbox
    && !AboutToPost(w, a)
  }

  /** Any continuation of world w. */
  ghost predicate Continues(w: World, ws: seq<World>) {
    && |ws| > 0
    && ws[0] == w
    && forall n :: 0 <= n < |ws| - 1 ==> StepAt(ws, n)
  }

  // ---------------------------------------------------------------- once lost, lost for ever

  predicate Silent(o: Outcome, a: Uuid) {
    && FailedEvent(a) !in o.s.db.outbox
    && (o.Continue? ==> !(o.pc.EnqueueFailure? && o.pc.id == a))
  }

  lemma EffectKeepsLost(s: Shared, next: Uuid, hd: Handler, a: Uuid)
    requires HandlerOk(s, hd)
    requires a in s.db.attempts && s.db.attempts[a].status.Failed?
    requires FailedEvent(a) !in s.db.outbox && !(hd.pc.EnqueueFailure? && hd.pc.id == a)
    ensures Silent(Effect(s, next, hd), a)
  {
    if hd.pc.MarkFailed? || hd.pc.EnqueueFailure? {
      FailureKeepsLost(s, next, hd, a);
    } else {
      OthersNeverPost(s, next, hd, a);
    }
  }

  lemma FailureKeepsLost(s: Shared, next: Uuid, hd: Handler, a: Uuid)
    requires a in s.db.attempts && s.db.attempts[a].status.Failed?
    requires FailedEvent(a) !in s.db.outbox && !(hd.pc.EnqueueFailure? && hd.pc.id == a)
    requires hd.pc.MarkFailed? || hd.pc.EnqueueFailure?
    ensures Silent(Effect(s, next, hd), a)
  {
  }

  lemma OthersNeverPost(s: Shared, next: Uuid, hd: Handler, a: Uuid)
    requires FailedEvent(a) !in s.db.outbox && !hd.pc.MarkFailed? && !hd.pc.EnqueueFailure?
    ensures Silent(Effect(s, next, hd), a)
  {
  }

  lemma DoKeepsLost(w: World, x: Action, a: Uuid)
    requires Inv(w) && Enabled(w, x) && Lost(w, a)
    ensures Lost(Do(w, x), a)
  {
    DoGrows(w, x);
    FrozenStays(w.db, Do(w, x).db, a);
    if x.Run? || x.LoseAck? {
      assert HandlerOk(SharedOf(w), w.handlers[x.h]);
      assert !Posting(w, x.h, a);
      EffectKeepsLost(SharedOf(w), w.next, w.handlers[x.h], a);
    }
    NobodyElsePosts(w, x, a);
  }

  lemma FrozenStays(db: Db, db': Db, a: Uuid)
    requires DbGrows(db, db') && a in db.attempts && !db.attempts[a].status.Pending?
    ensures a in db'.attempts && db'.attempts[a] == db.attempts[a]
  {
  }

  lemma NobodyElsePosts(w: World, x: Action, a: Uuid)
    requires Enabled(w, x) && FailedEvent(a) !in w.db.outbox && !AboutToPost(w, a)
    requires x.Run? || x.LoseAck? ==> Silent(Effect(SharedOf(w), w.next, w.handlers[x.h]), a)
    ensures FailedEvent(a) !in Do(w, x).db.outbox && !AboutToPost(Do(w, x), a)
  {
    var w' := Do(w, x);
    forall h
      ensures !Posting(w', h, a)
    {
      assert !Posting(w, h, a);
    }
  }

  lemma LostForEver(w: World, ws: seq<World>, n: nat, a: Uuid)
    requires Inv(w) && Lost(w, a) && Continues(w, ws) && n < |ws|
    ensures Lost(ws[n], a)
  {
    var ok := v => Inv(v) && Lost(v, a);
    forall k | 0 <= k < |ws| - 1
      ensures Kept(ws, ok, k)
    {
      assert StepAt(ws, k);
      if ok(ws[k]) {
        NextKeepsLost(ws[k], ws[k + 1], a);
      }
    }
    Throughout(ws, ok, n);
  }

  lemma NextKeepsLost(w: World, w': World, a: Uuid)
    requires Inv(w) && Lost(w, a) && Next(w, w')
    ensures Inv(w') && Lost(w', a)
  {
    var x :| Enabled(w, x) && w' == Do(w, x);
    DoKeepsInv(w, x);
    DoKeepsLost(w, x, a);
  }

  /** The handler that failed the attempt is never kept from posting. */
  lemma PostingIsFree(w: World, h: Uuid, a: Uuid)
    requires Posting(w, h, a)
    ensures Enabled(w, Run(h)) && Next(w, Do(w, Run(h))) && FailedEvent(a) in Do(w, Run(h)).db.outbox
  {
  }

  /** Exactly when a FAILED attempt gets its payment.failed event: in some
      continuation it is in the outbox if and only if it is there already or a
      live handler stands between failing the attempt and posting the event. */
  lemma FailedEventIff(t: seq<World>, n: nat, a: Uuid)
    requires IsRun(t) && n < |t| && a in t[n].db.attempts && t[n].db.attempts[a].status.Failed?
    ensures (exists ws: seq<World> :: Continues(t[n], ws) && FailedEvent(a) in ws[|ws| - 1].db.outbox)
            <==> FailedEvent(a) in t[n].db.outbox || AboutToPost(t[n], a)
  {
    RunHasInv(t, n);
    if Lost(t[n], a) {
      NeverPosted(t[n], a);
    } else {
      PostedSoon(t[n], a);
    }
  }

  lemma NeverPosted(w: World, a: Uuid)
    requires Inv(w) && Lost(w, a)
    ensures forall ws: seq<World> :: Continues(w, ws) ==> FailedEvent(a) !in ws[|ws| - 1].db.outbox
  {
    forall ws: seq<World> | Continues(w, ws)
      ensures FailedEvent(a) !in ws[|ws| - 1].db.outbox
    {
      LostForEver(w, ws, |ws| - 1, a);
    }
  }

  lemma PostedSoon(w: World, a: Uuid)
    requires FailedEvent(a) in w.db.outbox || AboutToPost(w, a)
    ensures exists ws: seq<World> :: Continues(w, ws) && FailedEvent(a) in ws[|ws| - 1].db.outbox
  {
    if FailedEvent(a) in w.db.outbox {
      assert Continues(w, [w]);
    } else {
      var h :| Posting(w, h, a);
      PostingIsFree(w, h, a);
      assert Continues(w, [w, Do(w, Run(h))]);
    }
  }

  // ---------------------------------------------------------------- who loses it

  predicate IsFailed(db: Db, a: Uuid) {
    a in db.attempts && db.attempts[a].status.Failed?
  }

  /** A statement that fails attempt a goes on to post its event, and posting posts it. */
  predicate Tells(s: Shared, hd: Handler, o: Outcome, a: Uuid) {
    && (hd.pc.EnqueueFailure? && hd.pc.id == a ==> FailedEvent(a) in o.s.db.outbox)
    && (IsFailed(o.s.db, a) && !IsFailed(s.db, a) ==> o.Continue? && o.pc.EnqueueFailure? && o.pc.id == a)
  }

  lemma EffectTells(s: Shared, next: Uuid, hd: Handler, a: Uuid)
    requires SharedInv(s) && HandlerOk(s, hd)
    ensures Tells(s, hd, Effect(s, next, hd), a)
  {
    if hd.pc.MarkFailed? || hd.pc.EnqueueFailure? || hd.pc.CommitStart? {
      FailureTells(s, next, hd, a);
    } else if hd.pc.CommitSettle? {
      CapturedNotFailed(s, hd.pc.id, hd.pc.ref);
      SuccessTells(s, next, hd, a);
    } else {
      QuietEffect(s, next, hd);
    }
  }

  lemma FailureTells(s: Shared, next: Uuid, hd: Handler, a: Uuid)
    requires HandlerOk(s, hd)
    requires hd.pc.MarkFailed? || hd.pc.EnqueueFailure? || hd.pc.CommitStart?
    ensures Tells(s, hd, Effect(s, next, hd), a)
  {
  }

  lemma SuccessTells(s: Shared, next: Uuid, hd: Handler, a: Uuid)
    requires hd.pc.CommitSettle?
    ensures Tells(s, hd, Effect(s, next, hd), a)
  {
  }

  /** Only a handler that dies, or whose statement fails, just before it posts the event loses it. */
  lemma OnlyFaultsLose(w: World, x: Action, a: Uuid)
    requires Inv(w) && Enabled(w, x) && !Lost(w, a) && Lost(Do(w, x), a)
    ensures (x.Crash? || x.Break?) && Posting(w, x.h, a)
  {
    if x.Run? || x.LoseAck? {
      StatementTells(w, x.h, a);
      StatementsNeverLose(w, x, a);
    } else {
      if !x.PspMove? && !x.Resend? {
        RowsStay(w, x);
      }
      LeaversLose(w, x, a);
    }
  }

  lemma StatementTells(w: World, h: Uuid, a: Uuid)
    requires Inv(w) && h in w.handlers
    ensures Tells(SharedOf(w), w.handlers[h], Effect(SharedOf(w), w.next, w.handlers[h]), a)
    ensures DbGrows(w.db, Effect(SharedOf(w), w.next, w.handlers[h]).s.db)
  {
    assert HandlerOk(SharedOf(w), w.handlers[h]);
    EffectTells(SharedOf(w), w.next, w.handlers[h], a);
    EffectOk(SharedOf(w), w.next, w.handlers[h]);
  }

  lemma StatementsNeverLose(w: World, x: Action, a: Uuid)
    requires (x.Run? || x.LoseAck?) && Enabled(w, x) && !Lost(w, a)
    requires Tells(SharedOf(w), w.handlers[x.h], Effect(SharedOf(w), w.next, w.handlers[x.h]), a)
    requires DbGrows(w.db, Effect(SharedOf(w), w.next, w.handlers[x.h]).s.db)
    ensures !Lost(Do(w, x), a)
  {
    if !IsFailed(w.db, a) {
      NewlyFailed(w, x, a);
    } else if FailedEvent(a) !in w.db.outbox {
      var h :| Posting(w, h, a);
      assert h != x.h ==> Posting(Do(w, x), h, a);
    }
  }

  /** Whoever fails the attempt is about to say so. */
  lemma NewlyFailed(w: World, x: Action, a: Uuid)
    requires (x.Run? || x.LoseAck?) && Enabled(w, x) && !IsFailed(w.db, a)
    requires Tells(SharedOf(w), w.handlers[x.h], Effect(SharedOf(w), w.next, w.handlers[x.h]), a)
    ensures !Lost(Do(w, x), a)
  {
    if x.Run? {
      assert IsFailed(Do(w, x).db, a) ==> Posting(Do(w, x), x.h, a);
    } else {
      LateNeverFails(SharedOf(w), w.next, w.handlers[x.h], a);
    }
  }

  lemma LateNeverFails(s: Shared, next: Uuid, hd: Handler, a: Uuid)
    requires CanLoseAck(hd.pc) && !IsFailed(s.db, a)
    ensures !IsFailed(Effect(s, next, hd).s.db, a)
  {
  }

  lemma LeaversLose(w: World, x: Action, a: Uuid)
    requires !x.Run? && !x.LoseAck? && Enabled(w, x) && Do(w, x).db == w.db && IdsOk(w)
    requires !Lost(w, a) && Lost(Do(w, x), a)
    ensures (x.Crash? || x.Break?) && Posting(w, x.h, a)
  {
    var h :| Posting(w, h, a);
    assert !Posting(Do(w, x), h, a);
  }

  // ---------------------------------------------------------------- a run that loses it

  lemma Extend(t: seq<World>, x: Action) returns (t': seq<World>)
    requires IsRun(t) && Enabled(t[|t| - 1], x)
    ensures IsRun(t') && t' == t + [Do(t[|t| - 1], x)]
  {
    t' := t + [Do(t[|t| - 1], x)];
    assert Next(t[|t| - 1], Do(t[|t| - 1], x));
    forall n | 0 <= n < |t'| - 1
      ensures StepAt(t', n)
    {
      assert n < |t| - 1 ==> StepAt(t, n);
    }
  }

  /** The only handler runs unhindered. */
  lemma ExtendAlone(t: seq<World>, h: Uuid, hd: Handler) returns (t': seq<World>)
    requires IsRun(t) && t[|t| - 1].handlers == map[h := hd]
    ensures IsRun(t') && |t'| == |t| + 1
    ensures var w, w', o := t[|t| - 1], t'[|t'| - 1], Effect(SharedOf(t[|t| - 1]), t[|t| - 1].next, hd);
            && SharedOf(w') == o.s
            && (o.Continue? ==> w'.handlers == map[h := Handler(hd.job, o.pc)] && w'.next == o.next)
  {
    t' := Extend(t, Run(h));
  }

  /** A declined card on a draft invoice, up to the commit of the new attempt, which gets id 1. */
  lemma StartedRun(i: Uuid, inv: Invoice, q: PayReq) returns (t: seq<World>)
    requires q.invoice == i && inv.business == q.business && inv.status.Draft? && inv.amount > 0
    ensures IsRun(t)
    ensures var w := t[|t| - 1];
            && w.handlers == map[0 := Handler(Pay(q), CallPsp(1, NewAttempt(q, inv)))]
            && w.db.attempts == map[1 := NewAttempt(q, inv)] && w.db.outbox == map[] && w.db.inbound == map[]
            && w.psp == EMPTY_PSP && w.next == 2
  {
    t := LockedRun(i, inv, q);
    t := ExtendAlone(t, 0, Handler(Pay(q), InsertKey(inv)));
    t := ExtendAlone(t, 0, Handler(Pay(q), CheckPending(inv)));
    t := ExtendAlone(t, 0, Handler(Pay(q), InsertAttempt(inv)));
    t := ExtendAlone(t, 0, Handler(Pay(q), CommitStart(inv)));
  }

  lemma LockedRun(i: Uuid, inv: Invoice, q: PayReq) returns (t: seq<World>)
    requires q.invoice == i && inv.business == q.business && inv.status.Draft? && inv.amount > 0
    ensures IsRun(t)
    ensures var w := t[|t| - 1];
            && w.handlers == map[0 := Handler(Pay(q), InsertKey(inv))] && w.next == 1
            && w.db == Db(map[i := inv], map[], map[], map[], map[]) && w.psp == EMPTY_PSP
  {
    t := [World(Db(map[i := inv], map[], map[], map[], map[]), map[], EMPTY_PSP, {}, map[], map[], 0)];
    t := Extend(t, Call(q));
    assert t[|t| - 1].handlers == map[0 := Handler(Pay(q), Lookup)];
    t := ExtendAlone(t, 0, Handler(Pay(q), Lookup));
    t := ExtendAlone(t, 0, Handler(Pay(q), LockInvoice));
    t := ExtendAlone(t, 0, Handler(Pay(q), OpenInvoice(inv)));
  }

  /** The PSP declines. */
  lemma DeclinedRun(t: seq<World>, q: PayReq, row: Attempt) returns (t': seq<World>)
    requires IsRun(t) && q.token.TokCardDeclined?
    requires var w := t[|t| - 1]; w.handlers == map[0 := Handler(Pay(q), CallPsp(1, row))] && w.psp == EMPTY_PSP
    ensures IsRun(t') && t'[|t'| - 1].db == t[|t| - 1].db
    ensures t'[|t'| - 1].handlers == map[0 := Handler(Pay(q), MarkFailed(1, row, CardDeclined))]
  {
    t' := ExtendAlone(t, 0, Handler(Pay(q), CallPsp(1, row)));
    t' := RefusedAtPsp(t', ChargeOf(q, 1, row));
    t' := ExtendAlone(t', 0, Handler(Pay(q), Await(1, row, 0)));
  }

  /** The PSP's three steps on its only request, for a card it declines. */
  lemma RefusedAtPsp(t: seq<World>, c: ChargeReq) returns (t': seq<World>)
    requires IsRun(t) && c.token.TokCardDeclined? && c.key.Some? && t[|t| - 1].psp == Send(EMPTY_PSP, c)
    ensures IsRun(t')
    ensures var w, w' := t[|t| - 1], t'[|t'| - 1];
            && w'.db == w.db && w'.handlers == w.handlers && w'.next == w.next
            && w'.psp.procs ==
                 map[0 := Proc(c, Replied(200, Response(RespFailed, None, Some(CardDeclined)), TokCardDeclined))]
  {
    t' := Extend(t, PspMove(0));
    t' := Extend(t', PspMove(0));
    t' := Extend(t', PspMove(0));
  }

  /** Not every FAILED attempt has a payment.failed event: a card is declined,
      the server dies between the two statements of persistFailure, and no
      continuation ever posts the event. */
  lemma CrashLosesEvent(i: Uuid, inv: Invoice, q: PayReq) returns (t: seq<World>)
    requires q.invoice == i && inv.business == q.business && inv.status.Draft? && inv.amount > 0
    requires q.token.TokCardDeclined?
    ensures IsRun(t)
    ensures var w := t[|t| - 1];
            && 1 in w.db.attempts && w.db.attempts[1].status.Failed?
            && forall ws: seq<World> :: Continues(w, ws) ==> FailedEvent(1) !in ws[|ws| - 1].db.outbox
  {
    var row := NewAttempt(q, inv);
    t := StartedRun(i, inv, q);
    t := DeclinedRun(t, q, row);
    t := ExtendAlone(t, 0, Handler(Pay(q), MarkFailed(1, row, CardDeclined)));
    t := Extend(t, Crash(0));
    var w := t[|t| - 1];
    assert w.handlers == map[] && Lost(w, 1);
    FailedEventIff(t, |t| - 1, 1);
  }
}
