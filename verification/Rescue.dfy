/** Settling a charged attempt without its request being repeated: whenever
    anything can still do it, some continuation does. */
module Rescue {
  import opened Model
  import opened SingleFlight
  import opened SingleFlightProofs
  import opened Protocol
  import opened Invariant
  import opened SharedSteps
  import opened Steps
  import opened Money
  import opened Agreement
  import opened Recovery
  import opened Announcements
  import opened Stranded

  // ---------------------------------------------------------------- reaching a world

  ghost predicate Reaches(w: World, w': World, a: Uuid) {
    exists ws: seq<World> :: Unasked(w, ws, a) && ws[|ws| - 1] == w'
  }

  lemma ReachSelf(w: World, a: Uuid)
    ensures Reaches(w, w, a)
  {
    assert Unasked(w, [w], a);
  }

  lemma ReachFrom(w: World, w': World, w'': World, a: Uuid)
    requires UnaskedStep(w, w', a) && Reaches(w', w'', a)
    ensures Reaches(w, w'', a)
  {
    var ws: seq<World> :| Unasked(w', ws, a) && ws[|ws| - 1] == w'';
    var vs := [w] + ws;
    forall k | 0 <= k < |vs| - 1
      ensures UnaskedAt(vs, a, k)
    {
      assert k > 0 ==> UnaskedAt(ws, a, k - 1);
    }
    assert Unasked(w, vs, a) && vs[|vs| - 1] == w'';
  }

  // ---------------------------------------------------------------- what is to be settled

  /** A charged attempt, pending or settled. */
  ghost predicate IsCharged(w: World, a: Uuid) {
    && Inv(w) && AnnouncedOnce(w.psp)
    && exists ref :: HasCapture(w.psp, a, ref)
  }

  predicate IsSettled(w: World, a: Uuid) {
    a in w.db.attempts && w.db.attempts[a].status.Succeeded?
  }

  ghost predicate Rescuable(w: World, a: Uuid) {
    exists w' :: Reaches(w, w', a) && IsSettled(w', a)
  }

  lemma ChargedStays(w: World, x: Action, a: Uuid)
    requires IsCharged(w, a) && Enabled(w, x)
    ensures IsCharged(Do(w, x), a)
  {
    DoKeepsInv(w, x);
    DoAnnounces(w, x);
    DoGrows(w, x);
    CapturesStay(w.psp, Do(w, x).psp);
  }

  lemma RescueOn(w: World, x: Action, a: Uuid)
    requires Enabled(w, x) && NotAsked(w, x, a) && Rescuable(Do(w, x), a)
    ensures Rescuable(w, a)
  {
    var w' :| Reaches(Do(w, x), w', a) && IsSettled(w', a);
    assert UnaskedStep(w, Do(w, x), a);
    ReachFrom(w, Do(w, x), w', a);
  }

  lemma RescueNow(w: World, a: Uuid)
    requires IsSettled(w, a)
    ensures Rescuable(w, a)
  {
    ReachSelf(w, a);
  }

  // ---------------------------------------------------------------- everybody else dies

  /** w' is w with no handler but h. */
  ghost predicate OnlyLeft(w: World, w': World, h: Uuid) {
    && w' == w.(handlers := w'.handlers)
    && w'.handlers.Keys <= {h}
    && (h in w.handlers ==> h in w'.handlers && w'.handlers[h] == w.handlers[h])
  }

  lemma CrashRemoves(w: World, g: Uuid)
    requires g in w.handlers
    ensures Do(w, Crash(g)) == w.(handlers := w.handlers - {g})
  {
  }

  lemma {:induction false} OthersDie(w: World, h: Uuid, a: Uuid) returns (w': World)
    requires IsCharged(w, a)
    ensures IsCharged(w', a) && OnlyLeft(w, w', h) && (Rescuable(w', a) ==> Rescuable(w, a))
    decreases |w.handlers|
  {
    if g :| g in w.handlers && g != h {
      CrashRemoves(w, g);
      ChargedStays(w, Crash(g), a);
      w' := OthersDie(Do(w, Crash(g)), h, a);
      if Rescuable(w', a) {
        RescueOn(w, Crash(g), a);
      }
    } else {
      assert forall g :: g in w.handlers.Keys ==> g == h;
      w' := w;
    }
  }

  lemma AloneIsFree(w: World, h: Uuid)
    requires h in w.handlers && w.handlers.Keys <= {h}
    ensures Enabled(w, Run(h))
  {
  }

  // ---------------------------------------------------------------- a call already under way

  lemma {:induction false} SoloRescues(w: World, h: Uuid, q: PayReq, a: Uuid)
    requires IsCharged(w, a) && Recovering(w, h, q, a)
    ensures Rescuable(w, a)
    decreases Left(w, h)
  {
    if h in w.handlers {
      SoloNeverStuck(w, h, q, a);
      var w' :| SoloStep(w, w');
      var x :| SoloAction(w, x) && Enabled(w, x) && w' == Do(w, x);
      ChargedStays(w, x, a);
      SoloStepAdvances(w, w', h, q, a);
      SoloRescues(w', h, q, a);
      RescueOn(w, x, a);
    } else {
      ChargedToken(w, q, a);
      AnsweredMeansSettled(w, h, q, a);
      RescueNow(w, a);
    }
  }

  lemma ChargedToken(w: World, q: PayReq, a: Uuid)
    requires IsCharged(w, a) && a in w.origin && w.origin[a] == q
    ensures Charges(q.token)
  {
    var ref :| HasCapture(w.psp, a, ref);
    CapturedNotFailed(SharedOf(w), a, ref);
  }

  /** Where a call stands whose key row is committed. */
  lemma CallStandsAt(s: Shared, hd: Handler, q: PayReq, a: Uuid)
    requires SharedInv(s) && HandlerOk(s, hd) && hd.job == Pay(q) && a in s.origin && s.origin[a] == q
    ensures Committed(s.db, q) && s.db.keys[KeyOf(q)].attempt == Some(a)
    ensures || hd.pc.Lookup? || hd.pc.LockInvoice? || hd.pc.OpenInvoice? || hd.pc.InsertKey? || hd.pc.Relookup?
            || WorksOn(hd.pc) == Some(a)
  {
    assert a in s.db.attempts && AttemptOk(s.db, s.origin, a);
    assert InvoiceOk(s.db, q.invoice) && HasAttempt(s.db, q.invoice);
    assert KeyOf(q) in s.db.keys && s.db.keys[KeyOf(q)].attempt == Some(a);
    if WorksOn(hd.pc).Some? {
      SameOrigin(s, a, WorksOn(hd.pc).value);
    }
  }

  lemma SameOrigin(s: Shared, a: Uuid, b: Uuid)
    requires KeysOk(s.db, s.origin) && a in s.origin && b in s.origin && s.origin[a] == s.origin[b]
    ensures a == b
  {
  }

  /** The call's statements up to the replay. */
  lemma {:induction false} CallRescues(w: World, h: Uuid, a: Uuid)
    requires IsCharged(w, a) && h in w.handlers && w.handlers.Keys <= {h} && a in w.origin
    requires a in w.db.attempts && w.db.attempts[a].status.Pending?
    requires w.handlers[h].job.Pay? && w.handlers[h].job.req == w.origin[a]
    ensures Rescuable(w, a)
    decreases if w.handlers[h].pc.LockInvoice? || w.handlers[h].pc.OpenInvoice? then 3
              else if w.handlers[h].pc.InsertKey? then 2
              else if w.handlers[h].pc.Relookup? then 1 else 0
  {
    var q, hd, s := w.origin[a], w.handlers[h], SharedOf(w);
    assert HandlerOk(s, hd);
    CallStandsAt(s, hd, q, a);
    ChargedToken(w, q, a);
    if hd.pc.Lookup? || WorksOn(hd.pc) == Some(a) {
      SoloRescues(w, h, q, a);
    } else {
      PendingMeansOpen(s, a);
      KnownKeyEffects(s, w.next, q);
      AttemptsInvoice(s, a);
      AloneIsFree(w, h);
      ChargedStays(w, Run(h), a);
      CallRescues(Do(w, Run(h)), h, a);
      RescueOn(w, Run(h), a);
    }
  }

  lemma AttemptsInvoice(s: Shared, a: Uuid)
    requires SharedInv(s) && a in s.db.attempts
    ensures a in s.origin && s.db.attempts[a].invoice == s.origin[a].invoice
  {
    assert AttemptOk(s.db, s.origin, a);
  }

  // ---------------------------------------------------------------- a webhook under way

  function HookToGo(pc: Pc): nat {
    match pc
    case HookFetch => 7
    case LockSettle(_, _, _) => 6
    case MarkSucceeded(_, _, _) => 5
    case Reread(_, _, _) => 4
    case MarkPaid(_, _, _, _) => 3
    case EnqueueSuccess(_, _, _, _, _) => 2
    case CommitSettle(_, _, _, _, _, _) => 1
    case _ => 0
  }

  /** A webhook handler about attempt a that has its settlement ahead. */
  predicate Hooks(hd: Handler, m: Msg) {
    hd.job == Hook(m) && HookToGo(hd.pc) > 0
  }

  lemma HookAdvances(s: Shared, next: Uuid, hd: Handler, m: Msg, a: Uuid)
    requires SharedInv(s) && HandlerOk(s, hd) && Hooks(hd, m) && m.key == Some(a)
    ensures var o := Effect(s, next, hd);
            && o.Continue?
            && ((a in o.s.db.attempts && o.s.db.attempts[a].status.Succeeded?) || 0 < HookToGo(o.pc) < HookToGo(hd.pc))
  {
    JobIsKnown(s, hd);
    WebhookIsTrue(s, m);
    if hd.pc.CommitSettle? {
      SettleIsAtomic(s, hd);
      CommitSettleIs(s, next, hd);
      SettleKeepsShared(s, hd.pc.id, hd.pc.ref, s.(db := Settle(s.db, hd.pc.id, hd.pc.ref)));
    } else {
      RowsAreShaped(s, a);
      CapturedNotFailed(s, a, m.ref);
      HookMoves(s, next, hd, m, a);
    }
  }

  lemma HookMoves(s: Shared, next: Uuid, hd: Handler, m: Msg, a: Uuid)
    requires HandlerOk(s, hd) && Hooks(hd, m) && !hd.pc.CommitSettle?
    requires m.key == Some(a) && m.succeeded && a in s.db.attempts && !s.db.attempts[a].status.Failed?
    requires s.db.attempts[a].invoice in s.db.invoices
    ensures var o := Effect(s, next, hd); o.Continue? && 0 < HookToGo(o.pc) < HookToGo(hd.pc)
  {
  }

  lemma {:induction false} HookRescues(w: World, h: Uuid, m: Msg, a: Uuid)
    requires IsCharged(w, a) && h in w.handlers && w.handlers.Keys <= {h}
    requires Hooks(w.handlers[h], m) && m.key == Some(a)
    ensures Rescuable(w, a)
    decreases HookToGo(w.handlers[h].pc)
  {
    assert HandlerOk(SharedOf(w), w.handlers[h]);
    HookAdvances(SharedOf(w), w.next, w.handlers[h], m, a);
    AloneIsFree(w, h);
    ChargedStays(w, Run(h), a);
    if IsSettled(Do(w, Run(h)), a) {
      RescueNow(Do(w, Run(h)), a);
    } else {
      HookRescues(Do(w, Run(h)), h, m, a);
    }
    RescueOn(w, Run(h), a);
  }

  // ---------------------------------------------------------------- a webhook to come

  predicate Unprocessed(w: World, m: Msg) {
    m in w.psp.mail && !(m.event in w.db.inbound && w.db.inbound[m.event].InProcessed?)
  }

  /** Handler h, alone, stands before the status check of a webhook that passes it. */
  predicate BeforeCheck(w: World, h: Uuid, m: Msg) {
    && h in w.handlers && w.handlers.Keys <= {h} && Unprocessed(w, m) && w.handlers[h].job == Hook(m)
    && (w.handlers[h].pc.HookCreate? || (w.handlers[h].pc.HookExisting? && m.event in w.db.inbound))
  }

  lemma CheckAdvances(w: World, h: Uuid, m: Msg) returns (fetches: bool)
    requires BeforeCheck(w, h, m)
    ensures Enabled(w, Run(h)) && Fetches(w, Do(w, Run(h)), h, m, fetches)
  {
    AloneIsFree(w, h);
    fetches := Do(w, Run(h)).handlers[h].pc.HookFetch?;
  }

  lemma RunLeads(w: World, h: Uuid, a: Uuid)
    requires IsCharged(w, a) && Enabled(w, Run(h))
    ensures IsCharged(Do(w, Run(h)), a) && (Rescuable(Do(w, Run(h)), a) ==> Rescuable(w, a))
  {
    ChargedStays(w, Run(h), a);
    if Rescuable(Do(w, Run(h)), a) {
      RescueOn(w, Run(h), a);
    }
  }

  /** After h's next statement the webhook is past its check, or about to reach it. */
  predicate Fetches(w: World, w': World, h: Uuid, m: Msg, fetches: bool) {
    && h in w'.handlers && w'.handlers.Keys <= {h}
    && (if fetches then Hooks(w'.handlers[h], m) else BeforeCheck(w', h, m) && Exists(w', h))
    && (Exists(w, h) ==> fetches)
  }

  lemma CheckLeads(w: World, h: Uuid, m: Msg, a: Uuid) returns (w': World, fetches: bool)
    requires IsCharged(w, a) && BeforeCheck(w, h, m)
    ensures IsCharged(w', a) && (Rescuable(w', a) ==> Rescuable(w, a)) && Fetches(w, w', h, m, fetches)
  {
    fetches := CheckAdvances(w, h, m);
    RunLeads(w, h, a);
    w' := Do(w, Run(h));
  }

  predicate Exists(w: World, h: Uuid) {
    h in w.handlers && w.handlers[h].pc.HookExisting?
  }

  lemma {:induction false} CheckRescues(w: World, h: Uuid, m: Msg, a: Uuid)
    requires IsCharged(w, a) && BeforeCheck(w, h, m) && m.key == Some(a)
    ensures Rescuable(w, a)
    decreases !Exists(w, h)
  {
    var w', fetches := CheckLeads(w, h, m, a);
    if fetches {
      HookRescues(w', h, m, a);
    } else {
      CheckRescues(w', h, m, a);
    }
  }

  lemma MailRescues(w: World, m: Msg, a: Uuid)
    requires IsCharged(w, a) && w.handlers == map[] && Unprocessed(w, m) && m.key == Some(a)
    ensures Rescuable(w, a)
  {
    ChargedStays(w, Deliver(m), a);
    CheckRescues(Do(w, Deliver(m)), w.next, m, a);
    RescueOn(w, Deliver(m), a);
  }

  /** The webhook is not even sent: the PSP closes the entry, and its event is new. */
  lemma ChargeInHandRescues(w: World, a: Uuid)
    requires IsCharged(w, a) && w.handlers == map[] && !Announced(w.psp, a)
    ensures Rescuable(w, a)
  {
    var ref :| HasCapture(w.psp, a, ref);
    var r := ChargeInHand(w.psp, a, ref);
    var m := Msg(w.psp.next, true, false, Some(a), ref, None);
    ChargedStays(w, PspMove(r), a);
    NewEvent(SharedOf(w));
    MailRescues(Do(w, PspMove(r)), m, a);
    RescueOn(w, PspMove(r), a);
  }

  lemma NewEvent(s: Shared)
    requires SharedInv(s)
    ensures s.psp.next !in s.db.inbound
  {
  }

  /** The handler marks the webhook FAILED, and leaves it to be delivered again. */
  lemma MarkRescues(w: World, h: Uuid, m: Msg, a: Uuid)
    requires IsCharged(w, a) && h in w.handlers && w.handlers.Keys <= {h} && m.key == Some(a)
    requires w.handlers[h].job == Hook(m) && w.handlers[h].pc.HookMark? && !w.handlers[h].pc.st.InProcessed?
    ensures Rescuable(w, a)
  {
    AloneIsFree(w, h);
    ChargedStays(w, Run(h), a);
    MarkedFailed(w, h, m);
    MailRescues(Do(w, Run(h)), m, a);
    RescueOn(w, Run(h), a);
  }

  lemma MarkedFailed(w: World, h: Uuid, m: Msg)
    requires Inv(w) && h in w.handlers && w.handlers.Keys <= {h} && Enabled(w, Run(h))
    requires w.handlers[h].job == Hook(m) && w.handlers[h].pc.HookMark? && !w.handlers[h].pc.st.InProcessed?
    ensures Do(w, Run(h)).handlers == map[] && Unprocessed(Do(w, Run(h)), m)
  {
    assert HandlerOk(SharedOf(w), w.handlers[h]);
    JobIsKnown(SharedOf(w), w.handlers[h]);
  }

  // ---------------------------------------------------------------- the theorem

  lemma HandlerRescues(w: World, h: Uuid, a: Uuid)
    requires IsCharged(w, a) && a in w.db.attempts && w.db.attempts[a].status.Pending? && CanSettle(w, h, a)
    ensures Rescuable(w, a)
  {
    var w' := OthersDie(w, h, a);
    LonerRescues(w', h, a);
  }

  lemma LonerRescues(w: World, h: Uuid, a: Uuid)
    requires IsCharged(w, a) && a in w.db.attempts && w.db.attempts[a].status.Pending?
    requires CanSettle(w, h, a) && w.handlers.Keys <= {h}
    ensures Rescuable(w, a)
  {
    if w.handlers[h].job.Pay? {
      CallRescues(w, h, a);
    } else {
      WebhookRescues(w, h, w.handlers[h].job.msg, a);
    }
  }

  lemma WebhookRescues(w: World, h: Uuid, m: Msg, a: Uuid)
    requires IsCharged(w, a) && h in w.handlers && w.handlers.Keys <= {h}
    requires w.handlers[h].job == Hook(m) && m.key == Some(a) && PastCheck(w.handlers[h].pc)
    ensures Rescuable(w, a)
  {
    if w.handlers[h].pc.HookMark? {
      MarkRescues(w, h, m, a);
    } else {
      HasSettlementAhead(w.handlers[h], m);
      HookRescues(w, h, m, a);
    }
  }

  lemma HasSettlementAhead(hd: Handler, m: Msg)
    requires hd.job == Hook(m) && PastCheck(hd.pc) && !hd.pc.HookMark?
    ensures Hooks(hd, m)
  {
  }

  lemma UnspentRescues(w: World, a: Uuid)
    requires IsCharged(w, a) && !Spent(w, a)
    ensures Rescuable(w, a)
  {
    var w' := OthersDie(w, w.next, a);
    NobodyNext(w);
    StillUnspent(w, w', w.next, a);
    PspRescues(w', a);
  }

  lemma StillUnspent(w: World, w': World, h: Uuid, a: Uuid)
    requires !Spent(w, a) && OnlyLeft(w, w', h)
    ensures !Spent(w', a)
  {
    forall m
      ensures !IsSpent(w', m, a)
    {
      assert !IsSpent(w, m, a);
    }
  }

  /** Nobody is left: the webhook comes, or is still to be sent. */
  lemma PspRescues(w: World, a: Uuid)
    requires IsCharged(w, a) && w.handlers == map[] && !Spent(w, a)
    ensures Rescuable(w, a)
  {
    if m :| m in w.psp.mail && m.key == Some(a) {
      assert !IsSpent(w, m, a);
      MailRescues(w, m, a);
    } else {
      ChargeInHandRescues(w, a);
    }
  }

  lemma NobodyNext(w: World)
    requires IdsOk(w)
    ensures w.next !in w.handlers
  {
  }

  lemma StrandedStaysPending(w: World, a: Uuid)
    requires StrandedHere(w, a)
    ensures forall w' :: Reaches(w, w', a) ==> a in w'.db.attempts && w'.db.attempts[a].status.Pending?
  {
    forall w' | Reaches(w, w', a)
      ensures a in w'.db.attempts && w'.db.attempts[a].status.Pending?
    {
      StaysPending(w, w', a);
    }
  }

  lemma StrandedIsLost(w: World, a: Uuid)
    requires StrandedHere(w, a)
    ensures !Rescuable(w, a)
  {
    StrandedStaysPending(w, a);
  }

  lemma StaysPending(w: World, w': World, a: Uuid)
    requires StrandedHere(w, a) && Reaches(w, w', a)
    ensures a in w'.db.attempts && w'.db.attempts[a].status.Pending?
  {
    var ws: seq<World> :| Unasked(w, ws, a) && ws[|ws| - 1] == w';
    PendingAtEnd(w, ws, a);
  }

  lemma PendingAtEnd(w: World, ws: seq<World>, a: Uuid)
    requires StrandedHere(w, a) && Unasked(w, ws, a)
    ensures var w' := ws[|ws| - 1]; a in w'.db.attempts && w'.db.attempts[a].status.Pending?
  {
    var n := |ws| - 1;
    StrandedForEver(w, ws, n, a);
  }

  lemma StrandedInRun(t: seq<World>, n: nat, a: Uuid)
    requires IsRun(t) && n < |t| && IsStranded(t[n], a)
    ensures forall w' :: Reaches(t[n], w', a) ==> a in w'.db.attempts && w'.db.attempts[a].status.Pending?
  {
    RunHasInv(t, n);
    RunAnnounces(t, n);
    StrandedStaysPending(t[n], a);
  }

  /** Exactly when a charged, pending attempt can still be settled although the
      client does not repeat its request: if and only if no webhook about it is
      marked PROCESSED, or a live handler can still settle it or have its webhook
      delivered again. */
  lemma SettledLaterIff(t: seq<World>, n: nat, a: Uuid, ref: Uuid)
    requires IsRun(t) && n < |t| && a in t[n].db.attempts && t[n].db.attempts[a].status.Pending?
    requires HasCapture(t[n].psp, a, ref)
    ensures Rescuable(t[n], a) <==> !Spent(t[n], a) || exists h :: CanSettle(t[n], h, a)
  {
    RunHasInv(t, n);
    RunAnnounces(t, n);
    RescuableIff(t[n], a, ref);
  }

  lemma RescuableIff(w: World, a: Uuid, ref: Uuid)
    requires Inv(w) && AnnouncedOnce(w.psp) && HasCapture(w.psp, a, ref)
    requires a in w.db.attempts && w.db.attempts[a].status.Pending?
    ensures Rescuable(w, a) <==> !Spent(w, a) || exists h :: CanSettle(w, h, a)
  {
    if h :| CanSettle(w, h, a) {
      HandlerRescues(w, h, a);
    } else if Spent(w, a) {
      StrandedIsLost(w, a);
    } else {
      UnspentRescues(w, a);
    }
  }
}
