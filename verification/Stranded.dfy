/** A charged attempt that nobody will settle: exactly when that can be. */
module Stranded {
  import opened Model
  import opened SingleFlight
  import opened SingleFlightProofs
  import opened Protocol
  import opened Invariant
  import opened Framework
  import opened SharedSteps
  import opened Steps
  import opened Money
  import opened Runs
  import opened Announcements

  /** A webhook about attempt a is marked PROCESSED. */
  ghost predicate Spent(w: World, a: Uuid) {
    exists m :: IsSpent(w, m, a)
  }

  ghost predicate IsSpent(w: World, m: Msg, a: Uuid) {
    m in w.psp.mail && m.key == Some(a) && m.event in w.db.inbound && w.db.inbound[m.event].InProcessed?
  }

  /** Handler h may still settle attempt a, or make room for a webhook that does:
      a call of the request that started a, or a webhook about a past its status
      check, unless it is about to mark it PROCESSED. */
  predicate CanSettle(w: World, h: Uuid, a: Uuid) {
    && h in w.handlers && a in w.origin
    && match w.handlers[h].job
       case Pay(q) => q == w.origin[a]
       case Hook(m) => m.key == Some(a) && PastCheck(w.handlers[h].pc)
  }

  predicate PastCheck(pc: Pc) {
    pc.HookFetch? || pc.LockSettle? || InSettleTx(pc) || (pc.HookMark? && !pc.st.InProcessed?)
  }

  /** Charged, pending, its webhook used up, and nobody at work on it. */
  ghost predicate IsStranded(w: World, a: Uuid) {
    && a in w.db.attempts && w.db.attempts[a].status.Pending?
    && Spent(w, a)
    && forall h :: !CanSettle(w, h, a)
  }

  // ---------------------------------------------------------------- stranded for ever

  /** The client does not repeat the request that started a. */
  predicate NotAsked(w: World, x: Action, a: Uuid) {
    x.Call? && a in w.origin ==> x.req != w.origin[a]
  }

  /** What such an attempt asks of a handler's step. */
  ghost predicate Spares(s: Shared, hd: Handler, o: Outcome, m: Msg, a: Uuid) {
    && a in s.db.attempts && a in o.s.db.attempts && o.s.db.attempts[a] == s.db.attempts[a]
    && m.event in o.s.db.inbound && o.s.db.inbound[m.event].InProcessed?
    && (o.Continue? ==> !(hd.job.Hook? && hd.job.msg.key == Some(a) && PastCheck(o.pc)))
  }

  /** The handler does not work on attempt a, and only may mark m PROCESSED. */
  ghost predicate Aloof(s: Shared, hd: Handler, m: Msg, a: Uuid) {
    && a in s.db.attempts && a in s.origin && m.event in s.db.inbound && s.db.inbound[m.event].InProcessed?
    && match hd.job
       case Pay(q) => q != s.origin[a]
       case Hook(n) =>
         && m.key == Some(a)
         && (n.key == Some(a) || n.event == m.event ==> n == m)
         && (n == m ==> !PastCheck(hd.pc))
  }

  lemma PaySpares(s: Shared, next: Uuid, hd: Handler, m: Msg, a: Uuid)
    requires HandlerOk(s, hd) && hd.job.Pay? && Aloof(s, hd, m, a) && next !in s.db.attempts
    ensures Spares(s, hd, Effect(s, next, hd), m, a)
  {
    if hd.pc.CommitStart? || hd.pc.CommitSettle? || hd.pc.MarkFailed? || hd.pc.EnqueueFailure? {
      PayWriteSpares(s, next, hd, m, a);
    } else {
      PayKeepsRows(s, next, hd);
    }
  }

  lemma PayWriteSpares(s: Shared, next: Uuid, hd: Handler, m: Msg, a: Uuid)
    requires HandlerOk(s, hd) && hd.job.Pay? && Aloof(s, hd, m, a) && next !in s.db.attempts
    requires hd.pc.CommitStart? || hd.pc.CommitSettle? || hd.pc.MarkFailed? || hd.pc.EnqueueFailure?
    ensures Spares(s, hd, Effect(s, next, hd), m, a)
  {
  }

  lemma PayKeepsRows(s: Shared, next: Uuid, hd: Handler)
    requires HandlerOk(s, hd) && hd.job.Pay?
    requires !hd.pc.CommitStart? && !hd.pc.CommitSettle? && !hd.pc.MarkFailed? && !hd.pc.EnqueueFailure?
    ensures Effect(s, next, hd).s.db == s.db
  {
  }

  lemma HookSpares(s: Shared, next: Uuid, hd: Handler, m: Msg, a: Uuid)
    requires HandlerOk(s, hd) && hd.job.Hook? && Aloof(s, hd, m, a)
    ensures Spares(s, hd, Effect(s, next, hd), m, a)
  {
  }

  /** No webhook shares its event with another, and no attempt has two. */
  lemma OneWebhook(w: World, m: Msg, n: Msg, a: Uuid)
    requires MailOk(w.psp) && AnnouncedOnce(w.psp) && m in w.psp.mail && n in w.psp.mail && m.key == Some(a)
    requires n.key == Some(a) || n.event == m.event
    ensures n == m
  {
  }

  lemma StrandedIsAloof(w: World, h: Uuid, m: Msg, a: Uuid)
    requires Inv(w) && AnnouncedOnce(w.psp) && IsStranded(w, a) && IsSpent(w, m, a) && h in w.handlers
    ensures HandlerOk(SharedOf(w), w.handlers[h]) && Aloof(SharedOf(w), w.handlers[h], m, a)
  {
    var hd := w.handlers[h];
    assert HandlerOk(SharedOf(w), hd) && !CanSettle(w, h, a);
    if hd.job.Hook? {
      JobIsKnown(SharedOf(w), hd);
      if hd.job.msg.key == Some(a) || hd.job.msg.event == m.event {
        OneWebhook(w, m, hd.job.msg, a);
      }
    }
  }

  /** A handler's step outcome o, or what becomes of it when it is reported as failed. */
  lemma HandlerLeavesStranded(w: World, h: Uuid, m: Msg, a: Uuid, o: Outcome)
    requires Inv(w) && IsStranded(w, a) && IsSpent(w, m, a) && h in w.handlers
    requires Spares(SharedOf(w), w.handlers[h], o, m, a) && w.psp.mail <= o.s.psp.mail
    requires a in w.origin && a in o.s.origin && o.s.origin[a] == w.origin[a]
    ensures IsStranded(Apply(w, h, o), a)
  {
    var w' := Apply(w, h, o);
    assert IsSpent(w', m, a);
    forall g
      ensures !CanSettle(w', g, a)
    {
      assert !CanSettle(w, g, a);
    }
  }

  lemma EffectSpares(s: Shared, next: Uuid, hd: Handler, m: Msg, a: Uuid)
    requires HandlerOk(s, hd) && Aloof(s, hd, m, a) && next !in s.db.attempts
    ensures Spares(s, hd, Effect(s, next, hd), m, a)
  {
    if hd.job.Pay? {
      PaySpares(s, next, hd, m, a);
    } else {
      HookSpares(s, next, hd, m, a);
    }
  }

  lemma LateSpares(s: Shared, next: Uuid, hd: Handler, m: Msg, a: Uuid)
    requires HandlerOk(s, hd) && Aloof(s, hd, m, a) && CanLoseAck(hd.pc) && Spares(s, hd, Effect(s, next, hd), m, a)
    ensures Spares(s, hd, BreakEffect(Effect(s, next, hd).s, next, hd), m, a)
  {
  }

  lemma LeaverSpares(s: Shared, next: Uuid, hd: Handler, m: Msg, a: Uuid)
    requires HandlerOk(s, hd) && Aloof(s, hd, m, a)
    ensures Spares(s, hd, Finish(s, None), m, a)
    ensures !hd.pc.Await? ==> Spares(s, hd, BreakEffect(s, next, hd), m, a)
    ensures hd.pc.HookFetch? ==> Spares(s, hd, MissEffect(s, next, hd), m, a)
    ensures hd.job.Pay? && hd.pc.Await? ==> Spares(s, hd, ResendEffect(s, next, hd), m, a)
  {
  }

  /** The outcome of an action of handler h. */
  ghost function OutcomeOf(w: World, x: Action): Outcome
    requires Enabled(w, x) && (x.Run? || x.LoseAck? || x.GiveUp? || x.Resend? || x.Break? || x.Miss? || x.Crash?)
  {
    var s, hd := SharedOf(w), w.handlers[x.h];
    match x
    case Run(_) => Effect(s, w.next, hd)
    case LoseAck(_) => BreakEffect(Effect(s, w.next, hd).s, w.next, hd)
    case GiveUp(_, why) => Receive(s, w.next, hd.job.req, hd.pc, why)
    case Resend(_) => ResendEffect(s, w.next, hd)
    case Break(_) => BreakEffect(s, w.next, hd)
    case Miss(_) => MissEffect(s, w.next, hd)
    case Crash(_) => Finish(s, None)
  }

  lemma HandlerSpares(w: World, x: Action, m: Msg, a: Uuid)
    requires Enabled(w, x) && (x.Run? || x.LoseAck? || x.GiveUp? || x.Resend? || x.Break? || x.Miss? || x.Crash?)
    requires HandlerOk(SharedOf(w), w.handlers[x.h]) && Aloof(SharedOf(w), w.handlers[x.h], m, a)
    requires w.next !in w.db.attempts
    ensures Spares(SharedOf(w), w.handlers[x.h], OutcomeOf(w, x), m, a)
  {
    var s, hd := SharedOf(w), w.handlers[x.h];
    if x.Run? || x.LoseAck? {
      EffectSpares(s, w.next, hd, m, a);
      if x.LoseAck? {
        LateSpares(s, w.next, hd, m, a);
      }
    } else if x.GiveUp? {
      assert OutcomeOf(w, x) == Reply(s, hd.job.req, Returned(hd.pc.id, hd.pc.row), true);
    } else {
      LeaverSpares(s, w.next, hd, m, a);
    }
  }

  lemma HandlerStepLeavesStranded(w: World, x: Action, a: Uuid)
    requires Inv(w) && AnnouncedOnce(w.psp) && IsStranded(w, a) && Enabled(w, x)
    requires x.Run? || x.LoseAck? || x.GiveUp? || x.Resend? || x.Break? || x.Miss? || x.Crash?
    ensures IsStranded(Do(w, x), a)
  {
    var m :| IsSpent(w, m, a);
    StrandedIsAloof(w, x.h, m, a);
    FreshId(w);
    HandlerSpares(w, x, m, a);
    OutcomeGrows(w, x);
    HandlerLeavesStranded(w, x.h, m, a, OutcomeOf(w, x));
  }

  lemma OutcomeGrows(w: World, x: Action)
    requires Inv(w) && Enabled(w, x)
    requires x.Run? || x.LoseAck? || x.GiveUp? || x.Resend? || x.Break? || x.Miss? || x.Crash?
    ensures Do(w, x) == Apply(w, x.h, OutcomeOf(w, x))
    ensures w.psp.mail <= OutcomeOf(w, x).s.psp.mail
    ensures forall a :: a in w.origin ==> a in OutcomeOf(w, x).s.origin && OutcomeOf(w, x).s.origin[a] == w.origin[a]
  {
    DoGrows(w, x);
  }

  /** Arrivals and the PSP leave rows and handlers alone. */
  lemma ArrivalLeavesStranded(w: World, x: Action, a: Uuid)
    requires IsStranded(w, a) && Enabled(w, x) && (x.Call? || x.Deliver?) && NotAsked(w, x, a)
    ensures IsStranded(Do(w, x), a)
  {
    var w' := Do(w, x);
    var m :| IsSpent(w, m, a);
    assert IsSpent(w', m, a);
    forall g
      ensures !CanSettle(w', g, a)
    {
      assert !CanSettle(w, g, a);
    }
  }

  lemma PspLeavesStranded(w: World, w': World, a: Uuid)
    requires IsStranded(w, a) && w' == w.(psp := w'.psp) && w.psp.mail <= w'.psp.mail
    ensures IsStranded(w', a)
  {
    var m :| IsSpent(w, m, a);
    assert IsSpent(w', m, a);
    forall g
      ensures !CanSettle(w', g, a)
    {
      assert !CanSettle(w, g, a);
    }
  }

  lemma ActionLeavesStranded(w: World, x: Action, a: Uuid)
    requires Inv(w) && AnnouncedOnce(w.psp) && IsStranded(w, a) && Enabled(w, x) && NotAsked(w, x, a)
    ensures IsStranded(Do(w, x), a)
  {
    if x.PspMove? {
      PspStepGrows(w.psp, x.r);
      PspLeavesStranded(w, Do(w, x), a);
    } else if x.Call? || x.Deliver? {
      ArrivalLeavesStranded(w, x, a);
    } else {
      HandlerStepLeavesStranded(w, x, a);
    }
  }

  /** Any continuation in which the request that started a is not repeated. */
  ghost predicate UnaskedStep(w: World, w': World, a: Uuid) {
    exists x :: Enabled(w, x) && w' == Do(w, x) && NotAsked(w, x, a)
  }

  ghost predicate UnaskedAt(ws: seq<World>, a: Uuid, k: int)
    requires 0 <= k < |ws| - 1
  {
    UnaskedStep(ws[k], ws[k + 1], a)
  }

  ghost predicate Unasked(w: World, ws: seq<World>, a: Uuid) {
    && |ws| > 0
    && ws[0] == w
    && forall k :: 0 <= k < |ws| - 1 ==> UnaskedAt(ws, a, k)
  }

  /** In a state that a run can reach, a is stranded. */
  ghost predicate StrandedHere(w: World, a: Uuid) {
    Inv(w) && AnnouncedOnce(w.psp) && IsStranded(w, a)
  }

  lemma StepLeavesStranded(w: World, w': World, a: Uuid)
    requires StrandedHere(w, a) && UnaskedStep(w, w', a)
    ensures StrandedHere(w', a)
  {
    var x :| Enabled(w, x) && w' == Do(w, x) && NotAsked(w, x, a);
    DoKeepsInv(w, x);
    DoAnnounces(w, x);
    ActionLeavesStranded(w, x, a);
  }

  lemma StrandedForEver(w: World, ws: seq<World>, n: nat, a: Uuid)
    requires StrandedHere(w, a) && Unasked(w, ws, a) && n < |ws|
    ensures IsStranded(ws[n], a)
  {
    var ok := v => StrandedHere(v, a);
    forall k | 0 <= k < |ws| - 1
      ensures Kept(ws, ok, k)
    {
      assert UnaskedAt(ws, a, k);
      if ok(ws[k]) {
        StepLeavesStranded(ws[k], ws[k + 1], a);
      }
    }
    Throughout(ws, ok, n);
  }
}
