/** One handler at a time: what a handler's step establishes on its own keeps
    the invariant of all of them, because their locks keep them apart. */
module Framework {
  import opened Model
  import opened SingleFlight
  import opened SingleFlightProofs
  import opened Protocol
  import opened Invariant

  lemma HandlerStable(s: Shared, s': Shared, hd: Handler)
    requires HandlerOk(s, hd) && Grows(s, s') && Undisturbed(s.db, s'.db, hd)
    requires forall a :: a in s.db.attempts ==> a in s.origin && AttemptOk(s.db, s.origin, a)
    ensures HandlerOk(s', hd)
  {
    CapturesStay(s.psp, s'.psp);
    if hd.pc.HookMark? && hd.pc.st.InProcessed? && hd.job.msg.event !in s'.missed {
      var a := hd.job.msg.key.value;
      assert a in s.db.attempts;
    }
  }

  lemma RefusalStable(db: Db, db': Db, q: PayReq, error: PayError)
    requires RefusalOk(db, q, error) && DbGrows(db, db')
    ensures RefusalOk(db', q, error)
  {
    if error.PaymentInProgress? {
      var a :| a in db.attempts && db.attempts[a].invoice == q.invoice;
      assert db'.attempts[a].invoice == q.invoice;
    }
  }

  lemma AnswerStable(s: Shared, s': Shared, ans: Answer)
    requires AnswerOk(s, ans) && Grows(s, s')
    ensures AnswerOk(s', ans)
  {
    if ans.result.Refused? {
      RefusalStable(s.db, s'.db, ans.req, ans.result.error);
    }
    if ans.result.Refused? && ans.result.error.IdempotencyConflict? {
      var a := s.db.keys[KeyOf(ans.req)].attempt.value;
      assert a in s.origin;
    }
  }

  lemma OthersApart(w: World, h: Uuid, g: Uuid)
    requires Exclusive(w) && h in w.handlers && g in w.handlers && g != h && !Blocked(w, h)
    ensures Apart(w.handlers[h], w.handlers[g])
  {
    assert !WaitsFor(w, h, g);
  }

  /** Everybody else is as before. */
  lemma OthersStable(w: World, h: Uuid, s: Shared)
    requires Inv(w) && h in w.handlers && !Blocked(w, h)
    requires Grows(SharedOf(w), s) && Respects(w.db, s.db, w.handlers[h])
    ensures forall g :: g in w.handlers && g != h ==> HandlerOk(s, w.handlers[g])
    ensures forall g :: g in w.answers ==> AnswerOk(s, w.answers[g])
  {
    forall g | g in w.handlers && g != h
      ensures HandlerOk(s, w.handlers[g])
    {
      OthersApart(w, h, g);
      HandlerStable(SharedOf(w), s, w.handlers[g]);
    }
    AnswersStable(w, s);
  }

  lemma AnswersStable(w: World, s: Shared)
    requires AnswersOk(w) && Grows(SharedOf(w), s)
    ensures forall g :: g in w.answers ==> AnswerOk(s, w.answers[g])
  {
    forall g | g in w.answers
      ensures AnswerOk(s, w.answers[g])
    {
      AnswerStable(SharedOf(w), s, w.answers[g]);
    }
  }

  /** The locks h gains are free. */
  lemma LocksStayExclusive(w: World, h: Uuid, pc: Pc, w': World)
    requires Exclusive(w) && h in w.handlers && !Blocked(w, h) && GainsOnlyWanted(w.handlers[h], pc)
    requires w'.handlers == w.handlers[h := Handler(w.handlers[h].job, pc)]
    ensures Exclusive(w')
  {
    forall g | g in w.handlers && g != h
      ensures Apart(w.handlers[h], w.handlers[g])
    {
      OthersApart(w, h, g);
    }
  }

  lemma ApplyKeepsIds(w: World, h: Uuid, o: Outcome)
    requires IdsOk(w) && h in w.handlers
    requires OutcomeOk(SharedOf(w), w.next, w.handlers[h], o)
    ensures IdsOk(Apply(w, h, o))
  {
  }

  lemma ApplyKeepsHandlers(w: World, h: Uuid, o: Outcome)
    requires h in w.handlers && forall g :: g in w.handlers && g != h ==> HandlerOk(o.s, w.handlers[g])
    requires o.Continue? ==> HandlerOk(o.s, Handler(w.handlers[h].job, o.pc))
    ensures HandlersOk(Apply(w, h, o))
  {
    assert SharedOf(Apply(w, h, o)) == o.s;
  }

  lemma ApplyKeepsAnswers(w: World, h: Uuid, o: Outcome)
    requires h in w.handlers && forall g :: g in w.answers ==> AnswerOk(o.s, w.answers[g])
    requires o.Finish? && o.answer.Some? ==> AnswerOk(o.s, o.answer.value)
    ensures AnswersOk(Apply(w, h, o))
  {
    assert SharedOf(Apply(w, h, o)) == o.s;
  }

  lemma ApplyKeepsLocks(w: World, h: Uuid, o: Outcome)
    requires Exclusive(w) && h in w.handlers && !Blocked(w, h)
    requires o.Continue? ==> GainsOnlyWanted(w.handlers[h], o.pc)
    ensures Exclusive(Apply(w, h, o))
  {
    if o.Continue? {
      LocksStayExclusive(w, h, o.pc, Apply(w, h, o));
    }
  }

  lemma ApplyKeepsInv(w: World, h: Uuid, o: Outcome)
    requires Inv(w) && h in w.handlers && !Blocked(w, h)
    requires OutcomeOk(SharedOf(w), w.next, w.handlers[h], o)
    ensures Inv(Apply(w, h, o))
  {
    OthersStable(w, h, o.s);
    ApplyKeepsIds(w, h, o);
    ApplyKeepsHandlers(w, h, o);
    ApplyKeepsAnswers(w, h, o);
    ApplyKeepsLocks(w, h, o);
    assert SharedOf(Apply(w, h, o)) == o.s;
  }

  /** A handler that changes nothing may do so while it waits for a lock. */
  lemma LeaveKeepsInv(w: World, h: Uuid, answer: Option<Answer>)
    requires Inv(w) && h in w.handlers
    requires answer.Some? ==> AnswerOk(SharedOf(w), answer.value)
    ensures Inv(Apply(w, h, Finish(SharedOf(w), answer)))
  {
  }

  lemma RetreatKeepsInv(w: World, h: Uuid, pc: Pc)
    requires Inv(w) && h in w.handlers
    requires HandlerOk(SharedOf(w), Handler(w.handlers[h].job, pc))
    requires forall r :: !Holds(Handler(w.handlers[h].job, pc), r)
    ensures Inv(Apply(w, h, Continue(SharedOf(w), w.next, pc)))
  {
    var o := Continue(SharedOf(w), w.next, pc);
    RetreatKeepsIds(w, h, o);
    ApplyKeepsHandlers(w, h, o);
    ApplyKeepsAnswers(w, h, o);
    RetreatKeepsLocks(w, h, o);
    assert SharedOf(Apply(w, h, o)) == SharedOf(w);
  }

  lemma RetreatKeepsIds(w: World, h: Uuid, o: Outcome)
    requires IdsOk(w) && h in w.handlers && o.Continue? && o.s == SharedOf(w) && o.next == w.next
    ensures IdsOk(Apply(w, h, o))
  {
  }

  lemma RetreatKeepsLocks(w: World, h: Uuid, o: Outcome)
    requires Exclusive(w) && h in w.handlers && o.Continue?
    requires forall r :: !Holds(Handler(w.handlers[h].job, o.pc), r)
    ensures Exclusive(Apply(w, h, o))
  {
  }

  lemma EnterKeepsInv(w: World, hd: Handler)
    requires Inv(w) && HandlerOk(SharedOf(w), hd)
    requires forall r :: !Holds(hd, r)
    ensures Inv(Enter(w, hd))
  {
  }

  /** The PSP moves on. */
  lemma PspChangeKeepsInv(w: World, s: Shared)
    requires Inv(w) && s == SharedOf(w).(psp := s.psp)
    requires SharedInv(s) && Grows(SharedOf(w), s)
    ensures Inv(w.(psp := s.psp))
  {
    forall g | g in w.handlers
      ensures HandlerOk(s, w.handlers[g])
    {
      HandlerStable(SharedOf(w), s, w.handlers[g]);
    }
    AnswersStable(w, s);
    assert SharedOf(w.(psp := s.psp)) == s;
  }
}
