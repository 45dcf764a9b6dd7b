/** Every step of the mock PSP keeps its invariant, and what the invariant means for callers. */
module SingleFlightProofs {
  import opened Model
  import opened SingleFlight

  lemma CapturesStay(p: Psp, p': Psp)
    requires p.ledger <= p'.ledger
    ensures forall k: Uuid, ref: Uuid :: HasCapture(p, k, ref) ==> HasCapture(p', k, ref)
  {
    forall k: Uuid, ref: Uuid | HasCapture(p, k, ref)
      ensures HasCapture(p', k, ref)
    {
      var i :| 0 <= i < |p.ledger| && p.ledger[i].key == Some(k) && p.ledger[i].ref == ref;
      assert p'.ledger[i] == p.ledger[i];
    }
  }

  /** If the request that moved still owns what it owned, open entries keep their owners. */
  lemma OwnersStay(p: Psp, p': Psp, r: Uuid)
    requires Structure(p) && r in p.procs
    requires forall s :: s in p.procs ==> s in p'.procs
    requires forall s :: s in p.procs && s != r ==> p'.procs[s].stage == p.procs[s].stage
    requires forall e :: e in p'.entries && p'.entries[e].closes == 0 ==>
               (e in p.entries && p.entries[e].closes == 0) || (Owns(p'.procs[r].stage) && p'.procs[r].stage.e == e)
    requires Owns(p.procs[r].stage) ==>
               (Owns(p'.procs[r].stage) && p'.procs[r].stage.e == p.procs[r].stage.e)
               || (p.procs[r].stage.e in p'.entries && p'.entries[p.procs[r].stage.e].closes > 0)
    ensures forall e :: e in p'.entries && p'.entries[e].closes == 0 ==> HasOwner(p', e)
  {
    forall e | e in p'.entries && p'.entries[e].closes == 0
      ensures HasOwner(p', e)
    {
      if !(Owns(p'.procs[r].stage) && p'.procs[r].stage.e == e) {
        var s :| s in p.procs && Owns(p.procs[s].stage) && p.procs[s].stage.e == e;
        assert p'.procs[s].stage == p.procs[s].stage;
      }
    }
  }

  lemma RefuseStructure(p: Psp, r: Uuid, p': Psp)
    requires Structure(p) && r in p.procs && p.procs[r].stage.Arriving? && p.procs[r].req.token.TokEmpty?
    requires p' == Refuse(p, r)
    ensures Structure(p')
  {
    OwnersStay(p, p', r);
  }

  lemma RefuseContent(p: Psp, r: Uuid, p': Psp)
    requires PspInv(p) && r in p.procs && p.procs[r].stage.Arriving? && p.procs[r].req.token.TokEmpty?
    requires p' == Refuse(p, r)
    requires Structure(p')
    ensures Content(p')
  {
    CapturesStay(p, p');
  }

  lemma UncachedStructure(p: Psp, r: Uuid, p': Psp)
    requires Structure(p) && r in p.procs && p.procs[r].stage.Arriving? && p.procs[r].req.key.None?
    requires p' == Uncached(p, r)
    ensures Structure(p')
  {
    OwnersStay(p, p', r);
  }

  lemma UncachedContent(p: Psp, r: Uuid, p': Psp)
    requires PspInv(p) && r in p.procs && p.procs[r].stage.Arriving? && p.procs[r].req.key.None?
    requires p' == Uncached(p, r)
    requires Structure(p')
    ensures Content(p')
  {
    CapturesStay(p, p');
  }

  lemma JoinStructure(p: Psp, r: Uuid, k: Uuid, p': Psp)
    requires Structure(p) && r in p.procs && p.procs[r].stage.Arriving? && p.procs[r].req.key == Some(k) && k in p.cache
    requires p' == Join(p, r, k)
    ensures Structure(p')
  {
    OwnersStay(p, p', r);
  }

  lemma JoinContent(p: Psp, r: Uuid, k: Uuid, p': Psp)
    requires PspInv(p) && r in p.procs && p.procs[r].stage.Arriving? && p.procs[r].req.key == Some(k) && k in p.cache
    requires p' == Join(p, r, k)
    requires Structure(p')
    ensures Content(p')
  {
    CapturesStay(p, p');
  }

  lemma CreateStructure(p: Psp, r: Uuid, k: Uuid, p': Psp)
    requires Structure(p) && r in p.procs && p.procs[r].stage.Arriving? && p.procs[r].req.key == Some(k)
    requires k !in p.cache
    requires p' == Create(p, r, k)
    ensures Structure(p')
  {
    OwnersStay(p, p', r);
    CreateOwners(p, r, k, p');
  }

  lemma CreateOwners(p: Psp, r: Uuid, k: Uuid, p': Psp)
    requires Structure(p) && r in p.procs && p.procs[r].stage.Arriving? && p.procs[r].req.key == Some(k)
    requires k !in p.cache
    requires p' == Create(p, r, k)
    ensures forall s :: s in p'.procs ==> OwnerOk(p', s)
  {
    forall s | s in p'.procs
      ensures OwnerOk(p', s)
    {
      assert OwnerOk(p, s);
    }
  }

  lemma CreateContent(p: Psp, r: Uuid, k: Uuid, p': Psp)
    requires PspInv(p) && r in p.procs && p.procs[r].stage.Arriving? && p.procs[r].req.key == Some(k) && k !in p.cache
    requires p' == Create(p, r, k)
    requires Structure(p')
    ensures Content(p')
  {
    CapturesStay(p, p');
  }

  lemma ChargeCardStructure(p: Psp, r: Uuid, p': Psp)
    requires Structure(p) && r in p.procs && p.procs[r].stage.Owner? && Charges(p.procs[r].req.token)
    requires p' == ChargeCard(p, r)
    ensures Structure(p')
  {
    OwnersStay(p, p', r);
  }

  lemma ChargeCardContent(p: Psp, r: Uuid, p': Psp)
    requires PspInv(p) && r in p.procs && p.procs[r].stage.Owner? && Charges(p.procs[r].req.token)
    requires p' == ChargeCard(p, r)
    requires Structure(p')
    ensures Content(p')
  {
    CapturesStay(p, p');
    assert p'.ledger[|p.ledger|].ref == p.next;
    assert HasCapture(p', p.procs[r].req.key.value, p.next);
  }

  lemma TurnDownStructure(p: Psp, r: Uuid, p': Psp)
    requires Structure(p) && r in p.procs && p.procs[r].stage.Owner? && !Charges(p.procs[r].req.token)
    requires p' == TurnDown(p, r)
    ensures Structure(p')
  {
    OwnersStay(p, p', r);
  }

  lemma TurnDownContent(p: Psp, r: Uuid, p': Psp)
    requires PspInv(p) && r in p.procs && p.procs[r].stage.Owner? && !Charges(p.procs[r].req.token)
    requires p' == TurnDown(p, r)
    requires Structure(p')
    ensures Content(p')
  {
    CapturesStay(p, p');
  }

  lemma FinishStructure(p: Psp, r: Uuid, p': Psp)
    requires Structure(p) && r in p.procs && p.procs[r].stage.Finishing?
    requires p' == Finish(p, r)
    ensures Structure(p')
  {
    FinishIds(p, r, p');
    OwnersStay(p, p', r);
  }

  lemma FinishIds(p: Psp, r: Uuid, p': Psp)
    requires IdsUsed(p) && r in p.procs && p.procs[r].stage.Finishing? && p.procs[r].stage.e in p.entries
    requires p' == Finish(p, r)
    ensures IdsUsed(p')
  {
  }

  lemma FinishContent(p: Psp, r: Uuid, p': Psp)
    requires PspInv(p) && r in p.procs && p.procs[r].stage.Finishing?
    requires p' == Finish(p, r)
    requires Structure(p')
    ensures Content(p')
  {
    CapturesStay(p, p');
  }

  lemma DeleteStructure(p: Psp, r: Uuid, p': Psp)
    requires Structure(p) && r in p.procs && p.procs[r].stage.FailWrote?
    requires p' == Delete(p, r)
    ensures Structure(p')
  {
    OwnersStay(p, p', r);
  }

  lemma DeleteContent(p: Psp, r: Uuid, p': Psp)
    requires PspInv(p) && r in p.procs && p.procs[r].stage.FailWrote?
    requires p' == Delete(p, r)
    requires Structure(p')
    ensures Content(p')
  {
    CapturesStay(p, p');
  }

  lemma CloseFailedStructure(p: Psp, r: Uuid, p': Psp)
    requires Structure(p) && r in p.procs && p.procs[r].stage.FailDeleted?
    requires p' == CloseFailed(p, r)
    ensures Structure(p')
  {
    OwnersStay(p, p', r);
  }

  lemma CloseFailedContent(p: Psp, r: Uuid, p': Psp)
    requires PspInv(p) && r in p.procs && p.procs[r].stage.FailDeleted?
    requires p' == CloseFailed(p, r)
    requires Structure(p')
    ensures Content(p')
  {
    CapturesStay(p, p');
  }

  lemma WakeStructure(p: Psp, r: Uuid, p': Psp)
    requires Structure(p) && r in p.procs && p.procs[r].stage.Waiting? && p.entries[p.procs[r].stage.e].closes > 0
    requires p' == Wake(p, r)
    ensures Structure(p')
  {
    OwnersStay(p, p', r);
  }

  lemma WakeContent(p: Psp, r: Uuid, p': Psp)
    requires PspInv(p) && r in p.procs && p.procs[r].stage.Waiting? && p.entries[p.procs[r].stage.e].closes > 0
    requires p' == Wake(p, r)
    requires Structure(p')
    ensures Content(p')
  {
    CapturesStay(p, p');
  }

  lemma StepKeepsStructure(p: Psp, r: Uuid)
    requires Structure(p) && Ready(p, r)
    ensures Structure(Step(p, r))
  {
    var q := p.procs[r].req;
    match p.procs[r].stage
    case Arriving =>
      if q.token.TokEmpty? { RefuseStructure(p, r, Step(p, r)); }
      else if q.key.None? { UncachedStructure(p, r, Step(p, r)); }
      else if q.key.value in p.cache { JoinStructure(p, r, q.key.value, Step(p, r)); }
      else { CreateStructure(p, r, q.key.value, Step(p, r)); }
    case Owner(_) =>
      if Charges(q.token) { ChargeCardStructure(p, r, Step(p, r)); } else { TurnDownStructure(p, r, Step(p, r)); }
    case Finishing(_) => FinishStructure(p, r, Step(p, r));
    case FailWrote(_) => DeleteStructure(p, r, Step(p, r));
    case FailDeleted(_) => CloseFailedStructure(p, r, Step(p, r));
    case Waiting(_) => WakeStructure(p, r, Step(p, r));
  }

  lemma StepKeepsInv(p: Psp, r: Uuid)
    requires PspInv(p) && Ready(p, r)
    ensures PspInv(Step(p, r))
  {
    StepKeepsStructure(p, r);
    var q := p.procs[r].req;
    match p.procs[r].stage
    case Arriving =>
      if q.token.TokEmpty? { RefuseContent(p, r, Step(p, r)); }
      else if q.key.None? { UncachedContent(p, r, Step(p, r)); }
      else if q.key.value in p.cache { JoinContent(p, r, q.key.value, Step(p, r)); }
      else { CreateContent(p, r, q.key.value, Step(p, r)); }
    case Owner(_) =>
      if Charges(q.token) { ChargeCardContent(p, r, Step(p, r)); } else { TurnDownContent(p, r, Step(p, r)); }
    case Finishing(_) => FinishContent(p, r, Step(p, r));
    case FailWrote(_) => DeleteContent(p, r, Step(p, r));
    case FailDeleted(_) => CloseFailedContent(p, r, Step(p, r));
    case Waiting(_) => WakeContent(p, r, Step(p, r));
  }

  lemma SendKeepsInv(p: Psp, q: ChargeReq)
    requires PspInv(p)
    ensures PspInv(Send(p, q))
  {
    var p' := Send(p, q);
    forall e | e in p'.entries && p'.entries[e].closes == 0
      ensures HasOwner(p', e)
    {
      var s :| s in p.procs && Owns(p.procs[s].stage) && p.procs[s].stage.e == e;
      assert p'.procs[s] == p.procs[s];
    }
    CapturesStay(p, p');
  }

  // ---------------------------------------------------------------- runs of the PSP on its own

  /** One step of the PSP: a request arrives, whatever it asks for, or one request moves. */
  ghost predicate PspNext(p: Psp, p': Psp) {
    || (exists q :: p' == Send(p, q))
    || (exists r :: Ready(p, r) && p' == Step(p, r))
  }

  ghost predicate PspStepAt(t: seq<Psp>, n: int)
    requires 0 <= n < |t| - 1
  {
    PspNext(t[n], t[n + 1])
  }

  ghost predicate PspRun(t: seq<Psp>) {
    && |t| > 0
    && t[0] == EMPTY_PSP
    && forall n :: 0 <= n < |t| - 1 ==> PspStepAt(t, n)
  }

  lemma {:induction false} PspRunKeepsInv(t: seq<Psp>, n: nat)
    requires PspRun(t) && n < |t|
    ensures PspInv(t[n])
  {
    if n > 0 {
      PspRunKeepsInv(t, n - 1);
      var p, p' := t[n - 1], t[n];
      assert PspStepAt(t, n - 1);
      if q :| p' == Send(p, q) {
        SendKeepsInv(p, q);
      } else {
        var r :| Ready(p, r) && p' == Step(p, r);
        StepKeepsInv(p, r);
      }
    }
  }

  /** Without a key there is no cache, but the money a success speaks of is taken
      and announced all the same. */
  lemma KeylessIsCharged(t: seq<Psp>, n: nat, r: Uuid)
    requires PspRun(t) && n < |t| && r in t[n].procs && t[n].procs[r].req.key.None?
    requires t[n].procs[r].stage.Replied? && t[n].procs[r].stage.resp.status.RespSucceeded?
    ensures t[n].procs[r].stage.resp.ref.Some?
    ensures TakenAndTold(t[n], t[n].procs[r].req, t[n].procs[r].stage.resp.ref.value)
  {
    PspRunKeepsInv(t, n);
    assert StageOk(t[n], r);
  }

  /** Once charged, always the same charge: all successful answers for a key, at
      any two moments of a run, carry one psp_ref, and money is captured once. */
  lemma OneChargePerKey(t: seq<Psp>, m: nat, n: nat, r: Uuid, s: Uuid, k: Uuid)
    requires PspRun(t) && m <= n < |t|
    requires r in t[m].procs && t[m].procs[r].req.key == Some(k)
    requires s in t[n].procs && t[n].procs[s].req.key == Some(k)
    requires t[m].procs[r].stage.Replied? && t[m].procs[r].stage.resp.status.RespSucceeded?
    requires t[n].procs[s].stage.Replied? && t[n].procs[s].stage.resp.status.RespSucceeded?
    ensures t[m].procs[r].stage.resp.ref == t[n].procs[s].stage.resp.ref
    ensures forall i, j :: 0 <= i < j < |t[n].ledger| ==> !(t[n].ledger[i].key == t[n].ledger[j].key == Some(k))
  {
    PspRunKeepsInv(t, m);
    PspRunKeepsInv(t, n);
    LedgerGrows(t, m, n);
    CapturesStay(t[m], t[n]);
    assert StageOk(t[m], r) && StageOk(t[n], s);
    CaptureUnique(t[n], k, t[m].procs[r].stage.resp.ref.value, t[n].procs[s].stage.resp.ref.value);
  }

  lemma CaptureUnique(p: Psp, k: Uuid, ref: Uuid, ref': Uuid)
    requires LedgerOk(p) && HasCapture(p, k, ref) && HasCapture(p, k, ref')
    ensures ref == ref'
  {
    var i :| 0 <= i < |p.ledger| && p.ledger[i].key == Some(k) && p.ledger[i].ref == ref;
    var j :| 0 <= j < |p.ledger| && p.ledger[j].key == Some(k) && p.ledger[j].ref == ref';
  }

  lemma {:induction false} LedgerGrows(t: seq<Psp>, m: nat, n: nat)
    requires PspRun(t) && m <= n < |t|
    ensures t[m].ledger <= t[n].ledger
    decreases n
  {
    if m < n {
      LedgerGrows(t, m, n - 1);
      assert PspStepAt(t, n - 1);
    }
  }

  /** A ready channel is closed at most once, a waiter reads only an entry that
      is closed, and a closed entry never changes again. */
  lemma ClosedOnceAndFrozen(p: Psp, r: Uuid, e: Uuid)
    requires PspInv(p) && Ready(p, r) && e in p.entries
    ensures e in Step(p, r).entries && p.entries[e].closes <= Step(p, r).entries[e].closes <= 1
    ensures p.entries[e].closes == 1 ==> Step(p, r).entries[e] == p.entries[e]
  {
    StepKeepsStructure(p, r);
  }

  // ---------------------------------------------------------------- an owner and its waiters

  /** An answer is what a closed entry says: its code, and its body if the code is 200. */
  predicate Answers(p: Psp, e: Uuid, s: Stage) {
    && s.Replied? && e in p.entries && p.entries[e].closes == 1
    && s.httpCode == p.entries[e].httpCode && (s.httpCode == 200 ==> s.resp == p.entries[e].resp)
  }

  /** Request r owns entry e, or waits for it, or has answered what it says. */
  predicate Tied(p: Psp, r: Uuid, e: Uuid) {
    && r in p.procs && e in p.entries
    && var s := p.procs[r].stage;
       Answers(p, e, s) || ((Owns(s) || s.Waiting?) && s.e == e)
  }

  /** It stays tied to the entry, and answers only once the entry is closed. */
  lemma StepKeepsTied(p: Psp, r: Uuid, q: Uuid, e: Uuid)
    requires PspInv(p) && Ready(p, r) && Tied(p, q, e)
    ensures Tied(Step(p, r), q, e)
  {
    ClosedOnceAndFrozen(p, r, e);
    if q == r {
      assert OwnerOk(p, r) && StageOk(p, r) && EntryOk(p, e);
      OwnStepKeepsTied(p, r, e);
    } else {
      OthersStay(p, r, q);
    }
  }

  lemma OthersStay(p: Psp, r: Uuid, q: Uuid)
    requires Ready(p, r) && q in p.procs && q != r
    ensures q in Step(p, r).procs && Step(p, r).procs[q] == p.procs[q]
  {
  }

  lemma OwnStepKeepsTied(p: Psp, r: Uuid, e: Uuid)
    requires Ready(p, r) && Tied(p, r, e) && OwnerOk(p, r) && StageOk(p, r) && EntryOk(p, e)
    requires p.entries[e].closes <= 1
    ensures Tied(Step(p, r), r, e)
  {
  }

  lemma SendKeepsTied(p: Psp, q: ChargeReq, r: Uuid, e: Uuid)
    requires PspInv(p) && Tied(p, r, e)
    ensures Tied(Send(p, q), r, e)
  {
  }

  lemma NextKeepsTied(p: Psp, p': Psp, r: Uuid, e: Uuid)
    requires PspInv(p) && PspNext(p, p') && Tied(p, r, e)
    ensures Tied(p', r, e)
  {
    if q :| p' == Send(p, q) {
      SendKeepsTied(p, q, r, e);
    } else {
      var s :| Ready(p, s) && p' == Step(p, s);
      StepKeepsTied(p, s, r, e);
    }
  }

  lemma {:induction false} RunKeepsTied(t: seq<Psp>, m: nat, n: nat, r: Uuid, e: Uuid)
    requires PspRun(t) && m <= n < |t| && Tied(t[m], r, e)
    ensures Tied(t[n], r, e)
    decreases n
  {
    if m < n {
      RunKeepsTied(t, m, n - 1, r, e);
      PspRunKeepsInv(t, n - 1);
      assert PspStepAt(t, n - 1);
      NextKeepsTied(t[n - 1], t[n], r, e);
    }
  }

  /** A request that owned an entry and one that waited for it, at whatever
      moments, answer alike: with the same code and, if it is 200, the same body. */
  lemma WaiterAgreesWithOwner(t: seq<Psp>, k: nat, m: nat, n: nat, r: Uuid, s: Uuid, e: Uuid)
    requires PspRun(t) && k <= n < |t| && m <= n
    requires r in t[k].procs && Owns(t[k].procs[r].stage) && t[k].procs[r].stage.e == e
    requires s in t[m].procs && t[m].procs[s].stage.Waiting? && t[m].procs[s].stage.e == e
    ensures r in t[n].procs && s in t[n].procs
    ensures t[n].procs[r].stage.Replied? && t[n].procs[s].stage.Replied? ==>
              && t[n].procs[r].stage.httpCode == t[n].procs[s].stage.httpCode
              && (t[n].procs[r].stage.httpCode == 200 ==> t[n].procs[r].stage.resp == t[n].procs[s].stage.resp)
  {
    PspRunKeepsInv(t, k);
    PspRunKeepsInv(t, m);
    assert OwnerOk(t[k], r) && OwnerOk(t[m], s);
    RunKeepsTied(t, k, n, r, e);
    RunKeepsTied(t, m, n, s, e);
  }

  /** failUncached deletes the entry its own request made, and no other entry ever leaves the cache. */
  lemma OnlyOwnEntryDeleted(p: Psp, r: Uuid, k: Uuid)
    requires PspInv(p) && Ready(p, r) && k in p.cache
    ensures k !in Step(p, r).cache ==>
              p.procs[r].stage.FailWrote? && p.procs[r].req.key == Some(k) && p.cache[k] == p.procs[r].stage.e
    ensures k in Step(p, r).cache ==> Step(p, r).cache[k] == p.cache[k]
  {
    assert OwnerOk(p, r);
  }
}
