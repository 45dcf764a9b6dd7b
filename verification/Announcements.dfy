/** Webhooks and charges: the PSP announces each keyed charge exactly once, when
    its entry is closed. */
module Announcements {
  import opened Model
  import opened SingleFlight
  import opened SingleFlightProofs
  import opened Protocol
  import opened Invariant
  import opened Steps

  /** The cached entry of key k is closed, with a success. */
  predicate ClosedSuccess(p: Psp, k: Uuid) {
    && k in p.cache && p.cache[k] in p.entries
    && p.entries[p.cache[k]].closes == 1 && p.entries[p.cache[k]].resp.status.RespSucceeded?
  }

  ghost predicate Announced(p: Psp, k: Uuid) {
    exists m :: m in p.mail && m.key == Some(k)
  }

  ghost predicate AnnouncedOnce(p: Psp) {
    && (forall m :: m in p.mail && m.key.Some? ==> ClosedSuccess(p, m.key.value))
    && (forall m, n :: m in p.mail && n in p.mail && m.key.Some? && m.key == n.key ==> m == n)
    && (forall k :: ClosedSuccess(p, k) ==> Announced(p, k))
  }

  /** Steps that neither close an entry nor send a keyed webhook nor forget a closed one. */
  lemma SameAnnouncements(p: Psp, p': Psp)
    requires AnnouncedOnce(p)
    requires forall k :: ClosedSuccess(p', k) <==> ClosedSuccess(p, k)
    requires p.mail <= p'.mail && forall m :: m in p'.mail && m !in p.mail ==> m.key.None?
    ensures AnnouncedOnce(p')
  {
    forall k | ClosedSuccess(p', k)
      ensures Announced(p', k)
    {
      assert ClosedSuccess(p, k);
      var m :| m in p.mail && m.key == Some(k);
      assert m in p'.mail;
    }
  }

  lemma OtherStepKeeps(p: Psp, r: Uuid)
    requires Structure(p) && AnnouncedOnce(p) && Ready(p, r) && !p.procs[r].stage.Finishing?
    ensures AnnouncedOnce(Step(p, r))
  {
    var p' := Step(p, r);
    assert OwnerOk(p, r);
    forall k
      ensures ClosedSuccess(p', k) <==> ClosedSuccess(p, k)
    {
      StepKeepsClosed(p, r, k);
    }
    SameAnnouncements(p, p');
  }

  lemma StepKeepsClosed(p: Psp, r: Uuid, k: Uuid)
    requires Structure(p) && Ready(p, r) && !p.procs[r].stage.Finishing? && OwnerOk(p, r)
    ensures ClosedSuccess(Step(p, r), k) <==> ClosedSuccess(p, k)
  {
  }

  /** Closing the entry of a success announces it, for the first time. */
  lemma FinishAnnounces(p: Psp, r: Uuid)
    requires PspInv(p) && AnnouncedOnce(p) && Ready(p, r) && p.procs[r].stage.Finishing?
    ensures AnnouncedOnce(Step(p, r))
  {
    var p', e := Step(p, r), p.procs[r].stage.e;
    var k := p.procs[r].req.key.value;
    assert OwnerOk(p, r) && StageOk(p, r) && EntryOk(p, e);
    assert !ClosedSuccess(p, k);
    forall j | j != k
      ensures ClosedSuccess(p', j) <==> ClosedSuccess(p, j)
    {
      assert j in p.cache ==> p.cache[j] != e;
    }
    if p.entries[e].resp.status.RespSucceeded? {
      var m := Msg(p.next, true, false, p.procs[r].req.key, p.entries[e].resp.ref.value, None);
      assert p'.mail == p.mail + {m} && m in p'.mail && m.key == Some(k);
    } else {
      assert !ClosedSuccess(p', k) && p'.mail == p.mail;
    }
    forall j | ClosedSuccess(p', j)
      ensures Announced(p', j)
    {
      if j != k {
        var m :| m in p.mail && m.key == Some(j);
        assert m in p'.mail;
      }
    }
  }

  lemma StepAnnounces(p: Psp, r: Uuid)
    requires PspInv(p) && AnnouncedOnce(p) && Ready(p, r)
    ensures AnnouncedOnce(Step(p, r))
  {
    if p.procs[r].stage.Finishing? {
      FinishAnnounces(p, r);
    } else {
      OtherStepKeeps(p, r);
    }
  }

  // ---------------------------------------------------------------- in the protocol

  lemma EffectOnPsp(s: Shared, next: Uuid, hd: Handler)
    ensures var p' := Effect(s, next, hd).s.psp;
            p'.cache == s.psp.cache && p'.entries == s.psp.entries && p'.mail == s.psp.mail
  {
  }

  lemma DoAnnounces(w: World, x: Action)
    requires Inv(w) && Enabled(w, x) && AnnouncedOnce(w.psp)
    ensures AnnouncedOnce(Do(w, x).psp)
  {
    if x.PspMove? {
      StepAnnounces(w.psp, x.r);
    } else {
      ServerKeepsMail(w, x);
      SameAnnouncements(w.psp, Do(w, x).psp);
    }
  }

  /** The server sends requests to the PSP, but neither entries nor webhooks are its own. */
  lemma ServerKeepsMail(w: World, x: Action)
    requires Enabled(w, x) && !x.PspMove?
    ensures var p' := Do(w, x).psp; p'.cache == w.psp.cache && p'.entries == w.psp.entries && p'.mail == w.psp.mail
  {
    if x.Run? || x.LoseAck? {
      EffectOnPsp(SharedOf(w), w.next, w.handlers[x.h]);
    }
  }

  /** In every run each keyed charge whose entry is closed has exactly one webhook, and no other key has any. */
  lemma {:induction false} RunAnnounces(t: seq<World>, n: nat)
    requires IsRun(t) && n < |t|
    ensures AnnouncedOnce(t[n].psp)
  {
    if n > 0 {
      RunAnnounces(t, n - 1);
      RunHasInv(t, n - 1);
      assert StepAt(t, n - 1);
      NextAnnounces(t[n - 1], t[n]);
    }
  }

  lemma NextAnnounces(w: World, w': World)
    requires Inv(w) && AnnouncedOnce(w.psp) && Next(w, w')
    ensures AnnouncedOnce(w'.psp)
  {
    var x :| Enabled(w, x) && w' == Do(w, x);
    DoAnnounces(w, x);
  }

  /** A charge that is not announced yet is about to be: its owner has it in hand. */
  lemma ChargeInHand(p: Psp, k: Uuid, ref: Uuid) returns (r: Uuid)
    requires PspInv(p) && AnnouncedOnce(p) && HasCapture(p, k, ref) && !Announced(p, k)
    ensures Ready(p, r) && p.procs[r].stage.Finishing? && p.procs[r].req.key == Some(k)
    ensures var m := Msg(p.next, true, false, Some(k), ref, None);
            m in Step(p, r).mail && forall n :: n in p.mail ==> n.key != Some(k)
  {
    var i :| 0 <= i < |p.ledger| && p.ledger[i].key == Some(k) && p.ledger[i].ref == ref;
    assert p.ledger[i].key.value == k;
    var e := p.cache[k];
    assert EntryOk(p, e) && !ClosedSuccess(p, k);
    assert HasOwner(p, e);
    r :| r in p.procs && Owns(p.procs[r].stage) && p.procs[r].stage.e == e;
    assert OwnerOk(p, r) && StageOk(p, r);
    CaptureUnique(p, k, ref, p.entries[e].resp.ref.value);
  }
}
