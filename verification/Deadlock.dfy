/** Transactions never deadlock and never go on for ever. */
module Deadlock {
  import opened Model
  import opened SingleFlight
  import opened Protocol
  import opened Invariant
  import opened Steps

  /** The order in which every transaction acquires its locks. */
  function Class(r: Resource): nat {
    match r
    case InvoiceRow(_) => 1
    case KeySlot(_) => 2
    case AttemptRow(_) => 3
    case PendingSlot(_) => 3
    case OutboxSlot(_) => 4
  }

  /** The highest class of lock a handler holds. */
  function Rank(h: Handler): nat {
    match h.pc
    case OpenInvoice(_) => 1
    case InsertKey(_) => 1
    case CheckPending(_) => 2
    case InsertAttempt(_) => 2
    case CommitStart(_) => 3
    case MarkSucceeded(_, _, _) => 1
    case Reread(_, _, _) => 1
    case MarkPaid(_, _, _, first) => if first then 3 else 1
    case EnqueueSuccess(_, _, _, first, _) => if first then 3 else 1
    case CommitSettle(_, _, _, first, _, post) => if post then 4 else if first then 3 else 1
    case _ => 0
  }

  lemma HeldIsRanked(h: Handler, r: Resource)
    requires Holds(h, r)
    ensures Class(r) <= Rank(h)
  {
  }

  lemma WantedIsHigher(h: Handler)
    requires Wants(h).Some?
    ensures Rank(h) < Class(Wants(h).value)
  {
  }

  /** Whoever waits, waits for somebody further along. */
  lemma WaitingRises(w: World, h: Uuid, g: Uuid)
    requires WaitsFor(w, h, g)
    ensures Rank(w.handlers[h]) < Rank(w.handlers[g])
  {
    WantedIsHigher(w.handlers[h]);
    HeldIsRanked(w.handlers[g], Wants(w.handlers[h]).value);
  }

  ghost predicate WaitPath(w: World, p: seq<Uuid>) {
    && |p| >= 2
    && forall k :: 0 <= k < |p| - 1 ==> WaitsFor(w, p[k], p[k + 1])
  }

  lemma {:induction false} WaitPathRises(w: World, p: seq<Uuid>)
    requires WaitPath(w, p)
    ensures p[0] in w.handlers && p[|p| - 1] in w.handlers
    ensures Rank(w.handlers[p[0]]) < Rank(w.handlers[p[|p| - 1]])
  {
    assert WaitsFor(w, p[0], p[0 + 1]);
    WaitingRises(w, p[0], p[1]);
    if |p| > 2 {
      var q := p[1..];
      forall k | 0 <= k < |q| - 1
        ensures WaitsFor(w, q[k], q[k + 1])
      {
        assert WaitsFor(w, p[k + 1], p[k + 1 + 1]);
      }
      WaitPathRises(w, q);
    }
  }

  /** The wait-for graph has no cycle. */
  lemma WaitForIsAcyclic(w: World, p: seq<Uuid>)
    requires WaitPath(w, p)
    ensures p[0] != p[|p| - 1]
  {
    WaitPathRises(w, p);
  }

  lemma HeldInTx(h: Handler, r: Resource)
    requires Holds(h, r)
    ensures InTx(h)
  {
  }

  predicate InTx(h: Handler) {
    InStartTx(h.pc) || InSettleTx(h.pc)
  }

  /** Following who waits for whom ends at a transaction that waits for nobody. */
  lemma {:induction false} EndOfQueue(w: World, h: Uuid) returns (g: Uuid)
    requires h in w.handlers && InTx(w.handlers[h])
    ensures g in w.handlers && InTx(w.handlers[g]) && !Blocked(w, g)
    decreases 4 - Rank(w.handlers[h])
  {
    if Blocked(w, h) {
      var k :| WaitsFor(w, h, k);
      WaitingRises(w, h, k);
      HeldInTx(w.handlers[k], Wants(w.handlers[h]).value);
      g := EndOfQueue(w, k);
    } else {
      g := h;
    }
  }

  /** Statements a transaction has left, its commit included. */
  function StatementsLeft(pc: Pc): nat {
    match pc
    case OpenInvoice(_) => 5
    case InsertKey(_) => 4
    case CheckPending(_) => 3
    case InsertAttempt(_) => 2
    case CommitStart(_) => 1
    case MarkSucceeded(_, _, _) => 5
    case Reread(_, _, _) => 4
    case MarkPaid(_, _, _, _) => 3
    case EnqueueSuccess(_, _, _, _, _) => 2
    case CommitSettle(_, _, _, _, _, _) => 1
    case _ => 0
  }

  lemma TxAdvances(s: Shared, next: Uuid, hd: Handler)
    requires InTx(hd) && HandlerOk(s, hd)
    ensures var o := Effect(s, next, hd); o.Continue? ==> StatementsLeft(o.pc) < StatementsLeft(hd.pc)
  {
  }

  /** In every reachable state with an open transaction, the next statement of
      some open transaction is not blocked, and executing it brings that
      transaction closer to its end. */
  lemma NoDeadlock(t: seq<World>, n: nat, h: Uuid) returns (g: Uuid)
    requires IsRun(t) && n < |t| && h in t[n].handlers && InTx(t[n].handlers[h])
    ensures g in t[n].handlers && InTx(t[n].handlers[g])
    ensures Enabled(t[n], Run(g))
    ensures var o := Effect(SharedOf(t[n]), t[n].next, t[n].handlers[g]);
            o.Continue? ==> StatementsLeft(o.pc) < StatementsLeft(t[n].handlers[g].pc)
  {
    var w := t[n];
    g := EndOfQueue(w, h);
    RunHasInv(t, n);
    assert HandlerOk(SharedOf(w), w.handlers[g]);
    TxAdvances(SharedOf(w), w.next, w.handlers[g]);
  }
}
