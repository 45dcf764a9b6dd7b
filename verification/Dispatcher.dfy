/** The outbox repository, the dispatcher's loop over it, and manual redelivery. */
module Dispatcher {
  import opened Model
  import opened Retry
  import opened Dispatch

  /** The most rows one poll claims. */
  const CLAIM_BATCH_SIZE := 10

  // ---------------------------------------------------------------- what is due

  function DueSet(rows: map<Uuid, EventRow>, now: int): set<Uuid> {
    set e | e in rows && Due(rows[e], now)
  }

  function Min(a: int, b: int): int {
    if a <= b then a else b
  }

  /** ORDER BY next_retry_at LIMIT 1. */
  predicate IsEarliest(rows: map<Uuid, EventRow>, due: set<Uuid>, e: Uuid)
    requires forall d :: d in due ==> d in rows
  {
    e in due && forall d :: d in due ==> rows[e].nextAt <= rows[d].nextAt
  }

  lemma {:induction false} EarliestExists(rows: map<Uuid, EventRow>, due: set<Uuid>) returns (e: Uuid)
    requires (exists x :: x in due) && forall d :: d in due ==> d in rows
    ensures IsEarliest(rows, due, e)
    decreases |due|
  {
    var x :| x in due;
    var rest := due - {x};
    assert forall d :: d in due ==> d == x || d in rest;
    if exists y :: y in rest {
      e := EarliestExists(rows, rest);
      e := if rows[x].nextAt < rows[e].nextAt then x else e;
    } else {
      e := x;
    }
  }

  // ---------------------------------------------------------------- outbound_event_repository

  /** A claimed event as the worker reads it. */
  datatype Work = Work(event: Uuid, business: Uuid, count: int)

  ghost predicate Distinct(ws: seq<Work>) {
    forall i, j :: 0 <= i < j < |ws| ==> ws[i].event != ws[j].event
  }

  function EventsOf(ws: seq<Work>): set<Uuid> {
    set w | w in ws :: w.event
  }

  /** The rows once `claimed` are claimed. */
  function WithClaimed(rows: map<Uuid, EventRow>, claimed: set<Uuid>): map<Uuid, EventRow> {
    map e | e in rows :: if e in claimed then Claimed(rows[e]) else rows[e]
  }

  ghost predicate AreWork(rows: map<Uuid, EventRow>, ws: seq<Work>) {
    forall w :: w in ws ==> w.event in rows && w == Work(w.event, rows[w.event].business, rows[w.event].count)
  }

  /** No due row left is earlier than a claimed one. */
  ghost predicate EarliestFirst(rows: map<Uuid, EventRow>, claimed: set<Uuid>, now: int)
    requires claimed <= DueSet(rows, now)
  {
    forall c, e :: c in claimed && e in DueSet(rows, now) && e !in claimed ==> rows[c].nextAt <= rows[e].nextAt
  }

  lemma StillDue(rows: map<Uuid, EventRow>, claimed: set<Uuid>, now: int)
    requires claimed <= DueSet(rows, now)
    ensures DueSet(WithClaimed(rows, claimed), now) == DueSet(rows, now) - claimed
  {
    var rows' := WithClaimed(rows, claimed);
    forall e: Uuid
      ensures e in DueSet(rows', now) <==> e in DueSet(rows, now) - claimed
    {
      assert e in rows ==> rows'[e] == if e in claimed then Claimed(rows[e]) else rows[e];
    }
  }

  lemma ClaimEarliest(rows: map<Uuid, EventRow>, claimed: set<Uuid>, now: int, e: Uuid)
    requires claimed <= DueSet(rows, now) && EarliestFirst(rows, claimed, now)
    requires IsEarliest(WithClaimed(rows, claimed), DueSet(WithClaimed(rows, claimed), now), e)
    ensures e in DueSet(rows, now) && e !in claimed && WithClaimed(rows, claimed)[e] == rows[e]
    ensures EarliestFirst(rows, claimed + {e}, now)
    ensures WithClaimed(rows, claimed + {e}) == WithClaimed(rows, claimed)[e := Claimed(rows[e])]
  {
    StillDue(rows, claimed, now);
    var rows' := WithClaimed(rows, claimed);
    forall d | d in DueSet(rows, now) && d !in claimed
      ensures rows[e].nextAt <= rows[d].nextAt
    {
      assert d in DueSet(rows', now) && rows'[d] == rows[d];
    }
    assert forall d :: d in rows ==> d in rows' && rows'[d] == if d in claimed then Claimed(rows[d]) else rows[d];
    assert EarliestFirst(rows, claimed + {e}, now);
  }

  lemma OneMore(ws: seq<Work>, w: Work)
    requires w.event !in EventsOf(ws)
    ensures EventsOf(ws + [w]) == EventsOf(ws) + {w.event}
    ensures Distinct(ws) ==> Distinct(ws + [w])
  {
    forall v | v in ws
      ensures v.event in EventsOf(ws + [w]) && v.event != w.event
    {
      assert v in ws + [w];
    }
    assert w in ws + [w];
  }

  class Outbox {
    var rows: map<Uuid, EventRow>

    /** How many statements have reported a failure so far. */
    ghost var faults: nat

    /** Others claim, record, redeliver and post as they like; no row is deleted. */
    method OthersAct()
      modifies this`rows
      ensures old(rows).Keys <= rows.Keys
    {
      var others: map<Uuid, EventRow> := *;
      if rows.Keys <= others.Keys {
        rows := others;
      }
    }

    /** Claims exactly the first `limit` due rows, or all of them if there are
        fewer, and no due row that is left is earlier than one that is claimed.
        If it fails, the rows may be claimed all the same, by nobody. */
    method ClaimDue(limit: nat, now: int) returns (ok: bool, events: seq<Work>, ghost claimed: set<Uuid>)
      modifies this
      ensures faults == if ok then old(faults) else old(faults) + 1
      ensures claimed <= DueSet(old(rows), now) && |claimed| == Min(limit, |DueSet(old(rows), now)|)
      ensures EarliestFirst(old(rows), claimed, now)
      ensures rows == WithClaimed(old(rows), claimed) || (!ok && rows == old(rows))
      ensures if ok then
                |events| == |claimed| && EventsOf(events) == claimed && Distinct(events) && AreWork(old(rows), events)
              else events == []
    {
      var before := rows;
      events := Claim(limit, now);
      claimed := EventsOf(events);
      ok := *;
      if !ok {
        events := [];
        var lost: bool := *;
        if lost {
          rows := before;
        }
        faults := faults + 1;
      }
    }

    /** The UPDATE with its subquery, and the loop over the rows it returns. */
    method Claim(limit: nat, now: int) returns (events: seq<Work>)
      modifies this`rows
      ensures |events| == |EventsOf(events)| == Min(limit, |DueSet(old(rows), now)|)
      ensures Distinct(events) && EventsOf(events) <= DueSet(old(rows), now)
      ensures AreWork(old(rows), events)
      ensures EarliestFirst(old(rows), EventsOf(events), now)
      ensures rows == WithClaimed(old(rows), EventsOf(events))
    {
      events := [];
      ghost var before, claimed := rows, {};
      ghost var due := DueSet(rows, now);
      while |events| < limit && exists e :: e in DueSet(rows, now)
        invariant claimed <= due && |claimed| == |events| <= limit
        invariant EventsOf(events) == claimed && Distinct(events)
        invariant AreWork(before, events)
        invariant EarliestFirst(before, claimed, now)
        invariant rows == WithClaimed(before, claimed)
        decreases limit - |events|
      {
        StillDue(before, claimed, now);
        ghost var first := EarliestExists(rows, DueSet(rows, now));
        var e :| IsEarliest(rows, DueSet(rows, now), e);
        ClaimEarliest(before, claimed, now, e);
        var work := Work(e, rows[e].business, rows[e].count);
        OneMore(events, work);
        events := events + [work];
        rows := rows[e := Claimed(rows[e])];
        claimed := claimed + {e};
      }
      StillDue(before, claimed, now);
      SizeOfRest(due, claimed);
      assert |events| < limit ==> DueSet(rows, now) == {};
    }

    /** The UPDATEs of one row.  A failing one may have taken effect. */
    method MarkEventDelivered(id: Uuid) returns (ok: bool)
      modifies this
      ensures faults == if ok then old(faults) else old(faults) + 1
      ensures (!ok && rows == old(rows)) || rows == UpdateRow(old(rows), id, (r: EventRow) => r.(status := Delivered))
    {
      ok := *;
      var done: bool := *;
      if (ok || done) && id in rows {
        rows := rows[id := MarkDelivered(rows[id])];
      }
      faults := if ok then faults else faults + 1;
    }

    method MarkRetry(id: Uuid, count: int, next: int) returns (ok: bool)
      modifies this
      ensures faults == if ok then old(faults) else old(faults) + 1
      ensures || (!ok && rows == old(rows))
              || rows == UpdateRow(old(rows), id,
                                   (r: EventRow) => r.(status := Waiting, count := count, nextAt := next))
    {
      ok := *;
      var done: bool := *;
      if (ok || done) && id in rows {
        rows := rows[id := rows[id].(status := Waiting, count := count, nextAt := next)];
      }
      faults := if ok then faults else faults + 1;
    }

    method MarkFailed(id: Uuid, count: int) returns (ok: bool)
      modifies this
      ensures faults == if ok then old(faults) else old(faults) + 1
      ensures || (!ok && rows == old(rows))
              || rows == UpdateRow(old(rows), id, (r: EventRow) => r.(status := Dead, count := count))
    {
      ok := *;
      var done: bool := *;
      if (ok || done) && id in rows {
        rows := rows[id := rows[id].(status := Dead, count := count)];
      }
      faults := if ok then faults else faults + 1;
    }

    method Reset(id: Uuid, now: int) returns (ok: bool)
      modifies this
      ensures faults == if ok then old(faults) else old(faults) + 1
      ensures || (!ok && rows == old(rows))
              || rows == UpdateRow(old(rows), id, (r: EventRow) => r.(status := Waiting, count := 0, nextAt := now))
    {
      ok := *;
      var done: bool := *;
      if (ok || done) && id in rows {
        rows := rows[id := ResetForRedelivery(rows[id], now)];
      }
      faults := if ok then faults else faults + 1;
    }
  }

  /** UPDATE ... WHERE id. */
  function UpdateRow(rows: map<Uuid, EventRow>, id: Uuid, update: EventRow -> EventRow): map<Uuid, EventRow> {
    if id in rows then rows[id := update(rows[id])] else rows
  }

  lemma SizeOfRest(all: set<Uuid>, part: set<Uuid>)
    requires part <= all
    ensures |all - part| == |all| - |part|
  {
    assert all == part + (all - part);
  }

  // ---------------------------------------------------------------- webhook_dispatcher

  /** What came of one delivery. */
  datatype Reply = NoBusiness | NoUrl | BadRequest | Unreachable | Status(code: int)

  predicate IsDelivered(r: Reply) {
    r.Status? && 200 <= r.code < 300
  }

  /** The row once a worker has dealt with its claim. */
  function After(row: EventRow, w: Work, r: Reply, now: int): EventRow {
    if IsDelivered(r) then MarkDelivered(row) else RecordFailure(row, w.count, now)
  }

  /** The rows once a delivery is recorded, or as they were if recording it failed. */
  predicate Recorded(before: map<Uuid, EventRow>, after: map<Uuid, EventRow>, w: Work, r: Reply, now: int) {
    after == before || (w.event in before && after == before[w.event := After(before[w.event], w, r, now)])
  }

  /** What recording reply r does to the row of an event that had failed `count`
      times when it was claimed: nothing if the statement fails; otherwise a 2xx
      answer makes it DELIVERED, and anything else counts as one more failure,
      after which it waits or, the eighth time, is dead. */
  predicate RecordedAs(row: EventRow, row': EventRow, count: int, r: Reply, now: int) {
    || row' == row
    || (if r.Status? && 200 <= r.code <= 299 then row' == row.(status := Delivered)
        else
          && row'.business == row.business && row'.count == count + 1
          && (count + 1 < 8 ==> row'.status == Waiting)
          && (0 <= count < 7 ==> row'.nextAt == now + [5, 25, 120, 600, 1800, 7200, 21600][count])
          && (count + 1 >= 8 ==> row'.status == Dead && row'.nextAt == row.nextAt))
  }

  /** One claimed event is dealt with: its row is there, no other row changes, and
      its own as its reply says. */
  predicate IsHandled(before: map<Uuid, EventRow>, after: map<Uuid, EventRow>, w: Work, r: Reply, now: int) {
    && w.event in before && w.event in after && after == before[w.event := after[w.event]]
    && RecordedAs(before[w.event], after[w.event], w.count, r, now)
  }

  /** Nothing has gone wrong while it was recorded. */
  predicate InFull(before: map<Uuid, EventRow>, after: map<Uuid, EventRow>, w: Work, r: Reply, now: int) {
    w.event in before && after == before[w.event := After(before[w.event], w, r, now)]
  }

  /** What becomes of one claimed event; `quiet`: no statement has failed. */
  predicate Done(before: map<Uuid, EventRow>, after: map<Uuid, EventRow>, w: Work, r: Reply, now: int, quiet: bool) {
    && Recorded(before, after, w, r, now)
    && IsHandled(before, after, w, r, now)
    && (quiet ==> InFull(before, after, w, r, now))
  }

  /** A recorded reply changes that row only, as it should. */
  lemma RecordedMeans(before: map<Uuid, EventRow>, after: map<Uuid, EventRow>, w: Work, r: Reply, now: int)
    requires Recorded(before, after, w, r, now) && w.event in before
    ensures IsHandled(before, after, w, r, now)
  {
    assert before[w.event := before[w.event]] == before;
  }

  class WebhookDispatcher {
    const outbox: Outbox

    constructor (outbox: Outbox)
      ensures this.outbox == outbox
    {
      this.outbox := outbox;
    }

    /** Poll once.  `replies[i]` and `times[i]` are what came of the i-th delivery,
        and when; `befores[i]` and `afters[i]` are the rows around its recording,
        and `claims` those after the claim.  Each claimed event is dealt with
        exactly once, on its row as it is by then. */
    method DeliverDue(now: int, replies: seq<Reply>, times: seq<int>)
      returns (ok: bool, events: seq<Work>, ghost claims: map<Uuid, EventRow>,
               ghost befores: seq<map<Uuid, EventRow>>, ghost afters: seq<map<Uuid, EventRow>>)
      requires |replies| == |times| == CLAIM_BATCH_SIZE
      modifies outbox
      ensures ok ==> |events| == Min(10, |DueSet(old(outbox.rows), now)|)
      ensures ok ==> claims == WithClaimed(old(outbox.rows), EventsOf(events))
      ensures ok ==> EventsOf(events) <= DueSet(old(outbox.rows), now)
      ensures !ok ==> events == []
      ensures Distinct(events) && AreWork(old(outbox.rows), events) && |events| <= CLAIM_BATCH_SIZE
      ensures |befores| == |afters| == |events|
      ensures forall i :: 0 <= i < |events| ==>
                Done(befores[i], afters[i], events[i], replies[i], times[i], outbox.faults == old(outbox.faults))
      ensures outbox.rows == RowsAt(claims, afters, |events|)
      ensures outbox.faults >= old(outbox.faults)
      ensures outbox.faults == old(outbox.faults) ==> ok
    {
      ghost var claimed;
      ok, events, claimed := outbox.ClaimDue(CLAIM_BATCH_SIZE, now);
      claims, befores, afters := outbox.rows, [], [];
      for i := 0 to |events|
        invariant |befores| == |afters| == i
        invariant forall k :: 0 <= k < i ==>
                    Done(befores[k], afters[k], events[k], replies[k], times[k], outbox.faults == old(outbox.faults))
        invariant outbox.rows == RowsAt(claims, afters, i)
        invariant old(outbox.rows).Keys <= outbox.rows.Keys
        invariant outbox.faults >= old(outbox.faults)
        invariant outbox.faults == old(outbox.faults) ==> ok
      {
        ghost var before := DeliverOne(events[i], replies[i], times[i]);
        befores, afters := befores + [before], afters + [outbox.rows];
      }
    }

    /** Others act while the delivery is under way; `before` are the rows when it is recorded. */
    method DeliverOne(w: Work, reply: Reply, now: int) returns (ghost before: map<Uuid, EventRow>)
      modifies outbox
      ensures old(outbox.rows).Keys <= before.Keys
      ensures Recorded(before, outbox.rows, w, reply, now)
      ensures w.event in before ==> IsHandled(before, outbox.rows, w, reply, now)
      ensures outbox.faults >= old(outbox.faults)
      ensures outbox.faults == old(outbox.faults) && w.event in before ==> InFull(before, outbox.rows, w, reply, now)
    {
      outbox.OthersAct();
      before := outbox.rows;
      RecordReply(w, reply, now);
      if w.event in before {
        RecordedMeans(before, outbox.rows, w, reply, now);
      }
    }

    method RecordReply(w: Work, reply: Reply, now: int)
      modifies outbox
      ensures Recorded(old(outbox.rows), outbox.rows, w, reply, now)
      ensures outbox.faults >= old(outbox.faults)
      ensures outbox.faults == old(outbox.faults) && w.event in old(outbox.rows) ==>
                InFull(old(outbox.rows), outbox.rows, w, reply, now)
    {
      match reply {
        case NoBusiness => RecordAsFailure(w, now);
        case NoUrl => RecordAsFailure(w, now);
        case BadRequest => RecordAsFailure(w, now);
        case Unreachable => RecordAsFailure(w, now);
        case Status(code) =>
          if 200 <= code < 300 {
            var _ := outbox.MarkEventDelivered(w.event);
          } else {
            RecordAsFailure(w, now);
          }
      }
    }

    method RecordAsFailure(w: Work, now: int)
      modifies outbox
      ensures || outbox.rows == old(outbox.rows)
              || outbox.rows == UpdateRow(old(outbox.rows), w.event, r => RecordFailure(r, w.count, now))
      ensures outbox.faults >= old(outbox.faults)
      ensures outbox.faults == old(outbox.faults) ==>
                outbox.rows == UpdateRow(old(outbox.rows), w.event, r => RecordFailure(r, w.count, now))
    {
      var failedAttempts := w.count + 1;
      var next := NextRetryAt(failedAttempts, now);
      if next.None? {
        var _ := outbox.MarkFailed(w.event, failedAttempts);
      } else {
        var _ := outbox.MarkRetry(w.event, failedAttempts, next.value);
      }
    }
  }

  /** Nobody else acts during a poll. */
  predicate Undisturbed(claims: map<Uuid, EventRow>, befores: seq<map<Uuid, EventRow>>,
                        afters: seq<map<Uuid, EventRow>>) {
    && |befores| == |afters|
    && forall i :: 0 <= i < |befores| ==> befores[i] == RowsAt(claims, afters, i)
  }

  /** The rows after the claim and i recordings. */
  function RowsAt(claims: map<Uuid, EventRow>, afters: seq<map<Uuid, EventRow>>, i: nat): map<Uuid, EventRow>
    requires i <= |afters|
  {
    if i == 0 then claims else afters[i - 1]
  }

  /** The first n claimed events have ended as their own deliveries say, or as
      they were claimed if that could not be recorded, and no other row has changed. */
  ghost predicate DealtWith(claims: map<Uuid, EventRow>, rows: map<Uuid, EventRow>, events: seq<Work>,
                            replies: seq<Reply>, times: seq<int>, n: nat)
    requires n <= |events| && |events| <= |replies| && |events| <= |times|
  {
    && rows.Keys == claims.Keys
    && (forall i :: 0 <= i < n && events[i].event in claims ==>
          || rows[events[i].event] == claims[events[i].event]
          || rows[events[i].event] == After(claims[events[i].event], events[i], replies[i], times[i]))
    && (forall e :: e in claims && e !in EventsOf(events[..n]) ==> rows[e] == claims[e])
  }

  lemma OneMoreDealtWith(claims: map<Uuid, EventRow>, rows: map<Uuid, EventRow>, rows': map<Uuid, EventRow>,
                         events: seq<Work>, replies: seq<Reply>, times: seq<int>, n: nat)
    requires n < |events| && |events| <= |replies| && |events| <= |times| && Distinct(events)
    requires DealtWith(claims, rows, events, replies, times, n)
    requires Recorded(rows, rows', events[n], replies[n], times[n])
    ensures DealtWith(claims, rows', events, replies, times, n + 1)
  {
    var w := events[n];
    assert events[..n + 1] == events[..n] + [w];
    forall v | v in events[..n]
      ensures v.event != w.event
    {
    }
    OneMore(events[..n], w);
  }

  lemma {:induction false} UndisturbedPoll(claims: map<Uuid, EventRow>, events: seq<Work>, replies: seq<Reply>,
                                           times: seq<int>, befores: seq<map<Uuid, EventRow>>,
                                           afters: seq<map<Uuid, EventRow>>, n: nat)
    requires Undisturbed(claims, befores, afters) && |events| == |befores| <= |replies| && |events| <= |times|
    requires Distinct(events)
    requires forall i :: 0 <= i < |events| ==> Recorded(befores[i], afters[i], events[i], replies[i], times[i])
    requires n <= |events|
    ensures DealtWith(claims, RowsAt(claims, afters, n), events, replies, times, n)
  {
    if n > 0 {
      var m := n - 1;
      UndisturbedPoll(claims, events, replies, times, befores, afters, m);
      var before, after := RowsAt(claims, afters, m), RowsAt(claims, afters, n);
      assert Recorded(before, after, events[m], replies[m], times[m]);
      OneMoreDealtWith(claims, before, after, events, replies, times, m);
    }
  }

  /** An event that an undisturbed poll has turned DELIVERED was answered with a
      2xx status; one that was not is DELIVERED under no circumstances, and one
      that was is never scheduled again nor dead. */
  lemma DeliveredMeansAnswered(claims: map<Uuid, EventRow>, rows: map<Uuid, EventRow>, events: seq<Work>,
                               replies: seq<Reply>, times: seq<int>, n: nat, i: nat)
    requires n <= |events| && |events| <= |replies| && |events| <= |times| && i < n
    requires DealtWith(claims, rows, events, replies, times, n)
    requires events[i].event in claims && claims[events[i].event].status == Delivering
    ensures var row, answered := rows[events[i].event], replies[i].Status? && 200 <= replies[i].code <= 299;
            && (row.status == Delivered ==> answered)
            && (row.status in {Waiting, Dead} ==> !answered && row.count == events[i].count + 1)
            && (row.status == Delivering ==> row == claims[events[i].event])
  {
    var w := events[i];
    assert RecordedAs(claims[w.event], rows[w.event], w.count, replies[i], times[i]);
  }

  // ---------------------------------------------------------------- webhook_service

  datatype Redelivery = EventNotFound | EventNotOwned | Redelivered(row: EventRow) | ResetFailed

  class WebhookService {
    const outbox: Outbox

    constructor (outbox: Outbox)
      ensures this.outbox == outbox
    {
      this.outbox := outbox;
    }

    method Redeliver(business: Uuid, id: Uuid, now: int) returns (r: Redelivery)
      modifies outbox
      ensures r.EventNotFound? <==> id !in old(outbox.rows)
      ensures r.EventNotOwned? <==> id in old(outbox.rows) && old(outbox.rows)[id].business != business
      ensures r.EventNotFound? || r.EventNotOwned? ==> outbox.rows == old(outbox.rows)
      ensures r.Redelivered? ==>
                && outbox.rows == old(outbox.rows)[id := EventRow(business, Waiting, 0, now)]
                && r.row == outbox.rows[id]
      ensures r.ResetFailed? ==>
                && outbox.rows in {old(outbox.rows), old(outbox.rows)[id := EventRow(business, Waiting, 0, now)]}
                && outbox.faults > old(outbox.faults)
    {
      if id !in outbox.rows {
        return EventNotFound;
      }
      if outbox.rows[id].business != business {
        return EventNotOwned;
      }
      var ok := outbox.Reset(id, now);
      r := if ok then Redelivered(outbox.rows[id]) else ResetFailed;
    }
  }
}
