/** Outgoing webhooks: any number of dispatchers claim, try and record; merchants
    redeliver at any moment; workers die.  One step is one statement or one
    attempt at delivery. */
module Dispatch {
  import opened Model
  import opened Retry
  import opened Sums

  /** PENDING, DELIVERING, DELIVERED and FAILED. */
  datatype EventStatus = Waiting | Delivering | Delivered | Dead
  datatype EventRow = EventRow(business: Uuid, status: EventStatus, count: int, nextAt: int)

  // ---------------------------------------------------------------- the UPDATE statements

  function Due(row: EventRow, now: int): bool {
    row.status.Waiting? && row.nextAt <= now
  }

  function Claimed(row: EventRow): EventRow {
    row.(status := Delivering)
  }

  function MarkDelivered(row: EventRow): EventRow {
    row.(status := Delivered)
  }

  /** recordFailure by a worker that claimed the event with `count` failures. */
  function RecordFailure(row: EventRow, count: int, now: int): EventRow {
    match NextRetryAt(count + 1, now)
    case Some(next) => row.(status := Waiting, count := count + 1, nextAt := next)
    case None => row.(status := Dead, count := count + 1)
  }

  function ResetForRedelivery(row: EventRow, now: int): EventRow {
    row.(status := Waiting, count := 0, nextAt := now)
  }

  // ---------------------------------------------------------------- the machine

  /** An event: its row, and for the record how often its delivery was tried,
      how often it was redelivered, and when it was claimed. */
  datatype Event = Event(row: EventRow, tries: int, resets: int, times: seq<int>)

  /** An event as a worker read it; `tried`: the delivery has been attempted. */
  datatype Claim = Claim(event: Uuid, count: int, tried: bool)

  datatype State = State(events: map<Uuid, Event>, claims: map<Uuid, Claim>, now: int)

  datatype Action =
    | Post(e: Uuid, business: Uuid)    // the payment service enqueues an event
    | ClaimOne(e: Uuid, c: Uuid)       // one row of a ClaimDue
    | Try(c: Uuid)                     // deliverOne
    | RecordOk(c: Uuid)                // a 2xx answer is recorded
    | RecordBad(c: Uuid)               // anything else is
    | Forget(c: Uuid)                  // the worker dies, or its statement fails
    | Redeliver(e: Uuid)               // the merchant asks for it again
    | Tick(to: int)

  predicate Can(s: State, a: Action) {
    match a
    case Post(e, _) => e !in s.events
    case ClaimOne(e, c) => e in s.events && Due(s.events[e].row, s.now) && c !in s.claims
    case Try(c) => c in s.claims && !s.claims[c].tried && s.claims[c].event in s.events
    case RecordOk(c) => c in s.claims && s.claims[c].tried && s.claims[c].event in s.events
    case RecordBad(c) => c in s.claims && s.claims[c].tried && s.claims[c].event in s.events
    case Forget(c) => c in s.claims
    case Redeliver(e) => e in s.events
    case Tick(to) => s.now <= to
  }

  function WithRow(s: State, e: Uuid, row: EventRow): State
    requires e in s.events
  {
    s.(events := s.events[e := s.events[e].(row := row)])
  }

  function Perform(s: State, a: Action): State
    requires Can(s, a)
  {
    match a
    case Post(e, business) => s.(events := s.events[e := Event(EventRow(business, Waiting, 0, s.now), 0, 0, [])])
    case ClaimOne(e, c) =>
      var ev := s.events[e];
      s.(events := s.events[e := ev.(row := Claimed(ev.row), times := ev.times + [s.now])],
         claims := s.claims[c := Claim(e, ev.row.count, false)])
    case Try(c) =>
      var e := s.claims[c].event;
      s.(events := s.events[e := s.events[e].(tries := s.events[e].tries + 1)],
         claims := s.claims[c := s.claims[c].(tried := true)])
    case RecordOk(c) =>
      var e := s.claims[c].event;
      WithRow(s, e, MarkDelivered(s.events[e].row)).(claims := s.claims - {c})
    case RecordBad(c) =>
      var e := s.claims[c].event;
      WithRow(s, e, RecordFailure(s.events[e].row, s.claims[c].count, s.now)).(claims := s.claims - {c})
    case Forget(c) => s.(claims := s.claims - {c})
    case Redeliver(e) =>
      var ev := s.events[e];
      s.(events := s.events[e := ev.(row := ResetForRedelivery(ev.row, s.now), resets := ev.resets + 1)])
    case Tick(to) => s.(now := to)
  }

  predicate Start(s: State) {
    s.events == map[] && s.claims == map[]
  }

  predicate Follows(s: State, s': State, a: Action) {
    Can(s, a) && s' == Perform(s, a)
  }

  ghost predicate Next(s: State, s': State) {
    exists a :: Follows(s, s', a)
  }

  ghost predicate StepAt(t: seq<State>, n: int)
    requires 0 <= n < |t| - 1
  {
    Next(t[n], t[n + 1])
  }

  ghost predicate IsHistory(t: seq<State>) {
    && |t| > 0
    && Start(t[0])
    && forall n :: 0 <= n < |t| - 1 ==> StepAt(t, n)
  }

  // ---------------------------------------------------------------- counts

  /** A row that is not dead can be tried again; a dead one was tried to the end. */
  predicate RowOk(row: EventRow) {
    match row.status
    case Waiting => 0 <= row.count < MAX_ATTEMPTS
    case Delivering => 0 <= row.count < MAX_ATTEMPTS
    case Delivered => 0 <= row.count <= MAX_ATTEMPTS
    case Dead => row.count == MAX_ATTEMPTS
  }

  ghost predicate CountsOk(s: State) {
    && (forall e :: e in s.events ==> RowOk(s.events[e].row))
    && (forall c :: c in s.claims ==> s.claims[c].event in s.events && 0 <= s.claims[c].count < MAX_ATTEMPTS)
  }

  lemma CountsStay(s: State, a: Action)
    requires CountsOk(s) && Can(s, a)
    ensures CountsOk(Perform(s, a))
  {
    if a.RecordBad? {
      ScheduleIsExact(s.claims[a.c].count + 1, s.now);
    }
  }

  // ---------------------------------------------------------------- the delivery budget

  /** The tries a row may still lead to, if nobody asks for a redelivery. */
  function RowLeft(row: EventRow): nat
    requires RowOk(row)
  {
    if row.status.Waiting? then MAX_ATTEMPTS - row.count else 0
  }

  /** The tries a claim may still lead to: its own, and those of the row it would write. */
  function ClaimLeft(c: Claim, e: Uuid): nat
    requires 0 <= c.count < MAX_ATTEMPTS
  {
    if c.event != e then 0 else if c.tried then MAX_ATTEMPTS - c.count - 1 else MAX_ATTEMPTS - c.count
  }

  ghost function ClaimsLeft(s: State, e: Uuid): map<Uuid, nat>
    requires CountsOk(s)
  {
    map c | c in s.claims :: ClaimLeft(s.claims[c], e)
  }

  ghost function Potential(s: State, e: Uuid): nat
    requires CountsOk(s) && e in s.events
  {
    RowLeft(s.events[e].row) + Sum(ClaimsLeft(s, e))
  }

  /** Tries made and tries that may come fit the budget. */
  ghost predicate BudgetOk(s: State, e: Uuid)
    requires CountsOk(s) && e in s.events
  {
    s.events[e].tries + Potential(s, e) <= MAX_ATTEMPTS * (1 + s.events[e].resets)
  }

  /** Unless somebody asks for it again, what an event's budget loses it has been tried. */
  lemma PotentialFalls(s: State, a: Action, e: Uuid)
    requires CountsOk(s) && Can(s, a) && CountsOk(Perform(s, a)) && e in s.events && !(a.Redeliver? && a.e == e)
    ensures e in Perform(s, a).events
    ensures Perform(s, a).events[e].tries + Potential(Perform(s, a), e) <= s.events[e].tries + Potential(s, e)
  {
    var s' := Perform(s, a);
    match a
    case Post(e', _) => NewEventUnclaimed(s, a, e);
    case ClaimOne(e', c) => ClaimChanges(s, s', c, e);
    case Try(c) => ClaimChanges(s, s', c, e);
    case RecordOk(c) => ClaimEnds(s, s', c, e);
    case RecordBad(c) =>
      ScheduleIsExact(s.claims[c].count + 1, s.now);
      ClaimEnds(s, s', c, e);
    case Forget(c) => ClaimEnds(s, s', c, e);
    case Redeliver(_) => assert ClaimsLeft(s', e) == ClaimsLeft(s, e);
    case Tick(_) => assert ClaimsLeft(s', e) == ClaimsLeft(s, e);
  }

  lemma BudgetStays(s: State, a: Action, e: Uuid)
    requires CountsOk(s) && Can(s, a) && CountsOk(Perform(s, a)) && e in Perform(s, a).events
    requires e in s.events ==> BudgetOk(s, e)
    ensures BudgetOk(Perform(s, a), e)
  {
    if e !in s.events {
      NewEventUnclaimed(s, a, e);
    } else if a.Redeliver? && a.e == e {
      assert ClaimsLeft(Perform(s, a), e) == ClaimsLeft(s, e);
    } else {
      PotentialFalls(s, a, e);
    }
  }

  lemma NewEventUnclaimed(s: State, a: Action, e: Uuid)
    requires CountsOk(s) && Can(s, a) && a.Post? && CountsOk(Perform(s, a)) && e in Perform(s, a).events
    ensures Sum(ClaimsLeft(Perform(s, a), e)) == if e in s.events then Sum(ClaimsLeft(s, e)) else 0
  {
    assert ClaimsLeft(Perform(s, a), e) == ClaimsLeft(s, e);
    if e !in s.events {
      AllZero(ClaimsLeft(s, e));
    }
  }

  lemma ClaimChanges(s: State, s': State, c: Uuid, e: Uuid)
    requires CountsOk(s) && CountsOk(s') && c in s'.claims && s'.claims == s.claims[c := s'.claims[c]]
    ensures Sum(ClaimsLeft(s', e)) == Sum(ClaimsLeft(s, e)) + ClaimLeft(s'.claims[c], e)
                                      - if c in s.claims then ClaimLeft(s.claims[c], e) else 0
  {
    assert ClaimsLeft(s', e) == ClaimsLeft(s, e)[c := ClaimLeft(s'.claims[c], e)];
    SumUpdated(ClaimsLeft(s, e), c, ClaimLeft(s'.claims[c], e));
  }

  lemma ClaimEnds(s: State, s': State, c: Uuid, e: Uuid)
    requires CountsOk(s) && CountsOk(s') && c in s.claims && s'.claims == s.claims - {c}
    ensures Sum(ClaimsLeft(s', e)) == Sum(ClaimsLeft(s, e)) - ClaimLeft(s.claims[c], e)
  {
    assert ClaimsLeft(s', e) == ClaimsLeft(s, e) - {c};
    SumWithout(ClaimsLeft(s, e), c);
  }

  // -------------------- one claim at a time, and no earlier than the backoff allows

  /** Claim times of an event respect the schedule: the k-th comes no earlier
      than the first plus the first k - 1 waits. */
  predicate OnSchedule(times: seq<int>) {
    |times| <= MAX_ATTEMPTS && forall k :: 0 <= k < |times| ==> times[0] + Waits(k) <= times[k]
  }

  ghost predicate Holds(s: State, c: Uuid, e: Uuid) {
    c in s.claims && s.claims[c].event == e
  }

  /** An event that was never redelivered has one worker at most, who knows its count. */
  ghost predicate HeldOnce(s: State, e: Uuid)
    requires e in s.events
  {
    && (forall c, d :: Holds(s, c, e) && Holds(s, d, e) ==> c == d)
    && (forall c :: Holds(s, c, e) ==> s.events[e].row.status.Delivering? && s.claims[c].count == s.events[e].row.count)
  }

  /** Its claims fit its count, and its next one is due no earlier than the schedule says. */
  ghost predicate TimingOk(ev: Event, now: int)
    requires RowOk(ev.row)
  {
    && OnSchedule(ev.times)
    && (forall k :: 0 <= k < |ev.times| ==> ev.times[k] <= now)
    && match ev.row.status
       case Waiting =>
         && |ev.times| == ev.row.count
         && (ev.row.count > 0 ==> ev.times[0] + Waits(ev.row.count) <= ev.row.nextAt)
       case Delivering => |ev.times| == ev.row.count + 1
       case Delivered => |ev.times| == ev.row.count + 1
       case Dead => |ev.times| == MAX_ATTEMPTS
  }

  lemma HeldOnceStays(s: State, a: Action, e: Uuid)
    requires CountsOk(s) && Can(s, a) && e in Perform(s, a).events
    requires e in s.events ==> HeldOnce(s, e)
    requires !(a.Redeliver? && a.e == e)
    ensures HeldOnce(Perform(s, a), e)
  {
    var s' := Perform(s, a);
    forall c | Holds(s', c, e) && !(a.ClaimOne? && a.c == c)
      ensures Holds(s, c, e) && s'.claims[c].count == s.claims[c].count
      ensures a.ClaimOne? ==> a.e != e
    {
      assert Holds(s, c, e);
    }
    if (a.RecordOk? || a.RecordBad?) && s.claims[a.c].event == e {
      assert Holds(s, a.c, e);
    }
  }

  lemma TimingStays(s: State, a: Action, e: Uuid)
    requires CountsOk(s) && Can(s, a) && e in Perform(s, a).events && CountsOk(Perform(s, a))
    requires e in s.events ==> HeldOnce(s, e) && TimingOk(s.events[e], s.now)
    requires !(a.Redeliver? && a.e == e)
    ensures TimingOk(Perform(s, a).events[e], Perform(s, a).now)
  {
    assert Waits(0) == 0;
    if a.RecordOk? && s.claims[a.c].event == e {
      assert Holds(s, a.c, e);
    }
    if a.RecordBad? && s.claims[a.c].event == e {
      assert Holds(s, a.c, e);
      ScheduleIsExact(s.claims[a.c].count + 1, s.now);
    }
  }

  // ---------------------------------------------------------------- whole histories

  ghost predicate AllOk(s: State) {
    && CountsOk(s)
    && forall e :: e in s.events ==>
         && BudgetOk(s, e) && 0 <= s.events[e].resets
         && (s.events[e].resets == 0 ==> HeldOnce(s, e) && TimingOk(s.events[e], s.now))
  }

  lemma StepKeepsAll(s: State, a: Action)
    requires AllOk(s) && Can(s, a)
    ensures AllOk(Perform(s, a))
  {
    var s' := Perform(s, a);
    CountsStay(s, a);
    forall e | e in s'.events
      ensures BudgetOk(s', e) && 0 <= s'.events[e].resets
      ensures (s'.events[e].resets == 0 ==> HeldOnce(s', e) && TimingOk(s'.events[e], s'.now))
    {
      BudgetStays(s, a, e);
      if s'.events[e].resets == 0 {
        HeldOnceStays(s, a, e);
        TimingStays(s, a, e);
      }
    }
  }

  lemma {:induction false} HistoryIsOk(t: seq<State>, n: nat)
    requires IsHistory(t) && n < |t|
    ensures AllOk(t[n])
  {
    if n > 0 {
      HistoryIsOk(t, n - 1);
      assert StepAt(t, n - 1);
      var a :| Follows(t[n - 1], t[n], a);
      StepKeepsAll(t[n - 1], a);
    }
  }

  /** The delivery budget: however many workers, whatever they overwrite and
      whenever they die, an event is tried at most 8 times for its first posting
      and 8 times for each redelivery. */
  lemma DeliveryBudget(t: seq<State>, n: nat, e: Uuid)
    requires IsHistory(t) && n < |t| && e in t[n].events
    ensures t[n].events[e].tries <= 8 * (1 + t[n].events[e].resets)
  {
    HistoryIsOk(t, n);
  }

  /** A row that waits or is being delivered has failed at most 7 times, a dead one exactly 8. */
  lemma CountsFitStatus(t: seq<State>, n: nat, e: Uuid)
    requires IsHistory(t) && n < |t| && e in t[n].events
    ensures t[n].events[e].row.status in {Waiting, Delivering} ==> 0 <= t[n].events[e].row.count <= 7
    ensures t[n].events[e].row.status.Dead? ==> t[n].events[e].row.count == 8
  {
    HistoryIsOk(t, n);
  }

  /** Without redelivery no two workers ever hold an event, it is claimed at most
      8 times, the k-th time no earlier than the first plus the first k - 1 waits,
      and it is dead only 8h 42m 30s or more after it was first claimed. */
  lemma BackoffIsKept(t: seq<State>, n: nat, e: Uuid)
    requires IsHistory(t) && n < |t| && e in t[n].events && t[n].events[e].resets == 0
    ensures forall c, d :: Holds(t[n], c, e) && Holds(t[n], d, e) ==> c == d
    ensures OnSchedule(t[n].events[e].times)
    ensures t[n].events[e].row.status.Dead? ==>
              |t[n].events[e].times| == 8 && t[n].now - t[n].events[e].times[0] >= 31350
  {
    HistoryIsOk(t, n);
    ScheduleIsExact(0, 0);
  }

  // ---------------------------------------------------------------- what can still become of an event

  /** A step that is not a redelivery of e. */
  ghost predicate QuietStep(s: State, s': State, e: Uuid) {
    exists a :: Follows(s, s', a) && !(a.Redeliver? && a.e == e)
  }

  ghost predicate QuietAt(us: seq<State>, e: Uuid, n: int)
    requires 0 <= n < |us| - 1
  {
    QuietStep(us[n], us[n + 1], e)
  }

  /** Any continuation of s in which nobody asks for e again. */
  ghost predicate Unasked(s: State, us: seq<State>, e: Uuid) {
    && |us| > 0
    && us[0] == s
    && forall n :: 0 <= n < |us| - 1 ==> QuietAt(us, e, n)
  }

  /** Nobody holds e, and no dispatcher will claim it. */
  ghost predicate AtRest(s: State, e: Uuid, st: EventStatus) {
    && e in s.events && s.events[e].row.status == st && !st.Waiting?
    && forall c :: !Holds(s, c, e)
  }

  lemma RestStays(s: State, s': State, e: Uuid, st: EventStatus)
    requires AtRest(s, e, st) && QuietStep(s, s', e)
    ensures AtRest(s', e, st)
  {
    var a :| Follows(s, s', a) && !(a.Redeliver? && a.e == e);
    forall c
      ensures !Holds(s', c, e)
    {
      assert !Holds(s, c, e);
    }
    assert (a.RecordOk? || a.RecordBad?) ==> !Holds(s, a.c, e);
  }

  lemma {:induction false} RestsForEver(s: State, us: seq<State>, e: Uuid, st: EventStatus, n: nat)
    requires AtRest(s, e, st) && Unasked(s, us, e) && n < |us|
    ensures AtRest(us[n], e, st)
  {
    if n > 0 {
      RestsForEver(s, us, e, st, n - 1);
      assert QuietAt(us, e, n - 1);
      RestStays(us[n - 1], us[n], e, st);
    }
  }

  /** The worker that holds claim c tries, if it has not yet, and records what `good` says. */
  lemma HolderMoves(s: State, c: Uuid, e: Uuid, good: bool) returns (us: seq<State>)
    requires CountsOk(s) && Holds(s, c, e)
    ensures Unasked(s, us, e) && e in us[|us| - 1].events
    ensures us[|us| - 1].events[e].row.status.Delivered? <==> good
  {
    var tried := if s.claims[c].tried then [s] else [s, Perform(s, Try(c))];
    assert !s.claims[c].tried ==> Follows(s, tried[1], Try(c));
    var last := tried[|tried| - 1];
    var a := if good then RecordOk(c) else RecordBad(c);
    assert Follows(last, Perform(last, a), a);
    us := tried + [Perform(last, a)];
    forall n | 0 <= n < |us| - 1
      ensures QuietAt(us, e, n)
    {
      assert n == |tried| - 1 ==> us[n] == last && us[n + 1] == Perform(last, a);
    }
  }

  /** DELIVERING, DELIVERED and FAILED are not always left, and not always for
      good: the status can still change, without anybody asking for the event
      again, if and only if some worker holds a claim on it. */
  lemma StatusMovesIff(t: seq<State>, n: nat, e: Uuid)
    requires IsHistory(t) && n < |t| && e in t[n].events && !t[n].events[e].row.status.Waiting?
    ensures (exists us :: Unasked(t[n], us, e) && Moved(us, e, t[n].events[e].row.status)) <==>
              exists c :: Holds(t[n], c, e)
  {
    HistoryIsOk(t, n);
    if c :| Holds(t[n], c, e) {
      HeldCanMove(t[n], c, e);
    } else {
      UnheldRests(t[n], e);
    }
  }

  lemma HeldCanMove(s: State, c: Uuid, e: Uuid)
    requires CountsOk(s) && Holds(s, c, e) && e in s.events
    ensures exists us :: Unasked(s, us, e) && Moved(us, e, s.events[e].row.status)
  {
    var us := HolderMoves(s, c, e, !s.events[e].row.status.Delivered?);
    assert Moved(us, e, s.events[e].row.status);
  }

  lemma UnheldRests(s: State, e: Uuid)
    requires e in s.events && !s.events[e].row.status.Waiting? && forall c :: !Holds(s, c, e)
    ensures forall us :: Unasked(s, us, e) ==> !Moved(us, e, s.events[e].row.status)
  {
    forall us | Unasked(s, us, e)
      ensures !Moved(us, e, s.events[e].row.status)
    {
      RestsForEver(s, us, e, s.events[e].row.status, |us| - 1);
    }
  }

  predicate Moved(us: seq<State>, e: Uuid, st: EventStatus) {
    |us| > 0 && e in us[|us| - 1].events && us[|us| - 1].events[e].row.status != st
  }

  // ---------------------------------------------------------------- the budget is reached

  ghost predicate Unheld(s: State, e: Uuid) {
    forall c :: !Holds(s, c, e)
  }

  lemma UnheldPotential(s: State, e: Uuid)
    requires CountsOk(s) && e in s.events && Unheld(s, e)
    ensures Potential(s, e) == if s.events[e].row.status.Waiting? then MAX_ATTEMPTS - s.events[e].row.count else 0
  {
    forall c | c in ClaimsLeft(s, e)
      ensures ClaimsLeft(s, e)[c] == 0
    {
      assert !Holds(s, c, e);
    }
    AllZero(ClaimsLeft(s, e));
  }

  lemma {:induction false} NeverTriedMore(s: State, us: seq<State>, e: Uuid, n: nat)
    requires CountsOk(s) && e in s.events && Unasked(s, us, e) && n < |us|
    ensures CountsOk(us[n]) && e in us[n].events
    ensures us[n].events[e].tries + Potential(us[n], e) <= s.events[e].tries + Potential(s, e)
  {
    if n > 0 {
      NeverTriedMore(s, us, e, n - 1);
      assert QuietAt(us, e, n - 1);
      var a :| Follows(us[n - 1], us[n], a) && !(a.Redeliver? && a.e == e);
      CountsStay(us[n - 1], a);
      PotentialFalls(us[n - 1], a, e);
    }
  }

  lemma Before(s: State, a: Action, us: seq<State>, e: Uuid) returns (vs: seq<State>)
    requires Can(s, a) && !(a.Redeliver? && a.e == e) && Unasked(Perform(s, a), us, e)
    ensures Unasked(s, vs, e) && vs[|vs| - 1] == us[|us| - 1]
  {
    vs := [s] + us;
    assert Follows(s, us[0], a);
    forall n | 0 <= n < |vs| - 1
      ensures QuietAt(vs, e, n)
    {
      assert n > 0 ==> QuietAt(us, e, n - 1);
    }
  }

  function AtLeast(a: int, b: int): int {
    if a < b then b else a
  }

  /** The state after one more try of event e, when it is due, that fails. */
  function AfterRound(s: State, e: Uuid, c: Uuid): State
    requires e in s.events && s.events[e].row.status.Waiting? && c !in s.claims
  {
    var ev, now := s.events[e], AtLeast(s.now, s.events[e].row.nextAt);
    var row := RecordFailure(Claimed(ev.row), ev.row.count, now);
    State(s.events[e := Event(row, ev.tries + 1, ev.resets, ev.times + [now])], s.claims, now)
  }

  lemma OneRound(s: State, e: Uuid, c: Uuid, us: seq<State>) returns (vs: seq<State>)
    requires e in s.events && s.events[e].row.status.Waiting? && c !in s.claims
    requires Unasked(AfterRound(s, e, c), us, e)
    ensures Unasked(s, vs, e) && vs[|vs| - 1] == us[|us| - 1]
  {
    var s1 := Perform(s, Tick(AtLeast(s.now, s.events[e].row.nextAt)));
    var s2 := Perform(s1, ClaimOne(e, c));
    var s3 := Perform(s2, Try(c));
    assert Perform(s3, RecordBad(c)).claims == s.claims;
    assert Perform(s3, RecordBad(c)) == AfterRound(s, e, c);
    vs := Before(s3, RecordBad(c), us, e);
    vs := Before(s2, Try(c), vs, e);
    vs := Before(s1, ClaimOne(e, c), vs, e);
    vs := Before(s, Tick(s1.now), vs, e);
  }

  /** A waiting event that fails each time is tried until its budget is used up. */
  lemma {:induction false} TriedToTheEnd(s: State, e: Uuid, c: Uuid) returns (us: seq<State>)
    requires e in s.events && s.events[e].row.status.Waiting? && 0 <= s.events[e].row.count < MAX_ATTEMPTS
    requires c !in s.claims
    ensures Unasked(s, us, e) && e in us[|us| - 1].events
    ensures us[|us| - 1].events[e].tries == s.events[e].tries + MAX_ATTEMPTS - s.events[e].row.count
    ensures us[|us| - 1].events[e].row.status.Dead?
    decreases MAX_ATTEMPTS - s.events[e].row.count
  {
    var s' := AfterRound(s, e, c);
    ScheduleIsExact(s.events[e].row.count + 1, s'.now);
    us := [s'];
    if s'.events[e].row.status.Waiting? {
      us := TriedToTheEnd(s', e, c);
    }
    us := OneRound(s, e, c, us);
  }

  lemma {:induction false} SomeIdIsFree(used: set<Uuid>) returns (c: Uuid)
    ensures c !in used && forall d :: d in used ==> d < c
    decreases |used|
  {
    c := 0;
    if d :| d in used {
      assert forall x :: x in used ==> x == d || x in used - {d};
      c := SomeIdIsFree(used - {d});
      c := AtLeast(c, d + 1);
    }
  }

  /** How often an event that nobody holds can still be tried, if nobody asks for
      it again: a waiting one exactly 8 times less those that have failed, any
      other never. */
  lemma TriesToCome(t: seq<State>, n: nat, e: Uuid)
    requires IsHistory(t) && n < |t| && e in t[n].events && Unheld(t[n], e)
    ensures var more := if t[n].events[e].row.status == Waiting then 8 - t[n].events[e].row.count else 0;
            MostTries(t[n], e, t[n].events[e].tries + more)
  {
    HistoryIsOk(t, n);
    TriesFrom(t[n], e);
  }

  /** In continuations of s that do not redeliver it, event e gets to be tried `most` times and no more. */
  ghost predicate MostTries(s: State, e: Uuid, most: int) {
    && (forall us: seq<State>, k :: Unasked(s, us, e) && 0 <= k < |us| && e in us[k].events ==>
          us[k].events[e].tries <= most)
    && (exists us :: Unasked(s, us, e) && EndsTried(us, e, most))
  }

  predicate EndsTried(us: seq<State>, e: Uuid, tries: int) {
    |us| > 0 && e in us[|us| - 1].events && us[|us| - 1].events[e].tries == tries
  }

  lemma TriesFrom(s: State, e: Uuid)
    requires CountsOk(s) && e in s.events && Unheld(s, e)
    ensures MostTries(s, e, s.events[e].tries
                            + if s.events[e].row.status.Waiting? then MAX_ATTEMPTS - s.events[e].row.count else 0)
  {
    UnheldPotential(s, e);
    var most := s.events[e].tries + Potential(s, e);
    forall us: seq<State>, k | Unasked(s, us, e) && 0 <= k < |us| && e in us[k].events
      ensures us[k].events[e].tries <= most
    {
      NeverTriedMore(s, us, e, k);
    }
    var us := [s];
    if s.events[e].row.status.Waiting? {
      var c := SomeIdIsFree(s.claims.Keys);
      us := TriedToTheEnd(s, e, c);
    }
    assert Unasked(s, us, e) && EndsTried(us, e, most);
  }

  /** A new event is due at once and can be tried exactly 8 times. */
  lemma PostingStarts(t: seq<State>, n: nat, e: Uuid, business: Uuid)
    requires IsHistory(t) && n < |t| && e !in t[n].events
    ensures var s := Perform(t[n], Post(e, business));
            && s.events[e].row == EventRow(business, Waiting, 0, t[n].now)
            && Due(s.events[e].row, s.now)
            && MostTries(s, e, 8)
  {
    HistoryIsOk(t, n);
    CountsStay(t[n], Post(e, business));
    var s := Perform(t[n], Post(e, business));
    forall c
      ensures !Holds(s, c, e)
    {
      assert c in t[n].claims ==> t[n].claims[c].event in t[n].events;
    }
    TriesFrom(s, e);
  }

  /** Asking for an event again that nobody holds makes it due at once and starts
      its budget over: it can be tried exactly 8 times more. */
  lemma RedeliveryRestarts(t: seq<State>, n: nat, e: Uuid)
    requires IsHistory(t) && n < |t| && e in t[n].events && Unheld(t[n], e)
    ensures var s := Perform(t[n], Redeliver(e));
            && s.events[e].row == EventRow(t[n].events[e].row.business, Waiting, 0, t[n].now)
            && Due(s.events[e].row, s.now)
            && MostTries(s, e, t[n].events[e].tries + 8)
  {
    HistoryIsOk(t, n);
    var s := Perform(t[n], Redeliver(e));
    CountsStay(t[n], Redeliver(e));
    forall c
      ensures !Holds(s, c, e)
    {
      assert !Holds(t[n], c, e);
    }
    TriesFrom(s, e);
  }

  // ---------------------------------------------------------------- histories that show both

  lemma Extend(t: seq<State>, a: Action) returns (t': seq<State>)
    requires IsHistory(t) && Can(t[|t| - 1], a)
    ensures IsHistory(t') && |t'| == |t| + 1 && t'[|t|] == Perform(t[|t| - 1], a)
  {
    t' := t + [Perform(t[|t| - 1], a)];
    assert Follows(t[|t| - 1], Perform(t[|t| - 1], a), a);
    forall n | 0 <= n < |t'| - 1
      ensures StepAt(t', n)
    {
      assert n < |t| - 1 ==> StepAt(t, n);
    }
  }

  /** Claim c is the only one on event e, which is being delivered. */
  ghost predicate FirstHeld(s: State, e: Uuid, c: Uuid) {
    && e in s.events && s.events[e].row.status.Delivering? && s.events[e].row.count == 0
    && forall d :: Holds(s, d, e) <==> d == c
  }

  /** Any history can go on with a new event that is claimed at once. */
  lemma PostAndClaim(t: seq<State>, e: Uuid, business: Uuid, c: Uuid) returns (t': seq<State>)
    requires IsHistory(t) && e !in t[|t| - 1].events && c !in t[|t| - 1].claims
    ensures IsHistory(t') && FirstHeld(t'[|t'| - 1], e, c) && t'[|t'| - 1].claims.Keys == t[|t| - 1].claims.Keys + {c}
  {
    HistoryIsOk(t, |t| - 1);
    t' := Extend(t, Post(e, business));
    t' := Extend(t', ClaimOne(e, c));
    ClaimIsOnly(t[|t| - 1], t'[|t'| - 1], e, c);
  }

  lemma ClaimIsOnly(s: State, s': State, e: Uuid, c: Uuid)
    requires CountsOk(s) && e !in s.events && s'.claims == s.claims[c := Claim(e, 0, false)]
    ensures forall d :: Holds(s', d, e) <==> d == c
  {
  }

  /** Then the dispatcher dies, and the row stays DELIVERING in every continuation
      in which nobody asks for it again. */
  lemma DeathStrandsRow(t: seq<State>, e: Uuid, business: Uuid, c: Uuid) returns (t': seq<State>)
    requires IsHistory(t) && e !in t[|t| - 1].events && c !in t[|t| - 1].claims
    ensures IsHistory(t') && e in t'[|t'| - 1].events && t'[|t'| - 1].events[e].row.status.Delivering?
    ensures forall us :: Unasked(t'[|t'| - 1], us, e) ==> !Moved(us, e, Delivering)
  {
    t' := PostAndClaim(t, e, business, c);
    var s := t'[|t'| - 1];
    assert Holds(s, c, e);
    t' := Extend(t', Forget(c));
    var s' := t'[|t'| - 1];
    forall d
      ensures !Holds(s', d, e)
    {
      assert Holds(s', d, e) ==> Holds(s, d, e);
    }
    UnheldRests(s', e);
  }

  /** Or the merchant asks for the event again, a second worker delivers it, and
      the first one, who still holds it, can overwrite DELIVERED. */
  lemma StaleWorkerOverwrites(t: seq<State>, e: Uuid, business: Uuid, c: Uuid, d: Uuid) returns (t': seq<State>)
    requires IsHistory(t) && e !in t[|t| - 1].events && c != d && c !in t[|t| - 1].claims && d !in t[|t| - 1].claims
    ensures IsHistory(t') && e in t'[|t'| - 1].events && t'[|t'| - 1].events[e].row.status.Delivered?
    ensures exists us :: Unasked(t'[|t'| - 1], us, e) && Moved(us, e, Delivered)
  {
    t' := PostAndClaim(t, e, business, c);
    assert Holds(t'[|t'| - 1], c, e);
    t' := Extend(t', Redeliver(e));
    t' := Extend(t', ClaimOne(e, d));
    t' := Extend(t', Try(d));
    t' := Extend(t', RecordOk(d));
    assert Holds(t'[|t'| - 1], c, e);
    HistoryIsOk(t', |t'| - 1);
    HeldCanMove(t'[|t'| - 1], c, e);
  }
}
