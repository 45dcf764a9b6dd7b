/** The mock PSP: a cache of in-flight and finished charges, one entry per
    idempotency key, shared by any number of concurrent requests.  Every
    critical section and every channel operation is one step. */
module SingleFlight {
  import opened Model

  datatype RespStatus = NoStatus | RespSucceeded | RespFailed
  datatype Response = Response(status: RespStatus, ref: Option<Uuid>, code: Option<FailureCode>)
  const NO_RESPONSE := Response(NoStatus, None, None)

  datatype ChargeReq = ChargeReq(key: Option<Uuid>, token: Token, amount: int, currency: string)

  /** A cacheEntry.  `token` is the token of the request that made it, `closes`
      counts how often its `ready` channel has been closed. */
  datatype Entry = Entry(key: Uuid, token: Token, httpCode: int, resp: Response, closes: nat)

  /** Where a request is.  Replied carries the HTTP answer and the token that decided it. */
  datatype Stage =
    | Arriving
    | Owner(e: Uuid)          // created the entry, about to decide
    | Finishing(e: Uuid)      // finish: httpCode and resp written, channel not closed yet
    | FailWrote(e: Uuid)      // failUncached: httpCode written
    | FailDeleted(e: Uuid)    // failUncached: entry deleted, channel not closed yet
    | Waiting(e: Uuid)
    | Replied(httpCode: int, resp: Response, decider: Token)

  datatype Proc = Proc(req: ChargeReq, stage: Stage)

  /** Money taken from a card. */
  datatype Capture = Capture(key: Option<Uuid>, ref: Uuid, amount: int, currency: string)

  /** A webhook message.  `succeeded` and `failed` say whether the event type or the status says so. */
  datatype Msg = Msg(
    event: Uuid,
    succeeded: bool,
    failed: bool,
    key: Option<Uuid>,
    ref: Uuid,
    code: Option<FailureCode>)

  /** `mail` holds every webhook ever sent: it may be delivered never, once or often, in any order. */
  datatype Psp = Psp(
    cache: map<Uuid, Uuid>,
    entries: map<Uuid, Entry>,
    procs: map<Uuid, Proc>,
    ledger: seq<Capture>,
    mail: set<Msg>,
    next: Uuid)

  const EMPTY_PSP := Psp(map[], map[], map[], [], {}, 0)

  // ---------------------------------------------------------------- what a token decides

  predicate Declines(t: Token) {
    t.TokInsufficientFunds? || t.TokCardDeclined?
  }

  function HttpCode(t: Token): int {
    if Charges(t) || Declines(t) then 200
    else if t.TokNetworkError? then 500
    else 400
  }

  function Body(t: Token, ref: Uuid): Response {
    if Charges(t) then Response(RespSucceeded, Some(ref), None)
    else if t.TokInsufficientFunds? then Response(RespFailed, None, Some(InsufficientFunds))
    else if t.TokCardDeclined? then Response(RespFailed, None, Some(CardDeclined))
    else NO_RESPONSE
  }

  /** The money a request stands for, taken under reference ref. */
  function CaptureOf(q: ChargeReq, ref: Uuid): Capture {
    Capture(q.key, ref, q.amount, q.currency)
  }

  /** The webhook that tells of it. */
  function NoticeOf(q: ChargeReq, ref: Uuid, event: Uuid): Msg {
    Msg(event, true, false, q.key, ref, None)
  }

  // ---------------------------------------------------------------- steps

  function At(p: Psp, r: Uuid, s: Stage): Psp
    requires r in p.procs
  {
    p.(procs := p.procs[r := p.procs[r].(stage := s)])
  }

  /** A request reaches the PSP. */
  function Send(p: Psp, q: ChargeReq): Psp {
    p.(procs := p.procs[p.next := Proc(q, Arriving)], next := p.next + 1)
  }

  /** completeCharge without an idempotency key. */
  function Uncached(p: Psp, r: Uuid): Psp
    requires r in p.procs
  {
    var q := p.procs[r].req;
    var ref := p.next;
    var p1 := At(p, r, Replied(HttpCode(q.token), Body(q.token, ref), q.token)).(next := p.next + 2);
    if Charges(q.token)
    then p1.(ledger := p.ledger + [CaptureOf(q, ref)], mail := p.mail + {NoticeOf(q, ref, p.next + 1)})
    else p1
  }

  /** handleCharge without a card token: refused before the cache is looked at. */
  function Refuse(p: Psp, r: Uuid): Psp
    requires r in p.procs
  {
    At(p, r, Replied(400, NO_RESPONSE, p.procs[r].req.token))
  }

  /** getOrStart finds the key: the request will wait for the entry. */
  function Join(p: Psp, r: Uuid, k: Uuid): Psp
    requires r in p.procs && k in p.cache
  {
    At(p, r, Waiting(p.cache[k]))
  }

  /** getOrStart makes the entry: the request owns it. */
  function Create(p: Psp, r: Uuid, k: Uuid): Psp
    requires r in p.procs
  {
    var e := p.next;
    At(p, r, Owner(e)).(
      cache := p.cache[k := e],
      entries := p.entries[e := Entry(k, p.procs[r].req.token, 200, NO_RESPONSE, 0)],
      next := p.next + 1)
  }

  /** handleCharge up to and including getOrStart, which runs under the mutex. */
  function Arrive(p: Psp, r: Uuid): Psp
    requires r in p.procs
  {
    var q := p.procs[r].req;
    if q.token.TokEmpty? then Refuse(p, r)
    else if q.key.None? then Uncached(p, r)
    else if q.key.value in p.cache then Join(p, r, q.key.value)
    else Create(p, r, q.key.value)
  }

  /** The owner charges the card and writes the success into the entry. */
  function ChargeCard(p: Psp, r: Uuid): Psp
    requires r in p.procs && p.procs[r].stage.Owner? && p.procs[r].stage.e in p.entries
  {
    var q := p.procs[r].req;
    var e := p.procs[r].stage.e;
    At(p, r, Finishing(e)).(
      entries := p.entries[e := p.entries[e].(httpCode := 200, resp := Body(q.token, p.next))],
      ledger := p.ledger + [CaptureOf(q, p.next)],
      next := p.next + 1)
  }

  /** The owner writes a decline or an error code into the entry. */
  function TurnDown(p: Psp, r: Uuid): Psp
    requires r in p.procs && p.procs[r].stage.Owner? && p.procs[r].stage.e in p.entries
  {
    var t := p.procs[r].req.token;
    var e := p.procs[r].stage.e;
    At(p, r, if Declines(t) then Finishing(e) else FailWrote(e)).(
      entries := p.entries[e := p.entries[e].(httpCode := HttpCode(t), resp := Body(t, p.next))])
  }

  /** completeCharge up to the point where the entry's fields are written. */
  function Decide(p: Psp, r: Uuid): Psp
    requires r in p.procs && p.procs[r].stage.Owner? && p.procs[r].stage.e in p.entries
  {
    if Charges(p.procs[r].req.token) then ChargeCard(p, r) else TurnDown(p, r)
  }

  /** finish closes the channel, sends the webhook for a success and answers. */
  function Finish(p: Psp, r: Uuid): Psp
    requires r in p.procs && p.procs[r].stage.Finishing? && p.procs[r].stage.e in p.entries
  {
    var e := p.procs[r].stage.e;
    var entry := p.entries[e];
    var p1 := At(p, r, Replied(entry.httpCode, entry.resp, p.procs[r].req.token)).(
      entries := p.entries[e := entry.(closes := entry.closes + 1)]);
    if entry.resp.status.RespSucceeded? && entry.resp.ref.Some?
    then p1.(mail := p.mail + {NoticeOf(p.procs[r].req, entry.resp.ref.value, p.next)}, next := p.next + 1)
    else p1
  }

  /** failUncached deletes the key, under the mutex. */
  function Delete(p: Psp, r: Uuid): Psp
    requires r in p.procs && p.procs[r].stage.FailWrote? && p.procs[r].req.key.Some?
  {
    At(p, r, FailDeleted(p.procs[r].stage.e)).(cache := p.cache - {p.procs[r].req.key.value})
  }

  /** failUncached closes the channel; the owner answers with the error. */
  function CloseFailed(p: Psp, r: Uuid): Psp
    requires r in p.procs && p.procs[r].stage.FailDeleted? && p.procs[r].stage.e in p.entries
  {
    var e := p.procs[r].stage.e;
    var entry := p.entries[e];
    At(p, r, Replied(entry.httpCode, NO_RESPONSE, p.procs[r].req.token)).(
      entries := p.entries[e := entry.(closes := entry.closes + 1)])
  }

  /** A waiter wakes up and copies the entry into its answer. */
  function Wake(p: Psp, r: Uuid): Psp
    requires r in p.procs && p.procs[r].stage.Waiting? && p.procs[r].stage.e in p.entries
  {
    var entry := p.entries[p.procs[r].stage.e];
    At(p, r, Replied(entry.httpCode, if entry.httpCode >= 500 then NO_RESPONSE else entry.resp, entry.token))
  }

  /** The request can take its next step: it has not answered and does not wait for an open channel. */
  predicate Ready(p: Psp, r: Uuid) {
    r in p.procs &&
    match p.procs[r].stage
    case Arriving => true
    case Owner(e) => e in p.entries
    case Finishing(e) => e in p.entries
    case FailWrote(e) => p.procs[r].req.key.Some?
    case FailDeleted(e) => e in p.entries
    case Waiting(e) => e in p.entries && p.entries[e].closes > 0
    case Replied(_, _, _) => false
  }

  function Step(p: Psp, r: Uuid): Psp
    requires Ready(p, r)
  {
    match p.procs[r].stage
    case Arriving => Arrive(p, r)
    case Owner(e) => Decide(p, r)
    case Finishing(e) => Finish(p, r)
    case FailWrote(e) => Delete(p, r)
    case FailDeleted(e) => CloseFailed(p, r)
    case Waiting(e) => Wake(p, r)
    case Replied(_, _, _) => p
  }

  // ---------------------------------------------------------------- invariant

  ghost predicate HasCapture(p: Psp, k: Uuid, ref: Uuid) {
    exists i :: 0 <= i < |p.ledger| && p.ledger[i].key == Some(k) && p.ledger[i].ref == ref
  }

  /** Money was taken for request q under ref, and a webhook says so. */
  ghost predicate TakenAndTold(p: Psp, q: ChargeReq, ref: Uuid) {
    && Capture(q.key, ref, q.amount, q.currency) in p.ledger
    && exists m :: m in p.mail && m.succeeded && m.key == q.key && m.ref == ref
  }

  predicate Owns(s: Stage) {
    s.Owner? || s.Finishing? || s.FailWrote? || s.FailDeleted?
  }

  /** The answer (code, resp) is the one token t decides. */
  predicate DecidedBy(t: Token, code: int, resp: Response) {
    code == HttpCode(t) &&
    if Charges(t) then resp.ref.Some? && resp == Body(t, resp.ref.value) else resp == Body(t, 0)
  }

  /** Every identifier in use was handed out before. */
  ghost predicate IdsUsed(p: Psp) {
    && (forall e :: e in p.entries ==> e < p.next)
    && (forall r :: r in p.procs ==> r < p.next)
    && (forall m :: m in p.mail ==> m.event < p.next)
  }

  ghost predicate CacheOk(p: Psp) {
    && (forall k :: k in p.cache ==> p.cache[k] in p.entries && p.entries[p.cache[k]].key == k)
    && (forall e :: e in p.entries ==> p.entries[e].closes <= 1)
  }

  /** A request that owns an entry: the channel is still open and, until it
      deletes the key itself, the cache maps the key to this very entry. */
  ghost predicate OwnerOk(p: Psp, r: Uuid)
    requires r in p.procs
  {
    var q, s := p.procs[r].req, p.procs[r].stage;
    && (Owns(s) ==>
          && q.key.Some?
          && s.e in p.entries
          && p.entries[s.e].closes == 0
          && p.entries[s.e].key == q.key.value
          && p.entries[s.e].token == q.token
          && (!s.FailDeleted? ==> q.key.value in p.cache && p.cache[q.key.value] == s.e)
          && (s.FailDeleted? ==> forall k :: k in p.cache ==> p.cache[k] != s.e))
    && (s.Waiting? ==> q.key.Some? && s.e in p.entries && p.entries[s.e].key == q.key.value)
  }

  ghost predicate HasOwner(p: Psp, e: Uuid) {
    exists r :: r in p.procs && Owns(p.procs[r].stage) && p.procs[r].stage.e == e
  }

  /** No entry has two owners, and an open entry has one. */
  ghost predicate OwnersOk(p: Psp) {
    && (forall r, s :: r in p.procs && s in p.procs && r != s && Owns(p.procs[r].stage) && Owns(p.procs[s].stage) ==>
          p.procs[r].stage.e != p.procs[s].stage.e)
    && (forall e :: e in p.entries && p.entries[e].closes == 0 ==> HasOwner(p, e))
  }

  /** Who owns which entry. */
  ghost predicate Structure(p: Psp) {
    && IdsUsed(p)
    && CacheOk(p)
    && (forall r :: r in p.procs ==> OwnerOk(p, r))
    && OwnersOk(p)
  }

  /** An entry: nothing decided yet, or exactly what its token decides.
      A closed entry in the cache was finished; failUncached leaves none there. */
  ghost predicate EntryOk(p: Psp, e: Uuid)
    requires e in p.entries
  {
    var entry := p.entries[e];
    && ((entry.closes == 0 && entry.resp == NO_RESPONSE) || DecidedBy(entry.token, entry.httpCode, entry.resp))
    && (entry.resp.status.RespSucceeded? ==> entry.resp.ref.Some? && HasCapture(p, entry.key, entry.resp.ref.value))
    && (entry.key in p.cache && p.cache[entry.key] == e && entry.closes == 1 ==> entry.httpCode == 200)
  }

  /** A request knows what its stage says about the entry, and an answer is
      what the deciding token says. */
  ghost predicate StageOk(p: Psp, r: Uuid)
    requires r in p.procs && OwnerOk(p, r)
  {
    var q := p.procs[r].req;
    match p.procs[r].stage
    case Arriving => true
    case Owner(e) => p.entries[e].resp == NO_RESPONSE
    case Finishing(e) =>
      && (Charges(q.token) || Declines(q.token))
      && DecidedBy(q.token, p.entries[e].httpCode, p.entries[e].resp)
    case FailWrote(e) =>
      && !Charges(q.token) && !Declines(q.token)
      && DecidedBy(q.token, p.entries[e].httpCode, p.entries[e].resp)
    case FailDeleted(e) =>
      && !Charges(q.token) && !Declines(q.token)
      && DecidedBy(q.token, p.entries[e].httpCode, p.entries[e].resp)
    case Waiting(e) => true
    case Replied(code, resp, decider) =>
      && DecidedBy(decider, code, resp)
      && (resp.status.RespSucceeded? && q.key.Some? ==> HasCapture(p, q.key.value, resp.ref.value))
      && (resp.status.RespSucceeded? && q.key.None? ==> TakenAndTold(p, q, resp.ref.value))
  }

  /** A keyed capture is remembered by the cache for ever, so there is one per key. */
  ghost predicate LedgerOk(p: Psp) {
    && (forall i :: 0 <= i < |p.ledger| && p.ledger[i].key.Some? ==>
          var k := p.ledger[i].key.value;
          k in p.cache && p.cache[k] in p.entries && p.entries[p.cache[k]].resp.status.RespSucceeded?)
    && (forall i, j :: 0 <= i < j < |p.ledger| && p.ledger[i].key.Some? ==> p.ledger[i].key != p.ledger[j].key)
  }

  ghost predicate MailOk(p: Psp) {
    && (forall m :: m in p.mail ==> m.succeeded && (m.key.Some? ==> HasCapture(p, m.key.value, m.ref)))
    && (forall m, n :: m in p.mail && n in p.mail && m.event == n.event ==> m == n)
  }

  /** What was decided, charged and announced. */
  ghost predicate Content(p: Psp)
    requires Structure(p)
  {
    && (forall e :: e in p.entries ==> EntryOk(p, e))
    && (forall r :: r in p.procs ==> StageOk(p, r))
    && LedgerOk(p)
    && MailOk(p)
  }

  ghost predicate PspInv(p: Psp) {
    Structure(p) && Content(p)
  }
}
