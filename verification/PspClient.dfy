/** The API server's side of a charge: what it makes of the PSP's answer. */
module PspClient {
  import opened Model
  import opened SingleFlight

  /** What the HTTP call yields: an answer, a timeout, a broken connection, or
      a body that does not decode. */
  datatype Transport =
    | Got(httpCode: int, resp: Response)
    | TimedOut
    | Dropped
    | Garbled(httpCode: int)

  datatype ChargeResult =
    | Answered(resp: Response)
    | ErrTimeout
    | ErrUnavailable
    | ErrRejected(httpCode: int)

  function Classify(t: Transport): ChargeResult {
    match t
    case TimedOut => ErrTimeout
    case Dropped => ErrUnavailable
    case Got(code, resp) =>
      if code >= 500 then ErrUnavailable
      else if code >= 400 then ErrRejected(code)
      else Answered(resp)
    case Garbled(code) =>
      if code >= 500 then ErrUnavailable
      else if code >= 400 then ErrRejected(code)
      else ErrUnavailable
  }

  predicate IsUnknownOutcome(r: ChargeResult) {
    r.ErrTimeout? || r.ErrUnavailable?
  }

  /** What chargeAndSettle does with a result. */
  datatype Verdict = LeavePending | RecordFailure(code: FailureCode) | RecordSuccess(ref: Uuid)

  function VerdictOf(r: ChargeResult): Verdict {
    if IsUnknownOutcome(r) then LeavePending
    else if r.ErrRejected? then RecordFailure(Rejected(r.httpCode))
    else if !r.resp.status.RespSucceeded? then
      RecordFailure(if r.resp.code.None? then CardDeclined else r.resp.code.value)
    else RecordSuccess(if r.resp.ref.Some? then r.resp.ref.value else 0)
  }

  /** What is made of any answer whatever: the outcome is unknown, and the attempt
      left PENDING, after a timeout, a broken connection, a 5xx answer and a body
      that does not decode; any other 4xx answer and any other body decides. */
  lemma VerdictTable(t: Transport)
    ensures var v := VerdictOf(Classify(t));
            && (v.LeavePending? <==>
                  t.TimedOut? || t.Dropped? || t.httpCode >= 500 || (t.Garbled? && t.httpCode < 400))
            && (v.RecordSuccess? <==> t.Got? && t.httpCode < 400 && t.resp.status.RespSucceeded?)
            && (v.RecordSuccess? && t.resp.ref.Some? ==> v.ref == t.resp.ref.value)
            && (v.RecordFailure? ==>
                  v.code == if t.httpCode >= 400 then Rejected(t.httpCode)
                            else if t.resp.code.Some? then t.resp.code.value else CardDeclined)
  {
  }

  /** Whatever happens to the PSP's answer on the wire, the verdict is what is
      promised of the token that decided it, under the reference the PSP chose, or
      none: and it is none exactly if the token leaves the outcome open or the
      answer did not come through. */
  lemma VerdictIsSafe(decider: Token, t: Transport, code: int, resp: Response)
    requires DecidedBy(decider, code, resp)
    requires t == Got(code, resp) || t == Garbled(code) || t.TimedOut? || t.Dropped?
    ensures var v := VerdictOf(Classify(t));
            && (v.RecordFailure? ==> FateOf(decider) == Declining(v.code))
            && (v.RecordSuccess? ==> FateOf(decider).Charging? && resp == Response(RespSucceeded, Some(v.ref), None))
            && (v.LeavePending? <==>
                  FateOf(decider).Uncertain? || t.TimedOut? || t.Dropped? || (t.Garbled? && code < 400))
  {
    VerdictTable(t);
  }
}
