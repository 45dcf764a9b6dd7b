/** The retry schedule of outgoing webhooks.  Times are seconds. */
module Retry {
  import opened Model

  const MAX_ATTEMPTS := 8

  /** The wait after failed attempt n, before attempt n + 1. */
  const BACKOFF_AFTER_FAILURE: seq<int> := [5, 25, 120, 600, 1800, 7200, 21600]

  function NextRetryAt(failedAttempts: int, now: int): Option<int> {
    if failedAttempts >= MAX_ATTEMPTS then None
    else if failedAttempts <= 0 then Some(now)
    else if failedAttempts > |BACKOFF_AFTER_FAILURE| then None
    else Some(now + BACKOFF_AFTER_FAILURE[failedAttempts - 1])
  }

  /** The first k waits together. */
  function Waits(k: nat): (sum: int)
    requires k < MAX_ATTEMPTS
    ensures 0 <= sum
  {
    if k == 0 then 0 else Waits(k - 1) + BACKOFF_AFTER_FAILURE[k - 1]
  }

  /** The table covers exactly the attempts that are retried; each wait is longer
      than all the waits before it together; all of them take 8h 42m 30s. */
  lemma ScheduleIsExact(failed: nat, now: int)
    ensures NextRetryAt(failed, now).None? <==> failed >= MAX_ATTEMPTS
    ensures failed == 0 ==> NextRetryAt(failed, now) == Some(now)
    ensures 0 < failed < MAX_ATTEMPTS ==> NextRetryAt(failed, now) == Some(now + Waits(failed) - Waits(failed - 1))
    ensures 0 < failed < MAX_ATTEMPTS ==> NextRetryAt(failed, now).value - now > Waits(failed - 1)
    ensures Waits(MAX_ATTEMPTS - 1) == 8 * 3600 + 42 * 60 + 30
  {
    assert Waits(0) == 0 && Waits(1) == 5 && Waits(2) == 30 && Waits(3) == 150;
    assert Waits(4) == 750 && Waits(5) == 2550 && Waits(6) == 9750;
  }
}
