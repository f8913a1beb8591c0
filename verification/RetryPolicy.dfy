/** What to do with a transient failure: the next attempt on its own tier, or the dead-letter queue. */
module RetryPolicy {

  const RETRY_DELAYS_SECONDS: seq<nat> := [5, 30, 120, 600, 1800]
  const MAX_ATTEMPTS: nat := 5

  datatype FailureDecision =
    | Retry(attempt: nat, tier: nat, delaySeconds: nat)
    | DeadLetter

  function DecideFailureAction(attempt: nat): FailureDecision {
    var nextAttempt := attempt + 1;
    if nextAttempt > MAX_ATTEMPTS then
      DeadLetter
    else
      Retry(nextAttempt, nextAttempt, RETRY_DELAYS_SECONDS[nextAttempt - 1])
  }
}
