/** What a handler's failure means for its row (core/execution.py). */
module Execution {
  import opened Common
  import opened States
  import opened Policy

  datatype FailureOutcome = FailureOutcome(status: TaskStatus, retryAt: Option<Time>, reason: string) {
    predicate IsDead() { status == Dead }
  }

  /** delay is what the policy, or a caller's override, answered for this attempt count. */
  function ClassifyFailure(exc: Exc, policy: TaskPolicy, attempts: int, maxAttempts: int,
                           now: Time, delay: Time): (r: FailureOutcome)
    ensures r.status == Dead || r.status == TaskStatus.Failed
    ensures r.status == TaskStatus.Failed <==>
      && attempts < maxAttempts
      && (exc.retryAfter.Some?
          || ((forall c :: c in exc.classes ==> c !in policy.failFastOn)
              && (policy.retryOn == {} || exists c :: c in exc.classes && c in policy.retryOn)))
    ensures r.retryAt.Some? <==> r.status == TaskStatus.Failed
  {
    if exc.retryAfter.None? && !IsRetryable(policy, exc) then FailureOutcome(Dead, None, "non-retryable")
    else if ShouldDie(attempts, maxAttempts) then FailureOutcome(Dead, None, "attempts exhausted")
    else
      var wait := if exc.retryAfter.Some? && exc.retryAfter.value > delay then exc.retryAfter.value else delay;
      FailureOutcome(TaskStatus.Failed, Some(now + wait), "retry")
  }

  /** The retry floor of one failure: the later of the policy's wait and the one asked for. */
  function RetryFloor(exc: Exc, now: Time, delay: Time): Time {
    if exc.retryAfter.Some? then MaxOf(now + delay, now + exc.retryAfter.value) else now + delay
  }

  /** A handler can ask for later than the policy, never for earlier, and nothing else moves the retry. */
  lemma RetryAtIsTheFloor(exc: Exc, policy: TaskPolicy, attempts: int, maxAttempts: int, now: Time, delay: Time)
    ensures var r := ClassifyFailure(exc, policy, attempts, maxAttempts, now, delay);
      r.status == TaskStatus.Failed ==> r.retryAt == Some(RetryFloor(exc, now, delay))
  {
  }
}
