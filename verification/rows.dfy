/** One ledger row, and what each kind of commit does to it (sqlalchemy/models.py and the
    row updates of executor.py, dispatch.py, sweep.py and queries.py). */
module Rows {
  import opened Common
  import opened States
  import opened Policy
  import opened Execution
  import opened Json

  /** What the producer asked for, after defaults and encoding. Never updated. */
  datatype Creation = Creation(
    taskType: string, args: seq<Json>, kwargs: seq<(string, Json)>, queue: string, priority: int,
    maxAttempts: int, scheduledFor: Option<Time>, expiresAt: Option<Time>, key: Option<string>)

  datatype Row = Row(
    made: Creation, createdAt: Time, status: TaskStatus, attempts: int, error: string,
    scheduledFor: Option<Time>, dispatchingAt: Option<Time>, startedAt: Option<Time>,
    completedAt: Option<Time>, expiredAt: Option<Time>)

  datatype HandlerResult =
    | Returned
    | Raised(exc: Exc, policy: TaskPolicy, delay: Time, message: string)

  /** The recovery passes that return rows to PENDING, or to DEAD when the budget is spent. */
  datatype Pass = FailedPass | DispatchingPass | StuckPass

  function NewRow(made: Creation, now: Time): Row {
    Row(made, now, Pending, 0, "", made.scheduledFor, None, None, None, None)
  }

  // --- what the queries test ---

  /** The deadline has been reached: now == expires_at is already late. */
  predicate PastDeadline(r: Row, at: Time) {
    r.made.expiresAt.Some? && r.made.expiresAt.value <= at
  }

  /** scheduled_for <= at, which a NULL schedule never satisfies. */
  predicate ScheduleReached(r: Row, at: Time) {
    r.scheduledFor.Some? && r.scheduledFor.value <= at
  }

  predicate BudgetLeft(r: Row) {
    r.attempts < r.made.maxAttempts
  }

  predicate Waiting(r: Row) {
    r.status == Pending || r.status == TaskStatus.Failed
  }

  /** The claim query's row test. */
  predicate Claimable(r: Row, at: Time) {
    (|| (r.status == Pending && (r.scheduledFor.None? || r.scheduledFor.value <= at))
     || (r.status == TaskStatus.Failed && ScheduleReached(r, at) && BudgetLeft(r)))
    && !PastDeadline(r, at)
  }

  predicate SweepsAsExpired(r: Row) {
    Waiting(r) || r.status == Dispatching
  }

  function Source(p: Pass): TaskStatus {
    match p
    case FailedPass => TaskStatus.Failed
    case DispatchingPass => Dispatching
    case StuckPass => Processing
  }

  /** The timestamp a pass tests. */
  function PassStamp(p: Pass, r: Row): Option<Time> {
    match p
    case FailedPass => r.scheduledFor
    case DispatchingPass => r.dispatchingAt
    case StuckPass => r.startedAt
  }

  /** Each pass's row test; age is the dispatch timeout or the stuck threshold. */
  predicate PassSelects(p: Pass, r: Row, at: Time, age: Time) {
    r.status == Source(p) && PassStamp(p, r).Some?
    && if p == FailedPass then PassStamp(p, r).value <= at else PassStamp(p, r).value < at - age
  }

  // --- what the commits write ---

  function ExpireRow(r: Row, at: Time): Row {
    r.(status := Expired, expiredAt := Some(at), dispatchingAt := None)
  }

  function DispatchRow(r: Row, at: Time): Row {
    r.(status := Dispatching, dispatchingAt := Some(at))
  }

  function ReleaseRow(r: Row): Row {
    if r.status == Dispatching then r.(status := Pending, dispatchingAt := None) else r
  }

  /** Phase 1 starts the handler. */
  predicate Starts(r: Row, now: Time) {
    && (r.status == Pending || r.status == Dispatching)
    && !PastDeadline(r, now)
    && (r.scheduledFor.None? || r.scheduledFor.value <= now)
  }

  /** Phase 1 of process_task, all branches. */
  function BeginRow(r: Row, now: Time): Row {
    if r.status != Pending && r.status != Dispatching then r
    else if PastDeadline(r, now) then ExpireRow(r, now)
    else if r.scheduledFor.Some? && r.scheduledFor.value > now then r
    else r.(status := Processing, startedAt := Some(now), dispatchingAt := None, attempts := r.attempts + 1)
  }

  /** Phase 3 of process_task: attempts and maxAttempts are the values cached in phase 1. */
  function FinishRow(r: Row, attempts: int, maxAttempts: int, result: HandlerResult, now: Time): Row {
    if r.status != Processing then r
    else match result
      case Returned => r.(status := Completed, completedAt := Some(now), error := "")
      case Raised(exc, policy, delay, message) =>
        var outcome := ClassifyFailure(exc, policy, attempts, maxAttempts, now, delay);
        if outcome.IsDead() then r.(status := Dead, error := message)
        else r.(status := outcome.status, error := message, scheduledFor := outcome.retryAt)
  }

  /** The first guarded update of a pass. */
  function RecoverRow(p: Pass, r: Row): Row {
    if r.status == Source(p) && BudgetLeft(r) then
      (if p == DispatchingPass then r.(status := Pending, dispatchingAt := None) else r.(status := Pending))
    else r
  }

  /** The second guarded update of a pass. */
  function BuryRow(p: Pass, r: Row): Row {
    if r.status == Source(p) && !BudgetLeft(r) then
      (if p == DispatchingPass then r.(status := Dead, dispatchingAt := None) else r.(status := Dead))
    else r
  }

  function SweepRow(p: Pass, r: Row): Row {
    BuryRow(p, RecoverRow(p, r))
  }

  function ResetRow(r: Row): Row {
    r.(status := Pending, scheduledFor := None, error := "", attempts := 0)
  }

  function RetryRow(r: Row): Row {
    if r.status != Expired && r.status.CanTransitionTo(Pending) then ResetRow(r) else r
  }

  /** A filter by task type is off when it is absent or empty. */
  predicate TypeMatches(filter: Option<string>, r: Row) {
    filter.None? || filter.value == "" || filter.value == r.made.taskType
  }

  function BulkRetryRow(status: TaskStatus, filter: Option<string>, r: Row): Row {
    if r.status == status && TypeMatches(filter, r) then ResetRow(r) else r
  }

  function KillRow(r: Row): Row {
    if r.status.CanTransitionTo(Dead) then r.(status := Dead) else r
  }

  predicate Purges(r: Row, threshold: Time, filter: Option<string>) {
    r.status == Completed && r.completedAt.Some? && r.completedAt.value < threshold && TypeMatches(filter, r)
  }
}
