/** Safety of outcomes over whole runs: the transition table, terminal rows, deadlines, retries. */
module Outcomes {
  import opened Common
  import opened States
  import opened Execution
  import opened Rows
  import opened Protocol
  import opened Invariants

  // --- single steps, seen from one row ---

  /** Every commit moves a row along the table or leaves its status alone. */
  lemma TouchFollowsTable(s: State, step: Step, id: Id, r: Row)
    requires PicksFit(s, step, id, r)
    ensures var t := Touch(s, step, id, r); t.status == r.status || r.status.CanTransitionTo(t.status)
  {
    match step
    case Finish(w, result) =>
    case SweepLocked(pass, _, _, _, _) =>
    case BulkRetry(status, filter) =>
    case _ =>
  }

  /** The unlocked sweeps hold no row between reading an id and updating it. However the row has
      changed meanwhile, the guarded updates follow the table, keep the row sound, and a FAILED
      row they return to PENDING keeps its schedule and attempts. */
  lemma UnlockedSweepIsSafe(s: State, step: Step, id: Id, r: Row)
    requires step.SweepRecover? || step.SweepBury?
    requires RowOk(r)
    ensures var t := Touch(s, step, id, r);
      && RowOk(t) && (t.status == r.status || r.status.CanTransitionTo(t.status))
      && t.attempts == r.attempts && t.scheduledFor == r.scheduledFor && t.startedAt == r.startedAt
      && (t != r ==> t.status == (if BudgetLeft(r) then Pending else Dead))
  {
    TouchKeepsRow(s, step, id, r);
    TouchFollowsTable(s, step, id, r);
  }

  /** COMPLETED and EXPIRED rows are never written again. */
  lemma TouchLeavesFinalRows(s: State, step: Step, id: Id, r: Row)
    requires r.status == Completed || r.status == Expired
    requires PicksFit(s, step, id, r)
    ensures Touch(s, step, id, r) == r
  {
    match step
    case SweepLocked(pass, _, _, _, _) =>
    case BulkRetry(status, filter) =>
    case _ =>
  }

  /** A worker that comes back late finds its row in another status and writes nothing. */
  lemma LateResultIsDropped(s: State, w: nat, result: HandlerResult, id: Id)
    requires id in s.rows && s.rows[id].status != Processing
    ensures Touch(s, Finish(w, result), id, s.rows[id]) == s.rows[id]
  {
  }

  /** Only phase 1 makes a row PROCESSING. */
  lemma OnlyBeginStarts(s: State, step: Step, id: Id)
    requires id in s.rows
    ensures StartsHandler(s, step, id) <==>
      s.rows[id].status != Processing && Touch(s, step, id, s.rows[id]).status == Processing
  {
  }

  /** The schedule is written by an operator retry, or by phase 3 on a PROCESSING row, only. */
  lemma ScheduleIsKept(s: State, step: Step, id: Id)
    requires id in s.rows && s.rows[id].status != Processing && !RetriesRow(s, step, id)
    ensures Touch(s, step, id, s.rows[id]).scheduledFor == s.rows[id].scheduledFor
  {
  }

  // --- the table over runs ---

  lemma EveryMoveIsInTheTable(r: Run, k: nat, id: Id)
    requires r.Valid() && 0 < k <= |r.steps| && id in r.states[k - 1].rows && id in r.states[k].rows
    ensures var before, after := r.states[k - 1].rows[id].status, r.states[k].rows[id].status;
      before == after || before.CanTransitionTo(after)
  {
    RunStep(r, k, id);
    TouchFollowsTable(r.states[k - 1], r.steps[k - 1], id, r.states[k - 1].rows[id]);
  }

  /** Ids are never used twice, so a row that has gone is gone. */
  lemma {:induction false} GoneForGood(r: Run, id: Id, i: nat, j: nat)
    requires r.Valid() && i <= j <= |r.steps| && id in r.states[i].used && id !in r.states[i].rows
    ensures id in r.states[j].used && id !in r.states[j].rows
  {
    if i == j {
    } else {
      GoneForGood(r, id, i, j - 1);
      RunUsed(r, j, id);
    }
  }

  lemma {:induction false} StillUsed(r: Run, id: Id, i: nat, j: nat)
    requires r.Valid() && i <= j <= |r.steps| && id in r.states[i].used
    ensures id in r.states[j].used
  {
    if i == j {
    } else {
      StillUsed(r, id, i, j - 1);
      RunUsed(r, j, id);
    }
  }

  predicate Final(row: Row) {
    row.status == Completed || row.status == Expired
  }

  lemma FinalRowStep(r: Run, id: Id, j: nat)
    requires r.Valid() && 0 < j <= |r.steps| && id in r.states[j - 1].rows && Final(r.states[j - 1].rows[id])
    ensures id in r.states[j].rows ==> r.states[j].rows[id] == r.states[j - 1].rows[id]
    ensures r.states[j - 1].rows[id].status == Expired ==> id in r.states[j].rows
  {
    var s, step := r.states[j - 1], r.steps[j - 1];
    RunLink(r, j);
    if !Deletes(step, s.rows[id]) {
      PicksDoFit(s, step, id);
      TouchLeavesFinalRows(s, step, id, s.rows[id]);
      RowIsTouched(s, step, id);
    }
  }

  /** A COMPLETED or EXPIRED row stays exactly as it is; only a COMPLETED one can be purged. */
  lemma {:induction false} FinalRowsStay(r: Run, id: Id, i: nat, j: nat)
    requires r.Valid() && i <= j <= |r.steps| && id in r.states[i].rows && Final(r.states[i].rows[id])
    ensures id in r.states[j].rows ==> r.states[j].rows[id] == r.states[i].rows[id]
    ensures r.states[i].rows[id].status == Expired ==> id in r.states[j].rows
  {
    if i == j {
    } else {
      FinalRowsStay(r, id, i, j - 1);
      if id in r.states[j - 1].rows {
        FinalRowStep(r, id, j);
      } else {
        UsedFromRow(r, id, i, j - 1);
        GoneForGood(r, id, j - 1, j);
      }
    }
  }

  lemma UsedFromRow(r: Run, id: Id, i: nat, j: nat)
    requires r.Valid() && i <= j <= |r.steps| && id in r.states[i].rows
    ensures id in r.states[j].used
  {
    RunKeepsInv(r, i);
    StillUsed(r, id, i, j);
  }

  /** process_task answers True for id. */
  predicate Succeeds(s: State, step: Step, id: Id) {
    && step.Finish? && step.result.Returned? && step.worker in s.jobs && s.jobs[step.worker].id == id
    && id in s.rows && s.rows[id].status == Processing
  }

  /** However many workers hold the id, at most one process_task call on it ever returns True. */
  lemma AtMostOneSuccess(r: Run, id: Id, i: nat, j: nat)
    requires r.Valid() && i < j < |r.steps|
    ensures !(Succeeds(r.states[i], r.steps[i], id) && Succeeds(r.states[j], r.steps[j], id))
  {
    if Succeeds(r.states[i], r.steps[i], id) && Succeeds(r.states[j], r.steps[j], id) {
      RunLink(r, i + 1);
      assert r.states[i + 1].rows[id].status == Completed;
      FinalRowsStay(r, id, i + 1, j);
    }
  }

  // --- kills over runs ---

  lemma DeadRowStep(r: Run, id: Id, j: nat)
    requires r.Valid() && 0 < j <= |r.steps| && id in r.states[j - 1].rows && r.states[j - 1].rows[id].status == Dead
    requires !RetriesRow(r.states[j - 1], r.steps[j - 1], id)
    ensures id in r.states[j].rows && r.states[j].rows[id] == r.states[j - 1].rows[id]
  {
    var s, step := r.states[j - 1], r.steps[j - 1];
    RunLink(r, j);
    PicksDoFit(s, step, id);
    TouchLeavesDeadRows(s, step, id);
    RowIsTouched(s, step, id);
  }

  lemma TouchLeavesDeadRows(s: State, step: Step, id: Id)
    requires id in s.rows && s.rows[id].status == Dead && !RetriesRow(s, step, id) && PicksFit(s, step, id, s.rows[id])
    ensures Touch(s, step, id, s.rows[id]) == s.rows[id]
  {
    match step
    case SweepLocked(pass, _, _, _, _) =>
    case BulkRetry(status, filter) =>
    case _ =>
  }

  /** A kill is honoured, even in mid-processing: whatever handlers are still running and however
      late they report, a DEAD row stays exactly as it is until an operator retries it. */
  lemma {:induction false} KillIsHonoured(r: Run, id: Id, i: nat, j: nat)
    requires r.Valid() && i <= j <= |r.steps| && id in r.states[i].rows && r.states[i].rows[id].status == Dead
    requires forall m :: i <= m < j ==> !RetriesRow(r.states[m], r.steps[m], id)
    ensures id in r.states[j].rows && r.states[j].rows[id] == r.states[i].rows[id]
  {
    if i == j {
    } else {
      KillIsHonoured(r, id, i, j - 1);
      assert !RetriesRow(r.states[j - 1], r.steps[j - 1], id);
      DeadRowStep(r, id, j);
    }
  }

  // --- deadlines over runs ---

  /** A handler never starts at or past its deadline or ahead of its schedule; a row never goes
      from PROCESSING to EXPIRED; expiry spends no attempt and is never recorded early. */
  lemma DeadlinesAreSafe(r: Run, k: nat, id: Id)
    requires r.Valid() && 0 < k <= |r.steps| && id in r.states[k - 1].rows && id in r.states[k].rows
    ensures var now, a, b := r.states[k - 1].now, r.states[k - 1].rows[id], r.states[k].rows[id];
      && (a.status != Processing && b.status == Processing ==>
            && (b.made.expiresAt.Some? ==> now < b.made.expiresAt.value)
            && (b.scheduledFor.Some? ==> b.scheduledFor.value <= now)
            && b.startedAt == Some(now) && b.attempts == a.attempts + 1)
      && (a.status != Expired && b.status == Expired ==>
            && a.status != Processing && b.attempts == a.attempts
            && b.made.expiresAt.Some? && b.expiredAt.Some?
            && b.made.expiresAt.value <= b.expiredAt.value <= now)
  {
    RunStep(r, k, id);
    var s, step := r.states[k - 1], r.steps[k - 1];
    OnlyBeginStarts(s, step, id);
    TouchFollowsTable(s, step, id, s.rows[id]);
    if s.rows[id].status != Expired {
      ExpiryIsPast(s, step, id);
    }
  }

  lemma ExpiryIsPast(s: State, step: Step, id: Id)
    requires Inv(s) && Enabled(s, step) && id in s.rows && s.rows[id].status != Expired
    ensures var t := Touch(s, step, id, s.rows[id]);
      t.status == Expired ==> t.attempts == s.rows[id].attempts && t.expiredAt.Some? && t.expiredAt.value <= s.now
  {
    if Touch(s, step, id, s.rows[id]).status == Expired {
      ExpiryStamp(s, step, id, s.rows[id]);
    }
  }

  /** Expiry is stamped with the clock reading of the commit, or of its claim or sweep. */
  lemma ExpiryStamp(s: State, step: Step, id: Id, r: Row)
    requires r.status != Expired && Touch(s, step, id, r).status == Expired
    ensures Touch(s, step, id, r).attempts == r.attempts
    ensures Touch(s, step, id, r).expiredAt == Some(
      if step.ClaimCommit? && step.dispatcher in s.claims then s.claims[step.dispatcher].at
      else if step.SweepExpired? then step.at else s.now)
  {
    match step
    case SweepLocked(_, _, _, _, _) =>
    case Finish(_, _) =>
    case _ =>
  }

  // --- retries over runs ---

  /** Phase 3 records a failure on id that will be retried. */
  predicate RecordsFailure(s: State, step: Step, id: Id) {
    && step.Finish? && step.result.Raised? && step.worker in s.jobs && s.jobs[step.worker].id == id
    && id in s.rows && s.rows[id].status == Processing
    && ClassifyFailure(step.result.exc, step.result.policy, s.jobs[step.worker].attempts,
                       s.jobs[step.worker].maxAttempts, s.now, step.result.delay).status == TaskStatus.Failed
  }

  function FloorOf(s: State, step: Step): Time
    requires step.Finish? && step.result.Raised?
  {
    RetryFloor(step.result.exc, s.now, step.result.delay)
  }

  /** No start and no manual retry of id in steps i + 1 .. k - 1. */
  ghost predicate Undisturbed(r: Run, id: Id, i: nat, k: nat)
    requires r.Shaped() && i < k <= |r.steps|
  {
    forall m :: i < m < k ==> !RetriesRow(r.states[m], r.steps[m], id) && !StartsHandler(r.states[m], r.steps[m], id)
  }

  predicate WaitsFor(row: Row, floor: Time) {
    row.scheduledFor == Some(floor) && row.status != Processing
  }

  lemma FailureSetsFloor(s: State, step: Step, id: Id)
    requires RecordsFailure(s, step, id)
    ensures WaitsFor(Touch(s, step, id, s.rows[id]), FloorOf(s, step))
  {
    var job := s.jobs[step.worker];
    RetryAtIsTheFloor(step.result.exc, step.result.policy, job.attempts, job.maxAttempts, s.now, step.result.delay);
  }

  lemma FirstWaits(r: Run, id: Id, i: nat)
    requires r.Valid() && i < |r.steps| && RecordsFailure(r.states[i], r.steps[i], id) && id in r.states[i + 1].rows
    ensures WaitsFor(r.states[i + 1].rows[id], FloorOf(r.states[i], r.steps[i]))
  {
    RunStep(r, i + 1, id);
    FailureSetsFloor(r.states[i], r.steps[i], id);
  }

  lemma StillWaits(r: Run, id: Id, k: nat, floor: Time)
    requires r.Valid() && k < |r.steps| && id in r.states[k].rows && id in r.states[k + 1].rows
    requires WaitsFor(r.states[k].rows[id], floor)
    requires !RetriesRow(r.states[k], r.steps[k], id) && !StartsHandler(r.states[k], r.steps[k], id)
    ensures WaitsFor(r.states[k + 1].rows[id], floor)
  {
    RunStep(r, k + 1, id);
    ScheduleIsKept(r.states[k], r.steps[k], id);
    OnlyBeginStarts(r.states[k], r.steps[k], id);
  }

  lemma {:induction false} ScheduleWaits(r: Run, id: Id, i: nat, k: nat)
    requires r.Valid() && i < k <= |r.steps| && RecordsFailure(r.states[i], r.steps[i], id)
    requires Undisturbed(r, id, i, k) && id in r.states[k].rows
    ensures WaitsFor(r.states[k].rows[id], FloorOf(r.states[i], r.steps[i]))
    decreases k
  {
    if k == i + 1 {
      FirstWaits(r, id, i);
    } else {
      RowWasThere(r, id, i, k - 1, k);
      ScheduleWaits(r, id, i, k - 1);
      assert !RetriesRow(r.states[k - 1], r.steps[k - 1], id);
      StillWaits(r, id, k - 1, FloorOf(r.states[i], r.steps[i]));
    }
  }

  /** A row present at two moments was present in between. */
  lemma RowWasThere(r: Run, id: Id, i: nat, j: nat, k: nat)
    requires r.Valid() && i <= j <= k <= |r.steps| && id in r.states[i].rows && id in r.states[k].rows
    ensures id in r.states[j].rows
  {
    UsedFromRow(r, id, i, j);
    if id !in r.states[j].rows {
      GoneForGood(r, id, j, k);
    }
  }

  /** After a failure recorded at time t, the next start of that row - by a direct claim, a sweep,
      a release or a duplicate delivery - is no earlier than t plus the policy's wait, nor than
      t plus the wait the handler asked for, unless an operator put the row back meanwhile. */
  lemma RetryFloorHolds(r: Run, id: Id, i: nat, j: nat)
    requires r.Valid() && i < j < |r.steps|
    requires RecordsFailure(r.states[i], r.steps[i], id) && StartsHandler(r.states[j], r.steps[j], id)
    requires Undisturbed(r, id, i, j)
    ensures var raised := r.steps[i].result;
      && r.states[j].now >= r.states[i].now + raised.delay
      && (raised.exc.retryAfter.Some? ==> r.states[j].now >= r.states[i].now + raised.exc.retryAfter.value)
  {
    ScheduleWaits(r, id, i, j);
  }
}
