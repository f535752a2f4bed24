/** When can a FAILED row have no budget left? Exactly which deployments exclude it. */
module StaleFailures {
  import opened Common
  import opened States
  import opened Policy
  import opened Rows
  import opened Selection
  import opened Queries
  import opened Protocol
  import opened Invariants
  import opened Runs
  import opened Exclusion

  /** A FAILED row can be tried again. */
  predicate FailedHasBudget(s: State, id: Id) {
    id in s.rows && s.rows[id].status == TaskStatus.Failed ==> BudgetLeft(s.rows[id])
  }

  /** In every run of the deployment, in every state, so can every FAILED row. */
  ghost predicate FailsInBudget(d: Deployment) {
    forall r: Run, id: Id, k: nat :: RunOf(r, d, id) && k < |r.states| ==> FailedHasBudget(r.states[k], id)
  }

  predicate NeverStale(d: Deployment) {
    d.limit < 0.0 || d.budget <= 1 || Suffices(d)
  }

  // --- the deployments in which none is stale ---

  /** The step records a failure of id with a count, cached by its handler, that leaves budget where the
      row has none. */
  predicate RecordsStale(s: State, step: Step, id: Id) {
    && step.Finish? && step.worker in s.jobs && s.jobs[step.worker].id == id
    && id in s.rows && s.rows[id].status == Processing && !BudgetLeft(s.rows[id])
    && s.jobs[step.worker].attempts < s.rows[id].made.maxAttempts
  }

  /** Nothing else makes a FAILED row without budget. */
  lemma FailureIsRecorded(s: State, step: Step, id: Id)
    requires Inv(s) && Enabled(s, step) && FailedHasBudget(s, id)
    ensures FailedHasBudget(Apply(s, step), id) || RecordsStale(s, step, id)
  {
    if !FailedHasBudget(Apply(s, step), id) {
      RowAfter(s, step, id);
      if id in s.rows {
        CreationIsKept(s, step, id);
        PicksDoFit(s, step, id);
        OnlyFinishFails(s, step, id);
      }
    }
  }

  lemma OnlyFinishFails(s: State, step: Step, id: Id)
    requires id in s.rows && JobsOk(s)
    requires FailedHasBudget(s, id) && PicksFit(s, step, id, s.rows[id])
    requires Touch(s, step, id, s.rows[id]).status == TaskStatus.Failed && !BudgetLeft(Touch(s, step, id, s.rows[id]))
    ensures RecordsStale(s, step, id)
  {
    match step
    case Finish(w, _) =>
      assert w in s.jobs ==> JobOk(s, s.jobs[w]);
    case SweepLocked(_, _, _, _, _) =>
    case SweepRecover(_) =>
    case SweepBury(_) =>
    case BulkRetry(_, _) =>
    case _ =>
  }

  lemma StepFailsInBudget(s: State, step: Step, d: Deployment, id: Id)
    requires Inv(s) && Enabled(s, step) && FailedHasBudget(s, id) && HasBudget(s, d, id)
    requires d.limit < 0.0 ==> Timely(s, id, d.limit)
    requires d.limit < 0.0 || d.budget <= 1 || Exclusive(s, id)
    ensures FailedHasBudget(Apply(s, step), id)
  {
    FailureIsRecorded(s, step, id);
    if RecordsStale(s, step, id) {
      NoStaleHandler(s, d, id, step.worker);
    }
  }

  /** No handler of a PROCESSING row has cached a count that leaves budget which the row has not. */
  lemma NoStaleHandler(s: State, d: Deployment, id: Id, w: nat)
    requires Inv(s) && HasBudget(s, d, id) && w in s.jobs && s.jobs[w].id == id
    requires id in s.rows && s.rows[id].status == Processing
    requires d.limit < 0.0 ==> Timely(s, id, d.limit)
    requires d.limit < 0.0 || d.budget <= 1 || Exclusive(s, id)
    ensures s.jobs[w].attempts < s.rows[id].made.maxAttempts ==> BudgetLeft(s.rows[id])
  {
    assert JobOk(s, s.jobs[w]);
  }

  lemma {:induction false} RunKeepsBudget(r: Run, d: Deployment, id: Id, k: nat)
    requires RunOf(r, d, id) && k <= |r.steps|
    ensures HasBudget(r.states[k], d, id)
  {
    if k == 0 {
    } else {
      RunKeepsBudget(r, d, id, k - 1);
      RunLink(r, k);
      assert TakesAt(r, d, id, k - 1);
      BudgetStays(r.states[k - 1], r.steps[k - 1], d, id);
    }
  }

  lemma {:induction false} RunFailsInBudget(r: Run, d: Deployment, id: Id, k: nat)
    requires RunOf(r, d, id) && NeverStale(d) && k <= |r.steps|
    ensures FailedHasBudget(r.states[k], id)
  {
    if k == 0 {
    } else {
      RunFailsInBudget(r, d, id, k - 1);
      RunKeepsBudget(r, d, id, k - 1);
      if d.limit >= 0.0 && d.budget > 1 {
        SufficientRunKeeps(r, d, id, k - 1);
      }
      RunLink(r, k);
      assert Timely(r.states[k - 1], id, d.limit);
      StepFailsInBudget(r.states[k - 1], r.steps[k - 1], d, id);
    }
  }

  // --- and the others ---

  /** A failure to be retried at once. */
  const FAILURE := Raised(Exc({}, None), TaskPolicy("", 0, 1, Constant(0.0, 0.0), {}, {}), 0.0, "")

  /** Row 0 is PROCESSING for worker w, while worker v holds it with an older count. */
  ghost predicate Outdated(r: Run, row: Row, d: Deployment, v: nat, w: nat) {
    && Witness(r, row, d) && v != w && v in Last(r).jobs && w in Last(r).jobs
    && row.status == Processing && row.made.maxAttempts == d.budget && row.made.expiresAt.None?
    && Last(r).jobs[v].id == 0 && Last(r).jobs[v].maxAttempts == d.budget && Last(r).jobs[v].attempts < d.budget
    && Last(r).jobs[w].id == 0 && Last(r).jobs[w].maxAttempts == d.budget && Last(r).jobs[w].attempts == row.attempts
  }

  /** A dispatcher claims row 0. */
  lemma WitnessClaims(r: Run, row: Row, d: Deployment) returns (q: Run)
    requires Witness(r, row, d) && Claimable(row, Last(r).now)
    ensures Witness(q, DispatchRow(row, Last(r).now), d)
    ensures Last(q).now == Last(r).now && Last(q).jobs == Last(r).jobs && Last(q).sweeps == Last(r).sweeps
  {
    var s := Last(r);
    var now := s.now;
    assert ExpirePool(s.rows, now, None, {}) == {};
    assert ClaimPool(s.rows, now, None, {}) == {0};
    SinglePick(s.rows, {0}, ClaimOrder, 0);
    var select := ClaimSelect(0, now, None, 1, {}, {}, [0]);
    var p := Do(r, select);
    StillRunOf(r, d, select);
    var held := Last(p);
    q := Do(p, ClaimCommit(0));
    assert TouchAll(held, ClaimCommit(0)) == map[0 := DispatchRow(row, now)];
    assert Last(q).claims == map[];
    StillRunOf(p, d, ClaimCommit(0));
  }

  /** Worker w fails, and takes the row up again: one attempt more is spent. */
  lemma OneMoreAttempt(r: Run, row: Row, d: Deployment, v: nat, w: nat) returns (q: Run, next: Row)
    requires Outdated(r, row, d, v, w) && row.attempts < d.budget && d.limit >= 0.0
    ensures Outdated(q, next, d, v, w) && next.attempts == row.attempts + 1
  {
    var now := Last(r).now;
    assert Timely(Last(r), 0, d.limit);
    var failed := FinishRow(row, row.attempts, d.budget, FAILURE, now);
    q := WitnessGrows(r, row, Finish(w, FAILURE), d);
    assert failed.status == TaskStatus.Failed && failed.scheduledFor == Some(now);
    q := WitnessClaims(q, failed, d);
    var claimed := DispatchRow(failed, now);
    q := WitnessBegins(q, claimed, w, d);
    next := BeginRow(claimed, now);
  }

  lemma {:induction false} SpendWhileOutdated(r: Run, row: Row, d: Deployment, v: nat, w: nat)
    returns (q: Run, last: Row)
    requires Outdated(r, row, d, v, w) && row.attempts <= d.budget && d.limit >= 0.0
    ensures Outdated(q, last, d, v, w) && last.attempts == d.budget
    decreases d.budget - row.attempts
  {
    if row.attempts == d.budget {
      q, last := r, row;
    } else {
      q, last := OneMoreAttempt(r, row, d, v, w);
      q, last := SpendWhileOutdated(q, last, d, v, w);
    }
  }

  /** The outdated handler reports last: its row fails, to be retried, with nothing left. */
  lemma OutdatedFailure(r: Run, row: Row, d: Deployment, v: nat, w: nat) returns (q: Run)
    requires Outdated(r, row, d, v, w) && row.attempts <= d.budget && d.limit >= 0.0
    ensures RunOf(q, d, 0) && |q.states| > 0 && !FailedHasBudget(Last(q), 0)
  {
    var last;
    q, last := SpendWhileOutdated(r, row, d, v, w);
    assert Timely(Last(q), 0, d.limit);
    q := WitnessGrows(q, last, Finish(v, FAILURE), d);
  }

  /** Where two handlers can be live, the older one can be outdated. */
  lemma OutdatedHandler(d: Deployment) returns (r: Run, row: Row, v: nat, w: nat)
    requires d.limit >= 0.0 && !NeverStale(d)
    ensures Outdated(r, row, d, v, w) && row.attempts <= d.budget
  {
    var made := Creation("", [], [], "", 0, d.budget, None, None, None);
    if d.retries {
      r, row := RetriedTwice(made, d);
      v, w := 0, 1;
    } else if d.threshold < d.limit {
      r, row := TakenTooSoon(made, d);
      v, w := 0, 1;
    } else {
      r, row := TakenTwice(made, d);
      v, w := 1, 2;
    }
  }

  /** Exactly which deployments never fail a row without budget left: those that exclude, and those of
      a budget of one, whose rows are never FAILED. */
  lemma FailedRowsHaveBudgetExactly(d: Deployment)
    ensures FailsInBudget(d) <==> NeverStale(d)
  {
    if NeverStale(d) {
      forall r: Run, id: Id, k: nat | RunOf(r, d, id) && k < |r.states| ensures FailedHasBudget(r.states[k], id) {
        RunFailsInBudget(r, d, id, k);
      }
    } else {
      var r, row, v, w := OutdatedHandler(d);
      var q := OutdatedFailure(r, row, d, v, w);
      assert q.states[|q.states| - 1] == Last(q);
    }
  }
}
