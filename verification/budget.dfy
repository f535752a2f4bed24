/** The attempt budget over whole runs. */
module Budget {
  import opened Common
  import opened States
  import opened Policy
  import opened Rows
  import opened Protocol
  import opened Invariants
  import opened Runs

  /** Handler starts on row id since the operator last put it back, over the first k steps. */
  ghost function StartsSinceRetry(r: Run, id: Id, k: nat): nat
    requires r.Shaped() && k <= |r.steps|
  {
    if k == 0 then 0
    else if RetriesRow(r.states[k - 1], r.steps[k - 1], id) then 0
    else StartsSinceRetry(r, id, k - 1) + if StartsHandler(r.states[k - 1], r.steps[k - 1], id) then 1 else 0
  }

  /** Only a handler start and an operator retry ever write the attempt count. */
  lemma AttemptsMove(s: State, step: Step, id: Id)
    requires id in s.rows
    ensures Touch(s, step, id, s.rows[id]).attempts ==
      if RetriesRow(s, step, id) then 0
      else if StartsHandler(s, step, id) then s.rows[id].attempts + 1
      else s.rows[id].attempts
  {
  }

  lemma AttemptsInRun(r: Run, id: Id, k: nat)
    requires r.Valid() && 0 < k <= |r.steps| && id in r.states[k - 1].rows && id in r.states[k].rows
    ensures r.states[k].rows[id].attempts ==
      if RetriesRow(r.states[k - 1], r.steps[k - 1], id) then 0
      else r.states[k - 1].rows[id].attempts + if StartsHandler(r.states[k - 1], r.steps[k - 1], id) then 1 else 0
  {
    RunStep(r, k, id);
    AttemptsMove(r.states[k - 1], r.steps[k - 1], id);
  }

  lemma {:induction false} UnusedNeverStarted(r: Run, id: Id, k: nat)
    requires r.Valid() && k <= |r.steps| && id !in r.states[k].used
    ensures StartsSinceRetry(r, id, k) == 0
  {
    if k == 0 {
    } else {
      var s, step := r.states[k - 1], r.steps[k - 1];
      RunLink(r, k);
      UsedGrows(s, step);
      assert id !in s.rows;
      UnusedNeverStarted(r, id, k - 1);
    }
  }

  /** attempts is exactly the number of handler starts since the last manual retry, whatever
      duplicates, crashes, kills and late workers the run contains. */
  lemma {:induction false} AttemptsCountStarts(r: Run, id: Id, k: nat)
    requires r.Valid() && k <= |r.steps| && id in r.states[k].rows
    ensures r.states[k].rows[id].attempts == StartsSinceRetry(r, id, k)
  {
    if k == 0 {
    } else {
      if id in r.states[k - 1].rows {
        AttemptsCountStarts(r, id, k - 1);
        AttemptsInRun(r, id, k);
      } else {
        RunStep(r, k, id);
        UnusedNeverStarted(r, id, k - 1);
      }
    }
  }

  /** The budget, in every reachable state, for every row whose budget is at least one. */
  lemma BudgetHolds(r: Run, id: Id, k: nat)
    requires r.Valid() && k <= |r.steps| && id in r.states[k].rows
    ensures var row := r.states[k].rows[id];
      row.made.maxAttempts >= 1 ==>
        && StartsSinceRetry(r, id, k) == row.attempts <= row.made.maxAttempts
        && (row.status == Pending || row.status == Dispatching ==> row.attempts < row.made.maxAttempts)
        && (row.status == Processing ==> row.attempts >= 1)
    ensures StartsSinceRetry(r, id, k) <= Cap(r.states[k].rows[id].made.maxAttempts)
  {
    RunKeepsInv(r, k);
    AttemptsCountStarts(r, id, k);
  }

  /** The dead-letter branch of sweep_dispatching is for rows created with a budget below one,
      and for no other: every lost dispatch of a sound row goes back to PENDING. */
  lemma LostDispatchIsBuriedIffBudgetIsEmpty(r: Run, id: Id, k: nat)
    requires r.Valid() && k <= |r.steps| && id in r.states[k].rows && r.states[k].rows[id].status == Dispatching
    ensures BuryRow(DispatchingPass, r.states[k].rows[id]) != r.states[k].rows[id]
      <==> r.states[k].rows[id].made.maxAttempts < 1
  {
    RunKeepsInv(r, k);
  }

  /** A worker starts and, a second later, is presumed dead: its row waits again, its handler lives. */
  lemma PresumedDead(made: Creation) returns (r: Run)
    requires made.maxAttempts == 2 && made.scheduledFor.None? && (made.expiresAt.Some? ==> made.expiresAt.value > 0.0)
    ensures r.Valid() && Sole(Last(r), SweepRow(StuckPass, BeginRow(NewRow(made, 0.0), 0.0)))
    ensures Last(r).now == 1.0 && Last(r).jobs == map[0 := Job(0, 1, 2, 0.0)]
  {
    r := SoleRun(made);
    var row := NewRow(made, 0.0);
    var s := SoleStep(Last(r), row, Begin(0, 0));
    r := Do(r, Begin(0, 0));
    var started := BeginRow(row, 0.0);
    s := SoleStep(s, started, Tick(1.0));
    r := Do(r, Tick(1.0));
    SolePick(s, started, StuckPass, 1.0, 0.0);
    var pass := SweepLocked(StuckPass, 1.0, 0.0, 1, [0]);
    s := SoleStep(s, started, pass);
    r := Do(r, pass);
  }

  /** Even so, a FAILED row can have spent its budget: a worker that was presumed dead classifies
      its failure with the count it cached, after another worker has used the last attempt. */
  lemma StaleFailureSpendsBudget(made: Creation, exc: Exc, policy: TaskPolicy, message: string) returns (r: Run)
    requires made.maxAttempts == 2 && made.scheduledFor.None?
    requires made.expiresAt.Some? ==> made.expiresAt.value > 1.0
    requires IsRetryable(policy, exc)
    ensures r.Valid() && 0 in Last(r).rows
    ensures Last(r).rows[0].made == made
    ensures Last(r).rows[0].status == TaskStatus.Failed && Last(r).rows[0].attempts == 2
  {
    r := StartedAgain(made);
    var failure := Finish(0, Raised(exc, policy, 0.0, message));
    var _ := SoleStep(Last(r), TwiceStarted(made), failure);
    r := Do(r, failure);
  }

  /** A row started at 0, taken back, and started again at 1. */
  function TwiceStarted(made: Creation): Row {
    BeginRow(SweepRow(StuckPass, BeginRow(NewRow(made, 0.0), 0.0)), 1.0)
  }

  /** Another worker uses the last attempt while the first handler lives on. */
  lemma StartedAgain(made: Creation) returns (r: Run)
    requires made.maxAttempts == 2 && made.scheduledFor.None?
    requires made.expiresAt.Some? ==> made.expiresAt.value > 1.0
    ensures r.Valid() && Sole(Last(r), TwiceStarted(made)) && Last(r).now == 1.0
    ensures 0 in Last(r).jobs && Last(r).jobs[0] == Job(0, 1, 2, 0.0)
    ensures TwiceStarted(made).status == Processing && TwiceStarted(made).attempts == 2
    ensures TwiceStarted(made).made == made
  {
    r := PresumedDead(made);
    var _ := SoleStep(Last(r), SweepRow(StuckPass, BeginRow(NewRow(made, 0.0), 0.0)), Begin(1, 0));
    r := Do(r, Begin(1, 0));
  }
}
