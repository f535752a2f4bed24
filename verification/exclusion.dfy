/** When can two handlers run the same task at once? Exactly which deployments exclude it. */
module Exclusion {
  import opened Common
  import opened States
  import opened Rows
  import opened Protocol
  import opened Invariants
  import opened Runs
  import opened Budget

  /** Every live handler of id is within limit of its start. */
  predicate Timely(s: State, id: Id, limit: Time) {
    forall w :: w in s.jobs && s.jobs[w].id == id ==> s.now <= s.jobs[w].since + limit
  }

  ghost predicate TimelyRun(r: Run, id: Id, limit: Time) {
    forall k :: 0 <= k < |r.states| ==> Timely(r.states[k], id, limit)
  }

  /** A stuck sweep presumes the handler of id dead. */
  predicate PresumesDead(s: State, step: Step, id: Id) {
    && id in s.rows && s.rows[id].status == Processing && !RetriesRow(s, step, id)
    && Touch(s, step, id, s.rows[id]).status == Pending
  }

  /** The age test of sweep_stuck, at the moment of its commit. */
  predicate OlderThan(s: State, id: Id, threshold: Time) {
    id in s.rows && s.rows[id].startedAt.Some? && s.rows[id].startedAt.value < s.now - threshold
  }

  /** No operator put id back, and whoever presumed its handler dead was right about the age. */
  predicate Careful(s: State, step: Step, id: Id, threshold: Time) {
    !RetriesRow(s, step, id) && (PresumesDead(s, step, id) ==> OlderThan(s, id, threshold))
  }

  ghost predicate CarefulRun(r: Run, id: Id, threshold: Time)
    requires r.Shaped()
  {
    forall k :: 0 <= k < |r.steps| ==> Careful(r.states[k], r.steps[k], id, threshold)
  }

  /** One live handler at most; while its row is PROCESSING it is the start the row records. */
  predicate Exclusive(s: State, id: Id) {
    && (forall v, w :: v in s.jobs && w in s.jobs && s.jobs[v].id == id && s.jobs[w].id == id ==> v == w)
    && (forall w :: w in s.jobs && s.jobs[w].id == id ==> id in s.rows && Owns(s.jobs[w], s.rows[id]))
  }

  predicate Owns(job: Job, row: Row) {
    || row.status == Dead
    || (row.status == Processing && job.attempts == row.attempts && row.startedAt == Some(job.since))
  }

  /** The step neither puts id back by hand nor presumes a live handler of it dead. */
  predicate Spares(s: State, step: Step, id: Id) {
    !RetriesRow(s, step, id) && (PresumesDead(s, step, id) ==> forall w :: w in s.jobs ==> s.jobs[w].id != id)
  }

  lemma CarefulStepSpares(s: State, step: Step, id: Id, limit: Time, threshold: Time)
    requires threshold >= limit && Timely(s, id, limit) && Careful(s, step, id, threshold) && Exclusive(s, id)
    ensures Spares(s, step, id)
  {
  }

  /** A row with a live owner keeps it, unless the owner itself finishes. */
  lemma OwnerStays(s: State, step: Step, id: Id, w: nat)
    requires Inv(s) && Enabled(s, step) && Spares(s, step, id)
    requires Exclusive(s, id) && w in s.jobs && s.jobs[w].id == id && w in Apply(s, step).jobs
    ensures id in Apply(s, step).rows && Owns(s.jobs[w], Apply(s, step).rows[id])
    ensures !StartsHandler(s, step, id)
  {
    PicksDoFit(s, step, id);
    OwnerStaysInRow(s, step, id, s.jobs[w], s.rows[id]);
    OwnedRowSurvives(s, step, id, s.jobs[w]);
  }

  lemma OwnedRowSurvives(s: State, step: Step, id: Id, job: Job)
    requires RowsOk(s) && Enabled(s, step) && id in s.rows && Owns(job, s.rows[id])
    ensures id in Apply(s, step).rows && Apply(s, step).rows[id] == Touch(s, step, id, s.rows[id])
  {
    RowIsTouched(s, step, id);
  }

  lemma OwnerStaysInRow(s: State, step: Step, id: Id, job: Job, row: Row)
    requires PicksFit(s, step, id, row) && id in s.rows && row == s.rows[id]
    requires Owns(job, row) && !RetriesRow(s, step, id)
    requires step.Finish? && step.worker in s.jobs ==> s.jobs[step.worker].id != id
    requires !PresumesDead(s, step, id)
    ensures Owns(job, Touch(s, step, id, row))
  {
    match step
    case SweepLocked(pass, _, _, _, _) =>
    case SweepRecover(k) =>
    case SweepBury(k) =>
    case BulkRetry(_, _) =>
    case _ =>
  }

  lemma StarterOwns(s: State, step: Step, id: Id)
    requires Allowed(s, step) && StartsHandler(s, step, id)
    ensures id in Apply(s, step).rows
    ensures Owns(Job(id, s.rows[id].attempts + 1, s.rows[id].made.maxAttempts, s.now), Apply(s, step).rows[id])
  {
  }

  lemma StepKeepsExclusive(s: State, step: Step, id: Id)
    requires Inv(s) && Enabled(s, step) && Spares(s, step, id) && Exclusive(s, id)
    ensures Exclusive(Apply(s, step), id)
  {
    var t := Apply(s, step);
    forall w | w in t.jobs && t.jobs[w].id == id ensures id in t.rows && Owns(t.jobs[w], t.rows[id]) {
      LiveJobs(s, step, w);
      if w in s.jobs {
        OwnerStays(s, step, id, w);
      } else {
        StarterOwns(s, step, id);
      }
    }
    forall v, w | v in t.jobs && w in t.jobs && t.jobs[v].id == id && t.jobs[w].id == id ensures v == w {
      LiveJobs(s, step, v);
      LiveJobs(s, step, w);
      if v in s.jobs && w !in s.jobs {
        OwnerStays(s, step, id, v);
      } else if w in s.jobs && v !in s.jobs {
        OwnerStays(s, step, id, w);
      }
    }
  }

  /** If every live handler of id is within limit of its start, the stuck threshold is no shorter,
      its age test still holds when the sweep commits, and no operator retries id, then at most one
      handler of id is live, and while the row is PROCESSING that handler cached the row's count. */
  lemma {:induction false} MutualExclusion(r: Run, id: Id, limit: Time, threshold: Time, k: nat)
    requires r.Valid() && k <= |r.steps| && threshold >= limit
    requires TimelyRun(r, id, limit) && CarefulRun(r, id, threshold)
    ensures Exclusive(r.states[k], id)
  {
    if k == 0 {
    } else {
      MutualExclusion(r, id, limit, threshold, k - 1);
      RunLink(r, k);
      assert Timely(r.states[k - 1], id, limit) && Careful(r.states[k - 1], r.steps[k - 1], id, threshold);
      CarefulStepSpares(r.states[k - 1], r.steps[k - 1], id, limit, threshold);
      StepKeepsExclusive(r.states[k - 1], r.steps[k - 1], id);
    }
  }

  /** A pass that holds its locks from select to update has its age test at commit. */
  lemma LockedPassTestsAge(s: State, step: Step, id: Id)
    requires Enabled(s, step) && step.SweepLocked? && PresumesDead(s, step, id)
    ensures step.pass == StuckPass && OlderThan(s, id, step.age)
  {
    assert id in Elements(step.picked);
  }

  /** A deployment whose stuck sweeps hold their locks (the Django passes) and use this threshold. */
  predicate LockedSweeps(s: State, step: Step, threshold: Time) {
    && (step.SweepLocked? && step.pass == StuckPass ==> step.age >= threshold)
    && (step.SweepRecover? && step.sweeper in s.sweeps ==> s.sweeps[step.sweeper].pass != StuckPass)
  }

  ghost predicate LockedRun(r: Run, id: Id, threshold: Time)
    requires r.Shaped()
  {
    forall k :: 0 <= k < |r.steps| ==>
      LockedSweeps(r.states[k], r.steps[k], threshold) && !RetriesRow(r.states[k], r.steps[k], id)
  }

  lemma LockedStepIsCareful(s: State, step: Step, id: Id, threshold: Time)
    requires Inv(s) && Enabled(s, step) && LockedSweeps(s, step, threshold) && !RetriesRow(s, step, id)
    ensures Careful(s, step, id, threshold)
  {
    if PresumesDead(s, step, id) {
      if step.SweepLocked? {
        LockedPassTestsAge(s, step, id);
      } else {
        assert false;
      }
    }
  }

  /** With locked sweeps a threshold no shorter than the longest handler is enough. */
  lemma LockedSweepsExclude(r: Run, id: Id, limit: Time, threshold: Time, k: nat)
    requires r.Valid() && k <= |r.steps| && threshold >= limit
    requires TimelyRun(r, id, limit) && LockedRun(r, id, threshold)
    ensures Exclusive(r.states[k], id)
  {
    forall m | 0 <= m < |r.steps| ensures Careful(r.states[m], r.steps[m], id, threshold) {
      RunLink(r, m + 1);
      LockedStepIsCareful(r.states[m], r.steps[m], id, threshold);
    }
    MutualExclusion(r, id, limit, threshold, k);
  }

  // --- which deployments exclude ---

  /** What decides: whether stuck sweeps hold their locks and whether operators retry rows, the stuck
      threshold, the longest handler, and the budget a row was created with. */
  datatype Deployment = Deployment(locked: bool, retries: bool, threshold: Time, limit: Time, budget: int)

  /** Row id is created, swept as stuck and retried as in the deployment. */
  predicate Takes(d: Deployment, s: State, step: Step, id: Id) {
    && (step.Create? && step.id == id ==> step.made.maxAttempts == d.budget)
    && (step.SweepLocked? && step.pass == StuckPass ==> d.locked && step.age >= d.threshold)
    && (step.SweepRead? && step.pass == StuckPass ==> !d.locked && step.age >= d.threshold)
    && (RetriesRow(s, step, id) ==> d.retries)
  }

  predicate TakesAt(r: Run, d: Deployment, id: Id, k: nat)
    requires r.Shaped() && k < |r.steps|
  {
    Takes(d, r.states[k], r.steps[k], id)
  }

  /** A run of the deployment in which every handler of id keeps the limit. */
  ghost predicate RunOf(r: Run, d: Deployment, id: Id) {
    r.Valid() && TimelyRun(r, id, d.limit) && forall k: nat :: k < |r.steps| ==> TakesAt(r, d, id, k)
  }

  predicate HasBudget(s: State, d: Deployment, id: Id) {
    id in s.rows ==> s.rows[id].made.maxAttempts == d.budget
  }

  lemma BudgetStays(s: State, step: Step, d: Deployment, id: Id)
    requires Inv(s) && Enabled(s, step) && Takes(d, s, step, id) && HasBudget(s, d, id)
    ensures HasBudget(Apply(s, step), d, id)
  {
    if id in Apply(s, step).rows {
      RowAfter(s, step, id);
      if id in s.rows {
        CreationIsKept(s, step, id);
      }
    }
  }

  /** An open stuck sweep has read id: then its row has been started, and every handler that is live
      now was started after that read. */
  predicate ReadBefore(s: State, id: Id, k: nat) {
    k in s.sweeps && s.sweeps[k].pass == StuckPass && id in s.sweeps[k].ids ==>
      && id in s.used && (id in s.rows ==> s.rows[id].attempts >= 1)
      && forall w :: w in s.jobs && s.jobs[w].id == id ==> s.jobs[w].attempts >= 2
  }

  predicate OldReads(s: State, id: Id) {
    forall k :: k in s.sweeps ==> ReadBefore(s, id, k)
  }

  /** A read of a row as stuck finds no live handler, handlers being faster than the threshold. */
  lemma ReadFindsNoHandler(s: State, step: Step, d: Deployment, id: Id, w: nat)
    requires Inv(s) && Enabled(s, step) && Takes(d, s, step, id) && d.threshold >= d.limit
    requires step.SweepRead? && step.pass == StuckPass && id in step.picked
    requires Timely(s, id, d.limit) && Exclusive(s, id) && w in s.jobs
    ensures id in s.rows && s.rows[id].attempts >= 1 && s.jobs[w].id != id
  {
    assert id in Elements(step.picked);
    assert RowOk(s.rows[id]);
  }

  lemma SweepsAfter(s: State, step: Step, k: nat)
    requires k in Apply(s, step).sweeps
    ensures (k in s.sweeps && Apply(s, step).sweeps[k] == s.sweeps[k])
      || (step.SweepRead? && step.sweeper == k && Apply(s, step).sweeps[k] == SweepTx(step.pass, step.picked)
          && Apply(s, step).rows == s.rows && Apply(s, step).jobs == s.jobs)
  {
    if step.SweepRead? {
      assert TouchAll(s, step) == s.rows;
    }
  }

  lemma ReadStaysBefore(s: State, step: Step, id: Id, k: nat)
    requires Inv(s) && Enabled(s, step) && !RetriesRow(s, step, id) && ReadBefore(s, id, k)
    requires k in s.sweeps && k in Apply(s, step).sweeps && Apply(s, step).sweeps[k] == s.sweeps[k]
    ensures ReadBefore(Apply(s, step), id, k)
  {
    var t := Apply(s, step);
    if s.sweeps[k].pass == StuckPass && id in s.sweeps[k].ids {
      if id in t.rows {
        RowAfter(s, step, id);
        AttemptsMove(s, step, id);
      }
      forall w | w in t.jobs && t.jobs[w].id == id ensures t.jobs[w].attempts >= 2 {
        LiveJobs(s, step, w);
      }
    }
  }

  lemma OldReadsStay(s: State, step: Step, d: Deployment, id: Id)
    requires Inv(s) && Enabled(s, step) && Takes(d, s, step, id) && !d.retries && d.threshold >= d.limit
    requires Timely(s, id, d.limit) && Exclusive(s, id) && OldReads(s, id)
    ensures OldReads(Apply(s, step), id)
  {
    var t := Apply(s, step);
    forall k | k in t.sweeps ensures ReadBefore(t, id, k) {
      SweepsAfter(s, step, k);
      if k in s.sweeps && t.sweeps[k] == s.sweeps[k] {
        ReadStaysBefore(s, step, id, k);
      } else if step.pass == StuckPass && id in step.picked {
        forall w | w in s.jobs ensures id in s.rows && s.rows[id].attempts >= 1 && s.jobs[w].id != id {
          ReadFindsNoHandler(s, step, d, id, w);
        }
        FreshReadIsSound(s, step, id);
      }
    }
  }

  lemma FreshReadIsSound(s: State, step: Step, id: Id)
    requires Inv(s) && Enabled(s, step) && step.SweepRead? && step.pass == StuckPass && id in step.picked
    ensures id in s.rows && s.rows[id].attempts >= 1 && id in s.used
  {
    assert id in Elements(step.picked);
    assert RowOk(s.rows[id]);
  }

  /** No stuck sweep is between its read and its writes. */
  predicate NoOpenReads(s: State) {
    forall k :: k in s.sweeps ==> s.sweeps[k].pass != StuckPass
  }

  lemma NoReadsOpen(s: State, step: Step, d: Deployment, id: Id)
    requires Takes(d, s, step, id) && d.locked && NoOpenReads(s)
    ensures NoOpenReads(Apply(s, step))
  {
    forall k | k in Apply(s, step).sweeps ensures Apply(s, step).sweeps[k].pass != StuckPass {
      SweepsAfter(s, step, k);
    }
  }

  /** The deployments in which a handler of a row never meets another one. */
  predicate Suffices(d: Deployment) {
    !d.retries && (d.budget <= 1 || (d.threshold >= d.limit && (d.locked || d.budget <= 2)))
  }

  /** What such a deployment keeps. */
  ghost predicate Kept(s: State, d: Deployment, id: Id) {
    && Exclusive(s, id) && HasBudget(s, d, id)
    && (d.locked ==> NoOpenReads(s))
    && (d.threshold >= d.limit ==> OldReads(s, id))
  }

  /** Why no stuck sweep presumes a live handler dead: a row of budget one is never returned, a locked
      pass sees that the handler is young, and one started since the read has spent a budget of two. */
  lemma SufficientStepSpares(s: State, step: Step, d: Deployment, id: Id)
    requires Inv(s) && Enabled(s, step) && Takes(d, s, step, id) && Suffices(d)
    requires Timely(s, id, d.limit) && Kept(s, d, id)
    ensures Spares(s, step, id)
  {
    if PresumesDead(s, step, id) {
      forall w | w in s.jobs ensures s.jobs[w].id != id {
        NoHandlerIsPresumedDead(s, step, d, id, w);
      }
    }
  }

  lemma NoHandlerIsPresumedDead(s: State, step: Step, d: Deployment, id: Id, w: nat)
    requires Inv(s) && Enabled(s, step) && Takes(d, s, step, id) && Suffices(d) && PresumesDead(s, step, id)
    requires Timely(s, id, d.limit) && Kept(s, d, id) && w in s.jobs
    ensures s.jobs[w].id != id
  {
    assert RowOk(s.rows[id]);
    if step.SweepLocked? {
      LockedPassTestsAge(s, step, id);
    }
    if step.SweepRecover? && step.sweeper in s.sweeps && d.threshold >= d.limit {
      assert ReadBefore(s, id, step.sweeper);
    }
  }

  lemma {:induction false} SufficientRunKeeps(r: Run, d: Deployment, id: Id, k: nat)
    requires RunOf(r, d, id) && Suffices(d) && k <= |r.steps|
    ensures Kept(r.states[k], d, id)
  {
    if k == 0 {
    } else {
      SufficientRunKeeps(r, d, id, k - 1);
      RunLink(r, k);
      assert TakesAt(r, d, id, k - 1);
      SufficientStepKeeps(r.states[k - 1], r.steps[k - 1], d, id);
    }
  }

  lemma SufficientStepKeeps(s: State, step: Step, d: Deployment, id: Id)
    requires Inv(s) && Enabled(s, step) && Takes(d, s, step, id) && Suffices(d)
    requires Timely(s, id, d.limit) && Kept(s, d, id)
    ensures Kept(Apply(s, step), d, id)
  {
    SufficientStepSpares(s, step, d, id);
    StepKeepsExclusive(s, step, id);
    BudgetStays(s, step, d, id);
    if d.locked {
      NoReadsOpen(s, step, d, id);
    }
    if d.threshold >= d.limit {
      OldReadsStay(s, step, d, id);
    }
  }

  // --- and which do not ---

  /** A run of the deployment over one row, that row being as given at its end. */
  ghost predicate Witness(r: Run, row: Row, d: Deployment) {
    RunOf(r, d, 0) && Sole(Last(r), row)
  }

  /** A row with nothing to wait for and the budget of the deployment. */
  predicate Ready(made: Creation, d: Deployment) {
    made.maxAttempts == d.budget && made.scheduledFor.None? && made.expiresAt.None?
  }

  lemma WitnessStarts(made: Creation, d: Deployment) returns (r: Run)
    requires Ready(made, d)
    ensures Witness(r, NewRow(made, 0.0), d)
    ensures Last(r).now == 0.0 && Last(r).jobs == map[] && Last(r).sweeps == map[]
  {
    r := SoleRun(made);
  }

  lemma WitnessGrows(r: Run, row: Row, step: Step, d: Deployment) returns (q: Run)
    requires Witness(r, row, d) && Allowed(Last(r), step) && Takes(d, Last(r), step, 0)
    requires !step.Create? && !step.Purge? && !step.ClaimSelect?
    requires Timely(Apply(Last(r), step), 0, d.limit)
    ensures Witness(q, Touch(Last(r), step, 0, row), d)
    ensures Last(q) == Apply(Last(r), step)
  {
    var n := SoleStep(Last(r), row, step);
    q := Do(r, step);
    StillRunOf(r, d, step);
  }

  /** One more step of the deployment. */
  lemma StillRunOf(r: Run, d: Deployment, step: Step)
    requires RunOf(r, d, 0) && Enabled(Last(r), step) && Takes(d, Last(r), step, 0)
    requires Timely(Apply(Last(r), step), 0, d.limit)
    ensures RunOf(Then(r, step), d, 0)
  {
    var q := Do(r, step);
    forall k | 0 <= k < |q.states| ensures Timely(q.states[k], 0, d.limit) {
      if k < |r.states| {
        assert q.states[k] == r.states[k];
      }
    }
    forall k: nat | k < |q.steps| ensures TakesAt(q, d, 0, k) {
      if k < |r.steps| {
        assert TakesAt(r, d, 0, k);
        assert q.states[k] == r.states[k] && q.steps[k] == r.steps[k];
      }
    }
  }

  /** Row 0 is started once, by worker w. */
  lemma WitnessBegins(r: Run, row: Row, w: nat, d: Deployment) returns (q: Run)
    requires Witness(r, row, d) && d.limit >= 0.0 && w !in Last(r).jobs
    requires Rows.Starts(row, Last(r).now)
    ensures Witness(q, BeginRow(row, Last(r).now), d)
    ensures Last(q).jobs == Last(r).jobs[w := Job(0, row.attempts + 1, row.made.maxAttempts, Last(r).now)]
    ensures Last(q).now == Last(r).now && Last(q).sweeps == Last(r).sweeps
  {
    assert Timely(Last(r), 0, d.limit);
    q := WitnessGrows(r, row, Begin(w, 0), d);
  }

  /** Two handlers of row 0 are live at the end of the run. */
  predicate RunsTwice(r: Run, v: nat, w: nat) {
    && |r.states| > 0 && v != w && v in Last(r).jobs && w in Last(r).jobs
    && Last(r).jobs[v].id == 0 && Last(r).jobs[w].id == 0
  }

  /** One worker has started row 0 and has used its limit up. */
  lemma SlowHandler(made: Creation, d: Deployment) returns (r: Run, row: Row)
    requires Ready(made, d) && d.limit >= 0.0
    ensures Witness(r, row, d) && row == BeginRow(NewRow(made, 0.0), 0.0)
    ensures Last(r).now == d.limit && Last(r).sweeps == map[] && Last(r).jobs == map[0 := Job(0, 1, d.budget, 0.0)]
  {
    row := NewRow(made, 0.0);
    r := WitnessStarts(made, d);
    r := WitnessBegins(r, row, 0, d);
    row := BeginRow(row, 0.0);
    r := WitnessGrows(r, row, Tick(d.limit), d);
  }

  /** The stuck sweep of the deployment takes row 0 back. */
  lemma TakenForDead(r: Run, row: Row, d: Deployment) returns (q: Run)
    requires Witness(r, row, d) && Last(r).sweeps == map[] && BudgetLeft(row)
    requires PassSelects(StuckPass, row, Last(r).now, d.threshold)
    ensures Witness(q, RecoverRow(StuckPass, row), d)
    ensures Last(q).now == Last(r).now && Last(q).jobs == Last(r).jobs
  {
    var now := Last(r).now;
    assert Timely(Last(r), 0, d.limit);
    SolePick(Last(r), row, StuckPass, now, d.threshold);
    if d.locked {
      q := WitnessGrows(r, row, SweepLocked(StuckPass, now, d.threshold, 1, [0]), d);
    } else {
      q := WitnessGrows(r, row, SweepRead(0, StuckPass, now, d.threshold, 1, [0]), d);
      q := WitnessGrows(q, row, SweepRecover(0), d);
    }
  }

  /** A slow handler is taken for a dead one, and the row started again. */
  lemma TakenTooSoon(made: Creation, d: Deployment) returns (r: Run, row: Row)
    requires Ready(made, d) && d.limit >= 0.0 && d.budget >= 2 && d.threshold < d.limit
    ensures Witness(r, row, d) && row.made == made && row.status == Processing && row.attempts == 2
    ensures Last(r).jobs == map[0 := Job(0, 1, d.budget, 0.0), 1 := Job(0, 2, d.budget, d.limit)]
  {
    r, row := SlowHandler(made, d);
    r := TakenForDead(r, row, d);
    row := RecoverRow(StuckPass, row);
    r := WitnessBegins(r, row, 1, d);
    row := BeginRow(row, d.limit);
  }

  /** With a budget of two or more, a threshold shorter than the limit lets two handlers run at once,
      locked or not: a slow handler is not a dead one. */
  lemma ShorterThresholdRunsTwice(made: Creation, d: Deployment) returns (r: Run)
    requires Ready(made, d) && d.limit >= 0.0 && d.budget >= 2 && d.threshold < d.limit
    ensures RunOf(r, d, 0) && RunsTwice(r, 0, 1)
  {
    var row;
    r, row := TakenTooSoon(made, d);
  }

  /** Two sweepers have read row 0 as stuck, its handler having died. */
  lemma TwoStuckReads(made: Creation, d: Deployment) returns (r: Run, row: Row)
    requires Ready(made, d) && d.limit >= 0.0 && !d.locked
    ensures Witness(r, row, d) && Last(r).jobs == map[]
    ensures row.made == made && row.status == Processing && row.attempts == 1 && row.scheduledFor.None?
    ensures Last(r).sweeps == map[0 := SweepTx(StuckPass, [0]), 1 := SweepTx(StuckPass, [0])]
  {
    row := NewRow(made, 0.0);
    var late := MaxOf(d.threshold, 0.0) + 1.0;
    r := WitnessStarts(made, d);
    r := WitnessBegins(r, row, 0, d);
    row := BeginRow(row, 0.0);
    r := WitnessGrows(r, row, Crash(0), d);
    r := WitnessGrows(r, row, Tick(late), d);
    SolePick(Last(r), row, StuckPass, late, d.threshold);
    r := WitnessGrows(r, row, SweepRead(0, StuckPass, late, d.threshold, 1, [0]), d);
    SolePick(Last(r), row, StuckPass, late, d.threshold);
    r := WitnessGrows(r, row, SweepRead(1, StuckPass, late, d.threshold, 1, [0]), d);
  }

  /** One read has the row returned and started, the other has it returned and started again. */
  lemma TakenTwice(made: Creation, d: Deployment) returns (r: Run, row: Row)
    requires Ready(made, d) && d.limit >= 0.0 && d.budget >= 3 && !d.locked
    ensures Witness(r, row, d) && row.made == made && row.status == Processing && row.attempts == 3
    ensures Last(r).jobs == map[1 := Job(0, 2, d.budget, Last(r).now), 2 := Job(0, 3, d.budget, Last(r).now)]
  {
    r, row := TwoStuckReads(made, d);
    assert Timely(Last(r), 0, d.limit);
    r := WitnessGrows(r, row, SweepRecover(1), d);
    row := RecoverRow(StuckPass, row);
    r := WitnessBegins(r, row, 1, d);
    row := BeginRow(row, Last(r).now);
    r := WitnessGrows(r, row, SweepRecover(0), d);
    row := RecoverRow(StuckPass, row);
    r := WitnessBegins(r, row, 2, d);
    row := BeginRow(row, Last(r).now);
  }

  /** With a budget of three or more, the unlocked stuck sweep can run a row twice at once under any
      threshold, even when every handler is instantaneous: its update does not repeat the age test, so
      it also takes back a row that another sweep has returned and another worker has started since
      the read. */
  lemma UnlockedStuckSweepRunsTwice(made: Creation, d: Deployment) returns (r: Run)
    requires Ready(made, d) && d.limit >= 0.0 && d.budget >= 3 && !d.locked
    ensures RunOf(r, d, 0) && RunsTwice(r, 1, 2)
  {
    var row;
    r, row := TakenTwice(made, d);
  }

  /** An operator retries the row while its handler runs. */
  lemma RetriedTwice(made: Creation, d: Deployment) returns (r: Run, row: Row)
    requires Ready(made, d) && d.limit >= 0.0 && d.retries
    ensures Witness(r, row, d) && row.made == made && row.status == Processing && row.attempts == 1
    ensures Last(r).jobs == map[0 := Job(0, 1, d.budget, 0.0), 1 := Job(0, 1, d.budget, 0.0)]
  {
    row := NewRow(made, 0.0);
    r := WitnessStarts(made, d);
    r := WitnessBegins(r, row, 0, d);
    row := BeginRow(row, 0.0);
    assert Timely(Last(r), 0, d.limit);
    r := WitnessGrows(r, row, Retry(0), d);
    row := RetryRow(row);
    r := WitnessBegins(r, row, 1, d);
    row := BeginRow(row, 0.0);
  }

  /** An operator who retries a row while its handler runs has it run twice at once, whatever the
      budget, the threshold and the locks. */
  lemma RetryRunsTwice(made: Creation, d: Deployment) returns (r: Run)
    requires Ready(made, d) && d.limit >= 0.0 && d.retries
    ensures RunOf(r, d, 0) && RunsTwice(r, 0, 1)
  {
    var row;
    r, row := RetriedTwice(made, d);
  }

  /** In every run of the deployment, in every state, every row has at most one live handler. */
  ghost predicate Excludes(d: Deployment) {
    forall r: Run, id: Id, k: nat :: RunOf(r, d, id) && k < |r.states| ==> Exclusive(r.states[k], id)
  }

  lemma InsufficientRunsTwice(d: Deployment) returns (r: Run)
    requires d.limit >= 0.0 && !Suffices(d)
    ensures RunOf(r, d, 0) && !Exclusive(Last(r), 0)
  {
    var made := Creation("", [], [], "", 0, d.budget, None, None, None);
    if d.retries {
      r := RetryRunsTwice(made, d);
    } else if d.threshold < d.limit {
      r := ShorterThresholdRunsTwice(made, d);
    } else {
      r := UnlockedStuckSweepRunsTwice(made, d);
    }
  }

  /** Exactly which deployments exclude: no operator retries, and a budget of one; or a stuck threshold
      no shorter than the longest handler, with locked sweeps or a budget of two. (A negative limit
      admits no live handler at all.) */
  lemma ExclusionHoldsExactly(d: Deployment)
    ensures Excludes(d) <==> d.limit < 0.0 || Suffices(d)
  {
    if d.limit < 0.0 {
      forall r: Run, id: Id, k: nat | RunOf(r, d, id) && k < |r.states| ensures Exclusive(r.states[k], id) {
        NoHandlerIsTimely(r, d, id, k);
      }
    } else if Suffices(d) {
      forall r: Run, id: Id, k: nat | RunOf(r, d, id) && k < |r.states| ensures Exclusive(r.states[k], id) {
        SufficientRunKeeps(r, d, id, k);
      }
    } else {
      var r := InsufficientRunsTwice(d);
      assert r.states[|r.states| - 1] == Last(r);
    }
  }

  lemma NoHandlerIsTimely(r: Run, d: Deployment, id: Id, k: nat)
    requires RunOf(r, d, id) && d.limit < 0.0 && k < |r.states|
    ensures Exclusive(r.states[k], id)
  {
    RunKeepsInv(r, k);
    assert Timely(r.states[k], id, d.limit);
    assert forall w :: w in r.states[k].jobs ==> JobOk(r.states[k], r.states[k].jobs[w]);
  }
}
