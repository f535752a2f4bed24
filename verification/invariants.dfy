/** What every reachable state satisfies, whoever moved first. */
module Invariants {
  import opened Common
  import opened States
  import opened Rows
  import opened Queries
  import opened Protocol

  /** The number of handler starts a row is good for. A budget below one, which create_task does
      not refuse, still buys one start. */
  function Cap(maxAttempts: int): int {
    if maxAttempts < 1 then 1 else maxAttempts
  }

  predicate BudgetOk(r: Row) {
    && 0 <= r.attempts <= Cap(r.made.maxAttempts)
    && (r.status == Pending || r.status == Dispatching ==> r.attempts < Cap(r.made.maxAttempts))
    && (r.status == Processing || r.status == TaskStatus.Failed ==> r.attempts >= 1)
  }

  /** Every recovery pass finds the timestamp it tests, and terminal rows carry theirs. */
  predicate StampsOk(r: Row) {
    && (r.status == Dispatching ==> r.dispatchingAt.Some?)
    && (r.status == Processing ==> r.startedAt.Some?)
    && (r.status == TaskStatus.Failed ==> r.scheduledFor.Some?)
    && (r.status == Completed ==> r.completedAt.Some?)
    && (r.status == Expired ==>
          r.expiredAt.Some? && r.made.expiresAt.Some? && r.made.expiresAt.value <= r.expiredAt.value)
  }

  predicate RowOk(r: Row) {
    BudgetOk(r) && StampsOk(r)
  }

  predicate RowsOk(s: State) {
    && s.rows.Keys <= s.used
    && forall id :: id in s.rows ==> RowOk(s.rows[id]) && s.rows[id].createdAt <= s.now
  }

  predicate KeysOk(s: State) {
    forall a, b :: a in s.rows && b in s.rows && a != b ==> !SameKey(s.rows[a].made, s.rows[b].made)
  }

  predicate JobOk(s: State, j: Job) {
    && j.id in s.used && 1 <= j.attempts <= Cap(j.maxAttempts) && j.since <= s.now
    && (j.id in s.rows ==> j.maxAttempts == s.rows[j.id].made.maxAttempts)
  }

  predicate JobsOk(s: State) {
    forall w :: w in s.jobs ==> JobOk(s, s.jobs[w])
  }

  /** An open claim still sees its rows as it selected them, and shares none of them. */
  predicate ClaimOk(s: State, d: nat, id: Id)
    requires d in s.claims
  {
    s.claims[d].Holds(id) ==>
      && id in s.rows
      && (id in s.claims[d].expired ==> Waiting(s.rows[id]) && PastDeadline(s.rows[id], s.claims[d].at))
      && (id in s.claims[d].taken ==> Claimable(s.rows[id], s.claims[d].at) && id !in s.claims[d].expired)
  }

  ghost predicate ClaimsOk(s: State) {
    && (forall d :: d in s.claims ==> NoDup(s.claims[d].taken) && s.claims[d].at <= s.now)
    && (forall d, id :: d in s.claims && s.claims[d].Holds(id) ==> ClaimOk(s, d, id))
    && (forall d, e, id :: d in s.claims && e in s.claims && s.claims[d].Holds(id) && s.claims[e].Holds(id) ==> d == e)
  }

  ghost predicate Inv(s: State) {
    RowsOk(s) && KeysOk(s) && JobsOk(s) && ClaimsOk(s)
  }

  /** Rows a step leaves behind are touched old rows, or the one it creates. */
  lemma RowAfter(s: State, step: Step, id: Id)
    requires s.rows.Keys <= s.used && Enabled(s, step) && id in Apply(s, step).rows
    ensures id in s.rows ==>
      !Deletes(step, s.rows[id]) && Apply(s, step).rows[id] == Touch(s, step, id, s.rows[id])
    ensures id !in s.rows ==>
      step.Create? && step.id == id && id !in s.used && Apply(s, step).rows[id] == NewRow(step.made, s.now)
  {
  }

  /** No commit rewrites what the producer asked for. */
  lemma CreationIsKept(s: State, step: Step, id: Id)
    requires id in s.rows
    ensures Touch(s, step, id, s.rows[id]).made == s.rows[id].made
    ensures Touch(s, step, id, s.rows[id]).createdAt == s.rows[id].createdAt
  {
  }

  lemma BeginKeepsRow(r: Row, now: Time)
    requires RowOk(r)
    ensures RowOk(BeginRow(r, now))
  {
  }

  lemma FinishKeepsRow(r: Row, attempts: int, maxAttempts: int, result: HandlerResult, now: Time)
    requires RowOk(r)
    ensures RowOk(FinishRow(r, attempts, maxAttempts, result, now))
  {
  }

  lemma PassKeepsRow(p: Pass, r: Row)
    requires RowOk(r)
    ensures RowOk(RecoverRow(p, r)) && RowOk(BuryRow(p, r)) && RowOk(SweepRow(p, r))
  {
    assert RowOk(RecoverRow(p, r));
  }

  lemma OperatorKeepsRow(status: TaskStatus, filter: Option<string>, r: Row)
    requires RowOk(r)
    ensures RowOk(ReleaseRow(r)) && RowOk(RetryRow(r)) && RowOk(BulkRetryRow(status, filter, r)) && RowOk(KillRow(r))
  {
  }

  /** Where a step names rows by id, they are what its select saw: past the deadline it expires
      them for, or claimable at the instant it claims them. */
  predicate PicksFit(s: State, step: Step, id: Id, r: Row) {
    && (step.ClaimCommit? && step.dispatcher in s.claims && id in s.claims[step.dispatcher].expired
        ==> Waiting(r) && PastDeadline(r, s.claims[step.dispatcher].at))
    && (step.ClaimCommit? && step.dispatcher in s.claims && id in s.claims[step.dispatcher].taken
        ==> Claimable(r, s.claims[step.dispatcher].at))
    && (step.SweepExpired? && id in step.picked ==> PastDeadline(r, step.at))
  }

  lemma PicksDoFit(s: State, step: Step, id: Id)
    requires ClaimsOk(s) && Enabled(s, step) && id in s.rows
    ensures PicksFit(s, step, id, s.rows[id])
  {
    if step.ClaimCommit? && s.claims[step.dispatcher].Holds(id) {
      assert s.claims[step.dispatcher].Holds(id);
      assert ClaimOk(s, step.dispatcher, id);
    }
    if step.SweepExpired? && id in step.picked {
      assert id in Elements(step.picked);
    }
  }

  lemma TouchKeepsRow(s: State, step: Step, id: Id, r: Row)
    requires RowOk(r) && PicksFit(s, step, id, r)
    ensures RowOk(Touch(s, step, id, r))
  {
    match step
    case Begin(_, _) => BeginKeepsRow(r, s.now);
    case Finish(w, result) =>
      if w in s.jobs { FinishKeepsRow(r, s.jobs[w].attempts, s.jobs[w].maxAttempts, result, s.now); }
    case SweepRecover(k) => if k in s.sweeps { PassKeepsRow(s.sweeps[k].pass, r); }
    case SweepBury(k) => if k in s.sweeps { PassKeepsRow(s.sweeps[k].pass, r); }
    case SweepLocked(pass, _, _, _, _) => PassKeepsRow(pass, r);
    case BulkRetry(status, filter) => OperatorKeepsRow(status, filter, r);
    case Release(_) => OperatorKeepsRow(r.status, None, r);
    case Retry(_) => OperatorKeepsRow(r.status, None, r);
    case Kill(_) => OperatorKeepsRow(r.status, None, r);
    case _ =>
  }

  lemma StepKeepsRows(s: State, step: Step)
    requires Inv(s) && Enabled(s, step)
    ensures RowsOk(Apply(s, step))
  {
    var t := Apply(s, step);
    forall id | id in t.rows
      ensures id in t.used && RowOk(t.rows[id]) && t.rows[id].createdAt <= t.now
    {
      RowAfter(s, step, id);
      if id in s.rows {
        PicksDoFit(s, step, id);
        TouchKeepsRow(s, step, id, s.rows[id]);
        CreationIsKept(s, step, id);
      }
    }
  }

  lemma StepKeepsKeys(s: State, step: Step)
    requires s.rows.Keys <= s.used && KeysOk(s) && Enabled(s, step)
    ensures KeysOk(Apply(s, step)) && Apply(s, step).rows.Keys <= Apply(s, step).used
  {
    var t := Apply(s, step);
    forall a, b | a in t.rows && b in t.rows && a != b ensures !SameKey(t.rows[a].made, t.rows[b].made) {
      RowAfter(s, step, a);
      RowAfter(s, step, b);
      if a in s.rows { CreationIsKept(s, step, a); }
      if b in s.rows { CreationIsKept(s, step, b); }
    }
  }

  /** The handlers live after a step: the one it starts, and those it does not end. */
  lemma LiveJobs(s: State, step: Step, w: nat)
    requires Allowed(s, step) && w in Apply(s, step).jobs
    ensures var j := Apply(s, step).jobs[w];
      || (w in s.jobs && j == s.jobs[w])
      || (w !in s.jobs && StartsHandler(s, step, j.id) && step.worker == w
          && j == Job(j.id, s.rows[j.id].attempts + 1, s.rows[j.id].made.maxAttempts, s.now))
    ensures s.used <= Apply(s, step).used && s.now <= Apply(s, step).now
  {
  }

  lemma StepKeepsJobs(s: State, step: Step)
    requires Inv(s) && Enabled(s, step)
    ensures JobsOk(Apply(s, step))
  {
    forall w | w in Apply(s, step).jobs ensures JobOk(Apply(s, step), Apply(s, step).jobs[w]) {
      LiveJobs(s, step, w);
      var id := Apply(s, step).jobs[w].id;
      if id in Apply(s, step).rows {
        RowAfter(s, step, id);
        if id in s.rows { CreationIsKept(s, step, id); }
      }
    }
  }

  lemma UsedGrows(s: State, step: Step)
    ensures s.used <= Apply(s, step).used
  {
  }

  /** Every row that is not deleted is touched. */
  lemma RowIsTouched(s: State, step: Step, id: Id)
    requires s.rows.Keys <= s.used && Allowed(s, step) && id in s.rows && !Deletes(step, s.rows[id])
    ensures id in Apply(s, step).rows && Apply(s, step).rows[id] == Touch(s, step, id, s.rows[id])
  {
  }

  /** An open claim's row is still there after any step but its own commit, unchanged. */
  lemma LockedRowStays(s: State, step: Step, d: nat, id: Id)
    requires Inv(s) && Enabled(s, step) && d in s.claims && s.claims[d].Holds(id) && step != ClaimCommit(d)
    ensures id in s.rows && id in Apply(s, step).rows && Apply(s, step).rows[id] == s.rows[id]
  {
    assert ClaimOk(s, d, id);
    RowIsTouched(s, step, id);
  }

  /** SKIP LOCKED: what a new claim picks is in the right state and in no open claim. */
  lemma NewClaimIsOk(s: State, step: Step, id: Id)
    requires Inv(s) && Enabled(s, step) && step.ClaimSelect? && (id in step.expired || id in step.taken)
    ensures id in s.rows && (step.queues.Some? ==> s.rows[id].made.queue in step.queues.value)
    ensures id in step.expired ==> Waiting(s.rows[id]) && PastDeadline(s.rows[id], step.at)
    ensures id in step.taken ==> Claimable(s.rows[id], step.at) && id !in step.expired
    ensures forall d :: d in s.claims ==> !s.claims[d].Holds(id)
  {
    assert id in step.taken ==> id in Elements(step.taken);
    assert id !in step.locked;
  }

  /** The claims open after a step: the one it opens, and those it does not close. */
  lemma OpenClaims(s: State, step: Step, d: nat)
    requires Allowed(s, step) && ClaimsOk(s) && d in Apply(s, step).claims
    ensures var c := Apply(s, step).claims[d];
      && NoDup(c.taken) && c.at <= Apply(s, step).now && step != ClaimCommit(d)
      && (if step.ClaimSelect? && step.dispatcher == d
          then d !in s.claims && c == ClaimTx(step.at, step.expired, step.taken)
          else d in s.claims && c == s.claims[d])
  {
  }

  lemma ClaimStaysOk(s: State, step: Step, d: nat, id: Id)
    requires Inv(s) && Enabled(s, step) && d in Apply(s, step).claims && Apply(s, step).claims[d].Holds(id)
    ensures ClaimOk(Apply(s, step), d, id)
  {
    OpenClaims(s, step, d);
    if d in s.claims {
      LockedRowStays(s, step, d, id);
      assert ClaimOk(s, d, id);
    } else {
      NewClaimIsOk(s, step, id);
    }
  }

  lemma HeldByOne(s: State, step: Step, d: nat, e: nat, id: Id)
    requires Inv(s) && Enabled(s, step)
    requires d in Apply(s, step).claims && Apply(s, step).claims[d].Holds(id)
    requires e in Apply(s, step).claims && Apply(s, step).claims[e].Holds(id)
    ensures d == e
  {
    OpenClaims(s, step, d);
    OpenClaims(s, step, e);
    if d !in s.claims || e !in s.claims {
      NewClaimIsOk(s, step, id);
    }
  }

  lemma StepKeepsClaims(s: State, step: Step)
    requires Inv(s) && Enabled(s, step)
    ensures ClaimsOk(Apply(s, step))
  {
    var t := Apply(s, step);
    forall d, id | d in t.claims && t.claims[d].Holds(id) ensures ClaimOk(t, d, id) {
      ClaimStaysOk(s, step, d, id);
    }
    forall d, e, id | d in t.claims && e in t.claims && t.claims[d].Holds(id) && t.claims[e].Holds(id) ensures d == e {
      HeldByOne(s, step, d, e, id);
    }
    forall d | d in t.claims ensures NoDup(t.claims[d].taken) && t.claims[d].at <= t.now {
      OpenClaims(s, step, d);
    }
  }

  lemma StepKeepsInv(s: State, step: Step)
    requires Inv(s) && Enabled(s, step)
    ensures Inv(Apply(s, step))
  {
    StepKeepsRows(s, step);
    StepKeepsKeys(s, step);
    StepKeepsJobs(s, step);
    StepKeepsClaims(s, step);
  }

  lemma {:induction false} RunKeepsInv(r: Run, k: nat)
    requires r.Valid() && k < |r.states|
    ensures Inv(r.states[k])
  {
    if k == 0 {
    } else {
      RunKeepsInv(r, k - 1);
      assert r.Follows(k - 1);
      StepKeepsInv(r.states[k - 1], r.steps[k - 1]);
    }
  }

  /** The k-th step of a run. */
  lemma RunLink(r: Run, k: nat)
    requires r.Valid() && 0 < k <= |r.steps|
    ensures Inv(r.states[k - 1]) && Enabled(r.states[k - 1], r.steps[k - 1])
    ensures r.states[k] == Apply(r.states[k - 1], r.steps[k - 1])
  {
    RunKeepsInv(r, k - 1);
    assert r.Follows(k - 1);
  }

  /** The ids a run has used are used for good, and those without a row stay without one. */
  lemma RunUsed(r: Run, k: nat, id: Id)
    requires r.Valid() && 0 < k <= |r.steps| && id in r.states[k - 1].used
    ensures id in r.states[k].used && (id !in r.states[k - 1].rows ==> id !in r.states[k].rows)
  {
    RunLink(r, k);
    UsedGrows(r.states[k - 1], r.steps[k - 1]);
    if id in r.states[k].rows {
      RowAfter(r.states[k - 1], r.steps[k - 1], id);
    }
  }

  /** The k-th step of a run, seen from one row that exists after it. */
  lemma RunStep(r: Run, k: nat, id: Id)
    requires r.Valid() && 0 < k <= |r.steps| && id in r.states[k].rows
    ensures Inv(r.states[k - 1]) && Enabled(r.states[k - 1], r.steps[k - 1]) && RowOk(r.states[k].rows[id])
    ensures id in r.states[k - 1].rows ==>
      && r.states[k].rows[id] == Touch(r.states[k - 1], r.steps[k - 1], id, r.states[k - 1].rows[id])
      && r.states[k].rows[id].made == r.states[k - 1].rows[id].made
      && RowOk(r.states[k - 1].rows[id])
      && PicksFit(r.states[k - 1], r.steps[k - 1], id, r.states[k - 1].rows[id])
    ensures id !in r.states[k - 1].rows ==>
      && r.steps[k - 1].Create? && id !in r.states[k - 1].used
      && r.states[k].rows[id] == NewRow(r.steps[k - 1].made, r.states[k - 1].now)
  {
    var s, step := r.states[k - 1], r.steps[k - 1];
    RunLink(r, k);
    RunKeepsInv(r, k);
    RowAfter(s, step, id);
    if id in s.rows {
      PicksDoFit(s, step, id);
      CreationIsKept(s, step, id);
    }
  }
}
