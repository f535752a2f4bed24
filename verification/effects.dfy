/** What each commit does to a row, column by column, and that the transition table is exactly what the
    commits do. */
module Effects {
  import opened Common
  import opened States
  import opened Policy
  import opened Rows
  import Queries
  import opened Protocol
  import opened Invariants
  import opened Outcomes

  // --- producers ---

  /** A created row waits, untried, for the schedule it was created with. */
  lemma CreateWrites(s: State, id: Id, made: Creation)
    ensures var t := Apply(s, Create(id, made)).rows;
      && t.Keys == s.rows.Keys + {id} && (forall x :: x in s.rows && x != id ==> t[x] == s.rows[x])
      && t[id].made == made && t[id].createdAt == s.now && t[id].status == Pending && t[id].attempts == 0
      && t[id].scheduledFor == made.scheduledFor && t[id].error == "" && t[id].dispatchingAt.None?
      && t[id].startedAt.None? && t[id].completedAt.None? && t[id].expiredAt.None?
  {
  }

  /** A creation is possible exactly under a fresh id and a key that no row of the type has. */
  lemma CreateIsAllowed(s: State, id: Id, made: Creation)
    ensures Allowed(s, Create(id, made)) <==>
      && id !in s.used
      && forall x :: x in s.rows ==>
           made.key.None? || made.key != s.rows[x].made.key || made.taskType != s.rows[x].made.taskType
  {
    forall x | x in s.rows
      ensures Queries.SameKey(made, s.rows[x].made) <==>
        !(made.key.None? || made.key != s.rows[x].made.key || made.taskType != s.rows[x].made.taskType)
    {
    }
  }

  /** Nothing but the row locks of open claims keeps a delivery, an operator or a release waiting: any id may
      be delivered to an idle worker, retried, killed or released at any time. */
  lemma CallsAreAllowed(s: State, w: nat, id: Id, ids: set<Id>, status: TaskStatus, filter: Option<string>,
                        threshold: Time)
    requires s.claims == map[]
    ensures w !in s.jobs ==> Enabled(s, Begin(w, id))
    ensures w in s.jobs ==> forall result :: Enabled(s, Finish(w, result))
    ensures Enabled(s, Protocol.Release(ids)) && Enabled(s, Retry(id)) && Enabled(s, Kill(id))
    ensures Enabled(s, BulkRetry(status, filter)) && Enabled(s, Purge(threshold, filter))
  {
  }

  /** Time passes, handlers crash and claims end as they may. */
  lemma LocalStepsAreAllowed(s: State, d: Time, w: nat, k: nat)
    ensures Enabled(s, Tick(d)) <==> d >= 0.0
    ensures Enabled(s, Crash(w)) <==> w in s.jobs
    ensures Enabled(s, ClaimAbort(k)) <==> k in s.claims
    ensures k in s.claims && (forall e :: e in s.claims ==> e == k) ==> Enabled(s, ClaimCommit(k))
  {
  }

  /** Phase 1 would start a handler on the row. */
  predicate MayStart(s: State, id: Id) {
    && id in s.rows && (s.rows[id].status == Pending || s.rows[id].status == Dispatching)
    && (s.rows[id].made.expiresAt.Some? ==> s.now < s.rows[id].made.expiresAt.value)
    && (s.rows[id].scheduledFor.Some? ==> s.rows[id].scheduledFor.value <= s.now)
  }

  /** What a step does beside the rows: the clock, the ids used, the live handlers with the counts they cache,
      the open claims and the open sweeps. */
  lemma StepsBesideRows(s: State, step: Protocol.Step)
    ensures var t := Apply(s, step);
      && t.now == (if step.Tick? then s.now + step.d else s.now)
      && t.used == (if step.Create? then s.used + {step.id} else s.used)
      && t.jobs == (if step.Finish? || step.Crash? then s.jobs - {step.worker}
                    else if step.Begin? && MayStart(s, step.id) then
                      s.jobs[step.worker :=
                        Job(step.id, s.rows[step.id].attempts + 1, s.rows[step.id].made.maxAttempts, s.now)]
                    else s.jobs)
      && t.claims == (if step.ClaimSelect? then
                        s.claims[step.dispatcher := ClaimTx(step.at, step.expired, step.taken)]
                      else if step.ClaimCommit? || step.ClaimAbort? then s.claims - {step.dispatcher} else s.claims)
      && t.sweeps == (if step.SweepRead? then s.sweeps[step.sweeper := SweepTx(step.pass, step.picked)]
                      else if step.SweepBury? then s.sweeps - {step.sweeper} else s.sweeps)
    ensures step.Tick? || step.ClaimSelect? || step.ClaimAbort? || step.Crash? || step.SweepRead? ==>
      Apply(s, step).rows == s.rows
  {
  }

  /** In no reachable state do two rows of one type share a key. */
  lemma KeysAreUnique(r: Run, k: nat, a: Id, b: Id)
    requires r.Valid() && k <= |r.steps| && a in r.states[k].rows && b in r.states[k].rows && a != b
    ensures var x, y := r.states[k].rows[a].made, r.states[k].rows[b].made;
      x.key.None? || x.key != y.key || x.taskType != y.taskType
  {
    RunKeepsInv(r, k);
    assert !Queries.SameKey(r.states[k].rows[a].made, r.states[k].rows[b].made);
  }

  // --- dispatchers ---

  /** A claim's commit dispatches what it took, at the claim's instant, and expires what was overdue. */
  lemma ClaimCommitWrites(s: State, d: nat, id: Id)
    requires Inv(s) && Enabled(s, ClaimCommit(d)) && id in s.rows
    ensures var t := Apply(s, ClaimCommit(d)).rows;
      && t.Keys == s.rows.Keys
      && (id in s.claims[d].taken ==>
            t[id] == s.rows[id].(status := Dispatching, dispatchingAt := Some(s.claims[d].at)))
      && (id in s.claims[d].expired ==>
            t[id] == s.rows[id].(status := Expired, expiredAt := Some(s.claims[d].at), dispatchingAt := None))
      && (id !in s.claims[d].taken && id !in s.claims[d].expired ==> t[id] == s.rows[id])
  {
    if s.claims[d].Holds(id) {
      assert ClaimOk(s, d, id);
    }
  }

  lemma ReleaseWrites(s: State, ids: set<Id>, id: Id)
    requires Enabled(s, Release(ids)) && id in s.rows
    ensures var t := Apply(s, Release(ids)).rows;
      && t.Keys == s.rows.Keys
      && t[id] == if id in ids && s.rows[id].status == Dispatching
                  then s.rows[id].(status := Pending, dispatchingAt := None) else s.rows[id]
  {
  }

  // --- workers ---

  /** Phase 1 expires an overdue row, leaves one that is early or not waiting for a worker, and starts
      the others; it touches no other row. */
  lemma BeginWrites(s: State, w: nat, id: Id, x: Id)
    requires Enabled(s, Begin(w, id)) && x in s.rows
    ensures var r, t := s.rows[x], Apply(s, Begin(w, id)).rows;
      && t.Keys == s.rows.Keys
      && t[x] ==
         if x != id || (r.status != Pending && r.status != Dispatching) then r
         else if r.made.expiresAt.Some? && r.made.expiresAt.value <= s.now then
           r.(status := Expired, expiredAt := Some(s.now), dispatchingAt := None)
         else if r.scheduledFor.Some? && r.scheduledFor.value > s.now then r
         else r.(status := Processing, startedAt := Some(s.now), dispatchingAt := None, attempts := r.attempts + 1)
  {
  }

  /** A handler that returns completes its row, if that is still PROCESSING. */
  lemma SuccessWrites(s: State, w: nat, x: Id)
    requires Enabled(s, Finish(w, Returned)) && x in s.rows
    ensures var r, t := s.rows[x], Apply(s, Finish(w, Returned)).rows;
      && t.Keys == s.rows.Keys
      && t[x] == if x == s.jobs[w].id && r.status == Processing
                 then r.(status := Completed, completedAt := Some(s.now), error := "") else r
  {
  }

  /** The exception is an instance of one of these classes. */
  predicate Meets(exc: Exc, classes: set<string>) {
    exists c :: c in exc.classes && c in classes
  }

  /** The row has failed and is to be retried at the later of two instants. */
  predicate RetriesAt(before: Row, after: Row, message: string, a: Time, b: Time) {
    && after == before.(status := TaskStatus.Failed, error := message, scheduledFor := after.scheduledFor)
    && after.scheduledFor.Some? && after.scheduledFor.value >= a && after.scheduledFor.value >= b
    && (after.scheduledFor.value == a || after.scheduledFor.value == b)
  }

  /** The verdict on a handler that raises, its row still PROCESSING. Without a RetryAfter, a class the
      policy fails fast on buries the row whatever budget is left, and so does the lack of a class to
      retry on when the policy names some. Otherwise the row is to be retried exactly when the cached
      count is below the cached budget, no earlier than the policy's wait and the wait asked for. */
  lemma FailureWrites(s: State, w: nat, exc: Exc, policy: TaskPolicy, delay: Time, message: string)
    requires Enabled(s, Finish(w, Raised(exc, policy, delay, message)))
    requires s.jobs[w].id in s.rows && s.rows[s.jobs[w].id].status == Processing
    ensures var job, r := s.jobs[w], s.rows[s.jobs[w].id];
      var t := Apply(s, Finish(w, Raised(exc, policy, delay, message))).rows;
      && t.Keys == s.rows.Keys
      && (exc.retryAfter.None? && Meets(exc, policy.failFastOn) ==> t[job.id] == r.(status := Dead, error := message))
      && (exc.retryAfter.None? && policy.retryOn != {} && !Meets(exc, policy.retryOn) ==>
            t[job.id] == r.(status := Dead, error := message))
      && (exc.retryAfter.Some?
          || (!Meets(exc, policy.failFastOn) && (policy.retryOn == {} || Meets(exc, policy.retryOn))) ==>
            if job.attempts >= job.maxAttempts then t[job.id] == r.(status := Dead, error := message)
            else RetriesAt(r, t[job.id], message, s.now + delay,
                           if exc.retryAfter.Some? then s.now + exc.retryAfter.value else s.now + delay))
  {
    MeetsIsOverlap(exc, policy.failFastOn);
    MeetsIsOverlap(exc, policy.retryOn);
  }

  lemma MeetsIsOverlap(exc: Exc, classes: set<string>)
    ensures Meets(exc, classes) <==> exc.classes * classes != {}
  {
    if Meets(exc, classes) {
      var c :| c in exc.classes && c in classes;
      assert c in exc.classes * classes;
    } else {
      assert forall c :: c in exc.classes * classes ==> c in exc.classes && c in classes;
    }
  }

  /** A result for a row that is no longer PROCESSING, or for another row, writes nothing. */
  lemma LateResultWrites(s: State, w: nat, result: HandlerResult, x: Id)
    requires Enabled(s, Finish(w, result)) && x in s.rows
    requires x != s.jobs[w].id || s.rows[x].status != Processing
    ensures x in Apply(s, Finish(w, result)).rows && Apply(s, Finish(w, result)).rows[x] == s.rows[x]
  {
  }

  // --- recovery ---

  /** The status a pass takes rows from, and what it leaves in one: PENDING while attempts are left and
      DEAD otherwise, its schedule and counts untouched; a reclaimed dispatch forgets its instant. */
  function TakesFrom(p: Pass): TaskStatus {
    match p
    case FailedPass => TaskStatus.Failed
    case DispatchingPass => Dispatching
    case StuckPass => Processing
  }

  function Reclaimed(p: Pass, r: Row): Row {
    var moved := r.(status := if r.attempts < r.made.maxAttempts then Pending else Dead);
    if p == DispatchingPass then moved.(dispatchingAt := None) else moved
  }

  lemma LockedPassWrites(s: State, pass: Pass, at: Time, age: Time, limit: nat, picked: seq<Id>, x: Id)
    requires Enabled(s, SweepLocked(pass, at, age, limit, picked)) && x in s.rows
    ensures var t := Apply(s, SweepLocked(pass, at, age, limit, picked)).rows;
      && t.Keys == s.rows.Keys && t[x] == if x in picked then Reclaimed(pass, s.rows[x]) else s.rows[x]
    ensures x in picked ==> s.rows[x].status == TakesFrom(pass)
  {
    assert x in picked ==> x in Elements(picked);
  }

  /** The two guarded updates of an unlocked pass take only rows still in its status: the first those
      with attempts left, the second the others. */
  lemma UnlockedPassWrites(s: State, k: nat, x: Id)
    requires k in s.sweeps && x in s.rows
    ensures var r, pass := s.rows[x], s.sweeps[k].pass;
      var taken := x in s.sweeps[k].ids && r.status == TakesFrom(pass);
      && x in Apply(s, SweepRecover(k)).rows && x in Apply(s, SweepBury(k)).rows
      && Apply(s, SweepRecover(k)).rows[x]
         == (if taken && r.attempts < r.made.maxAttempts then Reclaimed(pass, r) else r)
      && Apply(s, SweepBury(k)).rows[x]
         == (if taken && r.attempts >= r.made.maxAttempts then Reclaimed(pass, r) else r)
  {
  }

  /** sweep_expired stamps exactly the rows it selected. */
  lemma DeadlineSweepWrites(s: State, at: Time, limit: nat, locked: set<Id>, picked: seq<Id>, x: Id)
    requires Enabled(s, SweepExpired(at, limit, locked, picked)) && x in s.rows
    ensures var t := Apply(s, SweepExpired(at, limit, locked, picked)).rows;
      && t.Keys == s.rows.Keys
      && t[x] == if x in picked then s.rows[x].(status := Expired, expiredAt := Some(at), dispatchingAt := None)
                 else s.rows[x]
  {
    assert x in picked ==> x in Elements(picked);
  }

  // --- operators ---

  /** A retry puts a row back from DISPATCHING, PROCESSING, FAILED and DEAD, with no schedule, no error
      and no attempts used, and touches nothing else. */
  lemma RetryWrites(s: State, id: Id, x: Id)
    requires Enabled(s, Retry(id)) && x in s.rows
    ensures var r, t := s.rows[x], Apply(s, Retry(id)).rows;
      && t.Keys == s.rows.Keys
      && t[x] == if x == id && (r.status == Dispatching || r.status == Processing
                                || r.status == TaskStatus.Failed || r.status == Dead)
                 then r.(status := Pending, scheduledFor := None, error := "", attempts := 0) else r
    ensures RetriesRow(s, Retry(id), x) <==>
      x == id && (s.rows[x].status == Dispatching || s.rows[x].status == Processing
                  || s.rows[x].status == TaskStatus.Failed || s.rows[x].status == Dead)
  {
  }

  /** A bulk retry does so to every row of the status, and of the type if one is named. */
  lemma BulkRetryWrites(s: State, status: TaskStatus, filter: Option<string>, x: Id)
    requires Enabled(s, BulkRetry(status, filter)) && x in s.rows
    ensures var r, t := s.rows[x], Apply(s, BulkRetry(status, filter)).rows;
      && t.Keys == s.rows.Keys
      && t[x] ==
         if r.status == status && (filter.None? || filter.value == "" || filter.value == r.made.taskType)
            && (status == Dispatching || status == Processing || status == TaskStatus.Failed || status == Dead)
         then r.(status := Pending, scheduledFor := None, error := "", attempts := 0) else r
    ensures RetriesRow(s, BulkRetry(status, filter), x) <==>
      && s.rows[x].status == status && (filter.None? || filter.value == "" || filter.value == s.rows[x].made.taskType)
      && (status == Dispatching || status == Processing || status == TaskStatus.Failed || status == Dead)
  {
  }

  /** A kill ends every row that has not ended in DEAD, and touches nothing else. */
  lemma KillWrites(s: State, id: Id, x: Id)
    requires Enabled(s, Kill(id)) && x in s.rows
    ensures var r, t := s.rows[x], Apply(s, Kill(id)).rows;
      && t.Keys == s.rows.Keys
      && t[x] == if x == id && r.status != Completed && r.status != Expired then r.(status := Dead) else r
  {
  }

  /** A purge drops the rows completed before the threshold, of the type if one is named, and no other. */
  lemma PurgeWrites(s: State, threshold: Time, filter: Option<string>, x: Id)
    requires Enabled(s, Purge(threshold, filter)) && x in s.rows
    ensures var r, t := s.rows[x], Apply(s, Purge(threshold, filter)).rows;
      && (x !in t <==>
            && r.status == Completed && r.completedAt.Some? && r.completedAt.value < threshold
            && (filter.None? || filter.value == "" || filter.value == r.made.taskType))
      && (x in t ==> t[x] == r)
  {
  }

  // --- the table ---

  /** A one-row ledger in which worker 0 runs the row's handler, dispatcher 0 has taken or expired it, and
      sweep 0 has read it as stuck or as failed. */
  function Scene(row: Row, expires: bool, pass: Pass): State {
    State(1.0, map[0 := row], {0}, map[0 := Job(0, 1, 2, 0.0)],
          map[0 := ClaimTx(1.0, if expires then {0} else {}, if expires then [] else [0])],
          map[0 := SweepTx(pass, [0])])
  }

  /** A row of the given status with one of two attempts used, overdue or not. */
  function Example(status: TaskStatus, overdue: bool): Row {
    Row(Creation("", [], [], "", 0, 2, Some(0.0), if overdue then Some(1.0) else None, None), 0.0, status, 1, "",
        Some(0.0), None, None, None, None)
  }

  const FAILURE := Raised(Exc({}, None), TaskPolicy("", 0, 1, Constant(0.0, 0.0), {}, {}), 0.0, "")

  /** A commit that makes this move. */
  function MoveBy(a: TaskStatus, b: TaskStatus): Step {
    match b
    case Pending =>
      if a == Dispatching then Release({0}) else if a == Dead then Retry(0) else SweepRecover(0)
    case Dispatching => ClaimCommit(0)
    case Processing => Begin(1, 0)
    case Completed => Finish(0, Returned)
    case Failed => Finish(0, FAILURE)
    case Dead => Kill(0)
    case Expired => if a == Dispatching then Begin(1, 0) else ClaimCommit(0)
  }

  /** Some commit moves a row from a to b; PicksFit says that a claim or sweep sees what it selected. */
  ghost predicate CommitsMove(a: TaskStatus, b: TaskStatus) {
    exists s: State, step: Step, id: Id, r: Row ::
      PicksFit(s, step, id, r) && r.status == a && Touch(s, step, id, r).status == b
  }

  /** The table lists exactly the moves the commits make. */
  lemma TableIsExact(a: TaskStatus, b: TaskStatus)
    requires a != b
    ensures a.CanTransitionTo(b) <==> CommitsMove(a, b)
  {
    if a.CanTransitionTo(b) {
      MoveIsMade(a, b);
    }
    if CommitsMove(a, b) {
      var s, step, id, r: Row :| PicksFit(s, step, id, r) && r.status == a && Touch(s, step, id, r).status == b;
      TouchFollowsTable(s, step, id, r);
    }
  }

  lemma MoveIsMade(a: TaskStatus, b: TaskStatus)
    requires a != b && a.CanTransitionTo(b)
    ensures CommitsMove(a, b)
  {
    var overdue := b == Expired;
    var r := Example(a, overdue);
    var s := Scene(r, overdue, if a == Processing then StuckPass else FailedPass);
    assert PicksFit(s, MoveBy(a, b), 0, r) && Touch(s, MoveBy(a, b), 0, r).status == b;
  }

  /** A terminal status is one that no commit but an operator's retry moves a row out of. */
  lemma TerminalExactly(a: TaskStatus)
    ensures a.IsTerminal() <==>
      forall s: State, step: Step, id: Id, r: Row ::
        PicksFit(s, step, id, r) && r.status == a && !step.Retry? && !step.BulkRetry? ==>
          Touch(s, step, id, r).status == a
  {
    if a.IsTerminal() {
      forall s: State, step: Step, id: Id, r: Row
        | PicksFit(s, step, id, r) && r.status == a && !step.Retry? && !step.BulkRetry?
        ensures Touch(s, step, id, r).status == a
      {
        TerminalRests(s, step, id, r);
      }
    } else {
      var r := Example(a, false);
      var s := Scene(r, false, FailedPass);
      assert PicksFit(s, Kill(0), 0, r) && Touch(s, Kill(0), 0, r).status == Dead;
    }
  }

  lemma TerminalRests(s: State, step: Step, id: Id, r: Row)
    requires PicksFit(s, step, id, r) && r.status.IsTerminal() && !step.Retry? && !step.BulkRetry?
    ensures Touch(s, step, id, r).status == r.status
  {
    match step
    case SweepLocked(_, _, _, _, _) =>
    case Finish(_, _) =>
    case _ =>
  }
}
