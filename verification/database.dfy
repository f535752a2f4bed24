/** The ledger as its callers use it: each method is a transaction, or one of the functions that
    span several, written as the code writes rows and proved to be a step or run of the protocol. */
module Database {
  import opened Common
  import opened States
  import opened Policy
  import opened Execution
  import opened Rows
  import opened Selection
  import opened Queries
  import opened Protocol
  import opened Runs
  import opened Producer
  import opened Convergence
  import opened Passes
  import Claims
  import Invariants
  import Outcomes

  /** A step that can write one row only writes that row. */
  lemma OneRow(s: State, step: Protocol.Step, id: Id)
    requires !step.Purge?
    requires forall x :: x in s.rows && x != id ==> Touch(s, step, x, s.rows[x]) == s.rows[x]
    ensures TouchAll(s, step) == if id in s.rows then s.rows[id := Touch(s, step, id, s.rows[id])] else s.rows
  {
  }

  /** Phase 1 on a row that it does not start. */
  lemma BeginWrites(s: State, w: nat, id: Id)
    requires !StartsHandler(s, Begin(w, id), id)
    ensures Apply(s, Begin(w, id))
      == s.(rows := if id in s.rows then s.rows[id := BeginRow(s.rows[id], s.now)] else s.rows)
  {
    OneRow(s, Begin(w, id), id);
  }

  /** Phase 1 on a row that it starts. */
  lemma StartWrites(s: State, w: nat, id: Id)
    requires StartsHandler(s, Begin(w, id), id)
    ensures Apply(s, Begin(w, id)) == s.(
      rows := s.rows[id := BeginRow(s.rows[id], s.now)],
      jobs := s.jobs[w := Job(id, s.rows[id].attempts + 1, s.rows[id].made.maxAttempts, s.now)])
  {
    OneRow(s, Begin(w, id), id);
  }

  lemma {:induction false} KeysStay(s: State, steps: seq<Protocol.Step>)
    requires s.rows.Keys <= s.used && Invariants.KeysOk(s) && Enables(s, steps)
    ensures Invariants.KeysOk(Exec(s, steps))
    decreases |steps|
  {
    if steps == [] {
    } else {
      Invariants.StepKeepsKeys(s, steps[0]);
      KeysStay(Apply(s, steps[0]), steps[1..]);
    }
  }

  lemma {:induction false} NoRowComesBack(s: State, steps: seq<Protocol.Step>, id: Id)
    requires s.rows.Keys <= s.used && id in s.used && id !in s.rows && Enables(s, steps)
    ensures id !in Exec(s, steps).rows
    decreases |steps|
  {
    if steps == [] {
    } else {
      OneStepOn(s, steps[0], id);
      NoRowComesBack(Apply(s, steps[0]), steps[1..], id);
    }
  }

  lemma OneStepOn(s: State, step: Protocol.Step, id: Id)
    requires s.rows.Keys <= s.used && id in s.used && Enabled(s, step)
    ensures Apply(s, step).rows.Keys <= Apply(s, step).used && id in Apply(s, step).used
    ensures id in Apply(s, step).rows ==> id in s.rows && Apply(s, step).rows[id].made == s.rows[id].made
  {
    Invariants.UsedGrows(s, step);
    forall x | x in Apply(s, step).rows ensures x in Apply(s, step).used {
      Invariants.RowAfter(s, step, x);
    }
    if id in Apply(s, step).rows {
      Invariants.RowAfter(s, step, id);
      Invariants.CreationIsKept(s, step, id);
    }
  }

  /** A row still there after others' commits was created as it was. */
  lemma {:induction false} MadeStays(s: State, steps: seq<Protocol.Step>, id: Id)
    requires s.rows.Keys <= s.used && id in s.rows && Enables(s, steps) && id in Exec(s, steps).rows
    ensures Exec(s, steps).rows[id].made == s.rows[id].made
    decreases |steps|
  {
    if steps == [] {
    } else {
      OneStepOn(s, steps[0], id);
      if id !in Apply(s, steps[0]).rows {
        NoRowComesBack(Apply(s, steps[0]), steps[1..], id);
      }
      MadeStays(Apply(s, steps[0]), steps[1..], id);
    }
  }

  /** The commit of a claim writes no row of a queue that the claim does not serve. */
  lemma ServesItsQueues(s: State, sel: Protocol.Step, env: seq<Protocol.Step>, id: Id)
    requires s.rows.Keys <= s.used && sel.ClaimSelect? && Allowed(s, sel) && Enables(Apply(s, sel), env)
    requires SparesClaim(env, sel.dispatcher) && id in Exec(Apply(s, sel), env).rows && sel.queues.Some?
    requires Exec(Apply(s, sel), env).rows[id].made.queue !in sel.queues.value
    ensures var commit := Apply(Exec(Apply(s, sel), env), ClaimCommit(sel.dispatcher));
      id in commit.rows && commit.rows[id] == Exec(Apply(s, sel), env).rows[id]
  {
    var t := Apply(s, sel);
    Claims.ClaimTakes(s, sel, id);
    Claims.ClaimExpires(s, sel, id);
    ClaimStays(t, env, sel.dispatcher);
    if id in sel.taken || id in sel.expired {
      MadeStays(t, env, id);
      assert false;
    }
  }

  /** Other processes' steps leave worker w's handler running. */
  predicate Others(steps: seq<Protocol.Step>, w: nat) {
    forall i :: 0 <= i < |steps| ==> steps[i] != Crash(w) && !(steps[i].Finish? && steps[i].worker == w)
  }

  lemma {:induction false} JobStays(s: State, steps: seq<Protocol.Step>, w: nat)
    requires w in s.jobs && Enables(s, steps) && Others(steps, w)
    ensures w in Exec(s, steps).jobs && Exec(s, steps).jobs[w] == s.jobs[w]
    decreases |steps|
  {
    if steps == [] {
    } else {
      assert steps[0] != Crash(w);
      assert forall i :: 0 <= i < |steps[1..]| ==> steps[1..][i] == steps[i + 1];
      JobStays(Apply(s, steps[0]), steps[1..], w);
    }
  }

  /** Other processes' steps leave an open claim, or a sweep between its statements, as it is. */
  predicate SparesClaim(steps: seq<Protocol.Step>, d: nat) {
    forall i :: 0 <= i < |steps| ==> steps[i] != ClaimCommit(d) && steps[i] != ClaimAbort(d)
  }

  lemma {:induction false} ClaimStays(s: State, steps: seq<Protocol.Step>, d: nat)
    requires d in s.claims && Enables(s, steps) && SparesClaim(steps, d)
    ensures d in Exec(s, steps).claims && Exec(s, steps).claims[d] == s.claims[d]
    decreases |steps|
  {
    if steps == [] {
    } else {
      assert steps[0] != ClaimCommit(d) && steps[0] != ClaimAbort(d);
      assert forall i :: 0 <= i < |steps[1..]| ==> steps[1..][i] == steps[i + 1];
      ClaimStays(Apply(s, steps[0]), steps[1..], d);
    }
  }

  predicate SparesSweep(steps: seq<Protocol.Step>, k: nat) {
    forall i :: 0 <= i < |steps| ==> steps[i] != SweepBury(k)
  }

  lemma {:induction false} SweepStays(s: State, steps: seq<Protocol.Step>, k: nat)
    requires k in s.sweeps && Enables(s, steps) && SparesSweep(steps, k)
    ensures k in Exec(s, steps).sweeps && Exec(s, steps).sweeps[k] == s.sweeps[k]
    decreases |steps|
  {
    if steps == [] {
    } else {
      assert steps[0] != SweepBury(k);
      assert forall i :: 0 <= i < |steps[1..]| ==> steps[1..][i] == steps[i + 1];
      SweepStays(Apply(s, steps[0]), steps[1..], k);
    }
  }

  lemma DroppedRows(t: Table, gone: set<Id>)
    requires gone <= t.Keys
    ensures |gone| == |t| - |t - gone|
  {
    assert (t - gone).Keys == t.Keys - gone;
    assert |t.Keys - gone| == |t.Keys| - |gone|;
    assert |(t - gone).Keys| == |t - gone| && |t.Keys| == |t|;
  }

  lemma PurgedRows(s: State, threshold: Time, filter: Option<string>, gone: set<Id>)
    requires gone == set id | id in s.rows && Purges(s.rows[id], threshold, filter)
    ensures TouchAll(s, Purge(threshold, filter)) == s.rows - gone
    ensures |gone| == |s.rows| - |s.rows - gone|
  {
    PurgedTable(s, threshold, filter, gone);
    DroppedRows(s.rows, gone);
  }

  lemma PurgedTable(s: State, threshold: Time, filter: Option<string>, gone: set<Id>)
    requires gone == set id | id in s.rows && Purges(s.rows[id], threshold, filter)
    ensures TouchAll(s, Purge(threshold, filter)) == s.rows - gone
  {
  }

  /** The statements of an unlocked pass find their rows unlocked, or have waited until they do. */
  predicate SweepCanRun(s: State, k: nat, between: seq<Protocol.Step>, after: seq<Protocol.Step>) {
    && Enables(s, between) && RespectsLocks(Exec(s, between), SweepRecover(k))
    && (var t := Apply(Exec(s, between), SweepRecover(k));
        Enables(t, after) && RespectsLocks(Exec(t, after), SweepBury(k)))
  }

  lemma AnswerByColumns(t: Table, pass: Pass, at: Time, age: Time, limit: nat, ids: seq<Id>)
    requires Selected(t, PassPool(t, pass, at, age), PassOrder(pass), limit, ids)
    ensures forall id :: id in ids ==> id in t && MayPass(pass, t[id], at, age)
    ensures forall id :: id in t && MayPass(pass, t[id], at, age) ==> id in ids || |ids| == limit
  {
    forall id
      ensures id in ids ==> id in t && MayPass(pass, t[id], at, age)
      ensures id in t && MayPass(pass, t[id], at, age) ==> id in ids || |ids| == limit
    {
      PassTakes(t, pass, at, age, limit, ids, id);
    }
  }

  lemma SweepByColumns(t: Table, c: Setting, limit: nat, w: Convergence.Sweep)
    requires IsSweep(t, c, limit, w)
    ensures forall id :: id in w.expired ==> id in t && Overdue(t[id], c.at)
    ensures forall id :: id in w.failed ==> id in t && MayPass(FailedPass, t[id], c.at, 0.0)
    ensures forall id :: id in w.dispatching ==> id in t && MayPass(DispatchingPass, t[id], c.at, c.timeout)
    ensures forall id :: id in w.stuck ==> id in t && MayPass(StuckPass, t[id], c.at, c.threshold)
  {
    PicksAreRows(t, c, limit, w);
    forall id | id in w.expired || id in w.failed || id in w.dispatching || id in w.stuck
      ensures id in t
      ensures id in w.expired ==> Overdue(t[id], c.at)
      ensures id in w.failed ==> MayPass(FailedPass, t[id], c.at, 0.0)
      ensures id in w.dispatching ==> MayPass(DispatchingPass, t[id], c.at, c.timeout)
      ensures id in w.stuck ==> MayPass(StuckPass, t[id], c.at, c.threshold)
    {
      assert id in Elements(w.expired) + Elements(w.failed) + Elements(w.dispatching) + Elements(w.stuck);
      SweepTakes(t, c, limit, w, id);
    }
  }

  /** A protocol pass is a pass of the convergence analysis. */
  lemma DeadlinePass(s: State, c: Setting, limit: nat, picked: seq<Id>)
    requires Allowed(s, SweepExpired(c.at, limit, {}, picked))
    ensures Picks(s.rows, Deadlines, c, limit, picked)
    ensures Apply(s, SweepExpired(c.at, limit, {}, picked)).rows == After(s.rows, Deadlines, c, picked)
  {
    assert Pool(s.rows, Deadlines, c) == DeadlinePool(s.rows, c.at, {});
    assert forall id :: id in picked ==> id in Elements(picked);
  }

  lemma LockedPass(s: State, pass: Pass, c: Setting, limit: nat, picked: seq<Id>)
    requires Allowed(s, SweepLocked(pass, c.at, AgeOf(c, pass), limit, picked))
    ensures Picks(s.rows, Recovery(pass), c, limit, picked)
    ensures Apply(s, SweepLocked(pass, c.at, AgeOf(c, pass), limit, picked)).rows
      == After(s.rows, Recovery(pass), c, picked)
  {
    assert Pool(s.rows, Recovery(pass), c) == PassPool(s.rows, pass, c.at, AgeOf(c, pass));
  }

  predicate Affords(t: Table, id: Id) {
    id in t && BudgetLeft(t[id])
  }

  lemma KeepsBudgets(t: Table, g: Stage, c: Setting, picked: seq<Id>)
    ensures forall id :: Affords(After(t, g, c, picked), id) <==> Affords(t, id)
  {
  }

  function MovedTo(pass: Pass, r: Row, target: TaskStatus): Row {
    if pass == DispatchingPass then r.(status := target, dispatchingAt := None) else r.(status := target)
  }

  class Ledger {
    var now: Time
    var rows: Table
    var used: set<Id>
    var jobs: map<nat, Job>
    var claims: map<nat, ClaimTx>
    var sweeps: map<nat, SweepTx>

    function View(): State
      reads this
    {
      State(now, rows, used, jobs, claims, sweeps)
    }

    constructor (start: Time)
      ensures Init(View()) && now == start
    {
      now, rows, used, jobs, claims, sweeps := start, map[], {}, map[], map[], map[];
    }

    /** Any run of other processes' transactions. */
    method Interleave(env: seq<Protocol.Step>)
      requires Enables(View(), env)
      modifies this
      ensures View() == Exec(old(View()), env)
    {
      for i := 0 to |env|
        invariant Enables(View(), env[i..]) && Exec(View(), env[i..]) == Exec(old(View()), env)
      {
        assert env[i..][0] == env[i] && env[i..][1..] == env[i + 1..];
        var s := Apply(View(), env[i]);
        now, rows, used, jobs, claims, sweeps := s.now, s.rows, s.used, s.jobs, s.claims, s.sweeps;
      }
    }

    // --- producers ---

    method Insert(id: Id, made: Creation)
      requires id !in used && KeyFree(rows, made)
      modifies this
      ensures View() == Apply(old(View()), Create(id, made))
    {
      rows := rows[id := Row(made, now, Pending, 0, "", made.scheduledFor, None, None, None, None)];
      used := used + {id};
    }

    /** create_task: a taken key violates the unique constraint. id is the fresh identifier. */
    method CreateTask(id: Id, req: Request, policy: TaskPolicy) returns (r: Result<Id, CreateError>)
      requires id !in used
      modifies this
      ensures match Resolve(req, policy)
        case Failure(e) => r == Failure(e) && View() == old(View())
        case Success(made) =>
          if KeyFree(old(rows), made) then r == Success(id) && View() == Apply(old(View()), Create(id, made))
          else r == Failure(Duplicate) && View() == old(View())
      ensures Resolve(req, policy).Success? ==>
        (r == Failure(Duplicate) <==>
           req.key.Some? && exists x :: x in old(rows) && old(rows)[x].made.key == req.key
                                        && old(rows)[x].made.taskType == req.taskType)
    {
      var resolved := Resolve(req, policy);
      if resolved.Failure? {
        return Failure(resolved.error);
      }
      if !KeyFree(rows, resolved.value) {
        return Failure(Duplicate);
      }
      Insert(id, resolved.value);
      r := Success(id);
    }

    /** create_or_get_task. Others may commit (env) between the insert that finds the key taken and the
        select of the row that has it; if that row has gone by then, the insert's error stands. */
    method CreateOrGetTask(id: Id, req: Request, policy: TaskPolicy, env: seq<Protocol.Step>)
      returns (r: Result<Id, CreateError>)
      requires id !in used && Invariants.RowsOk(View()) && Invariants.KeysOk(View())
      requires Resolve(req, policy).Success? && !KeyFree(rows, Resolve(req, policy).value) ==> Enables(View(), env)
      modifies this
      ensures req.key.None? || req.key.value == "" ==> r == Failure(EmptyKey) && View() == old(View())
      ensures req.key.Some? && req.key.value != "" ==>
        match Resolve(req, policy)
        case Failure(e) => r == Failure(e) && View() == old(View())
        case Success(made) =>
          if KeyFree(old(rows), made) then
            (r, rows) == CreateOrGet(old(rows), made, id, now) && View() == Apply(old(View()), Create(id, made))
          else
            && View() == Exec(old(View()), env)
            && r == if KeyFree(rows, made) then Failure(Duplicate) else CreateOrGet(rows, made, id, now).0
      ensures Resolve(req, policy).Success? && r.Success? ==>
        r.value in rows && rows[r.value].made.key == req.key && Agrees(Resolve(req, policy).value, rows[r.value].made)
    {
      if req.key.None? || req.key.value == "" {
        return Failure(EmptyKey);
      }
      r := CreateTask(id, req, policy);
      if r == Failure(Duplicate) {
        KeysStay(View(), env);
        Interleave(env);
        var made := Resolve(req, policy).value;
        if KeyFree(rows, made) {
          return Failure(Duplicate);
        }
        var existing :| existing in rows && SameKey(made, rows[existing].made);
        OnlyOneHasTheKey(made, existing);
        var differing := Differing(made, rows[existing].made);
        NoneDiffers(made, rows[existing].made);
        r := if differing != [] then Failure(Conflict(differing)) else Success(existing);
      } else {
        assert !Resolve(req, policy).Failure? ==> r.Success?;
      }
    }

    lemma OnlyOneHasTheKey(made: Creation, existing: Id)
      requires Invariants.KeysOk(View()) && existing in rows && SameKey(made, rows[existing].made)
      ensures forall x :: x in rows && SameKey(made, rows[x].made) ==> x == existing
    {
      forall x | x in rows && SameKey(made, rows[x].made) ensures x == existing {
        assert SameKey(rows[x].made, rows[existing].made);
      }
    }

    // --- workers ---

    /** Phase 1 of process_task, once the row lock is held. */
    method BeginTask(w: nat, id: Id) returns (started: bool)
      requires Enabled(View(), Begin(w, id))
      modifies this
      ensures View() == Apply(old(View()), Begin(w, id))
      ensures started <==> StartsHandler(old(View()), Begin(w, id), id)
      ensures started ==> id in rows && rows[id].status == Processing && rows[id].attempts == old(rows)[id].attempts + 1
                          && rows[id].startedAt == Some(now) && rows[id].dispatchingAt.None?
                          && w in jobs && jobs[w].attempts == rows[id].attempts
    {
      ghost var s := View();
      var open := IsOpen(id);
      if !open {
        BeginWrites(s, w, id);
        assert id in rows ==> rows[id := rows[id]] == rows;
        return false;
      }
      var task := rows[id];
      if task.made.expiresAt.Some? && task.made.expiresAt.value <= now {
        BeginWrites(s, w, id);
        task := task.(status := Expired);
        task := task.(expiredAt := Some(now));
        task := task.(dispatchingAt := None);
        rows := rows[id := task];
        return false;
      }
      if task.scheduledFor.Some? && task.scheduledFor.value > now {
        BeginWrites(s, w, id);
        assert rows[id := rows[id]] == rows;
        return false;
      }
      if !task.status.CanTransitionTo(Processing) {
        return false;
      }
      StartWrites(s, w, id);
      task := task.(status := Processing);
      task := task.(startedAt := Some(now));
      task := task.(dispatchingAt := None);
      task := task.(attempts := task.attempts + 1);
      rows := rows[id := task];
      jobs := jobs[w := Job(id, task.attempts, task.made.maxAttempts, now)];
      started := true;
    }

    /** The row is there, is not terminal, and is in a status phase 1 takes. */
    method IsOpen(id: Id) returns (open: bool)
      ensures open <==> id in rows && (rows[id].status == Pending || rows[id].status == Dispatching)
    {
      if id !in rows {
        return false;
      }
      var current := rows[id].status;
      if current.IsTerminal() {
        return false;
      }
      return current == Pending || current == Dispatching;
    }

    /** Phase 3 of process_task, once the row lock is held again: a result, or an exception. */
    method FinishTask(w: nat, result: HandlerResult) returns (ok: bool)
      requires Enabled(View(), Finish(w, result))
      modifies this
      ensures View() == Apply(old(View()), Finish(w, result))
      ensures ok <==> Outcomes.Succeeds(old(View()), Finish(w, result), old(jobs)[w].id)
      ensures ok ==> var id := old(jobs)[w].id;
        id in rows && rows[id].status == Completed && rows[id].completedAt == Some(now) && rows[id].error == ""
    {
      var job := jobs[w];
      OneRow(View(), Finish(w, result), job.id);
      jobs := jobs - {w};
      if job.id !in rows {
        return false;
      }
      var task := rows[job.id];
      if task.status != Processing {
        return false;
      }
      match result
      case Raised(exc, policy, delay, message) =>
        task := task.(error := message);
        var outcome := ClassifyFailure(exc, policy, job.attempts, job.maxAttempts, now, delay);
        task := task.(status := outcome.status);
        if !outcome.IsDead() {
          task := task.(scheduledFor := outcome.retryAt);
        }
        rows := rows[job.id := task];
        return false;
      case Returned =>
        task := task.(status := Completed);
        task := task.(completedAt := Some(now));
        task := task.(error := "");
        rows := rows[job.id := task];
        return true;
    }

    /** process_task: three transactions with the handler, and everyone else's commits env, in
        between. Its whole effect is a run of the protocol, and it answers True exactly when its
        own phase 3 completed the row. */
    method ProcessTask(w: nat, id: Id, result: HandlerResult, env: seq<Protocol.Step>) returns (ok: bool)
      requires Enabled(View(), Begin(w, id))
      requires StartsHandler(View(), Begin(w, id), id) ==>
        var s := Apply(View(), Begin(w, id));
        Enables(s, env) && Others(env, w) && RespectsLocks(Exec(s, env), Finish(w, result))
      modifies this
      ensures !StartsHandler(old(View()), Begin(w, id), id) ==>
        !ok && View() == Apply(old(View()), Begin(w, id))
      ensures StartsHandler(old(View()), Begin(w, id), id) ==>
        var s := Exec(Apply(old(View()), Begin(w, id)), env);
        View() == Apply(s, Finish(w, result)) && (ok <==> Outcomes.Succeeds(s, Finish(w, result), id))
    {
      var started := BeginTask(w, id);
      if !started {
        return false;
      }
      JobStays(View(), env, w);
      Interleave(env);
      ok := FinishTask(w, result);
    }

    // --- dispatchers ---

    /** claim's two selects. locked is what other transactions hold; the answer is locked too. */
    method SelectForClaim(d: nat, at: Time, queues: Scope, limit: nat, locked: set<Id>)
      returns (expired: set<Id>, taken: seq<Id>)
      requires d !in claims && at <= now && SkipsLocks(View(), locked)
      modifies this`claims
      ensures Enabled(old(View()), ClaimSelect(d, at, queues, limit, locked, expired, taken))
      ensures View() == Apply(old(View()), ClaimSelect(d, at, queues, limit, locked, expired, taken))
      ensures forall id :: id in expired || id in taken ==>
        id in rows && (queues.Some? ==> rows[id].made.queue in queues.value)
    {
      ghost var s := View();
      expired := SomeOf(ExpirePool(rows, at, queues, locked), limit);
      taken := Select(rows, ClaimPool(rows, at, queues, locked), ClaimOrder, limit);
      claims := claims[d := ClaimTx(at, expired, taken)];
      forall id | id in expired || id in taken
        ensures id in rows && (queues.Some? ==> rows[id].made.queue in queues.value)
      {
        Claims.ClaimTakes(s, ClaimSelect(d, at, queues, limit, locked, expired, taken), id);
        Claims.ClaimExpires(s, ClaimSelect(d, at, queues, limit, locked, expired, taken), id);
      }
    }

    /** claim's two updates and its commit. */
    method CommitClaim(d: nat)
      requires Enabled(View(), ClaimCommit(d))
      requires forall id :: id in claims[d].taken ==> id !in claims[d].expired
      modifies this
      ensures View() == Apply(old(View()), ClaimCommit(d))
    {
      var tx := claims[d];
      rows := map x | x in rows ::
        if x in tx.expired then rows[x].(status := Expired, expiredAt := Some(tx.at), dispatchingAt := None)
        else rows[x];
      rows := map x | x in rows ::
        if x in tx.taken && Waiting(rows[x]) then rows[x].(status := Dispatching, dispatchingAt := Some(tx.at))
        else rows[x];
      claims := claims - {d};
    }

    /** claim: the selects, then others' commits env, then the updates and the commit. Answers the
        ids taken, in claim order. With queues given, none of another queue is among them, and no row of
        another queue is written. */
    method Claim(d: nat, at: Time, queues: Scope, limit: nat, locked: set<Id>, env: seq<Protocol.Step>)
      returns (ids: seq<Id>, ghost sel: Protocol.Step)
      requires Invariants.RowsOk(View()) && d !in claims && at <= now && SkipsLocks(View(), locked)
      requires forall expired, taken :: Allowed(View(), ClaimSelect(d, at, queues, limit, locked, expired, taken)) ==>
        var s := Apply(View(), ClaimSelect(d, at, queues, limit, locked, expired, taken));
        Enables(s, env) && RespectsLocks(Exec(s, env), ClaimCommit(d))
      requires SparesClaim(env, d)
      modifies this
      ensures sel.ClaimSelect? && sel.dispatcher == d && sel.at == at && sel.limit == limit && sel.taken == ids
      ensures sel.queues == queues && sel.locked == locked
      ensures Enabled(old(View()), sel)
      ensures View() == Apply(Exec(Apply(old(View()), sel), env), ClaimCommit(d))
      ensures forall id :: id in ids ==>
        id in old(rows) && (queues.Some? ==> old(rows)[id].made.queue in queues.value)
      ensures var s := Exec(Apply(old(View()), sel), env);
        forall id :: id in s.rows && queues.Some? && s.rows[id].made.queue !in queues.value ==>
          id in rows && rows[id] == s.rows[id]
    {
      ghost var before := View();
      var expired, taken := SelectForClaim(d, at, queues, limit, locked);
      sel := ClaimSelect(d, at, queues, limit, locked, expired, taken);
      assert forall id :: id in taken ==> id in Elements(taken);
      ClaimStays(View(), env, d);
      Interleave(env);
      ghost var s := View();
      CommitClaim(d);
      forall id | id in s.rows && queues.Some? && s.rows[id].made.queue !in queues.value
        ensures id in rows && rows[id] == s.rows[id]
      {
        ServesItsQueues(before, sel, env, id);
      }
      ids := taken;
    }

    /** LIMIT without ORDER BY. */
    static method SomeOf(pool: set<Id>, limit: nat) returns (picked: set<Id>)
      ensures AnyOf(pool, limit, picked)
    {
      picked := {};
      var rest := pool;
      while |picked| < limit && rest != {}
        invariant picked !! rest && picked + rest == pool && |picked| <= limit
        decreases rest
      {
        var x :| x in rest;
        picked, rest := picked + {x}, rest - {x};
      }
      assert |pool| == |picked| + |rest|;
    }

    /** release: only rows still DISPATCHING go back, and no attempt is spent. */
    method Release(ids: set<Id>)
      requires Enabled(View(), Protocol.Release(ids))
      modifies this`rows
      ensures View() == Apply(old(View()), Protocol.Release(ids))
      ensures rows.Keys == old(rows).Keys && forall id :: id in rows ==> rows[id].attempts == old(rows)[id].attempts
    {
      rows := map x | x in rows ::
        if x in ids && rows[x].status == Dispatching then rows[x].(status := Pending, dispatchingAt := None)
        else rows[x];
    }

    // --- recovery ---

    /** sweep_expired. */
    method SweepDeadlines(at: Time, limit: nat, locked: set<Id>) returns (ids: seq<Id>)
      requires at <= now && SkipsLocks(View(), locked)
      requires forall picked :: Allowed(View(), SweepExpired(at, limit, locked, picked)) ==>
        RespectsLocks(View(), SweepExpired(at, limit, locked, picked))
      modifies this`rows
      ensures Enabled(old(View()), SweepExpired(at, limit, locked, ids))
      ensures View() == Apply(old(View()), SweepExpired(at, limit, locked, ids))
      ensures forall id :: id in ids ==>
        id in old(rows) && Overdue(old(rows)[id], at) && id in rows && rows[id].status == Expired
    {
      ids := Select(rows, DeadlinePool(rows, at, locked), DeadlineOrder, limit);
      assert forall id :: id in ids ==> id in Elements(ids);
      Expire(ids, at);
    }

    /** UPDATE ... SET status = EXPIRED WHERE id IN ids and the status may still expire. */
    method Expire(ids: seq<Id>, at: Time)
      modifies this`rows
      ensures rows == map x | x in old(rows) ::
        if x in ids && SweepsAsExpired(old(rows)[x]) then ExpireRow(old(rows)[x], at) else old(rows)[x]
    {
      rows := map x | x in rows ::
        if x in ids && SweepsAsExpired(rows[x])
        then rows[x].(status := Expired, expiredAt := Some(at), dispatchingAt := None)
        else rows[x];
    }

    /** The unlocked read of a SQLAlchemy recovery pass. */
    method ReadForSweep(k: nat, pass: Pass, at: Time, age: Time, limit: nat) returns (ids: seq<Id>)
      requires k !in sweeps && at <= now
      modifies this`sweeps
      ensures Enabled(old(View()), SweepRead(k, pass, at, age, limit, ids))
      ensures View() == Apply(old(View()), SweepRead(k, pass, at, age, limit, ids))
      ensures forall id :: id in ids ==> id in rows && MayPass(pass, rows[id], at, age)
      ensures forall id :: id in rows && MayPass(pass, rows[id], at, age) ==> id in ids || |ids| == limit
    {
      ids := Select(rows, PassPool(rows, pass, at, age), PassOrder(pass), limit);
      AnswerByColumns(rows, pass, at, age, limit, ids);
      sweeps := sweeps[k := SweepTx(pass, ids)];
    }

    /** Its first guarded update: rows with budget left go back to PENDING. */
    method RecoverSwept(k: nat) returns (returned: set<Id>)
      requires Enabled(View(), SweepRecover(k))
      modifies this`rows
      ensures View() == Apply(old(View()), SweepRecover(k))
      ensures returned == set id |
        id in old(rows) && RecoverRow(sweeps[k].pass, old(rows)[id]) != old(rows)[id] && id in sweeps[k].ids
    {
      var pass, ids := sweeps[k].pass, sweeps[k].ids;
      returned := set id | id in rows && id in ids && rows[id].status == Source(pass) && BudgetLeft(rows[id]);
      rows := map x | x in rows ::
        if x in returned then
          (if pass == DispatchingPass then rows[x].(status := Pending, dispatchingAt := None)
           else rows[x].(status := Pending))
        else rows[x];
    }

    /** Its second guarded update: rows with a spent budget are dead-lettered. */
    method BurySwept(k: nat)
      requires Enabled(View(), SweepBury(k))
      modifies this`rows, this`sweeps
      ensures View() == Apply(old(View()), SweepBury(k))
    {
      var pass, ids := sweeps[k].pass, sweeps[k].ids;
      rows := map x | x in rows ::
        if x in ids && rows[x].status == Source(pass) && !BudgetLeft(rows[x]) then
          (if pass == DispatchingPass then rows[x].(status := Dead, dispatchingAt := None)
           else rows[x].(status := Dead))
        else rows[x];
      sweeps := sweeps - {k};
    }

    /** A whole SQLAlchemy recovery pass, with others' commits between its statements. Answers the
        rows its first update returned to PENDING. */
    method SweepUnlocked(k: nat, pass: Pass, at: Time, age: Time, limit: nat,
                         between: seq<Protocol.Step>, after: seq<Protocol.Step>)
      returns (returned: set<Id>, ghost read: Protocol.Step)
      requires k !in sweeps && at <= now && SparesSweep(between, k) && SparesSweep(after, k)
      requires forall ids :: Allowed(View(), SweepRead(k, pass, at, age, limit, ids)) ==>
        SweepCanRun(Apply(View(), SweepRead(k, pass, at, age, limit, ids)), k, between, after)
      modifies this
      ensures read.SweepRead? && read.sweeper == k && read.pass == pass
      ensures read.at == at && read.age == age && read.limit == limit
      ensures Enabled(old(View()), read)
      ensures forall id :: id in returned ==> id in old(rows) && MayPass(pass, old(rows)[id], at, age)
      ensures var a := Exec(Apply(old(View()), read), between);
        && View() == Apply(Exec(Apply(a, SweepRecover(k)), after), SweepBury(k))
        && returned == set id | id in a.rows && RecoverRow(pass, a.rows[id]) != a.rows[id] && id in read.picked
    {
      var ids := ReadForSweep(k, pass, at, age, limit);
      read := SweepRead(k, pass, at, age, limit, ids);
      SweepStays(View(), between, k);
      Interleave(between);
      returned := RecoverSwept(k);
      SweepStays(View(), after, k);
      Interleave(after);
      BurySwept(k);
    }

    /** One Django recovery pass: the select locks its rows until both updates have committed. */
    method SweepWithLocks(pass: Pass, at: Time, age: Time, limit: nat)
      returns (returned: set<Id>, ghost picked: seq<Id>)
      requires at <= now
      requires forall ids :: Allowed(View(), SweepLocked(pass, at, age, limit, ids)) ==>
        RespectsLocks(View(), SweepLocked(pass, at, age, limit, ids))
      modifies this`rows
      ensures Enabled(old(View()), SweepLocked(pass, at, age, limit, picked))
      ensures View() == Apply(old(View()), SweepLocked(pass, at, age, limit, picked))
      ensures forall id :: id in returned <==>
        id in picked && id in old(rows) && old(rows)[id].attempts < old(rows)[id].made.maxAttempts
      ensures forall id :: id in picked ==> id in old(rows) && MayPass(pass, old(rows)[id], at, age)
      ensures forall id :: id in old(rows) && MayPass(pass, old(rows)[id], at, age) ==>
        id in picked || |picked| == limit
    {
      var ids := Select(rows, PassPool(rows, pass, at, age), PassOrder(pass), limit);
      picked := ids;
      AnswerByColumns(rows, pass, at, age, limit, ids);
      assert forall id :: id in ids ==> id in Elements(ids);
      returned := MoveBoth(pass, ids);
      assert rows == TouchAll(old(View()), SweepLocked(pass, at, age, limit, picked));
    }

    /** The two updates, on disjoint sets of the selected rows. */
    method MoveBoth(pass: Pass, ids: seq<Id>) returns (returned: set<Id>)
      requires forall id :: id in ids ==> id in rows && rows[id].status == Source(pass)
      modifies this`rows
      ensures rows == map x | x in old(rows) :: if x in ids then SweepRow(pass, old(rows)[x]) else old(rows)[x]
      ensures forall id :: id in returned <==> id in ids && BudgetLeft(old(rows)[id])
    {
      returned := set id | id in ids && BudgetLeft(rows[id]);
      var dead := set id | id in ids && !BudgetLeft(rows[id]);
      MoveTo(pass, returned, Pending);
      MoveTo(pass, dead, Dead);
    }

    /** UPDATE ... WHERE id IN ids; the dispatching pass also clears dispatching_at. */
    method MoveTo(pass: Pass, ids: set<Id>, target: TaskStatus)
      modifies this`rows
      ensures rows == map x | x in old(rows) :: if x in ids then MovedTo(pass, old(rows)[x], target) else old(rows)[x]
    {
      rows := map x | x in rows ::
        if x in ids then
          (if pass == DispatchingPass then rows[x].(status := target, dispatchingAt := None)
           else rows[x].(status := target))
        else rows[x];
    }

    /** A pass, nobody else holding a lock, as the convergence analysis sees it. */
    method DeadlineStage(c: Setting, limit: nat) returns (expired: seq<Id>)
      requires c.at <= now && claims == map[]
      modifies this`rows
      ensures Picks(old(rows), Deadlines, c, limit, expired) && rows == After(old(rows), Deadlines, c, expired)
    {
      ghost var before := View();
      expired := SweepDeadlines(c.at, limit, {});
      DeadlinePass(before, c, limit, expired);
    }

    method RecoveryStage(pass: Pass, c: Setting, limit: nat) returns (returned: set<Id>, ghost picked: seq<Id>)
      requires c.at <= now && claims == map[]
      modifies this`rows
      ensures Picks(old(rows), Recovery(pass), c, limit, picked) && rows == After(old(rows), Recovery(pass), c, picked)
      ensures forall id :: id in returned <==> id in picked && Affords(old(rows), id)
    {
      ghost var before := View();
      returned, picked := SweepWithLocks(pass, c.at, AgeOf(c, pass), limit);
      LockedPass(before, pass, c, limit, picked);
    }

    /** sweep with locked passes and the clock standing still, nobody else holding a lock: the four
        passes in order. failed, dispatching and stuck are the rows returned to PENDING. */
    method Sweep(c: Setting, limit: nat)
      returns (expired: seq<Id>, failed: set<Id>, dispatching: set<Id>, stuck: set<Id>, ghost w: Convergence.Sweep)
      requires c.at <= now && claims == map[]
      modifies this`rows
      ensures IsSweep(old(rows), c, limit, w) && rows == AfterSweep(old(rows), c, w)
      ensures expired == w.expired
      ensures forall id :: id in failed <==> id in w.failed && Affords(old(rows), id)
      ensures forall id :: id in dispatching <==> id in w.dispatching && Affords(old(rows), id)
      ensures forall id :: id in stuck <==> id in w.stuck && Affords(old(rows), id)
      ensures forall id :: id in expired ==> id in old(rows) && Overdue(old(rows)[id], c.at)
      ensures forall id :: id in failed ==> id in old(rows) && MayPass(FailedPass, old(rows)[id], c.at, 0.0)
      ensures forall id :: id in dispatching ==>
        id in old(rows) && MayPass(DispatchingPass, old(rows)[id], c.at, c.timeout)
      ensures forall id :: id in stuck ==> id in old(rows) && MayPass(StuckPass, old(rows)[id], c.at, c.threshold)
    {
      expired := DeadlineStage(c, limit);
      ghost var p1, p2, p3;
      KeepsBudgets(old(rows), Deadlines, c, expired);
      ghost var t := rows;
      failed, p1 := RecoveryStage(FailedPass, c, limit);
      KeepsBudgets(t, Recovery(FailedPass), c, p1);
      t := rows;
      dispatching, p2 := RecoveryStage(DispatchingPass, c, limit);
      KeepsBudgets(t, Recovery(DispatchingPass), c, p2);
      stuck, p3 := RecoveryStage(StuckPass, c, limit);
      w := Convergence.Sweep(expired, p1, p2, p3);
      SweepByColumns(old(rows), c, limit, w);
    }

    // --- operators ---

    /** retry_task: None for a missing or EXPIRED row, otherwise the row as it now is. */
    method RetryTask(id: Id) returns (r: Option<Row>)
      requires Enabled(View(), Retry(id))
      modifies this`rows
      ensures View() == Apply(old(View()), Retry(id))
      ensures r == if id !in old(rows) || old(rows)[id].status == Expired then None else Some(rows[id])
    {
      OneRow(View(), Retry(id), id);
      if id !in rows {
        return None;
      }
      var task := rows[id];
      if task.status == Expired {
        return None;
      }
      if !task.status.CanTransitionTo(Pending) {
        return Some(task);
      }
      task := task.(status := Pending, scheduledFor := None, error := "", attempts := 0);
      rows := rows[id := task];
      r := Some(task);
    }

    /** bulk_retry: refuses a status the table does not let back to PENDING. */
    method BulkRetryTasks(filter: Option<string>, status: TaskStatus) returns (count: Option<nat>)
      requires Enabled(View(), BulkRetry(status, filter))
      modifies this`rows
      ensures View() == Apply(old(View()), BulkRetry(status, filter))
      ensures count.None? <==> !status.CanTransitionTo(Pending)
      ensures count.Some? ==>
        count.value == |set id | id in old(rows) && RetriesRow(old(View()), BulkRetry(status, filter), id)|
    {
      if !status.CanTransitionTo(Pending) {
        assert TouchAll(View(), BulkRetry(status, filter)) == rows;
        return None;
      }
      var hit := set id | id in rows && rows[id].status == status && TypeMatches(filter, rows[id]);
      assert hit == set id | id in rows && RetriesRow(View(), BulkRetry(status, filter), id);
      count := Some(|hit|);
      rows := map x | x in rows ::
        if x in hit then rows[x].(status := Pending, scheduledFor := None, error := "", attempts := 0) else rows[x];
    }

    /** kill_task. */
    method KillTask(id: Id) returns (r: Option<Row>)
      requires Enabled(View(), Kill(id))
      modifies this`rows
      ensures View() == Apply(old(View()), Kill(id))
      ensures r == if id !in old(rows) then None else Some(rows[id])
    {
      OneRow(View(), Kill(id), id);
      if id !in rows {
        return None;
      }
      var task := rows[id];
      if !task.status.CanTransitionTo(Dead) {
        return Some(task);
      }
      task := task.(status := Dead);
      rows := rows[id := task];
      r := Some(task);
    }

    /** DELETE, answering the number of rows deleted. */
    method DropRows(threshold: Time, filter: Option<string>) returns (count: nat)
      modifies this`rows
      ensures rows == TouchAll(old(View()), Purge(threshold, filter)) && count == |old(rows)| - |rows|
    {
      var gone := set id | id in rows && Purges(rows[id], threshold, filter);
      count := |gone|;
      PurgedRows(View(), threshold, filter, gone);
      rows := rows - gone;
    }

    /** purge_completed. */
    method PurgeCompleted(olderThan: Time, filter: Option<string>) returns (count: nat)
      requires Enabled(View(), Purge(now - olderThan, filter))
      modifies this`rows
      ensures View() == Apply(old(View()), Purge(now - olderThan, filter))
      ensures count == |old(rows)| - |rows|
    {
      count := DropRows(now - olderThan, filter);
    }
  }
}
