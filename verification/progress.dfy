/** No task is stranded, and the work any task can cause is bounded. */
module Progress {
  import opened Common
  import opened States
  import opened Rows
  import opened Selection
  import opened Queries
  import opened Protocol
  import opened Invariants
  import opened Runs
  import Convergence

  // --- how often a row can change status ---

  function Rank(s: TaskStatus): nat {
    match s
    case Processing => 4
    case Failed => 3
    case Pending => 2
    case Dispatching => 1
    case _ => 0
  }

  /** Starts still available, then how far the row is from rest. */
  function Potential(r: Row): int {
    4 * (Cap(r.made.maxAttempts) - r.attempts) + Rank(r.status)
  }

  /** The step moves row id to another status. */
  predicate Moves(s: State, step: Step, id: Id) {
    id in s.rows && Touch(s, step, id, s.rows[id]).status != s.rows[id].status
  }

  /** A claimed row comes back without having been started: a release or a dispatch timeout. */
  predicate LosesDispatch(s: State, step: Step, id: Id) {
    && Moves(s, step, id) && !RetriesRow(s, step, id)
    && s.rows[id].status == Dispatching && Touch(s, step, id, s.rows[id]).status == Pending
  }

  /** The step takes the potential of row id to that of after: up to a whole allowance by a manual
      retry, up by one by a lost dispatch, down by any other status change. */
  predicate Falls(s: State, step: Step, id: Id, after: Row)
    requires id in s.rows
  {
    && after.made == s.rows[id].made
    && (if RetriesRow(s, step, id) then Potential(after) == 4 * Cap(after.made.maxAttempts) + 2
        else if LosesDispatch(s, step, id) then Potential(after) == Potential(s.rows[id]) + 1
        else if Moves(s, step, id) then Potential(after) < Potential(s.rows[id])
        else Potential(after) == Potential(s.rows[id]))
  }

  /** Every status change but a lost dispatch and a manual retry lowers the potential. */
  lemma MoveLowersPotential(s: State, step: Step, id: Id)
    requires id in s.rows && RowOk(s.rows[id]) && PicksFit(s, step, id, s.rows[id])
    ensures Falls(s, step, id, Touch(s, step, id, s.rows[id]))
  {
    CreationIsKept(s, step, id);
    match step
    case Finish(w, result) =>
    case SweepRecover(k) =>
    case SweepBury(k) =>
    case SweepLocked(pass, _, _, _, _) =>
    case BulkRetry(status, filter) =>
    case _ =>
  }

  ghost function CountMoves(r: Run, id: Id, k: nat): nat
    requires r.Shaped() && k <= |r.steps|
  {
    if k == 0 then 0
    else CountMoves(r, id, k - 1) + if Moves(r.states[k - 1], r.steps[k - 1], id) then 1 else 0
  }

  ghost function CountLost(r: Run, id: Id, k: nat): nat
    requires r.Shaped() && k <= |r.steps|
  {
    if k == 0 then 0
    else CountLost(r, id, k - 1) + if LosesDispatch(r.states[k - 1], r.steps[k - 1], id) then 1 else 0
  }

  ghost function CountRetries(r: Run, id: Id, k: nat): nat
    requires r.Shaped() && k <= |r.steps|
  {
    if k == 0 then 0
    else CountRetries(r, id, k - 1) + if RetriesRow(r.states[k - 1], r.steps[k - 1], id) then 1 else 0
  }

  lemma {:induction false} UnusedNeverMoved(r: Run, id: Id, k: nat)
    requires r.Valid() && k <= |r.steps| && id !in r.states[k].used
    ensures CountMoves(r, id, k) == 0
  {
    if k == 0 {
    } else {
      var s, step := r.states[k - 1], r.steps[k - 1];
      RunLink(r, k);
      UsedGrows(s, step);
      assert id !in s.rows;
      UnusedNeverMoved(r, id, k - 1);
    }
  }

  /** One allowance of a moves, and a + 1 more for each manual retry. */
  function Allowance(a: nat, retries: nat): nat {
    if retries == 0 then a else Allowance(a, retries - 1) + a + 1
  }

  lemma {:induction false} AllowanceIsLinear(a: nat, retries: nat)
    ensures Allowance(a, retries) == a * (1 + retries) + retries
  {
    if retries == 0 {
    } else {
      AllowanceIsLinear(a, retries - 1);
      assert a * (1 + (retries - 1)) + a == a * (1 + retries);
    }
  }

  lemma {:induction false} AllowanceGrows(a: nat, retries: nat)
    ensures a <= Allowance(a, retries)
  {
    if retries == 0 {
    } else {
      AllowanceGrows(a, retries - 1);
    }
  }

  /** What is left to spend of the moves a row is allowed, over the first k steps. */
  ghost function Unspent(r: Run, id: Id, k: nat): int
    requires r.Shaped() && k <= |r.steps| && id in r.states[k].rows
  {
    Allowance(4 * Cap(r.states[k].rows[id].made.maxAttempts) + 2, CountRetries(r, id, k))
    + 2 * CountLost(r, id, k) - CountMoves(r, id, k)
  }

  lemma UnspentAtCreation(r: Run, id: Id, k: nat)
    requires r.Valid() && 0 < k <= |r.steps| && id in r.states[k].rows && id !in r.states[k - 1].rows
    ensures Potential(r.states[k].rows[id]) <= Unspent(r, id, k)
  {
    RunStep(r, k, id);
    UnusedNeverMoved(r, id, k - 1);
    AllowanceGrows(4 * Cap(r.states[k].rows[id].made.maxAttempts) + 2, CountRetries(r, id, k));
  }

  lemma MoveInRun(r: Run, id: Id, k: nat)
    requires r.Valid() && 0 < k <= |r.steps| && id in r.states[k].rows && id in r.states[k - 1].rows
    ensures Falls(r.states[k - 1], r.steps[k - 1], id, r.states[k].rows[id])
  {
    RunStep(r, k, id);
    MoveLowersPotential(r.states[k - 1], r.steps[k - 1], id);
  }

  /** The arithmetic of one step: p and after are the potentials, m moves and l lost dispatches so far. */
  lemma Spend(a: nat, q: nat, l: nat, m: nat, p: int, after: int, retries: bool, loses: bool, moves: bool)
    requires 0 <= p <= Allowance(a, q) + 2 * l - m && (loses ==> moves && !retries)
    requires if retries then after == a else if loses then after == p + 1 else if moves then after < p else after == p
    ensures after <=
      Allowance(a, if retries then q + 1 else q) + 2 * (if loses then l + 1 else l) - (if moves then m + 1 else m)
  {
  }

  lemma UnspentStep(r: Run, id: Id, k: nat)
    requires r.Shaped() && 0 < k <= |r.steps| && id in r.states[k].rows && id in r.states[k - 1].rows
    requires Falls(r.states[k - 1], r.steps[k - 1], id, r.states[k].rows[id])
    requires 0 <= Potential(r.states[k - 1].rows[id]) <= Unspent(r, id, k - 1)
    ensures Potential(r.states[k].rows[id]) <= Unspent(r, id, k)
  {
    var s, step := r.states[k - 1], r.steps[k - 1];
    Spend(4 * Cap(r.states[k].rows[id].made.maxAttempts) + 2, CountRetries(r, id, k - 1), CountLost(r, id, k - 1),
          CountMoves(r, id, k - 1), Potential(s.rows[id]), Potential(r.states[k].rows[id]),
          RetriesRow(s, step, id), LosesDispatch(s, step, id), Moves(s, step, id));
  }

  lemma {:induction false} MovesSpendPotential(r: Run, id: Id, k: nat)
    requires r.Valid() && k <= |r.steps| && id in r.states[k].rows
    ensures 0 <= Potential(r.states[k].rows[id]) <= Unspent(r, id, k)
  {
    RunKeepsInv(r, k);
    assert RowOk(r.states[k].rows[id]);
    if k > 0 {
      if id in r.states[k - 1].rows {
        MovesSpendPotential(r, id, k - 1);
        MoveInRun(r, id, k);
        UnspentStep(r, id, k);
      } else {
        UnspentAtCreation(r, id, k);
      }
    }
  }

  /** A task created with n attempts changes status at most 4n + 2 times, plus twice for every
      lost dispatch; each manual retry buys one more such allowance and its own move. */
  lemma WorkIsBounded(r: Run, id: Id, k: nat, a: nat, q: nat)
    requires r.Valid() && k <= |r.steps| && id in r.states[k].rows
    requires a == 4 * Cap(r.states[k].rows[id].made.maxAttempts) + 2 && q == CountRetries(r, id, k)
    ensures CountMoves(r, id, k) <= a * (1 + q) + q + 2 * CountLost(r, id, k)
  {
    assert CountMoves(r, id, k) <= Allowance(a, q) + 2 * CountLost(r, id, k) by {
      MovesSpendPotential(r, id, k);
    }
    AllowanceIsLinear(a, q);
  }

  // --- every row can be driven to rest ---

  /** How a system is set up: whether its passes hold their locks from select to update, the limit of a
      pass, the dispatch timeout and the stuck threshold. */
  datatype Config = Config(locked: bool, limit: nat, timeout: Time, threshold: Time)

  function PassAge(cfg: Config, p: Pass): Time {
    Convergence.AgeOf(Convergence.Setting(0.0, cfg.timeout, cfg.threshold), p)
  }

  /** Steps the system takes by itself, its recovery passes being the configured ones. */
  predicate Automatic(step: Step, cfg: Config) {
    && !step.Retry? && !step.BulkRetry? && !step.Kill? && !step.Create? && !step.Purge?
    && (step.SweepLocked? ==> cfg.locked && step.limit == cfg.limit && step.age == PassAge(cfg, step.pass))
    && (step.SweepRead? ==> !cfg.locked && step.limit == cfg.limit && step.age == PassAge(cfg, step.pass))
  }

  predicate Legal(s: State, steps: seq<Step>, cfg: Config)
    decreases |steps|
  {
    steps == []
    || (Enabled(s, steps[0]) && Automatic(steps[0], cfg) && Legal(Apply(s, steps[0]), steps[1..], cfg))
  }

  lemma OneStep(s: State, step: Step, rest: seq<Step>, cfg: Config)
    requires Enabled(s, step) && Automatic(step, cfg) && Legal(Apply(s, step), rest, cfg)
    ensures Legal(s, [step] + rest, cfg) && Exec(s, [step] + rest) == Exec(Apply(s, step), rest)
  {
    assert ([step] + rest)[1..] == rest;
  }

  lemma {:induction false} ExecJoins(s: State, a: seq<Step>, b: seq<Step>, cfg: Config)
    requires Legal(s, a, cfg) && Legal(Exec(s, a), b, cfg)
    ensures Legal(s, a + b, cfg) && Exec(s, a + b) == Exec(Exec(s, a), b)
    decreases |a|
  {
    if a == [] {
      assert a + b == b;
    } else {
      ExecJoins(Apply(s, a[0]), a[1..], b, cfg);
      assert (a + b)[0] == a[0] && (a + b)[1..] == a[1..] + b;
    }
  }

  /** Starts left, and one more when the row is not yet waiting for one. */
  function Distance(r: Row): int {
    3 * (Cap(r.made.maxAttempts) - r.attempts)
    + (if r.status.IsTerminal() then 0 else if r.status == Pending then 1 else 2)
  }

  /** A sound state in which no claim holds a row, id being one of its rows. */
  ghost predicate Calm(s: State, id: Id) {
    Inv(s) && s.claims == map[] && id in s.rows
  }

  /** There, every allowed step that neither purges nor claims is enabled, and touches the row. */
  lemma CalmStep(s: State, step: Step, id: Id)
    requires Calm(s, id) && Allowed(s, step) && !step.Purge? && !step.ClaimSelect?
    ensures Enabled(s, step) && Calm(Apply(s, step), id)
    ensures Apply(s, step).rows[id] == Touch(s, step, id, s.rows[id])
  {
    RowIsTouched(s, step, id);
    StepKeepsInv(s, step);
  }

  // --- waiting ---

  /** Time passes until the clock is beyond at. */
  function WaitPast(s: State, at: Time): Step {
    Tick(if s.now > at then 0.0 else at - s.now + 1.0)
  }

  lemma ClockMoves(s: State, id: Id, at: Time)
    requires Calm(s, id)
    ensures var t := Apply(s, WaitPast(s, at));
      Enabled(s, WaitPast(s, at)) && Calm(t, id) && t.now > at && t == s.(now := t.now)
  {
    CalmStep(s, WaitPast(s, at), id);
  }

  // --- from PENDING ---

  /** The instant a waiting row waits for. */
  function DueAt(s: State, r: Row): Time {
    if r.scheduledFor.Some? then r.scheduledFor.value else s.now
  }

  lemma StartGetsNearer(r: Row, now: Time)
    requires RowOk(r) && Rows.Starts(r, now) && r.status == Pending
    ensures Distance(BeginRow(r, now)) < Distance(r)
  {
  }

  lemma ExpiryGetsNearer(r: Row, now: Time)
    requires RowOk(r) && PastDeadline(r, now) && r.status == Pending
    ensures Distance(BeginRow(r, now)) < Distance(r)
  {
  }

  /** From a waiting row that is due: a worker starts or expires it. */
  lemma BeginMoves(s: State, id: Id, w: nat)
    requires Calm(s, id) && s.rows[id].status == Pending && w !in s.jobs && DueAt(s, s.rows[id]) <= s.now
    ensures Enabled(s, Begin(w, id)) && Calm(Apply(s, Begin(w, id)), id)
    ensures Distance(Apply(s, Begin(w, id)).rows[id]) < Distance(s.rows[id])
  {
    CalmStep(s, Begin(w, id), id);
    assert RowOk(s.rows[id]);
    if PastDeadline(s.rows[id], s.now) {
      ExpiryGetsNearer(s.rows[id], s.now);
    } else {
      StartGetsNearer(s.rows[id], s.now);
    }
  }

  /** From any waiting row: wait for its schedule and start or expire it. */
  lemma PendingMoves(s: State, id: Id, w: nat, cfg: Config) returns (steps: seq<Step>)
    requires Calm(s, id) && s.rows[id].status == Pending && w !in s.jobs
    ensures Legal(s, steps, cfg) && Calm(Exec(s, steps), id)
    ensures Distance(Exec(s, steps).rows[id]) < Distance(s.rows[id])
  {
    var at := DueAt(s, s.rows[id]);
    var tick := WaitPast(s, at);
    ClockMoves(s, id, at);
    BeginMoves(Apply(s, tick), id, w);
    OneStep(Apply(s, tick), Begin(w, id), [], cfg);
    OneStep(s, tick, [Begin(w, id)] + [], cfg);
    steps := [tick] + ([Begin(w, id)] + []);
  }

  // --- from the other statuses ---

  function SourcePass(s: TaskStatus): Pass
    requires s == Dispatching || s == Processing || s == TaskStatus.Failed
  {
    if s == Dispatching then DispatchingPass else if s == Processing then StuckPass else FailedPass
  }

  function Swept(t: Table, p: Pass, picked: seq<Id>): Table {
    map x | x in t :: if x in picked then SweepRow(p, t[x]) else t[x]
  }

  /** One pass, locked or not, over what it selects. */
  lemma OnePass(s: State, id: Id, p: Pass, at: Time, picked: seq<Id>, cfg: Config) returns (steps: seq<Step>)
    requires Calm(s, id) && at <= s.now
    requires Selected(s.rows, PassPool(s.rows, p, at, PassAge(cfg, p)), PassOrder(p), cfg.limit, picked)
    ensures Legal(s, steps, cfg) && Calm(Exec(s, steps), id)
    ensures Exec(s, steps).now == s.now && Exec(s, steps).rows == Swept(s.rows, p, picked)
  {
    if cfg.locked {
      var pass := SweepLocked(p, at, PassAge(cfg, p), cfg.limit, picked);
      CalmStep(s, pass, id);
      LockedRows(s, pass);
      OneStep(s, pass, [], cfg);
      steps := [pass] + [];
    } else {
      var k := NewNumber(s.sweeps.Keys);
      var read := SweepRead(k, p, at, PassAge(cfg, p), cfg.limit, picked);
      CalmStep(s, read, id);
      var rest := RecoverAndBury(Apply(s, read), id, k, cfg);
      OneStep(s, read, rest, cfg);
      steps := [read] + rest;
    }
  }

  lemma LockedRows(s: State, pass: Step)
    requires pass.SweepLocked?
    ensures Apply(s, pass).rows == Swept(s.rows, pass.pass, pass.picked) && Apply(s, pass).now == s.now
  {
    assert TouchAll(s, pass) == Swept(s.rows, pass.pass, pass.picked);
  }

  lemma RecoverAndBury(s: State, id: Id, k: nat, cfg: Config) returns (steps: seq<Step>)
    requires Calm(s, id) && k in s.sweeps
    ensures Legal(s, steps, cfg) && Calm(Exec(s, steps), id) && Exec(s, steps).now == s.now
    ensures Exec(s, steps).rows == Swept(s.rows, s.sweeps[k].pass, s.sweeps[k].ids)
  {
    var s1 := Apply(s, SweepRecover(k));
    CalmStep(s, SweepRecover(k), id);
    CalmStep(s1, SweepBury(k), id);
    RecoveredRows(s, k);
    BuriedRows(s1, k);
    SweptInTwo(s.rows, s.sweeps[k].pass, s.sweeps[k].ids);
    OneStep(s1, SweepBury(k), [], cfg);
    var rest := [SweepBury(k)] + [];
    OneStep(s, SweepRecover(k), rest, cfg);
    steps := [SweepRecover(k)] + rest;
  }

  function Recovered(t: Table, p: Pass, picked: seq<Id>): Table {
    map x | x in t :: if x in picked then RecoverRow(p, t[x]) else t[x]
  }

  function Buried(t: Table, p: Pass, picked: seq<Id>): Table {
    map x | x in t :: if x in picked then BuryRow(p, t[x]) else t[x]
  }

  lemma RecoveredRows(s: State, k: nat)
    requires k in s.sweeps
    ensures var t := Apply(s, SweepRecover(k));
      t.rows == Recovered(s.rows, s.sweeps[k].pass, s.sweeps[k].ids) && t.sweeps == s.sweeps && t.now == s.now
  {
    assert TouchAll(s, SweepRecover(k)) == Recovered(s.rows, s.sweeps[k].pass, s.sweeps[k].ids);
  }

  lemma BuriedRows(s: State, k: nat)
    requires k in s.sweeps
    ensures var t := Apply(s, SweepBury(k));
      t.rows == Buried(s.rows, s.sweeps[k].pass, s.sweeps[k].ids) && t.now == s.now
  {
    assert TouchAll(s, SweepBury(k)) == Buried(s.rows, s.sweeps[k].pass, s.sweeps[k].ids);
  }

  lemma SweptInTwo(t: Table, p: Pass, picked: seq<Id>)
    ensures Buried(Recovered(t, p, picked), p, picked) == Swept(t, p, picked)
  {
  }

  /** What a pass has picked is not in its pool any more, and nothing else has changed. */
  lemma PassDrainsPool(t: Table, p: Pass, at: Time, age: Time, limit: nat, picked: seq<Id>)
    requires limit >= 1 && PassPool(t, p, at, age) != {}
    requires Selected(t, PassPool(t, p, at, age), PassOrder(p), limit, picked)
    ensures PassPool(Swept(t, p, picked), p, at, age) < PassPool(t, p, at, age)
    ensures forall x :: x in PassPool(t, p, at, age) && x !in picked ==> x in PassPool(Swept(t, p, picked), p, at, age)
  {
    var pool, u := PassPool(t, p, at, age), Swept(t, p, picked);
    assert forall x :: x in picked ==> x in Elements(picked);
    assert forall x :: x in PassPool(u, p, at, age) ==> x in pool && x !in picked;
    assert picked[0] in Elements(picked);
  }

  /** With any limit of at least one, so many passes reach a row its pass can take. */
  lemma {:induction false} SweptInTime(s: State, id: Id, p: Pass, at: Time, cfg: Config) returns (steps: seq<Step>)
    requires Calm(s, id) && at <= s.now && cfg.limit >= 1 && id in PassPool(s.rows, p, at, PassAge(cfg, p))
    ensures Legal(s, steps, cfg) && Calm(Exec(s, steps), id)
    ensures Exec(s, steps).rows[id] == SweepRow(p, s.rows[id])
    decreases PassPool(s.rows, p, at, PassAge(cfg, p))
  {
    var pool := PassPool(s.rows, p, at, PassAge(cfg, p));
    var picked := SelectionExists(s.rows, pool, PassOrder(p), cfg.limit);
    steps := OnePass(s, id, p, at, picked, cfg);
    if id !in picked {
      PassDrainsPool(s.rows, p, at, PassAge(cfg, p), cfg.limit, picked);
      var rest := SweptInTime(Exec(s, steps), id, p, at, cfg);
      ExecJoins(s, steps, rest, cfg);
      steps := steps + rest;
    }
  }

  lemma SweepGetsNearer(r: Row)
    requires RowOk(r) && (r.status == Dispatching || r.status == Processing || r.status == TaskStatus.Failed)
    ensures Distance(SweepRow(SourcePass(r.status), r)) < Distance(r)
    ensures PassStamp(SourcePass(r.status), r).Some?
  {
  }

  /** From any other non-terminal row: wait out the timestamp its recovery pass tests, and sweep, as
      configured. Invariants.StampsOk is what makes that timestamp exist. */
  lemma SweptRowMoves(s: State, id: Id, cfg: Config) returns (steps: seq<Step>)
    requires Calm(s, id) && cfg.limit >= 1
    requires !s.rows[id].status.IsTerminal() && s.rows[id].status != Pending
    ensures Legal(s, steps, cfg) && Calm(Exec(s, steps), id)
    ensures Distance(Exec(s, steps).rows[id]) < Distance(s.rows[id])
  {
    var row := s.rows[id];
    var p := SourcePass(row.status);
    assert RowOk(row);
    SweepGetsNearer(row);
    var wait := PassStamp(p, row).value + MaxOf(PassAge(cfg, p), 0.0);
    var tick := WaitPast(s, wait);
    ClockMoves(s, id, wait);
    var s1 := Apply(s, tick);
    assert id in PassPool(s1.rows, p, s1.now, PassAge(cfg, p));
    var rest := SweptInTime(s1, id, p, s1.now, cfg);
    OneStep(s, tick, rest, cfg);
    steps := [tick] + rest;
  }

  // --- and from everywhere ---

  lemma NewNumber(used: set<nat>) returns (n: nat)
    ensures n !in used && forall x :: x in used ==> x < n
  {
    if used == {} {
      n := 0;
    } else {
      var x :| x in used;
      var m := NewNumber(used - {x});
      n := if x < m then m else x + 1;
      assert forall y :: y in used ==> y == x || y in used - {x};
    }
  }

  lemma CommitIsEnabled(s: State, d: nat)
    requires Inv(s) && d in s.claims
    ensures Enabled(s, ClaimCommit(d))
  {
    forall e, id | e in s.claims && id in s.rows && s.claims[e].Holds(id) && e != d
      ensures Touch(s, ClaimCommit(d), id, s.rows[id]) == s.rows[id]
    {
      assert !s.claims[d].Holds(id);
    }
  }

  /** Every open claim can commit, which releases its rows. */
  lemma {:induction false} ClaimsDrain(s: State, id: Id, cfg: Config) returns (steps: seq<Step>)
    requires Inv(s) && id in s.rows
    ensures Legal(s, steps, cfg) && Calm(Exec(s, steps), id)
    decreases |s.claims|
  {
    if s.claims == map[] {
      steps := [];
    } else {
      var d :| d in s.claims;
      CommitIsEnabled(s, d);
      var t := Apply(s, ClaimCommit(d));
      StepKeepsInv(s, ClaimCommit(d));
      assert t.claims.Keys == s.claims.Keys - {d};
      assert |t.claims| < |s.claims| by {
        assert |t.claims.Keys| == |s.claims.Keys| - 1;
      }
      var rest := ClaimsDrain(t, id, cfg);
      steps := [ClaimCommit(d)] + rest;
      OneStep(s, ClaimCommit(d), rest, cfg);
    }
  }

  lemma {:induction false} CalmRowSettles(s: State, id: Id, cfg: Config) returns (steps: seq<Step>)
    requires Calm(s, id) && cfg.limit >= 1
    ensures Legal(s, steps, cfg)
    ensures var t := Exec(s, steps); id in t.rows && t.rows[id].status.IsTerminal()
    decreases Distance(s.rows[id])
  {
    assert RowOk(s.rows[id]);
    if s.rows[id].status.IsTerminal() {
      steps := [];
    } else {
      if s.rows[id].status == Pending {
        var w := NewNumber(s.jobs.Keys);
        steps := PendingMoves(s, id, w, cfg);
      } else {
        steps := SweptRowMoves(s, id, cfg);
      }
      var rest := CalmRowSettles(Exec(s, steps), id, cfg);
      ExecJoins(s, steps, rest, cfg);
      steps := steps + rest;
    }
  }

  /** From every reachable state, whatever the timeout and threshold, with passes that hold their locks
      or do not and with any limit of at least one, the system alone can bring every row to a
      terminal status: nothing waits for an operator. */
  lemma NoTaskIsStranded(r: Run, k: nat, id: Id, cfg: Config) returns (steps: seq<Step>)
    requires r.Valid() && k <= |r.steps| && id in r.states[k].rows && cfg.limit >= 1
    ensures Legal(r.states[k], steps, cfg)
    ensures var t := Exec(r.states[k], steps); id in t.rows && t.rows[id].status.IsTerminal()
  {
    RunKeepsInv(r, k);
    var drain := ClaimsDrain(r.states[k], id, cfg);
    var settle := CalmRowSettles(Exec(r.states[k], drain), id, cfg);
    ExecJoins(r.states[k], drain, settle, cfg);
    steps := drain + settle;
  }
}
