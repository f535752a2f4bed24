/** The whole ledger as a state machine: every step is one commit, one clock advance or one
    local event, and any number of dispatchers, workers, sweepers and operators take steps. */
module Protocol {
  import opened Common
  import opened States
  import opened Rows
  import opened Selection
  import opened Queries

  /** A handler that is running: phase 1 committed, phase 3 not yet. attempts and maxAttempts are
      the cached values; since is the started_at phase 1 wrote. */
  datatype Job = Job(id: Id, attempts: int, maxAttempts: int, since: Time)

  /** A claim transaction between its selects and its commit: it holds these row locks. */
  datatype ClaimTx = ClaimTx(at: Time, expired: set<Id>, taken: seq<Id>) {
    predicate Holds(id: Id) { id in expired || id in taken }
  }

  /** A sweep pass between its unlocked read and its guarded updates. */
  datatype SweepTx = SweepTx(pass: Pass, ids: seq<Id>)

  datatype State = State(
    now: Time, rows: Table, used: set<Id>, jobs: map<nat, Job>,
    claims: map<nat, ClaimTx>, sweeps: map<nat, SweepTx>)

  datatype Step =
    | Tick(d: Time)
    | Create(id: Id, made: Creation)
    | ClaimSelect(dispatcher: nat, at: Time, queues: Scope, limit: nat, locked: set<Id>,
                  expired: set<Id>, taken: seq<Id>)
    | ClaimCommit(dispatcher: nat)
    | ClaimAbort(dispatcher: nat)
    | Release(ids: set<Id>)
    | Begin(worker: nat, id: Id)
    | Finish(worker: nat, result: HandlerResult)
    | Crash(worker: nat)
    | SweepExpired(at: Time, limit: nat, locked: set<Id>, picked: seq<Id>)
    | SweepRead(sweeper: nat, pass: Pass, at: Time, age: Time, limit: nat, picked: seq<Id>)
    | SweepRecover(sweeper: nat)
    | SweepBury(sweeper: nat)
    | SweepLocked(pass: Pass, at: Time, age: Time, limit: nat, picked: seq<Id>)
    | Retry(id: Id)
    | BulkRetry(status: TaskStatus, filter: Option<string>)
    | Kill(id: Id)
    | Purge(threshold: Time, filter: Option<string>)

  /** What a step leaves in a row that exists before and after it. */
  function Touch(s: State, step: Step, id: Id, r: Row): Row {
    match step
    case ClaimCommit(d) =>
      if d !in s.claims then r
      else if id in s.claims[d].expired then ExpireRow(r, s.claims[d].at)
      else if id in s.claims[d].taken && Waiting(r) then DispatchRow(r, s.claims[d].at)
      else r
    case Release(ids) => if id in ids then ReleaseRow(r) else r
    case Begin(_, i) => if i == id then BeginRow(r, s.now) else r
    case Finish(w, result) =>
      if w in s.jobs && s.jobs[w].id == id
      then FinishRow(r, s.jobs[w].attempts, s.jobs[w].maxAttempts, result, s.now) else r
    case SweepExpired(at, _, _, picked) => if id in picked && SweepsAsExpired(r) then ExpireRow(r, at) else r
    case SweepRecover(k) => if k in s.sweeps && id in s.sweeps[k].ids then RecoverRow(s.sweeps[k].pass, r) else r
    case SweepBury(k) => if k in s.sweeps && id in s.sweeps[k].ids then BuryRow(s.sweeps[k].pass, r) else r
    case SweepLocked(pass, _, _, _, picked) => if id in picked then SweepRow(pass, r) else r
    case Retry(i) => if i == id then RetryRow(r) else r
    case BulkRetry(status, filter) => if status.CanTransitionTo(Pending) then BulkRetryRow(status, filter, r) else r
    case Kill(i) => if i == id then KillRow(r) else r
    case _ => r
  }

  predicate Deletes(step: Step, r: Row) {
    step.Purge? && Purges(r, step.threshold, step.filter)
  }

  function TouchAll(s: State, step: Step): Table {
    map id | id in s.rows && !Deletes(step, s.rows[id]) :: Touch(s, step, id, s.rows[id])
  }

  /** Phase 1 of step starts a handler on row id. */
  predicate StartsHandler(s: State, step: Step, id: Id) {
    step.Begin? && step.id == id && id in s.rows && Rows.Starts(s.rows[id], s.now)
  }

  function Apply(s: State, step: Step): State {
    var t := s.(rows := TouchAll(s, step));
    match step
    case Tick(d) => s.(now := s.now + d)
    case Create(id, made) => s.(rows := s.rows[id := NewRow(made, s.now)], used := s.used + {id})
    case ClaimSelect(d, at, _, _, _, expired, taken) => s.(claims := s.claims[d := ClaimTx(at, expired, taken)])
    case ClaimCommit(d) => t.(claims := s.claims - {d})
    case ClaimAbort(d) => s.(claims := s.claims - {d})
    case Begin(w, id) =>
      if StartsHandler(s, step, id)
      then t.(jobs := s.jobs[w := Job(id, s.rows[id].attempts + 1, s.rows[id].made.maxAttempts, s.now)])
      else t
    case Finish(w, _) => t.(jobs := s.jobs - {w})
    case Crash(w) => s.(jobs := s.jobs - {w})
    case SweepRead(k, pass, _, _, _, picked) => s.(sweeps := s.sweeps[k := SweepTx(pass, picked)])
    case SweepBury(k) => t.(sweeps := s.sweeps - {k})
    case _ => t
  }

  /** No transaction writes a row that another one's open claim holds locked. */
  predicate RespectsLocks(s: State, step: Step) {
    forall d, id :: d in s.claims && id in s.rows && s.claims[d].Holds(id) && step != ClaimCommit(d)
      ==> Touch(s, step, id, s.rows[id]) == s.rows[id]
  }

  predicate SkipsLocks(s: State, locked: set<Id>) {
    forall d, id :: d in s.claims && id in s.rows && s.claims[d].Holds(id) ==> id in locked
  }

  predicate Allowed(s: State, step: Step) {
    match step
    case Tick(d) => d >= 0.0
    case Create(id, made) => id !in s.used && KeyFree(s.rows, made)
    case ClaimSelect(d, at, queues, limit, locked, expired, taken) =>
      && d !in s.claims && at <= s.now && SkipsLocks(s, locked)
      && AnyOf(ExpirePool(s.rows, at, queues, locked), limit, expired)
      && Selected(s.rows, ClaimPool(s.rows, at, queues, locked), ClaimOrder, limit, taken)
    case ClaimCommit(d) => d in s.claims
    case ClaimAbort(d) => d in s.claims
    case Begin(w, _) => w !in s.jobs
    case Finish(w, _) => w in s.jobs
    case Crash(w) => w in s.jobs
    case SweepExpired(at, limit, locked, picked) =>
      && at <= s.now && SkipsLocks(s, locked)
      && Selected(s.rows, DeadlinePool(s.rows, at, locked), DeadlineOrder, limit, picked)
    case SweepRead(k, pass, at, age, limit, picked) =>
      && k !in s.sweeps && at <= s.now
      && Selected(s.rows, PassPool(s.rows, pass, at, age), PassOrder(pass), limit, picked)
    case SweepRecover(k) => k in s.sweeps
    case SweepBury(k) => k in s.sweeps
    case SweepLocked(pass, at, age, limit, picked) =>
      && at <= s.now
      && Selected(s.rows, PassPool(s.rows, pass, at, age), PassOrder(pass), limit, picked)
    case _ => true
  }

  predicate Enabled(s: State, step: Step) {
    Allowed(s, step) && RespectsLocks(s, step)
  }

  predicate Init(s: State) {
    s.rows == map[] && s.used == {} && s.jobs == map[] && s.claims == map[] && s.sweeps == map[]
  }

  /** A run: states[k] is what steps[..k] made of states[0]. */
  datatype Run = Run(states: seq<State>, steps: seq<Step>) {
    predicate Shaped() {
      |states| == |steps| + 1
    }

    predicate Follows(k: nat)
      requires Shaped() && k < |steps|
    {
      Enabled(states[k], steps[k]) && states[k + 1] == Apply(states[k], steps[k])
    }

    predicate Linked() {
      Shaped() && forall k: nat :: k < |steps| ==> Follows(k)
    }

    predicate Valid() {
      Linked() && Init(states[0])
    }
  }

  /** The operator's two ways of putting a row back, when they have an effect on it. */
  predicate RetriesRow(s: State, step: Step, id: Id) {
    && id in s.rows
    && ((step.Retry? && step.id == id && s.rows[id].status != Expired && s.rows[id].status.CanTransitionTo(Pending))
        || (step.BulkRetry? && step.status.CanTransitionTo(Pending) && s.rows[id].status == step.status
            && TypeMatches(step.filter, s.rows[id])))
  }
}
