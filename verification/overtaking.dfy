/** How long a claimable row can be overtaken. */
module Overtaking {
  import opened Common
  import opened States
  import opened Rows
  import opened Selection
  import opened Queries
  import opened Protocol
  import opened Invariants
  import Claims

  /** The period over which the claims are watched. */
  datatype Window = Window(from: Time, until: Time)

  /** Some claim in the window could take the row as it is. */
  predicate MayClaim(r: Row, w: Window) {
    (|| (r.status == Pending && (r.scheduledFor.None? || r.scheduledFor.value <= w.until))
     || (r.status == TaskStatus.Failed && ScheduleReached(r, w.until) && BudgetLeft(r)))
    && !PastDeadline(r, w.from)
  }

  /** The rows that may be served before id: those id does not strictly precede. */
  function Ahead(t: Table, w: Window, queues: Scope, id: Id): set<Id>
    requires id in t
  {
    set x | x in t && x != id && MayClaim(t[x], w) && InScope(queues, t[x]) && !Precedes(ClaimOrder, t[id], t[x])
  }

  /** A later arrival that the row precedes, as it does one of no higher priority and later effective
      due time, is not ahead. */
  lemma ArrivalsStayBehind(t: Table, w: Window, queues: Scope, id: Id, arrival: Id, made: Creation, now: Time)
    requires id in t && arrival !in t
    requires Precedes(ClaimOrder, t[id], NewRow(made, now))
    ensures Ahead(t[arrival := NewRow(made, now)], w, queues, id) == Ahead(t, w, queues, id)
  {
    var more := t[arrival := NewRow(made, now)];
    forall x ensures x in Ahead(more, w, queues, id) <==> x in Ahead(t, w, queues, id) {
      if x != arrival && x in t {
        assert more[x] == t[x];
      }
    }
  }

  /** The passage of time brings nothing ahead of a claimable row but higher priorities: whatever
      else is ahead at some instant of the window was so at its beginning. */
  lemma TimeBringsOnlyUrgentWork(t: Table, w: Window, queues: Scope, id: Id, x: Id)
    requires id in t && Claimable(t[id], w.from) && t[id].createdAt <= w.from <= w.until
    requires x in Ahead(t, w, queues, id) && t[x].made.priority <= t[id].made.priority
    ensures x in Ahead(t, Window(w.from, w.from), queues, id) && Claimable(t[x], w.from)
  {
  }

  // --- one claim ---

  /** Step m commits a claim of this size on these queues whose select, at step j, saw id unlocked.
      Any number of other claims may be in flight with it. */
  ghost predicate Passes(r: Run, j: nat, m: nat, w: Window, queues: Scope, limit: nat, id: Id)
    requires r.Shaped() && j < m < |r.steps|
  {
    && r.steps[m].ClaimCommit? && Claims.OpenFrom(r, r.steps[m].dispatcher, j, m)
    && r.steps[j].queues == queues && r.steps[j].limit == limit
    && w.from <= r.steps[j].at <= w.until && id !in r.steps[j].locked
  }

  /** Step m commits such a claim, begun at or after state i. */
  ghost predicate IsClaim(r: Run, i: nat, m: nat, w: Window, queues: Scope, limit: nat, id: Id)
    requires r.Shaped() && i <= m < |r.steps|
  {
    exists j :: i <= j < m && Passes(r, j, m, w, queues, limit, id)
  }

  /** Every instant of the window finds the row claimable. */
  predicate Ripe(r: Row, w: Window) {
    Claimable(r, w.from) && Claimable(r, w.until)
  }

  /** A claim that passes a ripe row over, not having skipped it as locked, is full, and all it takes
      was ahead. */
  lemma PassedOver(t: Table, w: Window, at: Time, queues: Scope, locked: set<Id>, limit: nat, taken: seq<Id>, id: Id)
    requires Selected(t, ClaimPool(t, at, queues, locked), ClaimOrder, limit, taken) && w.from <= at <= w.until
    requires id in t && Ripe(t[id], w) && InScope(queues, t[id]) && id !in taken && id !in locked
    ensures |Elements(taken)| == limit && Elements(taken) <= Ahead(t, w, queues, id)
  {
    var pool := ClaimPool(t, at, queues, locked);
    assert id in pool;
    ElementsCount(taken);
    SubsetCount(Elements(taken), pool);
    assert id !in Elements(taken);
    forall x | x in Elements(taken) ensures x in Ahead(t, w, queues, id) {
      assert x in taken;
    }
  }

  // --- every other step ---

  /** The step puts row x into the queue: back from another status, or reset by an operator. */
  predicate Returned(s: State, step: Step, x: Id) {
    && x in s.rows && Waiting(Touch(s, step, x, s.rows[x]))
    && (!Waiting(s.rows[x]) || RetriesRow(s, step, x))
  }

  /** A row that no claim in the window takes before r: in other queues, not claimable in the window,
      or preceded by r, whether by priority, by its due time or by its creation. */
  predicate Behind(x: Row, r: Row, w: Window, queues: Scope) {
    !InScope(queues, x) || !MayClaim(x, w) || Precedes(ClaimOrder, r, x)
  }

  /** The rows a step creates or puts into the queue are behind id. */
  predicate Quiet(s: State, step: Step, w: Window, queues: Scope, id: Id)
    requires id in s.rows
  {
    && (step.Create? ==> Behind(NewRow(step.made, s.now), s.rows[id], w, queues))
    && forall x :: x in s.rows && x != id && Returned(s, step, x) ==>
         Behind(Touch(s, step, x, s.rows[x]), s.rows[id], w, queues)
  }

  /** A row that was waiting and waits on keeps its place, and is claimable only if it was. */
  lemma WaitingTouch(s: State, step: Step, w: Window, x: Id)
    requires x in s.rows && RowOk(s.rows[x]) && Waiting(s.rows[x]) && !RetriesRow(s, step, x)
    requires MayClaim(Touch(s, step, x, s.rows[x]), w)
    ensures var r, t := s.rows[x], Touch(s, step, x, s.rows[x]);
      MayClaim(r, w) && t.made == r.made && t.scheduledFor == r.scheduledFor && t.createdAt == r.createdAt
  {
    CreationIsKept(s, step, x);
    match step
    case SweepBury(_) =>
    case SweepRecover(_) =>
    case SweepLocked(_, _, _, _, _) =>
    case _ =>
  }

  /** A quiet step that leaves a row alone puts nothing ahead of it. */
  lemma QuietStepsKeepTheQueue(s: State, step: Step, w: Window, queues: Scope, id: Id)
    requires RowsOk(s) && Enabled(s, step) && id in s.rows && Quiet(s, step, w, queues, id)
    requires id in Apply(s, step).rows && Apply(s, step).rows[id] == s.rows[id]
    ensures Ahead(Apply(s, step).rows, w, queues, id) <= Ahead(s.rows, w, queues, id)
  {
    var t := Apply(s, step).rows;
    forall x | x in Ahead(t, w, queues, id) ensures x in Ahead(s.rows, w, queues, id) {
      RowAfter(s, step, x);
      if x in s.rows && !Returned(s, step, x) {
        WaitingTouch(s, step, w, x);
      }
    }
  }

  /** Of a step that is no operator's retry, being quiet is all there is to it: it puts something
      ahead of a row it leaves alone exactly when it is not quiet. */
  lemma QuietIsExact(s: State, step: Step, w: Window, queues: Scope, id: Id)
    requires RowsOk(s) && Enabled(s, step) && !step.Retry? && !step.BulkRetry?
    requires id in s.rows && id in Apply(s, step).rows && Apply(s, step).rows[id] == s.rows[id]
    ensures Ahead(Apply(s, step).rows, w, queues, id) <= Ahead(s.rows, w, queues, id)
      <==> Quiet(s, step, w, queues, id)
  {
    if Quiet(s, step, w, queues, id) {
      QuietStepsKeepTheQueue(s, step, w, queues, id);
    } else if step.Create? {
      assert step.id !in s.rows && step.id in Ahead(Apply(s, step).rows, w, queues, id);
    } else {
      var x :| x in s.rows && x != id && Returned(s, step, x)
               && !Behind(Touch(s, step, x, s.rows[x]), s.rows[id], w, queues);
      ReturnComesAhead(s, step, w, queues, id, x);
    }
  }

  lemma ReturnComesAhead(s: State, step: Step, w: Window, queues: Scope, id: Id, x: Id)
    requires RowsOk(s) && Enabled(s, step) && !step.Retry? && !step.BulkRetry? && x != id && Returned(s, step, x)
    requires id in s.rows && id in Apply(s, step).rows && Apply(s, step).rows[id] == s.rows[id]
    requires !Behind(Touch(s, step, x, s.rows[x]), s.rows[id], w, queues)
    ensures x in Ahead(Apply(s, step).rows, w, queues, id) && x !in Ahead(s.rows, w, queues, id)
  {
    RowIsTouched(s, step, x);
  }

  /** The end of a handler keeps the queue before a waiting row, whatever else it does to its own row,
      exactly when the failure it records, if any, comes up for retry behind that row. */
  lemma EndOfHandlerIsQuiet(s: State, w: nat, result: HandlerResult, win: Window, queues: Scope, id: Id)
    requires RowsOk(s) && Enabled(s, Finish(w, result)) && id in s.rows && s.jobs[w].id != id
    ensures id in Apply(s, Finish(w, result)).rows
    ensures Ahead(Apply(s, Finish(w, result)).rows, win, queues, id) <= Ahead(s.rows, win, queues, id) <==>
      var x := s.jobs[w].id;
      && x in s.rows && s.rows[x].status == Processing
      && Touch(s, Finish(w, result), x, s.rows[x]).status == TaskStatus.Failed
      ==> Behind(Touch(s, Finish(w, result), x, s.rows[x]), s.rows[id], win, queues)
  {
    RowIsTouched(s, Finish(w, result), id);
    QuietIsExact(s, Finish(w, result), win, queues, id);
    forall x | x in s.rows && x != id && Returned(s, Finish(w, result), x) ensures x == s.jobs[w].id {
    }
  }

  // --- runs ---

  predicate IsAsAt(r: Run, id: Id, i: nat, m: nat)
    requires r.Shaped() && i <= m <= |r.steps|
  {
    id in r.states[i].rows && id in r.states[m].rows && r.states[m].rows[id] == r.states[i].rows[id]
  }

  predicate QuietAt(r: Run, w: Window, queues: Scope, id: Id, m: nat)
    requires r.Shaped() && m < |r.steps|
  {
    id in r.states[m].rows && Quiet(r.states[m], r.steps[m], w, queues, id)
  }

  /** From state i to state k the row stays as it is, and every step is quiet. */
  ghost predicate StaysPut(r: Run, w: Window, queues: Scope, id: Id, i: nat, k: nat)
    requires r.Shaped() && i <= k <= |r.steps|
  {
    && id in r.states[i].rows
    && (forall m :: i <= m <= k ==> IsAsAt(r, id, i, m))
    && (forall m :: i <= m < k ==> QuietAt(r, w, queues, id, m))
  }

  /** The number of claims begun at or after state i and committed before state k. */
  ghost function ClaimsMade(r: Run, w: Window, queues: Scope, limit: nat, id: Id, i: nat, k: nat): nat
    requires r.Shaped() && i <= k <= |r.steps|
  {
    if k == i then 0
    else ClaimsMade(r, w, queues, limit, id, i, k - 1) + if IsClaim(r, i, k - 1, w, queues, limit, id) then 1 else 0
  }

  lemma QuietInRun(r: Run, w: Window, queues: Scope, id: Id, i: nat, j: nat, k: nat)
    requires r.Valid() && i < j <= k <= |r.steps| && StaysPut(r, w, queues, id, i, k)
    ensures id in r.states[j].rows && id in r.states[j - 1].rows
    ensures Ahead(r.states[j].rows, w, queues, id) <= Ahead(r.states[j - 1].rows, w, queues, id)
  {
    RunLink(r, j);
    assert IsAsAt(r, id, i, j) && IsAsAt(r, id, i, j - 1) && QuietAt(r, w, queues, id, j - 1);
    QuietStepsKeepTheQueue(r.states[j - 1], r.steps[j - 1], w, queues, id);
  }

  /** The rows a claim takes are DISPATCHING when it has committed. */
  lemma TakenAreGone(r: Run, j: nat, m: nat, w: Window, queues: Scope, limit: nat, id: Id, x: Id)
    requires r.Valid() && j < m < |r.steps| && Passes(r, j, m, w, queues, limit, id)
    requires x in r.steps[j].taken && x in r.states[m + 1].rows
    ensures r.states[m + 1].rows[x].status == Dispatching
  {
    Claims.ClaimIsExact(r, r.steps[m].dispatcher, j, m, x);
    Claims.SelectSees(r, j, x);
  }

  /** At its select, what a claim that passes id over takes is ahead of id. */
  lemma SelectTakesAhead(r: Run, j: nat, m: nat, w: Window, queues: Scope, limit: nat, id: Id)
    requires r.Valid() && j < m < |r.steps| && Passes(r, j, m, w, queues, limit, id)
    requires IsAsAt(r, id, j, m + 1) && Ripe(r.states[j].rows[id], w) && InScope(queues, r.states[j].rows[id])
    ensures |Elements(r.steps[j].taken)| == limit
    ensures Elements(r.steps[j].taken) <= Ahead(r.states[j].rows, w, queues, id)
  {
    if id in r.steps[j].taken {
      TakenAreGone(r, j, m, w, queues, limit, id, id);
    }
    assert r.Follows(j);
    PassedOver(r.states[j].rows, w, r.steps[j].at, queues, r.steps[j].locked, limit, r.steps[j].taken, id);
  }

  /** And it still is when the claim commits. */
  lemma StillAhead(r: Run, j: nat, m: nat, w: Window, queues: Scope, limit: nat, id: Id)
    requires r.Valid() && j < m < |r.steps| && Passes(r, j, m, w, queues, limit, id)
    requires IsAsAt(r, id, j, m) && Elements(r.steps[j].taken) <= Ahead(r.states[j].rows, w, queues, id)
    ensures Elements(r.steps[j].taken) <= Ahead(r.states[m].rows, w, queues, id)
  {
    forall x | x in Elements(r.steps[j].taken) ensures x in Ahead(r.states[m].rows, w, queues, id) {
      assert x in r.steps[j].taken;
      Claims.ClaimedRowsWait(r, r.steps[m].dispatcher, j, m, x);
    }
  }

  lemma TakenAreNotAhead(r: Run, j: nat, m: nat, w: Window, queues: Scope, limit: nat, id: Id)
    requires r.Valid() && j < m < |r.steps| && Passes(r, j, m, w, queues, limit, id) && id in r.states[m + 1].rows
    ensures Ahead(r.states[m + 1].rows, w, queues, id) !! Elements(r.steps[j].taken)
  {
    forall x | x in Elements(r.steps[j].taken) ensures x !in Ahead(r.states[m + 1].rows, w, queues, id) {
      if x in r.states[m + 1].rows {
        TakenAreGone(r, j, m, w, queues, limit, id, x);
      }
    }
  }

  lemma Drained(before: set<Id>, after: set<Id>, taken: set<Id>)
    requires after <= before && taken <= before && after !! taken
    ensures |after| + |taken| <= |before|
  {
    SubsetCount(after, before - taken);
    assert |before - taken| == |before| - |taken|;
  }

  /** A claim that leaves a ripe row waiting moves limit rows from ahead of it. */
  lemma ClaimInRun(r: Run, w: Window, queues: Scope, limit: nat, id: Id, i: nat, j: nat, m: nat, k: nat)
    requires r.Valid() && i <= j < m < k <= |r.steps| && StaysPut(r, w, queues, id, i, k)
    requires Passes(r, j, m, w, queues, limit, id)
    requires Ripe(r.states[i].rows[id], w) && InScope(queues, r.states[i].rows[id])
    ensures id in r.states[m].rows && id in r.states[m + 1].rows
    ensures |Ahead(r.states[m + 1].rows, w, queues, id)| + limit <= |Ahead(r.states[m].rows, w, queues, id)|
  {
    assert IsAsAt(r, id, i, j) && IsAsAt(r, id, i, m) && IsAsAt(r, id, i, m + 1);
    QuietInRun(r, w, queues, id, i, m + 1, k);
    SelectTakesAhead(r, j, m, w, queues, limit, id);
    StillAhead(r, j, m, w, queues, limit, id);
    TakenAreNotAhead(r, j, m, w, queues, limit, id);
    Drained(Ahead(r.states[m].rows, w, queues, id), Ahead(r.states[m + 1].rows, w, queues, id),
            Elements(r.steps[j].taken));
  }

  lemma Times(n: nat, limit: nat)
    ensures (n + 1) * limit == n * limit + limit
  {
  }

  /** limit for each claim made, by addition. */
  function Repeated(n: nat, limit: nat): nat {
    if n == 0 then 0 else Repeated(n - 1, limit) + limit
  }

  lemma {:induction false} RepeatedIsTimes(n: nat, limit: nat)
    ensures Repeated(n, limit) == n * limit
  {
    if n == 0 {
    } else {
      RepeatedIsTimes(n - 1, limit);
      Times(n - 1, limit);
    }
  }

  ghost function Rivals(r: Run, w: Window, queues: Scope, id: Id, k: nat): nat
    requires r.Shaped() && k <= |r.steps|
  {
    if id in r.states[k].rows then |Ahead(r.states[k].rows, w, queues, id)| else 0
  }

  /** What step m did to the rivals. */
  ghost predicate Gains(r: Run, w: Window, queues: Scope, limit: nat, id: Id, i: nat, m: nat)
    requires r.Shaped() && i <= m < |r.steps|
  {
    Rivals(r, w, queues, id, m + 1) + (if IsClaim(r, i, m, w, queues, limit, id) then limit else 0)
      <= Rivals(r, w, queues, id, m)
  }

  lemma GainsInRun(r: Run, w: Window, queues: Scope, limit: nat, id: Id, i: nat, m: nat, k: nat)
    requires r.Valid() && i <= m < k <= |r.steps| && StaysPut(r, w, queues, id, i, k)
    requires Ripe(r.states[i].rows[id], w) && InScope(queues, r.states[i].rows[id])
    ensures Gains(r, w, queues, limit, id, i, m)
  {
    QuietInRun(r, w, queues, id, i, m + 1, k);
    SubsetCount(Ahead(r.states[m + 1].rows, w, queues, id), Ahead(r.states[m].rows, w, queues, id));
    if IsClaim(r, i, m, w, queues, limit, id) {
      var j :| i <= j < m && Passes(r, j, m, w, queues, limit, id);
      ClaimInRun(r, w, queues, limit, id, i, j, m, k);
    }
  }

  lemma {:induction false} RivalsShrink(r: Run, w: Window, queues: Scope, limit: nat, id: Id, i: nat, k: nat)
    requires r.Shaped() && i <= k <= |r.steps|
    requires forall m :: i <= m < k ==> Gains(r, w, queues, limit, id, i, m)
    ensures Rivals(r, w, queues, id, k) + Repeated(ClaimsMade(r, w, queues, limit, id, i, k), limit)
      <= Rivals(r, w, queues, id, i)
    decreases k
  {
    if k == i {
    } else {
      assert Gains(r, w, queues, limit, id, i, k - 1);
      RivalsShrink(r, w, queues, limit, id, i, k - 1);
    }
  }

  /** However the run goes and however many claims are in flight at once, as long as what it puts into
      the queue comes behind, a ripe row that is still waiting has been passed over by at most
      floor(ahead / limit) claims: one claim more takes it. */
  lemma OvertakingIsBounded(r: Run, w: Window, queues: Scope, limit: nat, id: Id, i: nat, k: nat)
    requires r.Valid() && i <= k <= |r.steps| && StaysPut(r, w, queues, id, i, k) && limit >= 1
    requires Ripe(r.states[i].rows[id], w) && InScope(queues, r.states[i].rows[id])
    ensures ClaimsMade(r, w, queues, limit, id, i, k) <= |Ahead(r.states[i].rows, w, queues, id)| / limit
  {
    var n := ClaimsMade(r, w, queues, limit, id, i, k);
    forall m | i <= m < k ensures Gains(r, w, queues, limit, id, i, m) {
      GainsInRun(r, w, queues, limit, id, i, m, k);
    }
    RivalsShrink(r, w, queues, limit, id, i, k);
    RepeatedIsTimes(n, limit);
    QuotientBound(n, limit, |Ahead(r.states[i].rows, w, queues, id)|);
  }

  lemma QuotientBound(n: nat, limit: nat, ahead: nat)
    requires limit >= 1 && n * limit <= ahead
    ensures n <= ahead / limit
  {
    var q := ahead / limit;
    assert ahead == q * limit + ahead % limit;
    assert n * limit < (q + 1) * limit;
  }
}
