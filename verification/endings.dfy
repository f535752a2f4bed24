/** The rows whose end depends on the sweep's limit do arise. */
module Endings {
  import opened Common
  import opened States
  import opened Policy
  import opened Rows
  import opened Selection
  import opened Queries
  import opened Protocol
  import opened Invariants
  import opened Runs
  import opened Budget
  import opened Convergence

  /** Time passes until at, which touches no row. */
  lemma Later(r: Run, at: Time) returns (q: Run)
    requires |r.states| > 0 && r.Linked() && at >= Last(r).now
    ensures q.Linked() && q.states[0] == r.states[0] && Last(q) == Last(r).(now := at)
  {
    q := Do(r, Tick(at - Last(r).now));
    var s := Last(r);
    assert s.now + (at - s.now) == at;
  }

  /** A FAILED row that has spent its budget and is past its deadline: a stale failure, and time. */
  lemma TornFailureIsReachable(exc: Exc, policy: TaskPolicy, message: string) returns (r: Run, c: Setting)
    requires IsRetryable(policy, exc)
    ensures r.Valid() && c.at == Last(r).now && 0 in Last(r).rows
    ensures Last(r).rows[0].status == TaskStatus.Failed && Torn(Last(r).rows[0], c)
  {
    var made := Creation("", [], [], "", 0, 2, None, Some(100.0), None);
    var q := StaleFailureSpendsBudget(made, exc, policy, message);
    var row := Last(q).rows[0];
    RunKeepsInv(q, |q.states| - 1);
    assert RowOk(row);
    var at := MaxOf(MaxOf(row.scheduledFor.value, 100.0), Last(q).now);
    r := Later(q, at);
    c := Setting(at, 0.0, 0.0);
  }

  /** A DISPATCHING row without a budget that is past its deadline: one created with none, claimed,
      and time. */
  lemma TornDispatchIsReachable(timeout: Time) returns (r: Run, c: Setting)
    ensures r.Valid() && c.at == Last(r).now && c.timeout == timeout && 0 in Last(r).rows
    ensures Last(r).rows[0].status == Dispatching && Torn(Last(r).rows[0], c)
  {
    var made := Creation("", [], [], "", 0, 0, None, Some(100.0), None);
    var q := ClaimedAlone(made);
    var at := MaxOf(100.0, timeout + 1.0);
    r := Later(q, at);
    c := Setting(at, timeout, 0.0);
  }

  /** A row is created and claimed at once. */
  lemma ClaimedAlone(made: Creation) returns (r: Run)
    requires made.scheduledFor.None? && (made.expiresAt.Some? ==> made.expiresAt.value > 0.0)
    ensures r.Valid() && Sole(Last(r), DispatchRow(NewRow(made, 0.0), 0.0)) && Last(r).now == 0.0
  {
    var row := NewRow(made, 0.0);
    r := SoleRun(made);
    var s := Last(r);
    assert ExpirePool(s.rows, 0.0, None, {}) == {};
    assert ClaimPool(s.rows, 0.0, None, {}) == {0};
    SinglePick(s.rows, {0}, ClaimOrder, 0);
    var select := ClaimSelect(0, 0.0, None, 1, {}, {}, [0]);
    r := Do(r, select);
    var held := Last(r);
    r := Do(r, ClaimCommit(0));
    assert TouchAll(held, ClaimCommit(0)) == map[0 := DispatchRow(row, 0.0)];
    assert Last(r).claims == map[];
  }
}
