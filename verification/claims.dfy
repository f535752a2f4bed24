/** The dispatcher's claim: an exact, ordered top-k, even among concurrent claims. */
module Claims {
  import opened Common
  import opened States
  import opened Rows
  import opened Selection
  import opened Queries
  import opened Protocol
  import opened Invariants

  /** Claims in flight at the same time never share a row. */
  lemma InFlightClaimsAreDisjoint(r: Run, k: nat, d: nat, e: nat, id: Id)
    requires r.Valid() && k <= |r.steps| && d in r.states[k].claims && e in r.states[k].claims && d != e
    ensures !(r.states[k].claims[d].Holds(id) && r.states[k].claims[e].Holds(id))
  {
    RunKeepsInv(r, k);
  }

  /** Between its select (step i) and step k, dispatcher d's claim stays open. */
  ghost predicate OpenFrom(r: Run, d: nat, i: nat, k: nat)
    requires r.Shaped() && i < k <= |r.steps|
  {
    && r.steps[i].ClaimSelect? && r.steps[i].dispatcher == d
    && forall m :: i < m < k ==> r.steps[m] != ClaimCommit(d) && r.steps[m] != ClaimAbort(d)
  }

  lemma ClaimStaysOpen(s: State, step: Step, d: nat)
    requires Enabled(s, step) && d in s.claims && step != ClaimCommit(d) && step != ClaimAbort(d)
    ensures d in Apply(s, step).claims && Apply(s, step).claims[d] == s.claims[d]
  {
  }

  /** The open claim of d still holds what it selected, and row id is as it was in rows. */
  predicate Waits(s: State, d: nat, sel: Step, rows: Table, id: Id)
    requires sel.ClaimSelect?
  {
    && d in s.claims && s.claims[d] == ClaimTx(sel.at, sel.expired, sel.taken)
    && (s.claims[d].Holds(id) ==> id in rows && id in s.rows && s.rows[id] == rows[id])
  }

  lemma SelectWaits(s: State, sel: Step, id: Id)
    requires Inv(s) && Enabled(s, sel) && sel.ClaimSelect?
    ensures Waits(Apply(s, sel), sel.dispatcher, sel, s.rows, id)
  {
    if id in sel.expired || id in sel.taken {
      NewClaimIsOk(s, sel, id);
    }
  }

  lemma WaitsOn(s: State, step: Step, d: nat, sel: Step, rows: Table, id: Id)
    requires Inv(s) && Enabled(s, step) && sel.ClaimSelect? && Waits(s, d, sel, rows, id)
    requires step != ClaimCommit(d) && step != ClaimAbort(d)
    ensures Waits(Apply(s, step), d, sel, rows, id)
  {
    ClaimStaysOpen(s, step, d);
    if s.claims[d].Holds(id) {
      LockedRowStays(s, step, d, id);
    }
  }

  lemma {:induction false} ClaimedRowsWait(r: Run, d: nat, i: nat, k: nat, id: Id)
    requires r.Valid() && i < k <= |r.steps| && OpenFrom(r, d, i, k)
    ensures Waits(r.states[k], d, r.steps[i], r.states[i].rows, id)
    decreases k
  {
    RunLink(r, k);
    if k == i + 1 {
      SelectWaits(r.states[i], r.steps[i], id);
    } else {
      ClaimedRowsWait(r, d, i, k - 1, id);
      WaitsOn(r.states[k - 1], r.steps[k - 1], d, r.steps[i], r.states[i].rows, id);
    }
  }

  /** The ordered top-k: at most limit distinct rows, in claim order, and no unlocked claimable
      row of the dispatcher's queues left out precedes one of them. */
  predicate TopK(rows: Table, sel: Step)
    requires sel.ClaimSelect?
  {
    && |sel.taken| <= sel.limit && |sel.expired| <= sel.limit && NoDup(sel.taken)
    && (forall m, n | 0 <= m < n < |sel.taken| && sel.taken[m] in rows && sel.taken[n] in rows ::
          !Precedes(ClaimOrder, rows[sel.taken[n]], rows[sel.taken[m]]))
    && (forall x, y | x in rows && LeftOut(rows[x], x, sel) && y in sel.taken && y in rows ::
          !Precedes(ClaimOrder, rows[x], rows[y]))
  }

  predicate LeftOut(r: Row, id: Id, sel: Step)
    requires sel.ClaimSelect?
  {
    id !in sel.locked && Claimable(r, sel.at) && InScope(sel.queues, r) && id !in sel.taken
  }

  lemma SelectionIsTopK(s: State, sel: Step)
    requires Allowed(s, sel) && sel.ClaimSelect?
    ensures TopK(s.rows, sel)
  {
    forall x | x in s.rows && x !in sel.locked && Claimable(s.rows[x], sel.at) && InScope(sel.queues, s.rows[x])
      ensures x in ClaimPool(s.rows, sel.at, sel.queues, sel.locked)
    {
    }
  }

  /** What the commit of a claim makes of a row, seen from the row the claim selected. */
  predicate Claimed(sel: Step, before: Row, after: Row, id: Id)
    requires sel.ClaimSelect?
  {
    if id in sel.expired then PastDeadline(before, sel.at) && after == ExpireRow(before, sel.at)
    else Claimable(before, sel.at) && after == DispatchRow(before, sel.at)
  }

  /** What the select of a claim saw. */
  lemma SelectSees(r: Run, i: nat, id: Id)
    requires r.Valid() && i < |r.steps| && r.steps[i].ClaimSelect?
    ensures TopK(r.states[i].rows, r.steps[i])
    ensures id in r.steps[i].expired ==>
      id in r.states[i].rows && PastDeadline(r.states[i].rows[id], r.steps[i].at)
    ensures id in r.steps[i].taken ==>
      id in r.states[i].rows && Claimable(r.states[i].rows[id], r.steps[i].at) && id !in r.steps[i].expired
  {
    RunLink(r, i + 1);
    SelectionIsTopK(r.states[i], r.steps[i]);
    if id in r.steps[i].taken || id in r.steps[i].expired {
      NewClaimIsOk(r.states[i], r.steps[i], id);
    }
  }

  /** A claim selects an exact top-k at step i and commits at step j. However the ledger moved in
      between, the commit dispatches every row taken - the status guard of its update never drops
      one - and none past its deadline, expires the overdue rows selected, and writes no other. */
  lemma ClaimIsExact(r: Run, d: nat, i: nat, j: nat, id: Id)
    requires r.Valid() && i < j < |r.steps| && OpenFrom(r, d, i, j) && r.steps[j] == ClaimCommit(d)
    ensures TopK(r.states[i].rows, r.steps[i])
    ensures id in r.steps[i].taken || id in r.steps[i].expired ==>
      id in r.states[i].rows && id in r.states[j + 1].rows
      && Claimed(r.steps[i], r.states[i].rows[id], r.states[j + 1].rows[id], id)
    ensures id in r.states[j].rows && id !in r.steps[i].taken && id !in r.steps[i].expired ==>
      id in r.states[j + 1].rows && r.states[j + 1].rows[id] == r.states[j].rows[id]
  {
    SelectSees(r, i, id);
    ClaimedRowsWait(r, d, i, j, id);
    assert r.Follows(j);
    CommitWrites(r.states[j], d, r.steps[i], r.states[i].rows, id);
  }

  // --- whom a claim serves, told by the columns ---

  /** In the claim's queues, not overdue, and either PENDING and not early, or FAILED with its retry due and
      attempts left. */
  predicate MayTake(r: Row, sel: Step)
    requires sel.ClaimSelect?
  {
    && (sel.queues.Some? ==> r.made.queue in sel.queues.value)
    && (r.made.expiresAt.Some? ==> sel.at < r.made.expiresAt.value)
    && (r.scheduledFor.Some? ==> r.scheduledFor.value <= sel.at)
    && (|| r.status == Pending
        || (r.status == TaskStatus.Failed && r.scheduledFor.Some? && r.attempts < r.made.maxAttempts))
  }

  /** A claim takes such rows only, unlocked; while the limit has room, it takes every one. */
  lemma ClaimTakes(s: State, sel: Step, id: Id)
    requires Allowed(s, sel) && sel.ClaimSelect?
    ensures id in sel.taken ==> id in s.rows && id !in sel.locked && MayTake(s.rows[id], sel)
    ensures id in s.rows && id !in sel.locked && MayTake(s.rows[id], sel) ==>
      id in sel.taken || |sel.taken| == sel.limit
  {
    TakesWholePool(s.rows, ClaimPool(s.rows, sel.at, sel.queues, sel.locked), ClaimOrder, sel.limit, sel.taken);
  }

  /** In the claim's queues, PENDING or FAILED, and overdue. */
  predicate MayExpire(r: Row, sel: Step)
    requires sel.ClaimSelect?
  {
    && (sel.queues.Some? ==> r.made.queue in sel.queues.value)
    && (r.status == Pending || r.status == TaskStatus.Failed)
    && r.made.expiresAt.Some? && r.made.expiresAt.value <= sel.at
  }

  /** A claim expires such rows only, unlocked; while the limit has room, it expires every one. */
  lemma ClaimExpires(s: State, sel: Step, id: Id)
    requires Allowed(s, sel) && sel.ClaimSelect?
    ensures id in sel.expired ==> id in s.rows && id !in sel.locked && MayExpire(s.rows[id], sel)
    ensures id in s.rows && id !in sel.locked && MayExpire(s.rows[id], sel) ==>
      id in sel.expired || |sel.expired| == sel.limit
  {
    SubsetCount(sel.expired, ExpirePool(s.rows, sel.at, sel.queues, sel.locked));
  }

  /** Priority first, then the schedule or else the creation, then the creation: a row taken is never behind
      one taken after it, nor behind one that could have been taken and was not. */
  lemma ClaimTakesInOrder(s: State, sel: Step, m: nat, x: Id)
    requires Allowed(s, sel) && sel.ClaimSelect? && m < |sel.taken|
    requires x in sel.taken[m..] || (x in s.rows && x !in sel.locked && x !in sel.taken && MayTake(s.rows[x], sel))
    ensures sel.taken[m] in s.rows && x in s.rows
    ensures var a, b := s.rows[sel.taken[m]], s.rows[x];
      var dueA := if a.scheduledFor.Some? then a.scheduledFor.value else a.createdAt;
      var dueB := if b.scheduledFor.Some? then b.scheduledFor.value else b.createdAt;
      && a.made.priority >= b.made.priority
      && (a.made.priority == b.made.priority ==> dueA <= dueB && (dueA == dueB ==> a.createdAt <= b.createdAt))
  {
    assert sel.taken[m] in Elements(sel.taken);
    if x in sel.taken[m..] {
      assert x in Elements(sel.taken);
      var n :| 0 <= n < |sel.taken[m..]| && sel.taken[m..][n] == x;
      assert sel.taken[m + n] == x;
    }
  }

  /** A dispatcher of some queues leaves the rows of the others alone: neither its select nor, whatever
      happens in between, its commit writes one. */
  lemma OtherQueuesAreLeft(r: Run, d: nat, i: nat, j: nat, id: Id)
    requires r.Valid() && i < j < |r.steps| && OpenFrom(r, d, i, j) && r.steps[j] == ClaimCommit(d)
    requires r.steps[i].queues.Some? && id in r.states[j].rows
    requires r.states[j].rows[id].made.queue !in r.steps[i].queues.value
    ensures id !in r.steps[i].taken && id !in r.steps[i].expired && r.states[i + 1].rows == r.states[i].rows
    ensures id in r.states[j + 1].rows && r.states[j + 1].rows[id] == r.states[j].rows[id]
  {
    RunLink(r, i + 1);
    ClaimTakes(r.states[i], r.steps[i], id);
    ClaimExpires(r.states[i], r.steps[i], id);
    ClaimedRowsWait(r, d, i, j, id);
    ClaimIsExact(r, d, i, j, id);
  }

  lemma CommitWrites(s: State, d: nat, sel: Step, rows: Table, id: Id)
    requires sel.ClaimSelect? && Waits(s, d, sel, rows, id)
    requires id in sel.expired ==> id in rows && PastDeadline(rows[id], sel.at)
    requires id in sel.taken ==> id in rows && Claimable(rows[id], sel.at)
    ensures id in sel.taken || id in sel.expired ==>
      id in Apply(s, ClaimCommit(d)).rows && Claimed(sel, rows[id], Apply(s, ClaimCommit(d)).rows[id], id)
    ensures id in s.rows && id !in sel.taken && id !in sel.expired ==>
      id in Apply(s, ClaimCommit(d)).rows && Apply(s, ClaimCommit(d)).rows[id] == s.rows[id]
  {
  }
}
