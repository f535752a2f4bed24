/** When a dispatcher must look again (next_due), and that its idle wait does not oversleep. */
module WakeUp {
  import opened Common
  import opened States
  import opened Rows
  import opened Selection
  import opened Queries
  import opened Pacing

  /** The rows next_due considers. */
  predicate Wakes(r: Row) {
    r.scheduledFor.Some? && (r.status == Pending || (r.status == TaskStatus.Failed && BudgetLeft(r)))
  }

  function WakeAt(r: Row): Time
    requires Wakes(r)
  {
    if r.made.expiresAt.Some? && r.made.expiresAt.value < r.scheduledFor.value
    then r.made.expiresAt.value else r.scheduledFor.value
  }

  /** A claim at this instant would do something with the row: expire it or take it. */
  predicate ClaimActsOn(r: Row, at: Time) {
    (Waiting(r) && PastDeadline(r, at)) || Claimable(r, at)
  }

  /** The wake instant is exactly the first instant at which a claim would act on the row. */
  lemma WakeAtIsExact(r: Row, at: Time)
    requires Wakes(r)
    ensures ClaimActsOn(r, at) <==> WakeAt(r) <= at
  {
  }

  predicate WakesInScope(t: Table, queues: Scope, id: Id) {
    id in t && Wakes(t[id]) && InScope(queues, t[id])
  }

  /** due is the answer of next_due read at an instant: the earliest wake, brought up to now. */
  predicate IsNextDue(t: Table, queues: Scope, readAt: Time, due: Option<Time>) {
    && (due.None? <==> forall id :: id in t ==> !WakesInScope(t, queues, id))
    && (due.Some? ==>
          && (exists id :: id in t && WakesInScope(t, queues, id) && due.value == MaxOf(WakeAt(t[id]), readAt))
          && forall id :: id in t && WakesInScope(t, queues, id) ==> due.value <= MaxOf(WakeAt(t[id]), readAt))
  }

  /** By the columns: scheduled, of the queues, and PENDING, or FAILED with attempts left. */
  predicate MayFallDue(r: Row, queues: Scope) {
    && r.scheduledFor.Some? && (queues.Some? ==> r.made.queue in queues.value)
    && (r.status == Pending || (r.status == TaskStatus.Failed && r.attempts < r.made.maxAttempts))
  }

  /** next_due: the minimum over the rows in scope. Brought up to now, it is no later than the schedule and
      the deadline of any such row, and it is the schedule or the deadline of one. */
  method NextDue(t: Table, queues: Scope, now: Time) returns (due: Option<Time>)
    ensures IsNextDue(t, queues, now, due)
    ensures forall id :: id in t && MayFallDue(t[id], queues) ==>
      && due.Some? && due.value <= MaxOf(now, t[id].scheduledFor.value)
      && (t[id].made.expiresAt.Some? ==> due.value <= MaxOf(now, t[id].made.expiresAt.value))
    ensures due.Some? ==> exists id ::
      && id in t && MayFallDue(t[id], queues)
      && (|| due.value == MaxOf(now, t[id].scheduledFor.value)
          || (t[id].made.expiresAt.Some? && due.value == MaxOf(now, t[id].made.expiresAt.value)))
  {
    var least: Option<Time> := None;
    var rest := t.Keys;
    while rest != {}
      invariant rest <= t.Keys
      invariant least.None? ==> forall id :: id in t && id !in rest ==> !WakesInScope(t, queues, id)
      invariant least.Some? ==>
        && (exists id :: id in t && WakesInScope(t, queues, id) && least.value == WakeAt(t[id]))
        && forall id :: id in t && id !in rest && WakesInScope(t, queues, id) ==> least.value <= WakeAt(t[id])
      decreases rest
    {
      var id :| id in rest;
      if WakesInScope(t, queues, id) && (least.None? || WakeAt(t[id]) < least.value) {
        least := Some(WakeAt(t[id]));
      }
      rest := rest - {id};
    }
    if least.None? || least.value >= now {
      return least;
    }
    return Some(now);
  }

  /** The wait is positive, at most the idle poll, and never passes the first instant at which
      some row in scope becomes claimable or expires by more than the 0.05 s floor. The schedule
      was read at readAt and the wait is computed later, at now. */
  lemma WaitNeverOversleeps(t: Table, queues: Scope, readAt: Time, due: Option<Time>, idle: Time, now: Time)
    requires IsNextDue(t, queues, readAt, due) && readAt <= now
    ensures var wait := BoundedWait(idle, due, now);
      && wait <= idle && (wait > 0.0 <==> idle > 0.0)
      && forall id, at :: id in t && WakesInScope(t, queues, id) && ClaimActsOn(t[id], at)
           ==> now + wait <= MaxOf(at, now) + DUE_WAIT
  {
    forall id, at | id in t && WakesInScope(t, queues, id) && ClaimActsOn(t[id], at)
      ensures now + BoundedWait(idle, due, now) <= MaxOf(at, now) + DUE_WAIT
    {
      WakeAtIsExact(t[id], at);
    }
  }
}
