/** The pools the system's SELECT statements range over. */
module Queries {
  import opened Common
  import opened Rows
  import opened Selection

  /** A dispatcher serves these queues, or all of them. */
  type Scope = Option<set<string>>

  predicate InScope(queues: Scope, r: Row) {
    queues.None? || r.made.queue in queues.value
  }

  /** claim: waiting rows past their deadline, not locked by another transaction. */
  function ExpirePool(t: Table, at: Time, queues: Scope, locked: set<Id>): set<Id> {
    set id | id in t && id !in locked && Waiting(t[id]) && PastDeadline(t[id], at) && InScope(queues, t[id])
  }

  /** claim: the candidates, once the expired rows are out of the way. */
  function ClaimPool(t: Table, at: Time, queues: Scope, locked: set<Id>): set<Id> {
    set id | id in t && id !in locked && Claimable(t[id], at) && InScope(queues, t[id])
  }

  /** sweep_expired: every not yet started row past its deadline, not locked elsewhere. */
  function DeadlinePool(t: Table, at: Time, locked: set<Id>): set<Id> {
    set id | id in t && id !in locked && SweepsAsExpired(t[id]) && PastDeadline(t[id], at)
  }

  /** sweep_failed, sweep_dispatching and sweep_stuck. */
  function PassPool(t: Table, p: Pass, at: Time, age: Time): set<Id> {
    set id | id in t && PassSelects(p, t[id], at, age)
  }

  /** claim's deadline query has a LIMIT but no ORDER BY. */
  predicate AnyOf(pool: set<Id>, limit: nat, picked: set<Id>) {
    picked <= pool && |picked| == (if limit < |pool| then limit else |pool|)
  }

  /** The unique constraint on (task_type, idempotency_key): NULL keys never collide. */
  predicate SameKey(a: Creation, b: Creation) {
    a.key.Some? && a.key == b.key && a.taskType == b.taskType
  }

  predicate KeyFree(t: Table, made: Creation) {
    forall id :: id in t ==> !SameKey(made, t[id].made)
  }
}
