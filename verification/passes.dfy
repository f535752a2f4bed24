/** Whom the recovery passes take and when, told by the columns they test. */
module Passes {
  import opened Common
  import opened States
  import opened Rows
  import opened Selection
  import opened Queries
  import opened Protocol
  import opened Invariants
  import opened Convergence
  import Effects

  /** FAILED and its retry is due; DISPATCHING since longer than age; or PROCESSING since longer than age. */
  predicate MayPass(pass: Pass, r: Row, at: Time, age: Time) {
    match pass
    case FailedPass => r.status == TaskStatus.Failed && r.scheduledFor.Some? && r.scheduledFor.value <= at
    case DispatchingPass => r.status == Dispatching && r.dispatchingAt.Some? && r.dispatchingAt.value < at - age
    case StuckPass => r.status == Processing && r.startedAt.Some? && r.startedAt.value < at - age
  }

  /** The instant such a row has been waiting since. */
  function Since(pass: Pass, r: Row, at: Time, age: Time): Time
    requires MayPass(pass, r, at, age)
  {
    match pass
    case FailedPass => r.scheduledFor.value
    case DispatchingPass => r.dispatchingAt.value
    case StuckPass => r.startedAt.value
  }

  /** An answer of a pass's query: such rows only; every one of them while the limit has room; and oldest
      first, no row left out being older than one taken. */
  lemma PassTakes(t: Table, pass: Pass, at: Time, age: Time, limit: nat, picked: seq<Id>, x: Id)
    requires Selected(t, PassPool(t, pass, at, age), PassOrder(pass), limit, picked)
    ensures |picked| <= limit && NoDup(picked)
    ensures x in picked ==> x in t && MayPass(pass, t[x], at, age)
    ensures x in t && MayPass(pass, t[x], at, age) ==> x in picked || |picked| == limit
    ensures x in t && MayPass(pass, t[x], at, age) ==>
      forall m :: 0 <= m < |picked| && x !in picked[..m] ==>
        && picked[m] in t && MayPass(pass, t[picked[m]], at, age)
        && Since(pass, t[picked[m]], at, age) <= Since(pass, t[x], at, age)
  {
    TakesWholePool(t, PassPool(t, pass, at, age), PassOrder(pass), limit, picked);
    if x in t && MayPass(pass, t[x], at, age) {
      forall m | 0 <= m < |picked| && x !in picked[..m]
        ensures picked[m] in t && MayPass(pass, t[picked[m]], at, age)
          && Since(pass, t[picked[m]], at, age) <= Since(pass, t[x], at, age)
      {
        assert forall n :: 0 <= n < m ==> picked[..m][n] == picked[n];
        OlderFirst(t, pass, at, age, limit, picked, x, m);
      }
    }
  }

  lemma OlderFirst(t: Table, pass: Pass, at: Time, age: Time, limit: nat, picked: seq<Id>, x: Id, m: nat)
    requires Selected(t, PassPool(t, pass, at, age), PassOrder(pass), limit, picked)
    requires x in t && MayPass(pass, t[x], at, age) && m < |picked|
    requires forall n :: 0 <= n < m ==> picked[n] != x
    ensures picked[m] in t && MayPass(pass, t[picked[m]], at, age)
    ensures Since(pass, t[picked[m]], at, age) <= Since(pass, t[x], at, age)
  {
    assert picked[m] in Elements(picked);
    if x in picked {
      var n :| 0 <= n < |picked| && picked[n] == x;
      assert n >= m;
    }
    assert !Precedes(PassOrder(pass), t[x], t[picked[m]]);
  }

  /** sweep_expired takes PENDING, FAILED and DISPATCHING rows past their deadline, unlocked; every one of them
      while the limit has room; and earliest deadline first. */
  lemma DeadlineSweepTakes(s: State, at: Time, limit: nat, locked: set<Id>, picked: seq<Id>, x: Id)
    requires Allowed(s, SweepExpired(at, limit, locked, picked))
    ensures |picked| <= limit && NoDup(picked)
    ensures x in picked ==> x in s.rows && x !in locked && Overdue(s.rows[x], at)
    ensures x in s.rows && x !in locked && Overdue(s.rows[x], at) ==> x in picked || |picked| == limit
    ensures x in s.rows && x !in locked && Overdue(s.rows[x], at) ==>
      forall m :: 0 <= m < |picked| && x !in picked[..m] ==>
        && picked[m] in s.rows && Overdue(s.rows[picked[m]], at)
        && s.rows[picked[m]].made.expiresAt.value <= s.rows[x].made.expiresAt.value
  {
    TakesWholePool(s.rows, DeadlinePool(s.rows, at, locked), DeadlineOrder, limit, picked);
    if x in s.rows && x !in locked && Overdue(s.rows[x], at) {
      forall m | 0 <= m < |picked| && x !in picked[..m]
        ensures picked[m] in s.rows && Overdue(s.rows[picked[m]], at)
          && s.rows[picked[m]].made.expiresAt.value <= s.rows[x].made.expiresAt.value
      {
        assert forall n :: 0 <= n < m ==> picked[..m][n] == picked[n];
        EarlierFirst(s, at, limit, locked, picked, x, m);
      }
    }
  }

  predicate Overdue(r: Row, at: Time) {
    && (r.status == Pending || r.status == TaskStatus.Failed || r.status == Dispatching)
    && r.made.expiresAt.Some? && r.made.expiresAt.value <= at
  }

  lemma EarlierFirst(s: State, at: Time, limit: nat, locked: set<Id>, picked: seq<Id>, x: Id, m: nat)
    requires Allowed(s, SweepExpired(at, limit, locked, picked))
    requires x in s.rows && x !in locked && Overdue(s.rows[x], at) && m < |picked|
    requires forall n :: 0 <= n < m ==> picked[n] != x
    ensures picked[m] in s.rows && Overdue(s.rows[picked[m]], at)
    ensures s.rows[picked[m]].made.expiresAt.value <= s.rows[x].made.expiresAt.value
  {
    assert picked[m] in Elements(picked);
    if x in picked {
      var n :| 0 <= n < |picked| && picked[n] == x;
      assert n >= m;
    }
    assert !Precedes(DeadlineOrder, s.rows[x], s.rows[picked[m]]);
  }

  // --- one sweep ---

  /** A pass of a sweep takes such rows only, and every one while the limit has room; the rows it does not
      take stay as they were. */
  lemma StageTakes(t: Table, pass: Pass, c: Setting, limit: nat, picked: seq<Id>, id: Id)
    requires Picks(t, Recovery(pass), c, limit, picked) && id in t
    ensures id in picked ==> MayPass(pass, t[id], c.at, AgeOf(c, pass))
    ensures MayPass(pass, t[id], c.at, AgeOf(c, pass)) ==> id in picked || |picked| == limit
    ensures id !in picked ==> After(t, Recovery(pass), c, picked)[id] == t[id]
  {
    assert Pool(t, Recovery(pass), c) == PassPool(t, pass, c.at, AgeOf(c, pass));
    PassTakes(t, pass, c.at, AgeOf(c, pass), limit, picked, id);
  }

  lemma DeadlineStageTakes(t: Table, c: Setting, limit: nat, picked: seq<Id>, id: Id)
    requires Picks(t, Deadlines, c, limit, picked) && id in t
    ensures id in picked ==> Overdue(t[id], c.at)
    ensures Overdue(t[id], c.at) ==> id in picked || |picked| == limit
    ensures id !in picked ==> After(t, Deadlines, c, picked)[id] == t[id]
  {
    TakesWholePool(t, Pool(t, Deadlines, c), DeadlineOrder, limit, picked);
  }

  /** The four lists of one sweep, by the columns the rows had before it: overdue and not started; FAILED and
      due for retry; DISPATCHING for longer than the timeout; PROCESSING for longer than the threshold. While
      its limit has room, each list holds every such row that the deadline pass has not taken. */
  lemma SweepTakes(t: Table, c: Setting, limit: nat, w: Sweep, id: Id)
    requires IsSweep(t, c, limit, w) && id in t
    ensures id in w.expired ==> Overdue(t[id], c.at)
    ensures id in w.failed ==> MayPass(FailedPass, t[id], c.at, 0.0)
    ensures id in w.dispatching ==> MayPass(DispatchingPass, t[id], c.at, c.timeout)
    ensures id in w.stuck ==> MayPass(StuckPass, t[id], c.at, c.threshold)
    ensures Overdue(t[id], c.at) ==> id in w.expired || |w.expired| == limit
    ensures id !in w.expired ==>
      && (MayPass(FailedPass, t[id], c.at, 0.0) ==> id in w.failed || |w.failed| == limit)
      && (MayPass(DispatchingPass, t[id], c.at, c.timeout) ==> id in w.dispatching || |w.dispatching| == limit)
      && (MayPass(StuckPass, t[id], c.at, c.threshold) ==> id in w.stuck || |w.stuck| == limit)
  {
    var t1, t2, t3 := After1(t, c, w), After2(t, c, w), After3(t, c, w);
    SweepRowOnce(t, c, limit, w, id);
    DeadlineStageTakes(t, c, limit, w.expired, id);
    StageTakes(t1, FailedPass, c, limit, w.failed, id);
    StageTakes(t2, DispatchingPass, c, limit, w.dispatching, id);
    StageTakes(t3, StuckPass, c, limit, w.stuck, id);
  }

  // --- over runs ---

  /** A locked pass writes a row only if it is in the pass's status and has been for longer than age, or, for
      sweep_failed, if its retry is due. */
  lemma LockedPassWaits(r: Run, k: nat, id: Id)
    requires r.Valid() && 0 < k <= |r.steps| && r.steps[k - 1].SweepLocked? && id in r.states[k - 1].rows
    ensures id in r.states[k].rows
    ensures r.states[k].rows[id] != r.states[k - 1].rows[id] ==>
      && MayPass(r.steps[k - 1].pass, r.states[k - 1].rows[id], r.steps[k - 1].at, r.steps[k - 1].age)
      && r.steps[k - 1].at <= r.states[k - 1].now
  {
    RunLink(r, k);
    var s, step := r.states[k - 1], r.steps[k - 1];
    Effects.LockedPassWrites(s, step.pass, step.at, step.age, step.limit, step.picked, id);
    PassTakes(s.rows, step.pass, step.at, step.age, step.limit, step.picked, id);
  }

  /** An unlocked pass writes a row only if it read it so: however the ledger moved in between, a row that the
      update at step j writes was, at the read, in the pass's status for longer than age or due for retry. */
  lemma UnlockedPassReadIt(r: Run, k: nat, i: nat, j: nat, id: Id)
    requires r.Valid() && i < j < |r.steps| && ReadFrom(r, k, i, j) && id in r.states[j].rows
    requires r.steps[j] == SweepRecover(k) || r.steps[j] == SweepBury(k)
    ensures id in r.states[j + 1].rows
    ensures r.states[j + 1].rows[id] != r.states[j].rows[id] ==>
      && id in r.states[i].rows && r.steps[i].at <= r.states[i].now
      && MayPass(r.steps[i].pass, r.states[i].rows[id], r.steps[i].at, r.steps[i].age)
  {
    RunLink(r, j + 1);
    ReadStays(r, k, i, j);
    UpdatesWhatItRead(r.states[j], r.steps[j], k, id);
    ReadSaw(r, i, id);
  }

  lemma ReadSaw(r: Run, i: nat, id: Id)
    requires r.Valid() && i < |r.steps| && r.steps[i].SweepRead?
    ensures r.steps[i].at <= r.states[i].now
    ensures id in r.steps[i].picked ==>
      id in r.states[i].rows && MayPass(r.steps[i].pass, r.states[i].rows[id], r.steps[i].at, r.steps[i].age)
  {
    var read := r.steps[i];
    RunLink(r, i + 1);
    PassTakes(r.states[i].rows, read.pass, read.at, read.age, read.limit, read.picked, id);
  }

  lemma UpdatesWhatItRead(s: State, step: Step, k: nat, id: Id)
    requires k in s.sweeps && id in s.rows && (step == SweepRecover(k) || step == SweepBury(k))
    ensures id in Apply(s, step).rows && (Apply(s, step).rows[id] != s.rows[id] ==> id in s.sweeps[k].ids)
  {
    Effects.UnlockedPassWrites(s, k, id);
  }

  /** Sweeper k read at step i and has not finished its pass by step j. */
  ghost predicate ReadFrom(r: Run, k: nat, i: nat, j: nat)
    requires r.Shaped() && i < j <= |r.steps|
  {
    && r.steps[i].SweepRead? && r.steps[i].sweeper == k
    && forall m :: i < m < j ==> r.steps[m] != SweepBury(k)
  }

  lemma SweepStaysOpen(s: State, step: Step, k: nat)
    requires Enabled(s, step) && k in s.sweeps && step != SweepBury(k)
    ensures k in Apply(s, step).sweeps && Apply(s, step).sweeps[k] == s.sweeps[k]
  {
  }

  lemma {:induction false} ReadStays(r: Run, k: nat, i: nat, j: nat)
    requires r.Valid() && i < j <= |r.steps| && ReadFrom(r, k, i, j)
    ensures k in r.states[j].sweeps && r.states[j].sweeps[k] == SweepTx(r.steps[i].pass, r.steps[i].picked)
    decreases j
  {
    RunLink(r, j);
    if j == i + 1 {
    } else {
      ReadStays(r, k, i, j - 1);
      SweepStaysOpen(r.states[j - 1], r.steps[j - 1], k);
    }
  }
}
