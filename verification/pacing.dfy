/** The dispatcher's clocks: failure backoff, sweep cadence and idle wait (_BackoffState, _SweepClock, _bounded_wait).
    The monotonic clock is read by the caller and passed in. */
module Pacing {
  import opened Common
  import opened Policy

  // --- backoff ---

  function NextDelay(delay: Time, base: Time, cap: Time): Time {
    if delay != 0.0 then MinOf(delay * 2.0, cap) else base
  }

  /** The retry delay after n consecutive failures. */
  function DelayAfter(base: Time, cap: Time, n: nat): Time {
    if n == 0 then 0.0 else NextDelay(DelayAfter(base, cap, n - 1), base, cap)
  }

  class BackoffState {
    const base: Time
    const cap: Time
    var retryDelay: Time
    var retryAt: Time

    constructor (base: Time, cap: Time)
      ensures this.base == base && this.cap == cap && retryDelay == 0.0 && forall now :: SetBy(now)
    {
      this.base, this.cap, retryDelay, retryAt := base, cap, 0.0, 0.0;
    }

    /** The remaining wait has been set by a clock reading no later than now. Every failure and every
        success establishes it, and a later reading keeps it. */
    ghost predicate SetBy(now: Time)
      reads this
    {
      retryDelay != 0.0 ==> retryAt <= now + retryDelay
    }

    method NoteFailure(now: Time)
      modifies this
      ensures retryDelay == NextDelay(old(retryDelay), base, cap) && retryAt == now + retryDelay && SetBy(now)
    {
      if retryDelay != 0.0 {
        retryDelay := MinOf(retryDelay * 2.0, cap);
      } else {
        retryDelay := base;
      }
      retryAt := now + retryDelay;
    }

    method NoteSuccess()
      modifies this
      ensures retryDelay == 0.0 && retryAt == 0.0 && forall now :: SetBy(now)
    {
      retryDelay, retryAt := 0.0, 0.0;
    }

    function RemainingDelay(now: Time): (r: Time)
      reads this
      ensures r >= 0.0
      ensures retryDelay == 0.0 ==> r == 0.0
      ensures retryDelay != 0.0 ==> now + r >= retryAt && (r > 0.0 ==> now + r == retryAt)
      ensures SetBy(now) ==> r <= MaxOf(0.0, retryDelay)
    {
      if retryDelay == 0.0 then 0.0 else MaxOf(0.0, retryAt - now)
    }
  }

  /** When the capped doubling is what its formula says: with a positive base and cap; with neither; and,
      below zero, when the cap does not bite before the second doubling. */
  predicate CapFits(base: Time, cap: Time) {
    if base > 0.0 then cap > 0.0 else if base == 0.0 then cap >= 0.0 else cap >= 2.0 * base
  }

  function Formula(base: Time, cap: Time, n: nat): Time
    requires n >= 1
  {
    MinOf(Scaled(base, 2.0, n - 1), cap)
  }

  lemma FirstDelays(base: Time, cap: Time)
    ensures DelayAfter(base, cap, 1) == base
    ensures base != 0.0 ==> DelayAfter(base, cap, 2) == MinOf(2.0 * base, cap) == Formula(base, cap, 2)
    ensures base == 0.0 ==> DelayAfter(base, cap, 2) == 0.0
  {
    assert DelayAfter(base, cap, 1) == base;
    assert Scaled(base, 2.0, 1) == 2.0 * Scaled(base, 2.0, 0);
  }

  lemma {:induction false} DelayIsScaledAndCapped(base: Time, cap: Time, n: nat)
    requires CapFits(base, cap) && n >= 2
    ensures DelayAfter(base, cap, n) == Formula(base, cap, n)
    ensures base > 0.0 ==> Scaled(base, 2.0, n - 1) > 0.0
    ensures base == 0.0 ==> Scaled(base, 2.0, n - 1) == 0.0
    ensures base < 0.0 ==> Scaled(base, 2.0, n - 1) <= 2.0 * base
  {
    if n == 2 {
      FirstDelays(base, cap);
      assert Scaled(base, 2.0, 1) == 2.0 * Scaled(base, 2.0, 0);
    } else {
      DelayIsScaledAndCapped(base, cap, n - 1);
      assert Scaled(base, 2.0, n - 1) == 2.0 * Scaled(base, 2.0, n - 2);
    }
  }

  /** From the second consecutive failure on the delay is min(base * 2^(n-1), cap) exactly when the cap
      fits the base, for every base and cap: otherwise the second or third failure already breaks the
      formula (a zero cap, for one, restarts the doubling). The first failure's delay is the base, which
      is not capped. */
  lemma DelayFormulaIffCap(base: Time, cap: Time)
    ensures (forall n: nat :: n >= 2 ==> DelayAfter(base, cap, n) == Formula(base, cap, n)) <==> CapFits(base, cap)
    ensures DelayAfter(base, cap, 1) == base
  {
    FirstDelays(base, cap);
    if CapFits(base, cap) {
      forall n: nat | n >= 2 ensures DelayAfter(base, cap, n) == Formula(base, cap, n) {
        DelayIsScaledAndCapped(base, cap, n);
      }
    } else {
      var n: nat := if base == 0.0 then 2 else 3;
      FormulaFails(base, cap);
      assert DelayAfter(base, cap, n) != Formula(base, cap, n);
    }
  }

  lemma FormulaFails(base: Time, cap: Time)
    requires !CapFits(base, cap)
    ensures base == 0.0 ==> DelayAfter(base, cap, 2) != Formula(base, cap, 2)
    ensures base != 0.0 ==> DelayAfter(base, cap, 3) != Formula(base, cap, 3)
  {
    FirstDelays(base, cap);
    assert Scaled(base, 2.0, 1) == 2.0 * Scaled(base, 2.0, 0);
    assert Scaled(base, 2.0, 2) == 2.0 * Scaled(base, 2.0, 1);
    assert DelayAfter(base, cap, 3) == NextDelay(DelayAfter(base, cap, 2), base, cap);
  }

  /** Every delay after a failure is positive exactly when base and cap are. */
  lemma DelayIsPositiveExactly(base: Time, cap: Time)
    ensures (forall n: nat :: n >= 1 ==> DelayAfter(base, cap, n) > 0.0) <==> base > 0.0 && cap > 0.0
  {
    if base > 0.0 && cap > 0.0 {
      forall n: nat | n >= 1 ensures DelayAfter(base, cap, n) > 0.0 {
        DelayIsPositive(base, cap, n);
      }
    } else {
      assert DelayAfter(base, cap, 1) == base;
      var n: nat := if base > 0.0 then 2 else 1;
      assert DelayAfter(base, cap, n) <= 0.0;
    }
  }

  lemma {:induction false} DelayIsPositive(base: Time, cap: Time, n: nat)
    requires base > 0.0 && cap > 0.0 && n >= 1
    ensures DelayAfter(base, cap, n) > 0.0
  {
    if n == 1 {
      assert DelayAfter(base, cap, 1) == base;
    } else {
      DelayIsPositive(base, cap, n - 1);
    }
  }

  // --- sweep cadence ---

  predicate IsDue(interval: Option<Time>, last: Option<Time>, now: Time) {
    interval.Some? && (last.None? || now - last.value >= interval.value)
  }

  class SweepClock {
    const interval: Option<Time>
    var last: Option<Time>

    constructor (interval: Option<Time>)
      ensures this.interval == interval && last == None
    {
      this.interval, last := interval, None;
    }

    method Due(now: Time) returns (due: bool)
      modifies this
      ensures due <==> IsDue(interval, old(last), now)
      ensures last == if due then Some(now) else old(last)
    {
      if interval.None? {
        return false;
      }
      if last.Some? && now - last.value < interval.value {
        return false;
      }
      last := Some(now);
      return true;
    }
  }

  /** The readings, in order, at which a clock last true at last answers True. */
  function TrueAt(interval: Option<Time>, last: Option<Time>, readings: seq<Time>): seq<Time>
    decreases |readings|
  {
    if readings == [] then []
    else if IsDue(interval, last, readings[0]) then [readings[0]] + TrueAt(interval, Some(readings[0]), readings[1..])
    else TrueAt(interval, last, readings[1..])
  }

  /** The last of the answers, or what there was before them. */
  function LastOf(last: Option<Time>, ts: seq<Time>): Option<Time> {
    if ts == [] then last else Some(ts[|ts| - 1])
  }

  /** One reading more: the answer depends on the last True one. */
  lemma {:induction false} OneMoreReading(interval: Option<Time>, last: Option<Time>, readings: seq<Time>, now: Time)
    ensures TrueAt(interval, last, readings + [now]) ==
      var ts := TrueAt(interval, last, readings);
      if IsDue(interval, LastOf(last, ts), now) then ts + [now] else ts
    decreases |readings|
  {
    var more := readings + [now];
    if readings == [] {
      assert more == [now] && more[1..] == [];
    } else {
      assert more[0] == readings[0] && more[1..] == readings[1..] + [now];
      var next := if IsDue(interval, last, readings[0]) then Some(readings[0]) else last;
      OneMoreReading(interval, next, readings[1..], now);
    }
  }

  /** After a True answer the next ones come at least an interval apart. */
  lemma {:induction false} TrueAnswersAreApart(interval: Time, last: Option<Time>, readings: seq<Time>)
    ensures var ts := TrueAt(Some(interval), last, readings);
      && (forall i :: 0 <= i < |ts| - 1 ==> ts[i + 1] - ts[i] >= interval)
      && (ts != [] && last.Some? ==> ts[0] - last.value >= interval)
    decreases |readings|
  {
    if readings == [] {
    } else {
      var next := if IsDue(Some(interval), last, readings[0]) then Some(readings[0]) else last;
      TrueAnswersAreApart(interval, next, readings[1..]);
      var ts, rest := TrueAt(Some(interval), last, readings), TrueAt(Some(interval), next, readings[1..]);
      if IsDue(Some(interval), last, readings[0]) {
        forall i | 0 <= i < |ts| - 1 ensures ts[i + 1] - ts[i] >= interval {
          if i > 0 { assert rest[i - 1 + 1] - rest[i - 1] >= interval; }
        }
      }
    }
  }

  lemma {:induction false} TrueAnswersSpan(ts: seq<Time>, interval: Time)
    requires forall i :: 0 <= i < |ts| - 1 ==> ts[i + 1] - ts[i] >= interval
    requires ts != []
    ensures ts[|ts| - 1] - ts[0] >= (|ts| - 1) as real * interval
  {
    if |ts| == 1 {
    } else {
      var head := ts[..|ts| - 1];
      TrueAnswersSpan(head, interval);
      var n := |ts| - 1;
      assert ts[n - 1 + 1] - ts[n - 1] >= interval;
      assert (n - 1) as real * interval + interval == n as real * interval;
    }
  }

  lemma {:induction false} TrueAnswersAreReadings(
      interval: Option<Time>, last: Option<Time>, readings: seq<Time>, low: Time, high: Time)
    requires forall i :: 0 <= i < |readings| ==> low <= readings[i] <= high
    ensures forall t :: t in TrueAt(interval, last, readings) ==> low <= t <= high
    decreases |readings|
  {
    if readings == [] {
    } else {
      var next := if IsDue(interval, last, readings[0]) then Some(readings[0]) else last;
      TrueAnswersAreReadings(interval, next, readings[1..], low, high);
    }
  }

  /** Whatever the readings within an elapsed time, at most floor(elapsed / interval) + 1 sweeps. */
  lemma SweepsAreRationed(interval: Time, last: Option<Time>, readings: seq<Time>, start: Time, elapsed: Time)
    requires interval > 0.0 && elapsed >= 0.0
    requires forall i :: 0 <= i < |readings| ==> start <= readings[i] <= start + elapsed
    ensures |TrueAt(Some(interval), last, readings)| <= (elapsed / interval).Floor + 1
  {
    var ts := TrueAt(Some(interval), last, readings);
    if ts != [] {
      TrueAnswersAreApart(interval, last, readings);
      TrueAnswersSpan(ts, interval);
      TrueAnswersAreReadings(Some(interval), last, readings, start, start + elapsed);
      var n := |ts| - 1;
      assert ts[0] in ts && ts[n] in ts;
      assert ts[n] - ts[0] <= elapsed;
      assert n as real * interval <= ts[n] - ts[0];
      QuotientBound(n, interval, elapsed);
    }
  }

  lemma QuotientBound(n: nat, interval: Time, elapsed: Time)
    requires interval > 0.0 && n as real * interval <= elapsed
    ensures n <= (elapsed / interval).Floor
  {
    assert elapsed / interval * interval == elapsed;
    assert n as real <= elapsed / interval;
  }

  // --- the idle wait ---

  /** A due row may be locked by another dispatcher: never wait less than this. */
  const DUE_WAIT: Time := 0.05

  function BoundedWait(idle: Time, due: Option<Time>, now: Time): Time {
    if due.None? then idle
    else
      var remaining := MaxOf(0.0, due.value - now);
      if remaining == 0.0 then MinOf(idle, DUE_WAIT) else MinOf(idle, remaining)
  }

  /** The wait lasts until the row is due, or the idle poll if that is shorter or no row is due; for a row
      that is due already, the floor. */
  lemma BoundedWaitIsExact(idle: Time, due: Option<Time>, now: Time)
    ensures var wait := BoundedWait(idle, due, now);
      && wait <= idle
      && (due.None? ==> wait == idle)
      && (due.Some? && due.value > now ==> now + wait <= due.value && (wait == idle || now + wait == due.value))
      && (due.Some? && due.value <= now ==> wait <= 0.05 && (wait == idle || wait == 0.05))
  {
  }
}
