/** Backoff shapes, retry classification and the older delay formula
    (policy.py and core/backoff.py). Random jitter is an explicit draw in [-1, 1]. */
module Policy {
  import opened Common

  datatype Backoff =
    | Constant(seconds: real, jitter: real)
    | Exponential(baseS: real, factor: real, capS: real, jitter: real)
    | Custom(fn: int -> real)

  /** The classes an exception is an instance of, and the wait it asks for when it is a RetryAfter. */
  datatype Exc = Exc(classes: set<string>, retryAfter: Option<real>)

  datatype TaskPolicy = TaskPolicy(
    queue: string, priority: int, maxAttempts: int, backoff: Backoff,
    retryOn: set<string>, failFastOn: set<string>)

  predicate IsRetryable(p: TaskPolicy, exc: Exc) {
    if !(exc.classes !! p.failFastOn) then false
    else p.retryOn == {} || !(exc.classes !! p.retryOn)
  }

  /** base * factor^n. */
  function Scaled(base: real, factor: real, n: nat): real {
    if n == 0 then base else factor * Scaled(base, factor, n - 1)
  }

  /** u stands for random.uniform: -1 and 1 are the ends of its interval. */
  function Jittered(seconds: real, jitter: real, cap: Option<real>, u: real): real {
    var moved := if jitter > 0.0 then seconds + (seconds * jitter) * u else seconds;
    var capped := if cap.Some? then MinOf(moved, cap.value) else moved;
    MaxOf(0.0, capped)
  }

  function ExponentialRaw(baseS: real, factor: real, attempt: int): real {
    Scaled(baseS, factor, if attempt - 1 > 0 then attempt - 1 else 0)
  }

  function DelayFor(b: Backoff, attempt: int, u: real): real {
    match b
    case Constant(seconds, jitter) => Jittered(seconds, jitter, None, u)
    case Exponential(baseS, factor, capS, jitter) =>
      Jittered(MinOf(ExponentialRaw(baseS, factor, attempt), capS), jitter, Some(capS), u)
    case Custom(fn) => fn(attempt)
  }

  /** How the older formula ends: the clamp is applied only when jitter is on. */
  function ClampIfJittered(delay: real, cap: real, jitter: real, u: real): real {
    if jitter > 0.0 then MaxOf(0.0, MinOf(delay + (delay * jitter) * u, cap)) else delay
  }

  /** core/backoff.py: base * 2^attempts, capped, then jittered. */
  function RetryDelay(attempts: nat, base: real, cap: real, jitter: real, u: real): real {
    ClampIfJittered(MinOf(Scaled(base, 2.0, attempts), cap), cap, jitter, u)
  }

  /** Whatever the shape parameters and the draws, an exponential wait is between zero and the cap. */
  lemma ExponentialIsCapped(baseS: real, factor: real, capS: real, jitter: real, attempt: int, u: real)
    ensures 0.0 <= DelayFor(Exponential(baseS, factor, capS, jitter), attempt, u) <= MaxOf(0.0, capS)
  {
  }

  lemma {:induction false} ScaledGrows(base: real, factor: real, n: nat)
    requires base >= 0.0 && factor >= 1.0
    ensures base <= Scaled(base, factor, n) <= Scaled(base, factor, n + 1)
  {
    if n == 0 {
    } else {
      ScaledGrows(base, factor, n - 1);
    }
    assert (factor - 1.0) * Scaled(base, factor, n) >= 0.0;
  }

  lemma {:induction false} NegativeScaled(base: real, factor: real, n: nat)
    requires base < 0.0 && factor >= 1.0
    ensures Scaled(base, factor, n) <= base
  {
    if n == 0 {
    } else {
      NegativeScaled(base, factor, n - 1);
      assert (factor - 1.0) * Scaled(base, factor, n - 1) <= 0.0;
    }
  }

  /** Without jitter a later attempt never waits less (and a negative base never waits at all). */
  lemma {:induction false} ExponentialIsMonotone(
      baseS: real, factor: real, capS: real, a: int, b: int, u: real, v: real)
    requires factor >= 1.0 && a <= b
    ensures DelayFor(Exponential(baseS, factor, capS, 0.0), a, u)
      <= DelayFor(Exponential(baseS, factor, capS, 0.0), b, v)
    decreases b - a
  {
    if a == b {
    } else if baseS < 0.0 {
      NegativeScaled(baseS, factor, if a - 1 > 0 then a - 1 else 0);
    } else {
      ExponentialIsMonotone(baseS, factor, capS, a, b - 1, u, v);
      if b - 1 > 0 {
        ScaledGrows(baseS, factor, b - 2);
      }
    }
  }

  /** The first wait is the base and each later one the last times the factor, both capped. */
  lemma WaitsAreScaled(baseS: real, factor: real, capS: real, attempt: int, u: real, v: real)
    requires baseS >= 0.0 && factor >= 1.0 && capS >= 0.0
    ensures var e := Exponential(baseS, factor, capS, 0.0);
      DelayFor(e, attempt, u) ==
        if attempt <= 1 then MinOf(baseS, capS) else MinOf(factor * DelayFor(e, attempt - 1, v), capS)
  {
    var n: nat := if attempt - 1 > 0 then attempt - 1 else 0;
    ScaledGrows(baseS, factor, n);
    if attempt > 1 {
      ScaledGrows(baseS, factor, n - 1);
      CapOfProduct(factor, Scaled(baseS, factor, n - 1), capS);
    }
  }

  lemma CapOfProduct(factor: real, x: real, cap: real)
    requires factor >= 1.0 && x >= 0.0 && cap >= 0.0
    ensures MinOf(factor * MinOf(x, cap), cap) == MinOf(factor * x, cap)
  {
    Product(factor - 1.0, cap);
    assert (factor - 1.0) * cap == factor * cap - cap;
    if x > cap {
      Product(factor, x - cap);
      assert factor * (x - cap) == factor * x - factor * cap;
    }
  }

  lemma Product(a: real, b: real)
    requires a >= 0.0 && b >= 0.0
    ensures a * b >= 0.0
  {
  }

  lemma Between(share: real, u: real)
    requires share >= 0.0 && -1.0 <= u <= 1.0
    ensures -share <= share * u <= share
    ensures u == 1.0 ==> share * u == share
    ensures u == -1.0 ==> share * u == -share
  {
    Product(share, 1.0 - u);
    Product(share, 1.0 + u);
    assert share * (1.0 - u) == share - share * u && share * (1.0 + u) == share + share * u;
  }

  lemma ShareIsPart(m: real, jitter: real, share: real)
    requires m >= 0.0 && 0.0 <= jitter <= 1.0 && share == m * jitter
    ensures 0.0 <= share <= m
  {
    Product(m, jitter);
    Product(m, 1.0 - jitter);
    assert m * (1.0 - jitter) == m - m * jitter;
  }

  /** How a jittered wait ends. */
  function Clamped(moved: real, cap: Option<real>): real {
    MaxOf(0.0, if cap.Some? then MinOf(moved, cap.value) else moved)
  }

  lemma JitteredIsClamped(m: real, jitter: real, cap: Option<real>, u: real, moved: real)
    requires moved == m + (m * jitter) * u
    ensures Jittered(m, jitter, cap, u) == if jitter > 0.0 then Clamped(moved, cap) else Clamped(m, cap)
  {
  }

  lemma MovedByShare(m: real, jitter: real, u: real, share: real, moved: real)
    requires moved == m + (m * jitter) * u && share == m * jitter
    ensures moved == m + share * u && (jitter == 0.0 ==> share == 0.0)
  {
  }

  lemma JitteredShare(m: real, jitter: real, cap: Option<real>, u: real, share: real)
    requires m >= 0.0 && 0.0 <= jitter <= 1.0 && -1.0 <= u <= 1.0 && (cap.Some? ==> m <= cap.value)
    requires share == m * jitter
    ensures Jittered(m, 0.0, cap, u) == m
    ensures var wait := Jittered(m, jitter, cap, u);
      && m - share <= wait <= m + share
      && (u == -1.0 ==> wait == m - share)
      && (u == 1.0 ==> wait == m + share || (cap.Some? && wait == cap.value))
  {
    var moved := m + (m * jitter) * u;
    JitteredIsClamped(m, jitter, cap, u, moved);
    MovedByShare(m, jitter, u, share, moved);
    ShareIsPart(m, jitter, share);
    Between(share, u);
  }

  /** Jitter moves a wait by at most its share of it: down by that at one end of the draw, and up by that, or
      to the cap, at the other. */
  lemma JitterIsAShare(b: Backoff, attempt: int, u: real, share: real)
    requires !b.Custom? && 0.0 <= b.jitter <= 1.0 && -1.0 <= u <= 1.0
    requires b.Constant? ==> b.seconds >= 0.0
    requires b.Exponential? ==> ExponentialRaw(b.baseS, b.factor, attempt) >= 0.0 && b.capS >= 0.0
    requires share == DelayFor(b.(jitter := 0.0), attempt, u) * b.jitter
    ensures var still, wait := DelayFor(b.(jitter := 0.0), attempt, u), DelayFor(b, attempt, u);
      && still - share <= wait <= still + share
      && (u == -1.0 ==> wait == still - share)
      && (u == 1.0 ==> wait == still + share || (b.Exponential? && wait == b.capS))
  {
    var plain := b.(jitter := 0.0);
    match b
    case Constant(seconds, jitter) =>
      assert DelayFor(plain, attempt, u) == seconds;
      JitteredShare(seconds, jitter, None, u, share);
    case Exponential(baseS, factor, capS, jitter) =>
      var m := MinOf(ExponentialRaw(baseS, factor, attempt), capS);
      assert DelayFor(plain, attempt, u) == m;
      JitteredShare(m, jitter, Some(capS), u, share);
  }

  /** A constant backoff without jitter waits what it says, and a custom one what its function says. */
  lemma PlainWaits(seconds: real, fn: int -> real, attempt: int, u: real)
    ensures seconds >= 0.0 ==> DelayFor(Constant(seconds, 0.0), attempt, u) == seconds
    ensures DelayFor(Custom(fn), attempt, u) == fn(attempt)
  {
  }

  lemma ClampsAgree(raw: real, cap: real, jitter: real, u: real)
    ensures Jittered(MinOf(raw, cap), jitter, Some(cap), u) == ClampIfJittered(MinOf(raw, cap), cap, jitter, u)
      <==> jitter > 0.0 || (raw >= 0.0 && cap >= 0.0)
  {
    var d := MinOf(raw, cap);
    if jitter > 0.0 {
      var moved := d + (d * jitter) * u;
      assert Jittered(d, jitter, Some(cap), u) == MaxOf(0.0, MinOf(moved, cap));
    }
  }

  /** The two backoff formulas are the same one, one attempt apart, exactly when jitter is on
      or the capped product is not negative: only RetryDelay without jitter lets a negative wait out. */
  lemma FormulasAgreeShifted(attempts: nat, base: real, cap: real, jitter: real, u: real)
    ensures DelayFor(Exponential(base, 2.0, cap, jitter), attempts + 1, u) == RetryDelay(attempts, base, cap, jitter, u)
      <==> jitter > 0.0 || (Scaled(base, 2.0, attempts) >= 0.0 && cap >= 0.0)
  {
    ClampsAgree(Scaled(base, 2.0, attempts), cap, jitter, u);
  }

  function Total(waits: seq<real>): real {
    if waits == [] then 0.0 else Total(waits[..|waits| - 1]) + waits[|waits| - 1]
  }

  lemma {:induction false} TotalIsBounded(waits: seq<real>, n: nat, cap: real)
    requires |waits| == n && forall i :: 0 <= i < n ==> 0.0 <= waits[i] <= cap
    ensures 0.0 <= Total(waits) <= n as real * cap
  {
    if n == 0 {
    } else {
      TotalIsBounded(waits[..n - 1], n - 1, cap);
      assert (n - 1) as real * cap + cap == n as real * cap;
    }
  }

  /** What the backoff answers after attempts 1, 2, ..., draws[i] being the draw of attempt i + 1. */
  function Waits(b: Backoff, draws: seq<real>): (w: seq<real>)
    ensures |w| == |draws|
  {
    if draws == [] then []
    else Waits(b, draws[..|draws| - 1]) + [DelayFor(b, |draws|, draws[|draws| - 1])]
  }

  lemma {:induction false} WaitsAreCapped(b: Backoff, draws: seq<real>, cap: real)
    requires b.Exponential? && cap >= 0.0 && cap >= b.capS
    ensures forall i :: 0 <= i < |Waits(b, draws)| ==> 0.0 <= Waits(b, draws)[i] <= cap
  {
    if draws == [] {
    } else {
      WaitsAreCapped(b, draws[..|draws| - 1], cap);
      ExponentialIsCapped(b.baseS, b.factor, b.capS, b.jitter, |draws|, draws[|draws| - 1]);
    }
  }

  /** A budget of |draws| + 1 attempts is retried |draws| times, so it waits at most that many caps
      (a negative cap meaning no wait at all). */
  lemma SpentBudgetWaitIsBounded(b: Backoff, draws: seq<real>, cap: real, bound: real)
    requires b.Exponential? && cap >= 0.0 && cap >= b.capS && bound == |draws| as real * cap
    ensures 0.0 <= Total(Waits(b, draws)) <= bound
  {
    var w := Waits(b, draws);
    assert 0.0 <= Total(w) <= bound by {
      WaitsAreCapped(b, draws, cap);
      TotalIsBounded(w, |draws|, cap);
    }
  }
}
