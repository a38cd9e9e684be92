/**
 * The exponential back-off policy: each back-off of one execution sleeps for
 * the current interval, capped by the maximum interval, and then multiplies
 * the interval for the next call.
 */
module ExponentialBackOff {
  import opened JavaLong
  import opened Sleeping

  const DefaultInitialInterval: Long := 100
  const DefaultMultiplier: real := 2.0
  const DefaultMaxInterval: Long := 30000

  /** The floors the setters enforce: intervals of at least one unit, a multiplier of at least one. */
  ghost predicate ValidParams(initialInterval: int, multiplier: real, maxInterval: int)
  {
    initialInterval >= 1 && multiplier >= 1.0 && maxInterval >= 1
  }

  function Min(a: int, b: int): int
  {
    if a <= b then a else b
  }

  /** The value an interval setter stores: the requested value, raised to 1 when below it. */
  function ClampInterval(requested: Long): (r: Long)
    ensures r >= 1 && r >= requested
    ensures r == requested || r == 1
  {
    if requested > 0 then requested else 1
  }

  /** The value the multiplier setter stores: the requested value, raised to 1.0 when below it. */
  function ClampMultiplier(requested: real): (r: real)
    ensures r >= 1.0 && r >= requested
    ensures r == requested || r == 1.0
  {
    if requested > 1.0 then requested else 1.0
  }

  lemma ScaledUp(a: real, m: real)
    requires a >= 0.0 && m >= 1.0
    ensures a <= a * m
  {
    assert a * m - a == a * (m - 1.0);
  }

  /** The interval after `interval`: `(long) (interval * multiplier)`. */
  function NextInterval(interval: Long, multiplier: real): (r: Long)
    requires interval >= 1 && multiplier >= 1.0
    ensures interval <= r
    ensures r as real <= interval as real * multiplier
  {
    var x := interval as real * multiplier;
    ScaledUp(interval as real, multiplier);
    SaturateAtLeast(interval, x);
    Saturate(x)
  }

  /**
   * The uncapped truncated geometric sequence `initial, (long)(initial * m), ...`:
   * the recurrence `seed *= multiplier` a caller expects the sleeps to follow.
   */
  function Geometric(initial: Long, multiplier: real, n: nat): (g: Long)
    requires initial >= 1 && multiplier >= 1.0
    ensures g >= initial
  {
    if n == 0 then initial else NextInterval(Geometric(initial, multiplier, n - 1), multiplier)
  }

  /** The reference for the n-th sleep (0-based) of one execution: the geometric value, capped. */
  function Interval(initial: Long, multiplier: real, maxInterval: Long, n: nat): (r: Long)
    requires ValidParams(initial, multiplier, maxInterval)
    ensures 1 <= r <= maxInterval
    ensures r <= Geometric(initial, multiplier, n)
  {
    Min(Geometric(initial, multiplier, n), maxInterval)
  }

  /**
   * The `interval` a context holds after n back-offs: it is multiplied only
   * while it does not exceed the cap, and stays put once it does.
   */
  function ContextInterval(initial: Long, multiplier: real, maxInterval: Long, n: nat): (c: Long)
    requires ValidParams(initial, multiplier, maxInterval)
    ensures c >= initial
  {
    if n == 0 then initial
    else
      var prev := ContextInterval(initial, multiplier, maxInterval, n - 1);
      if prev > maxInterval then prev else NextInterval(prev, multiplier)
  }

  lemma {:induction false} GeometricMonotone(initial: Long, multiplier: real, n: nat, k: nat)
    requires initial >= 1 && multiplier >= 1.0
    requires n <= k
    ensures Geometric(initial, multiplier, n) <= Geometric(initial, multiplier, k)
  {
    if n < k {
      GeometricMonotone(initial, multiplier, n, k - 1);
    }
  }

  /**
   * The context either still holds the geometric value, or it has passed the
   * cap and the geometric value has grown at least as far.
   */
  lemma {:induction false} ContextTracksGeometric(initial: Long, multiplier: real, maxInterval: Long, n: nat)
    requires ValidParams(initial, multiplier, maxInterval)
    ensures var c := ContextInterval(initial, multiplier, maxInterval, n);
            c == Geometric(initial, multiplier, n)
            || (c > maxInterval && Geometric(initial, multiplier, n) >= c)
  {
    if n > 0 {
      ContextTracksGeometric(initial, multiplier, maxInterval, n - 1);
    }
  }

  /** The sleep a context produces on its n-th back-off is the reference interval. */
  lemma {:induction false} ContextSleepIsInterval(initial: Long, multiplier: real, maxInterval: Long, n: nat)
    requires ValidParams(initial, multiplier, maxInterval)
    ensures Min(ContextInterval(initial, multiplier, maxInterval, n), maxInterval)
            == Interval(initial, multiplier, maxInterval, n)
  {
    ContextTracksGeometric(initial, multiplier, maxInterval, n);
  }

  /** Because the multiplier is at least 1, later sleeps are never shorter. */
  lemma {:induction false} IntervalNonDecreasing(initial: Long, multiplier: real, maxInterval: Long, n: nat, k: nat)
    requires ValidParams(initial, multiplier, maxInterval)
    requires n <= k
    ensures Interval(initial, multiplier, maxInterval, n) <= Interval(initial, multiplier, maxInterval, k)
  {
    GeometricMonotone(initial, multiplier, n, k);
  }

  /** Once the geometric value reaches the cap, every later sleep is exactly the cap. */
  lemma {:induction false} CapIsSticky(initial: Long, multiplier: real, maxInterval: Long, n: nat, k: nat)
    requires ValidParams(initial, multiplier, maxInterval)
    requires Geometric(initial, multiplier, n) >= maxInterval
    requires n <= k
    ensures Interval(initial, multiplier, maxInterval, k) == maxInterval
  {
    GeometricMonotone(initial, multiplier, n, k);
  }

  /** Until the cap is reached, every sleep is exactly the geometric value. */
  lemma {:induction false} BelowCapIsGeometric(initial: Long, multiplier: real, maxInterval: Long, n: nat, k: nat)
    requires ValidParams(initial, multiplier, maxInterval)
    requires Geometric(initial, multiplier, n) <= maxInterval
    requires k <= n
    ensures Interval(initial, multiplier, maxInterval, k) == Geometric(initial, multiplier, k)
  {
    GeometricMonotone(initial, multiplier, k, n);
  }

  function Power(k: nat, n: nat): nat
  {
    if n == 0 then 1 else Power(k, n - 1) * k
  }

  lemma MulAssociates(a: int, b: int, c: int)
    ensures a * (b * c) == (a * b) * c
  {
  }

  lemma PowerStep(initial: int, k: nat, n: nat)
    requires n > 0 && initial >= 1 && k >= 1
    ensures (initial * Power(k, n - 1)) * k == initial * Power(k, n)
    ensures initial * Power(k, n - 1) <= initial * Power(k, n)
  {
    MulAssociates(initial, Power(k, n - 1), k);
  }

  /** Multiplying by a whole number truncates nothing while the product fits in a `long`. */
  lemma NextIntervalWhole(interval: Long, k: nat)
    requires 1 <= interval && k >= 1 && interval * k <= MaxLong
    ensures NextInterval(interval, k as real) == interval * k
  {
    assert interval as real * k as real == (interval * k) as real;
  }

  /**
   * With a whole-number multiplier (the default 2.0 is one) the geometric
   * value is exactly `initial * k^n` while that product fits in a `long`.
   */
  lemma {:induction false} GeometricExactForWholeMultiplier(initial: Long, k: nat, n: nat)
    requires initial >= 1 && k >= 1
    requires initial * Power(k, n) <= MaxLong
    ensures Geometric(initial, k as real, n) == initial * Power(k, n)
  {
    if n > 0 {
      PowerStep(initial, k, n);
      GeometricExactForWholeMultiplier(initial, k, n - 1);
      NextIntervalWhole(Geometric(initial, k as real, n - 1), k);
    }
  }

  /**
   * The sleeps asserted for an initial interval of 40 and a multiplier of 1.2:
   * 40 * 1.2 = 48.0, 48 * 1.2 = 57.6, 57 * 1.2 = 68.4, 68 * 1.2 = 81.6, each truncated.
   */
  lemma MultiBackOffSequence()
    ensures Geometric(40, 1.2, 0) == 40
    ensures Geometric(40, 1.2, 1) == 48
    ensures Geometric(40, 1.2, 2) == 57
    ensures Geometric(40, 1.2, 3) == 68
    ensures Geometric(40, 1.2, 4) == 81
  {
  }

  /**
   * The back-off state of one execution. The multiplier and the cap are those
   * of the policy when the execution started.
   */
  class ExponentialBackOffContext {
    var interval: Long
    const multiplier: real
    const maxInterval: Long
    ghost const initialInterval: Long
    /** The number of back-offs taken so far. */
    ghost var count: nat

    ghost predicate Valid()
      reads this
    {
      ValidParams(initialInterval, multiplier, maxInterval)
      && interval == ContextInterval(initialInterval, multiplier, maxInterval, count)
    }

    constructor (initialInterval: Long, multiplier: real, maxInterval: Long)
      requires ValidParams(initialInterval, multiplier, maxInterval)
      ensures Valid() && count == 0
      ensures this.initialInterval == initialInterval && this.interval == initialInterval
      ensures this.multiplier == multiplier && this.maxInterval == maxInterval
    {
      this.interval := initialInterval;
      this.multiplier := multiplier;
      this.maxInterval := maxInterval;
      this.initialInterval := initialInterval;
      this.count := 0;
    }

    /**
     * The period to sleep now, capped by the maximum interval; the interval
     * is multiplied for the next call unless it already exceeds the cap.
     */
    method GetSleepAndIncrement() returns (sleep: Long)
      requires Valid()
      modifies this`interval, this`count
      ensures Valid() && count == old(count) + 1
      ensures sleep == Interval(initialInterval, multiplier, maxInterval, old(count))
    {
      ContextSleepIsInterval(initialInterval, multiplier, maxInterval, count);
      sleep := interval;
      if sleep > maxInterval {
        sleep := maxInterval;
      } else {
        interval := NextInterval(interval, multiplier);
      }
      count := count + 1;
    }
  }

  class ExponentialBackOffPolicy {
    var initialInterval: Long
    var multiplier: real
    var maxInterval: Long
    var sleeper: DummySleeper

    ghost predicate Valid()
      reads this
    {
      ValidParams(initialInterval, multiplier, maxInterval)
    }

    constructor ()
      ensures Valid() && fresh(sleeper) && sleeper.backOffs == []
      ensures initialInterval == DefaultInitialInterval
      ensures multiplier == DefaultMultiplier
      ensures maxInterval == DefaultMaxInterval
    {
      initialInterval := DefaultInitialInterval;
      multiplier := DefaultMultiplier;
      maxInterval := DefaultMaxInterval;
      sleeper := new DummySleeper();
    }

    method SetInitialInterval(initialInterval: Long)
      requires Valid()
      modifies this`initialInterval
      ensures Valid() && this.initialInterval == ClampInterval(initialInterval)
    {
      this.initialInterval := if initialInterval > 1 then initialInterval else 1;
    }

    method SetMultiplier(multiplier: real)
      requires Valid()
      modifies this`multiplier
      ensures Valid() && this.multiplier == ClampMultiplier(multiplier)
    {
      this.multiplier := if multiplier > 1.0 then multiplier else 1.0;
    }

    method SetMaxInterval(maxInterval: Long)
      requires Valid()
      modifies this`maxInterval
      ensures Valid() && this.maxInterval == ClampInterval(maxInterval)
    {
      this.maxInterval := if maxInterval > 0 then maxInterval else 1;
    }

    method SetSleeper(sleeper: DummySleeper)
      modifies this`sleeper
      ensures this.sleeper == sleeper
    {
      this.sleeper := sleeper;
    }

    /** A new context for one execution, starting from the configured interval. */
    method Start() returns (context: ExponentialBackOffContext)
      requires Valid()
      ensures fresh(context) && context.Valid() && context.count == 0
      ensures context.initialInterval == initialInterval
      ensures context.multiplier == multiplier && context.maxInterval == maxInterval
    {
      context := new ExponentialBackOffContext(initialInterval, multiplier, maxInterval);
    }

    /**
     * Hands the context's current sleep to the sleeper (exactly one request)
     * and advances the context.
     */
    method BackOff(context: ExponentialBackOffContext)
      requires context.Valid()
      modifies context, sleeper
      ensures context.Valid() && context.count == old(context.count) + 1
      ensures sleeper.backOffs == old(sleeper.backOffs)
              + [Interval(context.initialInterval, context.multiplier, context.maxInterval, old(context.count))]
    {
      var sleepTime := context.GetSleepAndIncrement();
      sleeper.Sleep(sleepTime);
    }
  }
}
