/**
 * The scenarios the policy's unit tests exercise, each run against the model
 * with the values those tests assert stated as postconditions.
 */
module ExponentialBackOffPolicyTests {
  import opened JavaLong
  import opened Sleeping
  import opened ExponentialBackOff

  /** A maximum interval of 1000 is kept; one of 0 is raised to 1. */
  method SetMaxInterval() returns (kept: Long, raised: Long)
    ensures kept == 1000 && raised == 1
  {
    var strategy := new ExponentialBackOffPolicy();
    strategy.SetMaxInterval(1000);
    kept := strategy.maxInterval;
    strategy.SetMaxInterval(0);
    raised := strategy.maxInterval;
  }

  /** An initial interval of 10000 is kept; one of 0 is raised to 1. */
  method SetInitialInterval() returns (kept: Long, raised: Long)
    ensures kept == 10000 && raised == 1
  {
    var strategy := new ExponentialBackOffPolicy();
    strategy.SetInitialInterval(10000);
    kept := strategy.initialInterval;
    strategy.SetInitialInterval(0);
    raised := strategy.initialInterval;
  }

  /** A multiplier of 3.0 is kept; one of 0.5 is raised to 1.0. */
  method SetMultiplier() returns (kept: real, raised: real)
    ensures kept == 3.0 && raised == 1.0
  {
    var strategy := new ExponentialBackOffPolicy();
    strategy.SetMultiplier(3.0);
    kept := strategy.multiplier;
    strategy.SetMultiplier(0.5);
    raised := strategy.multiplier;
  }

  /** The first back-off of a default policy sleeps for the default initial interval. */
  method SingleBackOff() returns (last: Option<Long>)
    ensures last == Some(DefaultInitialInterval)
  {
    var strategy := new ExponentialBackOffPolicy();
    var sleeper := new DummySleeper();
    strategy.SetSleeper(sleeper);
    var context := strategy.Start();
    strategy.BackOff(context);
    last := sleeper.GetLastBackOff();
  }

  /** A cap of 50, below the default initial interval, makes the first sleep exactly 50. */
  method MaximumBackOff() returns (last: Option<Long>)
    ensures last == Some(50)
  {
    var strategy := new ExponentialBackOffPolicy();
    strategy.SetMaxInterval(50);
    var sleeper := new DummySleeper();
    strategy.SetSleeper(sleeper);
    var context := strategy.Start();
    strategy.BackOff(context);
    last := sleeper.GetLastBackOff();
  }

  /**
   * Five back-offs from 40 with multiplier 1.2: after each, the last sleep is
   * the caller's own `seed`, which it then multiplies and truncates
   * to a `long` (`seed *= multiplier`).
   */
  method MultiBackOff() returns (sleeps: seq<Long>)
    ensures sleeps == [40, 48, 57, 68, 81]
  {
    var strategy := new ExponentialBackOffPolicy();
    var seed: Long := 40;
    var multiplier := 1.2;
    strategy.SetInitialInterval(seed);
    strategy.SetMultiplier(multiplier);
    var sleeper := new DummySleeper();
    strategy.SetSleeper(sleeper);
    var context := strategy.Start();
    MultiBackOffSequence();
    sleeps := [];
    for x := 0 to 5
      invariant strategy.sleeper == sleeper
      invariant context.Valid() && context.count == x
      invariant context.initialInterval == 40 && context.multiplier == 1.2
      invariant context.maxInterval == DefaultMaxInterval
      invariant seed == Geometric(40, 1.2, x)
      invariant sleeper.backOffs == sleeps && |sleeps| == x
      invariant forall k :: 0 <= k < x ==> sleeps[k] == Geometric(40, 1.2, k)
    {
      strategy.BackOff(context);
      var last := sleeper.GetLastBackOff();
      assert last == Some(seed) by {
        BelowCapIsGeometric(40, 1.2, DefaultMaxInterval, 4, x);
      }
      sleeps := sleeps + [last.value];
      seed := NextInterval(seed, multiplier);
    }
  }
}
