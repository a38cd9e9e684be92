# Exponential back-off policy (Spring Retry) in Dafny

This project models the exponential back-off policy of Spring Retry as its
unit tests pin it down. A policy holds three settings: an initial interval, a
multiplier and a maximum interval. Each setter raises a value below its floor
to that floor: intervals to 1, the multiplier to 1.0. `start` opens a back-off
context for one execution. Each `backOff` on that context hands the current
interval, capped by the maximum, to a sleeper. It then multiplies the interval
and truncates it to a `long`. The sleeper is the recording stand-in used by the
tests: it suspends nothing and logs every period it is asked to sleep.

Files and modules:

- `java_long.dfy`, module `JavaLong`: Java's `long` range and the narrowing
  conversion `(long) x` of a non-negative `double` (round toward zero,
  saturate at `Long.MAX_VALUE`).
- `sleeper.dfy`, module `Sleeping`: `DummySleeper`, a class whose `backOffs`
  sequence records each requested sleep.
- `exponential_back_off.dfy`, module `ExponentialBackOff`: the defaults, the
  clamping functions, and the reference sequences. `Geometric` is the uncapped
  truncated recurrence. `Interval` is the expected n-th sleep, the geometric
  value capped. `ContextInterval` is the value a context holds after n
  back-offs. The module also holds the lemmas relating these, and the classes
  `ExponentialBackOffPolicy` and `ExponentialBackOffContext`.
- `exponential_back_off_policy_tests.dfy`, module `ExponentialBackOffPolicyTests`:
  the six test scenarios replayed against the classes. The values the tests
  assert are the postconditions.

The production class `ExponentialBackOffPolicy.java` is not part of this
model's sources; its behaviour is taken from what the test asserts. The
defaults are 100 (initial interval), 2.0 (multiplier) and 30000 (maximum
interval). The test needs the default initial interval to exceed 50, because it
caps the first sleep down to 50.

A context advances as follows. If the current interval exceeds the maximum, it
sleeps the maximum and leaves the interval alone. Otherwise it sleeps the
interval and replaces it with `(long) (interval * multiplier)`. Lemma
`ContextSleepIsInterval` proves that this sleeps exactly `min(Geometric(n), max)`
on the n-th call. The growth is truncated at every step, so the n-th sleep is
not `initial * multiplier^n` in general. It is exactly that product only for a
whole-number multiplier such as the default 2.0 (`GeometricExactForWholeMultiplier`).
The test's own sequence 40, 48, 57, 68, 81 shows the truncation.

## Model

| member | source | states |
|---|---|---|
| JavaLong.Saturate | src/test/java/org/springframework/retry/backoff/ExponentialBackOffPolicyTests.java:91 | `seed *= multiplier` stores the greatest `long` not above the product: non-negative, at most the product, and within one of it unless it saturates |
| ExponentialBackOff.ClampInterval | src/test/java/org/springframework/retry/backoff/ExponentialBackOffPolicyTests.java:33-48 | an interval setter stores at least 1 and at least the requested value, and stores either the requested value or 1: 1000 and 10000 are kept, 0 becomes 1 |
| ExponentialBackOff.ClampMultiplier | src/test/java/org/springframework/retry/backoff/ExponentialBackOffPolicyTests.java:52-57 | the multiplier setter stores at least 1.0 and at least the requested value, and stores either the requested value or 1.0: 3.0 is kept, 0.5 becomes 1.0 |
| ExponentialBackOff.NextInterval | src/test/java/org/springframework/retry/backoff/ExponentialBackOffPolicyTests.java:91 | multiplying an interval of at least 1 by a multiplier of at least 1 and truncating never shrinks it and never exceeds the exact product |
| ExponentialBackOff.Geometric | src/test/java/org/springframework/retry/backoff/ExponentialBackOffPolicyTests.java:82-92 | every term of the truncated recurrence that starts at the initial interval is at least the initial interval |
| ExponentialBackOff.Interval | src/test/java/org/springframework/retry/backoff/ExponentialBackOffPolicyTests.java:70-76 | every expected sleep lies between 1 and the maximum interval and never exceeds the uncapped geometric value |
| ExponentialBackOff.ContextInterval | src/test/java/org/springframework/retry/backoff/ExponentialBackOffPolicyTests.java:87-92 | the interval a context holds after any number of back-offs is never below the initial interval |
| ExponentialBackOff.GeometricMonotone | src/test/java/org/springframework/retry/backoff/ExponentialBackOffPolicyTests.java:88-92 | because the multiplier is at least 1, the truncated recurrence is non-decreasing |
| ExponentialBackOff.ContextTracksGeometric | src/test/java/org/springframework/retry/backoff/ExponentialBackOffPolicyTests.java:87-92 | a context's interval either equals the geometric value, or has passed the cap with the geometric value at least as large |
| ExponentialBackOff.ContextSleepIsInterval | src/test/java/org/springframework/retry/backoff/ExponentialBackOffPolicyTests.java:87-92 | the sleep a context hands out on its n-th back-off is the reference interval, the geometric value capped by the maximum |
| ExponentialBackOff.IntervalNonDecreasing | src/test/java/org/springframework/retry/backoff/ExponentialBackOffPolicyTests.java:80-93 | a later sleep of the same execution is never shorter than an earlier one |
| ExponentialBackOff.CapIsSticky | src/test/java/org/springframework/retry/backoff/ExponentialBackOffPolicyTests.java:70-76 | once the geometric value reaches the maximum interval, that sleep and every later one equal the maximum exactly |
| ExponentialBackOff.BelowCapIsGeometric | src/test/java/org/springframework/retry/backoff/ExponentialBackOffPolicyTests.java:88-92 | while the geometric value stays within the maximum, every sleep equals the caller's truncated recurrence |
| ExponentialBackOff.GeometricExactForWholeMultiplier | src/test/java/org/springframework/retry/backoff/ExponentialBackOffPolicyTests.java:88-92 | with a whole-number multiplier k the n-th geometric value is exactly `initial * k^n` while that fits in a `long` |
| ExponentialBackOff.MultiBackOffSequence | src/test/java/org/springframework/retry/backoff/ExponentialBackOffPolicyTests.java:80-93 | from 40 with multiplier 1.2 the first five geometric values are 40, 48, 57, 68, 81 |
| ExponentialBackOff.ExponentialBackOffContext.constructor | src/test/java/org/springframework/retry/backoff/ExponentialBackOffPolicyTests.java:64 | a new context holds the initial interval, the policy's multiplier and maximum, and has taken no back-off |
| ExponentialBackOff.ExponentialBackOffContext.GetSleepAndIncrement | src/test/java/org/springframework/retry/backoff/ExponentialBackOffPolicyTests.java:88-92 | returns the reference interval for the number of back-offs taken so far and advances that count by one |
| ExponentialBackOff.ExponentialBackOffPolicy.constructor | src/test/java/org/springframework/retry/backoff/ExponentialBackOffPolicyTests.java:34 | a new policy has the default initial interval, multiplier and maximum interval |
| ExponentialBackOff.ExponentialBackOffPolicy.SetInitialInterval | src/test/java/org/springframework/retry/backoff/ExponentialBackOffPolicyTests.java:45-47 | stores the clamped initial interval and keeps the floors |
| ExponentialBackOff.ExponentialBackOffPolicy.SetMultiplier | src/test/java/org/springframework/retry/backoff/ExponentialBackOffPolicyTests.java:54-56 | stores the clamped multiplier and keeps the floors |
| ExponentialBackOff.ExponentialBackOffPolicy.SetMaxInterval | src/test/java/org/springframework/retry/backoff/ExponentialBackOffPolicyTests.java:35-37 | stores the clamped maximum interval and keeps the floors |
| ExponentialBackOff.ExponentialBackOffPolicy.SetSleeper | src/test/java/org/springframework/retry/backoff/ExponentialBackOffPolicyTests.java:63 | later back-offs go to the given sleeper |
| ExponentialBackOff.ExponentialBackOffPolicy.Start | src/test/java/org/springframework/retry/backoff/ExponentialBackOffPolicyTests.java:64 | returns a fresh context started from the policy's current settings |
| ExponentialBackOff.ExponentialBackOffPolicy.BackOff | src/test/java/org/springframework/retry/backoff/ExponentialBackOffPolicyTests.java:65 | appends exactly one request to the sleeper's log, the reference interval for this step, and advances the context |
| Sleeping.DummySleeper.constructor | src/test/java/org/springframework/retry/backoff/ExponentialBackOffPolicyTests.java:30 | a new sleeper has recorded nothing |
| Sleeping.DummySleeper.Sleep | src/test/java/org/springframework/retry/backoff/ExponentialBackOffPolicyTests.java:89 | records the requested period after all earlier ones |
| Sleeping.DummySleeper.GetLastBackOff | src/test/java/org/springframework/retry/backoff/ExponentialBackOffPolicyTests.java:90 | the most recently recorded period, and nothing exactly when no sleep was requested |
| ExponentialBackOffPolicyTests.SetMaxInterval | src/test/java/org/springframework/retry/backoff/ExponentialBackOffPolicyTests.java:33-40 | a maximum interval of 1000 is kept and one of 0 reads back as 1 |
| ExponentialBackOffPolicyTests.SetInitialInterval | src/test/java/org/springframework/retry/backoff/ExponentialBackOffPolicyTests.java:43-49 | an initial interval of 10000 is kept and one of 0 reads back as 1 |
| ExponentialBackOffPolicyTests.SetMultiplier | src/test/java/org/springframework/retry/backoff/ExponentialBackOffPolicyTests.java:52-58 | a multiplier of 3.0 is kept and one of 0.5 reads back as 1.0 |
| ExponentialBackOffPolicyTests.SingleBackOff | src/test/java/org/springframework/retry/backoff/ExponentialBackOffPolicyTests.java:61-67 | the first back-off of a default policy sleeps the default initial interval |
| ExponentialBackOffPolicyTests.MaximumBackOff | src/test/java/org/springframework/retry/backoff/ExponentialBackOffPolicyTests.java:70-77 | with a maximum of 50 the first back-off sleeps exactly 50 |
| ExponentialBackOffPolicyTests.MultiBackOff | src/test/java/org/springframework/retry/backoff/ExponentialBackOffPolicyTests.java:80-93 | each of five back-offs sleeps the caller's truncated seed, and the sleeps are 40, 48, 57, 68, 81 |

## Left out

- `ExponentialBackOffPolicy.java` itself is not part of this model's sources. The setters, `start` and `backOff` are modelled from what the test asserts. The defaults 100, 2.0 and 30000 are Spring Retry's published defaults.
- The context copies the multiplier and the maximum interval when it starts. Setting them on the policy afterwards does not affect a running context.
- `toString` is not modelled. The setter scenarios read the clamped fields directly instead of searching the rendered string.
- The real sleeper is not modelled: no thread is suspended, so an interrupted sleep and `BackOffInterruptedException` cannot occur.
- The multiplier is a `real`, not an IEEE-754 `double`. Rounding of the product, NaN and infinities are not modelled. The asserted sequence 40, 48, 57, 68, 81 is the same under exact arithmetic.
- JavaLong.Saturate: covers non-negative arguments only, since intervals are always at least 1. Negative products never arise.
- Sleeping.DummySleeper.GetLastBackOff: returns `None` when nothing was recorded, where the Java list lookup would throw.
- The exact product `initial * multiplier^n` is proved only for whole-number multipliers. For other multipliers each step truncates, and the model follows that truncating recurrence.
- The randomized (jitter) variant, the fixed and no-op policies, retry policies, retry context, classifier and the retry template are not part of this model.
- `AbstractExceptionTests.java` only checks that exception constructors keep their message. It has no algorithmic content.
