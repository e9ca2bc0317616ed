/** The retry delay of a failed instance job: doubling from an initial delay up to a cap. */
module RetryPolicy {
  /** Durations are Go `time.Duration` values, signed 64-bit nanosecond counts. */
  const MAX_DURATION: int := 0x7FFF_FFFF_FFFF_FFFF

  datatype Policy = Policy(initialDelay: int, maxDelay: int) {
    /** What the worker configuration admits, as far as the delay depends on it. */
    predicate Valid() {
      0 <= initialDelay && 0 <= maxDelay <= MAX_DURATION
    }
  }

  function Min(a: int, b: int): int {
    if a <= b then a else b
  }

  function Pow2(n: nat): nat {
    if n == 0 then 1 else 2 * Pow2(n - 1)
  }

  /** The delay that doubling without a cap would reach before attempt `n + 1`. */
  function Uncapped(p: Policy, n: nat): int {
    p.initialDelay * Pow2(n)
  }

  lemma UncappedDoubles(p: Policy, n: nat)
    ensures Uncapped(p, n + 1) == 2 * Uncapped(p, n)
  {
  }

  lemma {:induction false} UncappedGrows(p: Policy, m: nat, n: nat)
    requires 0 <= p.initialDelay && m <= n
    ensures 0 <= Uncapped(p, m) <= Uncapped(p, n)
    decreases n
  {
    if m < n {
      UncappedGrows(p, m, n - 1);
      UncappedDoubles(p, n - 1);
    } else if n > 0 {
      UncappedGrows(p, m - 1, n - 1);
      UncappedDoubles(p, n - 1);
    }
  }

  /** The loop with `steps` doublings to go. */
  function DelayFrom(p: Policy, delay: int, steps: nat): int
    decreases steps
  {
    if steps == 0 then Min(delay, p.maxDelay)
    else if delay >= p.maxDelay / 2 then p.maxDelay
    else DelayFrom(p, 2 * delay, steps - 1)
  }

  function Delay(p: Policy, attemptNumber: int): int {
    if attemptNumber <= 1 || p.initialDelay >= p.maxDelay then Min(p.initialDelay, p.maxDelay)
    else DelayFrom(p, p.initialDelay, attemptNumber - 1)
  }

  /** The assertion is that no doubling overflows a 64-bit duration. */
  method ComputeDelay(p: Policy, attemptNumber: int) returns (delay: int)
    requires p.Valid()
    ensures delay == Delay(p, attemptNumber)
  {
    if attemptNumber <= 1 || p.initialDelay >= p.maxDelay {
      return Min(p.initialDelay, p.maxDelay);
    }
    delay := p.initialDelay;
    for step := 1 to attemptNumber
      invariant 0 <= delay <= p.maxDelay
      invariant DelayFrom(p, delay, attemptNumber - step) == Delay(p, attemptNumber)
    {
      if delay >= p.maxDelay / 2 {
        return p.maxDelay;
      }
      assert delay * 2 <= MAX_DURATION;
      delay := delay * 2;
    }
    return Min(delay, p.maxDelay);
  }

  /** The rounding of `MaxDelay/2` is visible: the cap is odd and the doubled delay lands one unit below it. */
  predicate JumpsToCap(p: Policy, attemptNumber: int) {
    && attemptNumber >= 2
    && p.initialDelay < p.maxDelay
    && p.maxDelay % 2 == 1
    && Uncapped(p, attemptNumber - 1) == p.maxDelay - 1
  }

  /** Where the loop ends, seen from any of its turns. */
  lemma {:induction false} DelayFromEnds(p: Policy, done: nat, steps: nat)
    requires p.Valid() && (steps == 0 || Uncapped(p, done) < p.maxDelay)
    ensures var u := Uncapped(p, done + steps);
            DelayFrom(p, Uncapped(p, done), steps)
            == if steps > 0 && p.maxDelay % 2 == 1 && u == p.maxDelay - 1 then p.maxDelay else Min(p.maxDelay, u)
    decreases steps
  {
    if steps > 0 {
      UncappedDoubles(p, done);
      UncappedGrows(p, done + 1, done + steps);
      if Uncapped(p, done) < p.maxDelay / 2 {
        DelayFromEnds(p, done + 1, steps - 1);
      } else if Uncapped(p, done) > 0 && steps > 1 {
        UncappedGrows(p, done + 2, done + steps);
        UncappedDoubles(p, done + 1);
      } else if steps > 1 {
        UncappedStaysZero(p, done, done + steps);
      }
    }
  }

  lemma {:induction false} UncappedStaysZero(p: Policy, m: nat, n: nat)
    requires Uncapped(p, m) == 0 && m <= n
    ensures Uncapped(p, n) == 0
  {
    if m < n {
      UncappedStaysZero(p, m, n - 1);
      UncappedDoubles(p, n - 1);
    }
  }

  /** The delay is the capped exponential exactly when the rounding does not show, and one unit more when it does. */
  lemma DelayIsCappedExponential(p: Policy, n: int)
    requires p.Valid() && n >= 1
    ensures Delay(p, n) == Min(p.maxDelay, Uncapped(p, n - 1)) <==> !JumpsToCap(p, n)
    ensures JumpsToCap(p, n) ==> Delay(p, n) == Min(p.maxDelay, Uncapped(p, n - 1)) + 1
  {
    UncappedGrows(p, 0, n - 1);
    if n > 1 && p.initialDelay < p.maxDelay {
      DelayFromEnds(p, 0, n - 1);
    }
  }

  /** A delay never exceeds the cap and never shrinks from one attempt to the next. */
  lemma DelayIsMonotoneAndCapped(p: Policy, m: int, n: int)
    requires p.Valid() && m <= n
    ensures 0 <= Delay(p, m) <= Delay(p, n) <= p.maxDelay
  {
    if n >= 1 {
      DelayIsCappedExponential(p, n);
      UncappedGrows(p, 0, n - 1);
    }
    if m >= 1 {
      DelayIsCappedExponential(p, m);
      UncappedGrows(p, 0, m - 1);
      UncappedGrows(p, m - 1, n - 1);
      if m < n {
        UncappedGrows(p, m, n - 1);
        UncappedDoubles(p, m - 1);
      }
    }
  }

  /** A policy the configuration accepts: 100 ms at first, 200 ms and one nanosecond at most. Its second attempt waits for
      the cap, although twice the first delay is a nanosecond less. */
  lemma OddCapIsReachedEarly()
    ensures var p := Policy(100_000_000, 200_000_001);
            && p.Valid() && JumpsToCap(p, 2)
            && Delay(p, 2) == 200_000_001 && Min(p.maxDelay, Uncapped(p, 1)) == 200_000_000
  {
    assert Pow2(1) == 2;
  }
}
