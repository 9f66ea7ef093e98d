/** Exponential backoff with jitter, in integer nanoseconds (Go's
    time.Duration). The floating-point arithmetic of the source is replaced
    by exact integer arithmetic: the uniform draw `2*rand.Float64() - 1` in
    [-1, 1) is the jitter sample divided by SampleScale. */
module Backoff {

  /** baseDelay = 1 s. */
  const BaseDelay: nat := 1_000_000_000
  /** maxDelay = 32 s. */
  const MaxDelay: nat := 32_000_000_000
  /** jitterFraction = 0.1 = 1 / JitterDivisor. */
  const JitterDivisor: nat := 10
  /** Resolution of the uniform jitter draw. */
  const SampleScale: nat := 1_000_000

  /** One draw of `2*rand.Float64() - 1`, scaled by SampleScale. */
  type JitterSample = x: int | -1_000_000 <= x < 1_000_000

  function Pow2(k: nat): (r: nat)
    ensures r >= 1
  {
    if k == 0 then 1 else 2 * Pow2(k - 1)
  }

  lemma {:induction false} Pow2Monotone(j: nat, k: nat)
    requires j <= k
    ensures Pow2(j) <= Pow2(k)
    decreases k
  {
    if j < k {
      Pow2Monotone(j, k - 1);
    }
  }

  /** The pre-jitter delay: the smaller of baseDelay * 2^attempt and maxDelay. */
  function CappedBackoff(attempt: nat, baseDelay: nat, maxDelay: nat): (r: nat)
    ensures r <= maxDelay && r <= baseDelay * Pow2(attempt)
    ensures r == maxDelay || r == baseDelay * Pow2(attempt)
  {
    var backoff := baseDelay * Pow2(attempt);
    if backoff > maxDelay then maxDelay else backoff
  }

  /** Each further attempt doubles the delay until the cap is reached. */
  lemma CappedBackoffDoubles(attempt: nat, baseDelay: nat, maxDelay: nat)
    ensures var next := 2 * CappedBackoff(attempt, baseDelay, maxDelay);
            CappedBackoff(attempt + 1, baseDelay, maxDelay) == if next > maxDelay then maxDelay else next
  {
    assert baseDelay * Pow2(attempt + 1) == 2 * (baseDelay * Pow2(attempt));
  }

  /** The pre-jitter delay never decreases from one attempt to the next. */
  lemma CappedBackoffMonotone(j: nat, k: nat, baseDelay: nat, maxDelay: nat)
    requires j <= k
    ensures CappedBackoff(j, baseDelay, maxDelay) <= CappedBackoff(k, baseDelay, maxDelay)
  {
    Pow2Monotone(j, k);
    MulMonotone(baseDelay, Pow2(j), Pow2(k));
  }

  lemma MulMonotone(a: nat, x: nat, y: nat)
    requires x <= y
    ensures a * x <= a * y
  {
  }

  /** calculateBackoff: the capped delay times (1 + sample / (JitterDivisor *
      SampleScale)), truncated to whole nanoseconds; the denominator is
      written out as 10_000_000. */
  function CalculateBackoff(attempt: nat, baseDelay: nat, maxDelay: nat, sample: JitterSample): nat {
    var capped := CappedBackoff(attempt, baseDelay, maxDelay);
    JitterProductBounds(capped, sample);
    (capped * (10_000_000 + sample)) / 10_000_000
  }

  /** The jittered multiplier lies between 0.9 and 1.1 times the delay. */
  lemma JitterProductBounds(capped: nat, sample: JitterSample)
    ensures capped * 9_000_000 <= capped * (10_000_000 + sample) <= capped * 11_000_000
  {
    MulMonotone(capped, 9_000_000, 10_000_000 + sample);
    MulMonotone(capped, 10_000_000 + sample, 11_000_000);
  }

  /** The jitter is applied AFTER the cap: the final delay lies within a
      tenth of the capped delay on either side (up to truncation), so it may
      exceed maxDelay by up to a tenth. */
  lemma BackoffWindow(attempt: nat, baseDelay: nat, maxDelay: nat, sample: JitterSample)
    ensures var capped := CappedBackoff(attempt, baseDelay, maxDelay);
            var r := CalculateBackoff(attempt, baseDelay, maxDelay, sample);
            && r * JitterDivisor <= capped * (JitterDivisor + 1)
            && capped * (JitterDivisor - 1) < (r + 1) * JitterDivisor
  {
    var capped := CappedBackoff(attempt, baseDelay, maxDelay);
    var n := capped * (10_000_000 + sample);
    JitterProductBounds(capped, sample);
    var r := n / 10_000_000;
    assert r * 10_000_000 <= n < r * 10_000_000 + 10_000_000;
    assert r * 10_000_000 <= capped * 11_000_000;
    assert capped * 9_000_000 < (r + 1) * 10_000_000;
  }

  /** With the source's constants the first delay lies in [0.9 s, 1.1 s]. */
  lemma FirstDelayWindow(sample: JitterSample)
    ensures 900_000_000 <= CalculateBackoff(0, BaseDelay, MaxDelay, sample) <= 1_100_000_000
  {
    assert CappedBackoff(0, BaseDelay, MaxDelay) == 1_000_000_000;
    BackoffWindow(0, BaseDelay, MaxDelay, sample);
  }

  /** With the source's constants attempt 5 reaches the 32 s cap exactly, and
      the jittered delay lies in [28.8 s, 35.2 s]. */
  lemma CappedDelayWindow(sample: JitterSample)
    ensures CappedBackoff(5, BaseDelay, MaxDelay) == MaxDelay
    ensures 28_800_000_000 <= CalculateBackoff(5, BaseDelay, MaxDelay, sample) <= 35_200_000_000
  {
    assert Pow2(5) == 32;
    BackoffWindow(5, BaseDelay, MaxDelay, sample);
  }
}
