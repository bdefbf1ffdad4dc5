/** The retry delay shared by the query executor and the HTTP delivery
    service (both define the same `CalculateDelay`).

    The source computes the exponential form as a `double` through
    `Math.Pow(2, attempt - 1)` and truncates it to `int`. Within the declared
    ranges (`BackOffSeconds` in 1..300, at most 11 attempts) every value is an
    integer far below `int.MaxValue`, so the model uses exact integer powers
    of two and proves the 32-bit bound. */
module Backoff {
  import opened Base
  import opened Config

  function Pow2(n: nat): (r: nat)
    ensures r >= 1
  {
    if n == 0 then 1 else 2 * Pow2(n - 1)
  }

  lemma {:induction false} Pow2Monotone(m: nat, n: nat)
    requires m <= n
    ensures Pow2(m) <= Pow2(n)
    decreases n
  {
    if m < n {
      Pow2Monotone(m, n - 1);
    }
  }

  /** The retry settings of an endpoint that passed start-up validation. */
  predicate RetryPolicyInRange(e: EndpointConfig) {
    0 <= e.retryAttempts <= 10 && 1 <= e.backOffSeconds <= 300
  }

  /** The inputs the delay formula is evaluated on: a validated base backoff
      and the number of a failed attempt that still has a retry after it,
      which is at most `RetryAttempts`, itself at most 10. */
  predicate DelayInputsInRange(backOffSeconds: int, attempt: int) {
    1 <= backOffSeconds <= 300 && 1 <= attempt <= 10
  }

  /** `CalculateDelay`, in milliseconds: the base backoff for the fixed
      strategy (and any unlisted strategy value), the base doubled for every
      attempt after the first for exponential backoff. */
  function CalculateDelay(strategy: RetryStrategy, backOffSeconds: int, attempt: int): (r: int)
    requires DelayInputsInRange(backOffSeconds, attempt)
    ensures r >= backOffSeconds * 1000
    ensures !strategy.ExponentialBackoff? ==> r == backOffSeconds * 1000
  {
    match strategy
    case ExponentialBackoff => backOffSeconds * 1000 * Pow2(attempt - 1)
    case _ => backOffSeconds * 1000
  }

  /** The fixed strategy waits the same time after every attempt. */
  lemma FixedDelayIsConstant(backOffSeconds: int, j: int, k: int)
    requires DelayInputsInRange(backOffSeconds, j) && DelayInputsInRange(backOffSeconds, k)
    ensures CalculateDelay(Delay, backOffSeconds, j) == CalculateDelay(Delay, backOffSeconds, k)
  {
  }

  /** Exponential backoff doubles from one attempt to the next and starts at
      the base: the delay after attempt k is base * 2^(k-1). */
  lemma {:induction false} ExponentialDelayDoubles(backOffSeconds: int, k: int)
    requires DelayInputsInRange(backOffSeconds, k) && k + 1 <= 10
    ensures CalculateDelay(ExponentialBackoff, backOffSeconds, 1) == backOffSeconds * 1000
    ensures CalculateDelay(ExponentialBackoff, backOffSeconds, k + 1) ==
            2 * CalculateDelay(ExponentialBackoff, backOffSeconds, k)
  {
    assert Pow2(k) == 2 * Pow2(k - 1);
  }

  /** Every delay the validated configuration can produce fits in a 32-bit
      `int`; the largest, 300 s doubled nine times after the tenth failed
      attempt, is 153,600,000 ms. */
  lemma {:induction false} DelayFitsInInt32(strategy: RetryStrategy, backOffSeconds: int, attempt: int)
    requires DelayInputsInRange(backOffSeconds, attempt)
    ensures 1000 <= CalculateDelay(strategy, backOffSeconds, attempt) <= 153600000
    ensures InInt32(CalculateDelay(strategy, backOffSeconds, attempt))
  {
    Pow2Monotone(attempt - 1, 9);
    assert Pow2(9) == 512 by {
      assert Pow2(0) == 1;
      assert Pow2(3) == 8;
      assert Pow2(6) == 64;
    }
    var p := Pow2(attempt - 1);
    assert backOffSeconds * 1000 * p <= 300 * 1000 * 512 by {
      assert backOffSeconds * 1000 <= 300000;
      MulMonotone(backOffSeconds * 1000, 300000, p, 512);
    }
  }

  lemma MulMonotone(a: int, b: int, c: int, d: int)
    requires 0 <= a <= b && 0 <= c <= d
    ensures a * c <= b * d
  {
    assert a * c <= b * c;
    assert b * c <= b * d;
  }
}
