/** How long the snorkel waits before it dials again, in milliseconds. */
module Backoff {
  const BACKOFF_FIRST: nat := 500
  const BACKOFF_MAX: nat := 30_000
  const U32_MAX: nat := 0xFFFF_FFFF

  type U32 = n: nat | n <= U32_MAX

  /** Dial attempts that have failed in a row. */
  datatype FailureRun = FailureRun(attempts: U32)

  function Least(a: nat, b: nat): nat {
    if a < b then a else b
  }

  function PowerOfTwo(n: nat): (p: nat)
    ensures p > n
  {
    if n == 0 then 1 else 2 * PowerOfTwo(n - 1)
  }

  function Exponent(run: FailureRun): nat {
    Least(if run.attempts == 0 then 0 else run.attempts - 1, 16)
  }

  function Base(run: FailureRun): nat {
    Least(BACKOFF_FIRST * PowerOfTwo(Exponent(run)), BACKOFF_MAX)
  }

  predicate IsJitter(jitter: real) {
    0.8 <= jitter <= 1.0
  }

  function Scaled(base: real, jitter: real): real {
    base * jitter
  }

  function Delay(run: FailureRun, jitter: real): real {
    Scaled(Base(run) as real, jitter)
  }

  /** One more failure; the count stays at its maximum once there. */
  function Failed(run: FailureRun): FailureRun {
    FailureRun(if run.attempts == U32_MAX then U32_MAX else run.attempts + 1)
  }

  /** The run after `k` failures from a fresh start. */
  function FailedTimes(k: nat): FailureRun {
    if k == 0 then FailureRun(0) else Failed(FailedTimes(k - 1))
  }

  lemma {:induction false} AttemptsCount(k: nat)
    ensures FailedTimes(k).attempts == if k < 0xFFFF_FFFF then k else 0xFFFF_FFFF
  {
    if k > 0 { AttemptsCount(k - 1); }
  }

  lemma {:induction false} PowersGrow(m: nat, n: nat)
    requires m <= n
    ensures PowerOfTwo(m) <= PowerOfTwo(n)
    decreases n
  {
    if m < n { PowersGrow(m, n - 1); }
  }

  lemma SixthPower()
    ensures PowerOfTwo(5) == 32 && PowerOfTwo(6) == 64
  {
  }

  /** No attempt count shifts a one out of 32 bits, nor makes the product exceed its value at the capped exponent. */
  lemma NeverOverflows(run: FailureRun)
    ensures PowerOfTwo(Exponent(run)) <= 0xFFFF_FFFF
    ensures BACKOFF_FIRST * PowerOfTwo(Exponent(run)) <= 32_768_000
  {
    PowersGrow(Exponent(run), 16);
    assert PowerOfTwo(16) == 65536 by {
      assert PowerOfTwo(8) == 256;
      assert PowerOfTwo(12) == 4096;
    }
  }

  /** However many failures in a row, the base is the doubled first delay cut off at the maximum:
      neither the cap on the exponent nor the saturating count ever shows. */
  lemma BaseAfterFailures(k: nat)
    requires k > 0
    ensures Base(FailedTimes(k)) == if 500 * PowerOfTwo(k - 1) < 30_000 then 500 * PowerOfTwo(k - 1) else 30_000
  {
    AttemptsCount(k);
    SixthPower();
    if k > 17 {
      PowersGrow(6, 16);
      PowersGrow(6, k - 1);
    }
  }

  lemma BaseIsMonotone(j: nat, k: nat)
    requires j <= k
    ensures Base(FailedTimes(j)) <= Base(FailedTimes(k))
  {
    AttemptsCount(j);
    AttemptsCount(k);
    PowersGrow(Exponent(FailedTimes(j)), Exponent(FailedTimes(k)));
  }

  /** The maximum is reached at the seventh failure and not before. */
  lemma MaximumFromSeven(k: nat)
    ensures Base(FailedTimes(k)) == 30_000 <==> k >= 7
  {
    SixthPower();
    AttemptsCount(k);
    if k >= 7 {
      PowersGrow(6, Exponent(FailedTimes(k)));
    } else {
      PowersGrow(Exponent(FailedTimes(k)), 5);
    }
  }

  lemma ScaledWithin(base: real, jitter: real)
    requires base >= 0.0 && IsJitter(jitter)
    ensures 0.8 * base <= Scaled(base, jitter) <= base
  {
    assert base * (jitter - 0.8) >= 0.0;
    assert base * (1.0 - jitter) >= 0.0;
  }

  lemma BaseAtMost(run: FailureRun)
    ensures Base(run) <= BACKOFF_MAX
  {
  }

  /** Jitter only ever shortens a delay, by a fifth at most. */
  lemma DelayWithin(run: FailureRun, jitter: real)
    requires IsJitter(jitter)
    ensures 0.8 * Base(run) as real <= Delay(run, jitter) <= Base(run) as real <= 30_000.0
  {
    hide Base, Scaled;
    BaseAtMost(run);
    ScaledWithin(Base(run) as real, jitter);
  }

  /** The delays there can be are exactly those from four fifths to the whole of the base. */
  lemma DelayIff(run: FailureRun, delay: real)
    ensures (exists jitter :: IsJitter(jitter) && Delay(run, jitter) == delay)
            <==> 0.8 * Base(run) as real <= delay <= Base(run) as real
  {
    hide Base, Delay, IsJitter;
    var base := Base(run) as real;
    if jitter :| IsJitter(jitter) && Delay(run, jitter) == delay {
      DelayWithin(run, jitter);
    }
    if 0.8 * base <= delay <= base {
      BasePositive(run);
      JitterFor(run, delay);
    }
  }

  lemma BasePositive(run: FailureRun)
    ensures Base(run) > 0
  {
  }

  lemma JitterFor(run: FailureRun, delay: real)
    requires Base(run) > 0 && 0.8 * Base(run) as real <= delay <= Base(run) as real
    ensures exists jitter :: IsJitter(jitter) && Delay(run, jitter) == delay
  {
    hide Base;
    var base := Base(run) as real;
    var jitter := delay / base;
    assert base * jitter == delay;
    assert jitter <= 1.0 by { if jitter > 1.0 { Larger(base, 1.0, jitter); } }
    assert jitter >= 0.8 by { if jitter < 0.8 { Larger(base, jitter, 0.8); } }
    assert IsJitter(jitter) && Delay(run, jitter) == delay;
  }

  lemma Larger(base: real, a: real, b: real)
    requires base > 0.0 && a < b
    ensures base * a < base * b
  {
  }
}
