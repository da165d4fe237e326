/** The retry delay of `scheduleRetry`, in Go's wrapping 64-bit arithmetic. Times are nanoseconds. */
module Backoff {
  import opened Common

  const TWO_64: int := 0x1_0000_0000_0000_0000
  const TWO_42: int := 0x400_0000_0000
  const SECOND: int := 1_000_000_000
  const MIN_DELAY: int := 5 * SECOND
  const MAX_DELAY: int := 3600 * SECOND

  /** Go's conversion of an exact result to int64: two's complement wrap-around. */
  function Wrap(n: int): (w: int)
    ensures IsInt64(w) && (w - n) % TWO_64 == 0
    ensures IsInt64(n) ==> w == n
  {
    (n + TWO_63) % TWO_64 - TWO_63
  }

  function Pow2(k: nat): (p: int)
    ensures p > 0
  {
    if k == 0 then 1 else 2 * Pow2(k - 1)
  }

  /** Go's `1 << k` at type int64: 2^63 wraps, and counts of 64 and more give zero. */
  function Shl(k: nat): (p: int)
    ensures IsInt64(p)
  {
    if k < 63 then Pow2Small(k); Pow2(k) else if k == 63 then -TWO_63 else 0
  }

  lemma {:induction false} Pow2Small(k: nat)
    requires k < 63
    ensures Pow2(k) < TWO_63
  {
    Pow2Grows(k, 62);
    Pow2Values();
  }

  lemma {:induction false} Pow2Grows(j: nat, k: nat)
    requires j <= k
    ensures Pow2(j) <= Pow2(k)
    decreases k
  {
    if j < k {
      Pow2Grows(j, k - 1);
    }
  }

  lemma {:induction false} Pow2Add(j: nat, k: nat)
    ensures Pow2(j + k) == Pow2(j) * Pow2(k)
  {
    if j > 0 {
      Pow2Add(j - 1, k);
      assert Pow2(j + k) == 2 * (Pow2(j - 1) * Pow2(k));
    }
  }

  lemma Pow2Values()
    ensures Pow2(33) == 0x2_0000_0000 && Pow2(42) == TWO_42
    ensures Pow2(62) * 2 == TWO_63 && Pow2(63) == TWO_63 && Pow2(64) == TWO_64
  {
    assert Pow2(10) == 1024;
    Pow2Add(10, 10);
    Pow2Add(20, 10);
    assert Pow2(3) == 8;
    Pow2Add(30, 3);
    Pow2Add(20, 20);
    Pow2Add(40, 2);
    Pow2Add(40, 20);
    Pow2Add(60, 2);
  }

  /** The exact, unbounded product the code means to compute. */
  function Exact(backoffSecs: int, retryCount: nat): int
    requires retryCount >= 1
  {
    backoffSecs * SECOND * Pow2(retryCount - 1)
  }

  /** `base * (1 << (RetryCount - 1))` with a wrap after each of the two products. */
  function Product(backoffSecs: int, retryCount: nat): (d: int)
    requires retryCount >= 1
    ensures IsInt64(d)
  {
    Wrap(Wrap(backoffSecs * SECOND) * Shl(retryCount - 1))
  }

  /** The delay after both clamps, before jitter. */
  function Cap(backoffSecs: int, retryCount: nat): (d: int)
    requires retryCount >= 1
    ensures MIN_DELAY <= d <= MAX_DELAY
  {
    var d := Product(backoffSecs, retryCount);
    if d > MAX_DELAY || d <= 0 then MAX_DELAY else Max(d, MIN_DELAY)
  }

  /** The cap the formula promises: base * 2^(k-1) clamped to [5 s, 1 h]. */
  function Ideal(backoffSecs: int, retryCount: nat): int
    requires retryCount >= 1
  {
    Min(MAX_DELAY, Max(MIN_DELAY, Exact(backoffSecs, retryCount)))
  }

  /** Equal residues modulo 2^64 wrap alike. */
  lemma WrapCongruent(a: int, b: int, q: int)
    requires a - b == q * TWO_64
    ensures Wrap(a) == Wrap(b)
  {
  }

  lemma WrapQuotient(n: int) returns (q: int)
    ensures Wrap(n) == n - q * TWO_64
  {
    q := (n + TWO_63) / TWO_64;
  }

  lemma ShlQuotient(k: nat) returns (q: int)
    ensures Shl(k) == Pow2(k) - q * TWO_64
  {
    Pow2Values();
    if k < 63 {
      q := 0;
    } else if k == 63 {
      q := 1;
    } else {
      Pow2Add(k - 64, 64);
      q := Pow2(k - 64);
    }
  }

  lemma ProductOfRemainders(a: int, q1: int, b: int, q2: int, m: int)
    ensures (a - q1 * m) * (b - q2 * m) - a * b == (q1 * q2 * m - q1 * b - a * q2) * m
  {
  }

  /** Wrapping after every product is the same as wrapping the exact product once. */
  lemma ProductIsWrappedExact(backoffSecs: int, retryCount: nat)
    requires retryCount >= 1
    ensures Product(backoffSecs, retryCount) == Wrap(Exact(backoffSecs, retryCount))
  {
    var base, p := backoffSecs * SECOND, Pow2(retryCount - 1);
    var q1 := WrapQuotient(base);
    var q2 := ShlQuotient(retryCount - 1);
    var q := q1 * q2 * TWO_64 - q1 * p - base * q2;
    ProductOfRemainders(base, q1, p, q2, TWO_64);
    WrapCongruent(Wrap(base) * Shl(retryCount - 1), base * p, q);
  }

  /** For a positive setting the cap is the promised one exactly when the product does not wrap into (0, 1 h). */
  lemma CapIsIdealIff(backoffSecs: int, retryCount: nat)
    requires backoffSecs >= 1 && retryCount >= 1
    ensures Cap(backoffSecs, retryCount) == Ideal(backoffSecs, retryCount)
       <==> (Exact(backoffSecs, retryCount) < TWO_63
             || !(0 < Product(backoffSecs, retryCount) < MAX_DELAY))
  {
    ProductIsWrappedExact(backoffSecs, retryCount);
    assert Exact(backoffSecs, retryCount) > 0 by {
      MulPositive(backoffSecs * SECOND, Pow2(retryCount - 1));
    }
  }

  lemma MulPositive(a: int, b: int)
    requires a > 0 && b > 0
    ensures a * b > 0
  {
  }

  /** The promise does fail: a setting whose first product wraps to 0.29 s is capped at 5 s instead of 1 h. */
  lemma WrapUndercuts()
    ensures IsInt64(18_446_744_074)
    ensures Cap(18_446_744_074, 1) == MIN_DELAY && Ideal(18_446_744_074, 1) == MAX_DELAY
  {
    assert Pow2(0) == 1;
    ProductIsWrappedExact(18_446_744_074, 1);
    assert Exact(18_446_744_074, 1) == 290_448_384 + 1 * TWO_64;
    WrapCongruent(Exact(18_446_744_074, 1), 290_448_384, 1);
  }

  /** A zero setting waits up to an hour on every retry. */
  lemma ZeroBackoffIsOneHour(retryCount: nat)
    requires retryCount >= 1
    ensures Cap(0, retryCount) == MAX_DELAY
  {
  }

  /** From the 34th retry on every setting, positive or not, is capped at exactly one hour:
      10^9 * 2^33 is a multiple of 2^42 ns, which already exceeds an hour. */
  lemma LateRetriesAreOneHour(backoffSecs: int, retryCount: nat)
    requires retryCount >= 34
    ensures Cap(backoffSecs, retryCount) == MAX_DELAY
  {
    var k: nat := retryCount - 34;
    Pow2Add(33, k);
    Pow2Values();
    ProductIsWrappedExact(backoffSecs, retryCount);
    var e := Exact(backoffSecs, retryCount);
    var m := backoffSecs * Pow2(k) * 1_953_125;
    RegroupPowers(backoffSecs, Pow2(k));
    var q := WrapQuotient(e);
    assert Wrap(e) == (m - q * 0x40_0000) * TWO_42;
    MultipleIsZeroOrBig(m - q * 0x40_0000);
  }

  lemma RegroupPowers(b: int, p: int)
    ensures b * SECOND * (0x2_0000_0000 * p) == b * p * 1_953_125 * TWO_42
  {
  }

  lemma MultipleIsZeroOrBig(n: int)
    ensures n * TWO_42 <= 0 || n * TWO_42 > MAX_DELAY
  {
  }

  /** `rand.Int63n(n)`, which panics unless n > 0; every value of [0, n) is some draw's result. */
  function Int63n(draw: nat, n: int): (r: int)
    requires n > 0
    ensures 0 <= r < n
    ensures draw < n ==> r == draw
  {
    draw % n
  }

  /** A delay that fits the setting and the count: 5 s when the cap is 5 s, otherwise 5 s plus jitter below the cap. */
  predicate DelayFits(backoffSecs: int, retryCount: nat, draw: nat, delay: int)
    requires retryCount >= 1
  {
    var cap := Cap(backoffSecs, retryCount);
    if cap == MIN_DELAY then delay == MIN_DELAY
    else MIN_DELAY <= delay < cap && (draw < cap - MIN_DELAY ==> delay == MIN_DELAY + draw)
  }

  /** So for a positive setting whose exact product fits 64 bits the delay is 5 s or below the promised cap, and every
      instant of [5 s, cap) is some draw's delay. */
  lemma DelayBelowIdeal(backoffSecs: int, retryCount: nat, draw: nat, delay: int)
    requires backoffSecs >= 1 && retryCount >= 1 && Exact(backoffSecs, retryCount) < TWO_63
    requires DelayFits(backoffSecs, retryCount, draw, delay)
    ensures delay == MIN_DELAY || MIN_DELAY < delay < Ideal(backoffSecs, retryCount)
    ensures MIN_DELAY + draw < Ideal(backoffSecs, retryCount) ==> delay == MIN_DELAY + draw
  {
    CapIsIdealIff(backoffSecs, retryCount);
  }

  /** The delay computation of `scheduleRetry`, one assignment at a time. */
  method RetryDelay(backoffSecs: int, retryCount: nat, draw: nat) returns (delay: int)
    requires IsInt64(backoffSecs) && retryCount >= 1
    ensures MIN_DELAY <= delay < MAX_DELAY
    ensures DelayFits(backoffSecs, retryCount, draw, delay)
  {
    var base := Wrap(backoffSecs * SECOND);
    delay := Wrap(base * Shl(retryCount - 1));
    if delay > MAX_DELAY || delay <= 0 {
      delay := MAX_DELAY;
    }
    if delay < MIN_DELAY {
      delay := MIN_DELAY;
    }
    if delay > MIN_DELAY {
      delay := MIN_DELAY + Int63n(draw, delay - MIN_DELAY);
    }
  }
}
