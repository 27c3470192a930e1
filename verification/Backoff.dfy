/** The retry worker's exponential back-off (retry/service.go). */
module Backoff {
  import opened Common

  const MINUTE: int := 60_000_000_000  // in nanoseconds, as time.Minute

  function Pow2(n: nat): nat {
    if n == 0 then 1 else 2 * Pow2(n - 1)
  }

  /** 2^(attempt-1) truncated to an integer: below attempt 1 the power is a fraction. */
  function Minutes(attempt: int): nat {
    if attempt < 1 then 0 else Pow2(attempt - 1)
  }

  /** The duration the retry worker sleeps: a product of 64-bit integers. */
  function BackoffDuration(attempt: int): int {
    Wrap64(Minutes(attempt) * MINUTE)
  }

  /** The nanoseconds slept before a retry: a negative duration returns at once. */
  function Sleep(attempt: int): nat {
    if BackoffDuration(attempt) < 0 then 0 else BackoffDuration(attempt)
  }

  /** Nanoseconds slept by a job that went through the retry queue with attempts 1, 3, ..., 2k-1. */
  function TotalSlept(k: nat): nat {
    if k == 0 then 0 else TotalSlept(k - 1) + Sleep(2 * k - 1)
  }

  /** The minutes intended for such a job, with no product wrapping. */
  function TotalMinutes(k: nat): nat {
    if k == 0 then 0 else TotalMinutes(k - 1) + Minutes(2 * k - 1)
  }

  lemma TotalSleptStep(k: nat)
    ensures TotalSlept(k + 1) == TotalSlept(k) + Sleep(2 * k + 1)
  {
    hide Sleep;
    assert 2 * (k + 1) - 1 == 2 * k + 1;
  }

  lemma {:induction false} TotalMinutesTripled(k: nat)
    ensures 3 * TotalMinutes(k) + 1 == Pow2(2 * k)
  {
    if k > 0 {
      TotalMinutesTripled(k - 1);
      assert Pow2(2 * k) == 2 * Pow2(2 * k - 1);
      assert Pow2(2 * k - 1) == 2 * Pow2(2 * (k - 1));
    }
  }

  lemma TotalMinutesClosedForm(k: nat)
    ensures TotalMinutes(k) == (Pow2(2 * k) - 1) / 3
  {
    TotalMinutesTripled(k);
  }

  lemma {:induction false} Pow2Monotone(m: nat, n: nat)
    requires m <= n
    ensures Pow2(m) <= Pow2(n)
    decreases n
  {
    if m < n {
      Pow2Monotone(m, n - 1);
    }
  }

  lemma {:induction false} Pow2Add(m: nat, n: nat)
    ensures Pow2(m + n) == Pow2(m) * Pow2(n)
    decreases n
  {
    if n > 0 {
      Pow2Add(m, n - 1);
      assert Pow2(m + n) == 2 * Pow2(m + (n - 1));
    }
  }

  lemma Pow2At26And28()
    ensures Pow2(26) == 67_108_864 && Pow2(28) == 268_435_456
  {
    assert Pow2(3) == 8;
    assert Pow2(5) == 32;
    assert Pow2(7) == 128;
    Pow2Add(7, 6);
    Pow2Add(13, 13);
    Pow2Add(26, 2);
  }

  /** A retry wait is only taken for odd attempts below the limit; all of them are the
      intended power of two exactly when the limit is at most 29. */
  lemma BackoffExactIffSmallLimit(max: int)
    ensures (forall a | 1 <= a < max && a % 2 == 1 :: BackoffDuration(a) == Minutes(a) * MINUTE) <==> max <= 29
  {
    Pow2At26And28();
    if max <= 29 {
      forall a | 1 <= a < max && a % 2 == 1
        ensures BackoffDuration(a) == Minutes(a) * MINUTE
      {
        Pow2Monotone(a - 1, 26);
        WrapExact(Minutes(a) * MINUTE);
      }
    } else {
      WrapExact(Minutes(29) * MINUTE);
      assert BackoffDuration(29) != Minutes(29) * MINUTE;
    }
  }

  /** At attempt 29 the product wraps below zero, and a negative sleep returns at once. */
  lemma BackoffWrapsNegative()
    ensures BackoffDuration(29) < 0 < Minutes(29) * MINUTE
  {
    Pow2At26And28();
  }

  lemma SleepAtMostIntended(attempt: int)
    ensures Sleep(attempt) <= Minutes(attempt) * MINUTE
    ensures 1 <= attempt <= 27 ==> Sleep(attempt) == Minutes(attempt) * MINUTE
  {
    WrapAtMost(Minutes(attempt) * MINUTE);
    if 1 <= attempt <= 27 {
      Pow2At26And28();
      Pow2Monotone(attempt - 1, 26);
      WrapExact(Minutes(attempt) * MINUTE);
    }
  }

  lemma {:induction false} SleptIsIntendedIff(k: nat)
    ensures TotalSlept(k) <= TotalMinutes(k) * MINUTE
    ensures TotalSlept(k) == TotalMinutes(k) * MINUTE <==> k <= 14
  {
    hide Sleep, Minutes;
    if k > 0 {
      SleptIsIntendedIff(k - 1);
      SleepAtMostIntended(2 * k - 1);
      assert TotalMinutes(k) * MINUTE == TotalMinutes(k - 1) * MINUTE + Minutes(2 * k - 1) * MINUTE;
      if k == 15 {
        NoSleepAt29();
      }
    }
  }

  lemma NoSleepAt29()
    ensures Sleep(29) == 0 < Minutes(29) * MINUTE
  {
    BackoffWrapsNegative();
  }

  /** A job retried to the end waits (4^k - 1)/3 minutes in all, k being half the limit, if and only if the
      limit is at most 29; above it, it waits less. */
  lemma TotalWaitIff(max: int)
    ensures var k := if max <= 0 then 0 else max / 2;
            && TotalSlept(k) <= (Pow2(2 * k) - 1) / 3 * MINUTE
            && (TotalSlept(k) == (Pow2(2 * k) - 1) / 3 * MINUTE <==> max <= 29)
  {
    var k := if max <= 0 then 0 else max / 2;
    SleptIsIntendedIff(k);
    TotalMinutesClosedForm(k);
  }

  lemma Pow2At53()
    ensures Pow2(53) == 9_007_199_254_740_992
  {
    Pow2At26And28();
    assert Pow2(27) == 2 * Pow2(26);
    Pow2Add(26, 27);
  }

  /** From attempt 54 on the product is a multiple of 2^64 and the worker does not wait at all. */
  lemma NoSleepFrom54(attempt: int)
    requires attempt >= 54
    ensures BackoffDuration(attempt) == 0
  {
    Pow2At53();
    Pow2Add(53, attempt - 54);
    var m := Pow2(attempt - 54);
    assert Minutes(attempt) * MINUTE == 0x1_0000_0000_0000_0000 * (29_296_875 * m) by {
      assert Pow2(53) * MINUTE == 0x1_0000_0000_0000_0000 * 29_296_875;
      assert Minutes(attempt) == Pow2(53) * m;
    }
    WrapMultiple(29_296_875 * m);
  }
}
