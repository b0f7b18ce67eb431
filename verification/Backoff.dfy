/** The capped exponential backoff shared by the sync engine and the job worker. */
module Backoff {

  const MAX_BACKOFF_MINUTES := 60
  const MS_PER_MINUTE := 60_000

  function Pow2(n: nat): (p: nat)
    ensures p >= 1
  {
    if n == 0 then 1 else 2 * Pow2(n - 1)
  }

  /** Minutes to wait after failed attempt number `attemptNumber`. */
  function BackoffMinutes(attemptNumber: nat): nat {
    if Pow2(attemptNumber) < MAX_BACKOFF_MINUTES then Pow2(attemptNumber) else MAX_BACKOFF_MINUTES
  }

  function BackoffMs(attemptNumber: nat): nat {
    BackoffMinutes(attemptNumber) * MS_PER_MINUTE
  }

  /** Minutes waited in all after failed attempts 1 to `m`. */
  function TotalMinutes(m: nat): nat {
    if m == 0 then 0 else TotalMinutes(m - 1) + BackoffMinutes(m)
  }

  lemma {:induction false} Pow2Capped(n: nat)
    ensures n <= 5 ==> Pow2(n) < MAX_BACKOFF_MINUTES
    ensures n >= 6 ==> Pow2(n) > MAX_BACKOFF_MINUTES
  {
    if n > 6 {
      Pow2Capped(n - 1);
    } else {
      assert Pow2(1) == 2 && Pow2(2) == 4 && Pow2(3) == 8;
      assert Pow2(4) == 16 && Pow2(5) == 32 && Pow2(6) == 64;
    }
  }

  /** The doubling waits sum to 2^(m+1) - 2 minutes until the cap is reached at the sixth. */
  lemma {:induction false} TotalClosedForm(m: nat)
    ensures m <= 5 ==> TotalMinutes(m) == Pow2(m + 1) - 2
    ensures m >= 5 ==> TotalMinutes(m) == 62 + 60 * (m - 5)
  {
    if m > 0 {
      TotalClosedForm(m - 1);
      Pow2Capped(m);
      if m == 5 {
        assert Pow2(6) == 2 * Pow2(5) == 4 * Pow2(4) == 8 * Pow2(3) == 16 * Pow2(2) == 32 * Pow2(1);
      }
    }
  }

  /** In milliseconds: two, four, eight, sixteen and thirty-two minutes, and an hour from the sixth on. */
  lemma FirstWaits(n: nat)
    ensures TotalMinutes(4) == 30
    ensures BackoffMs(1) == 120_000 && BackoffMs(2) == 240_000 && BackoffMs(3) == 480_000
    ensures BackoffMs(4) == 960_000 && BackoffMs(5) == 1_920_000
    ensures n >= 6 ==> BackoffMs(n) == 3_600_000
  {
    assert Pow2(1) == 2 && Pow2(2) == 4 && Pow2(3) == 8 && Pow2(4) == 16 && Pow2(5) == 32;
    TotalClosedForm(4);
    Pow2Capped(n);
  }
}
