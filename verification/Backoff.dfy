/** The retry delays of the metadata pipeline and of the daemon. */
module Backoff {
  import opened Prelude

  function Pow2(n: nat): (r: nat)
    ensures r >= 1
  {
    if n == 0 then 1 else 2 * Pow2(n - 1)
  }

  /** The exponent guard of both call sites. */
  const EXPONENT_CAP: nat := 30

  /** `min(initial * 2 ** min(n, 30), max)`. */
  function Capped(initial: nat, max: nat, n: nat): nat {
    Min(initial * Pow2(Min(n, EXPONENT_CAP)), max)
  }

  /** Start at `initial` and double `n` times, never exceeding `max`. */
  function Doubled(initial: nat, max: nat, n: nat): nat {
    if n == 0 then Min(initial, max) else Min(2 * Doubled(initial, max, n - 1), max)
  }

  lemma {:induction false} DoubledIsPower(initial: nat, max: nat, n: nat)
    ensures Doubled(initial, max, n) == Min(initial * Pow2(n), max)
  {
    if n > 0 {
      DoubledIsPower(initial, max, n - 1);
      OneMoreDoubling(initial, n - 1);
    }
  }

  lemma OneMoreDoubling(initial: nat, n: nat)
    ensures initial * Pow2(n + 1) == 2 * (initial * Pow2(n))
  {
  }

  lemma {:induction false} DoublingGrows(initial: nat, max: nat, n: nat, m: nat)
    requires n <= m
    ensures Doubled(initial, max, n) <= Doubled(initial, max, m) <= max
    decreases m
  {
    if n < m {
      DoublingGrows(initial, max, n, m - 1);
    }
  }

  /** The guarded delay is saturated doubling that stops after thirty doublings. */
  lemma CappedIsDoubled(initial: nat, max: nat, n: nat)
    ensures Capped(initial, max, n) == Doubled(initial, max, Min(n, EXPONENT_CAP))
  {
    DoubledIsPower(initial, max, Min(n, EXPONENT_CAP));
  }

  /** Later attempts never wait less. */
  lemma DelaysAreMonotone(initial: nat, max: nat, n: nat, m: nat)
    requires n <= m
    ensures Capped(initial, max, n) <= Capped(initial, max, m) <= max
  {
    CappedIsDoubled(initial, max, n);
    CappedIsDoubled(initial, max, m);
    DoublingGrows(initial, max, Min(n, EXPONENT_CAP), Min(m, EXPONENT_CAP));
  }

  lemma {:induction false} SaturatedStays(initial: nat, max: nat, n: nat, m: nat)
    requires n <= m && Doubled(initial, max, n) == max
    ensures Doubled(initial, max, m) == max
  {
    DoublingGrows(initial, max, n, m);
  }

  lemma {:induction false} NothingDoubled(max: nat, n: nat)
    ensures Doubled(0, max, n) == 0
  {
    if n > 0 {
      NothingDoubled(max, n - 1);
    }
  }

  /** The exponent guard never changes a delay exactly when the ceiling is reached within thirty doublings. */
  lemma GuardIsInvisible(initial: nat, max: nat)
    ensures (forall n: nat :: Capped(initial, max, n) == Doubled(initial, max, n))
            <==> initial == 0 || max <= initial * Pow2(EXPONENT_CAP)
  {
    hide Pow2, Capped, Doubled;
    var top := initial * Pow2(EXPONENT_CAP);
    DoubledIsPower(initial, max, EXPONENT_CAP);
    DoubledIsPower(initial, max, EXPONENT_CAP + 1);
    CappedIsDoubled(initial, max, EXPONENT_CAP + 1);
    OneMoreDoubling(initial, EXPONENT_CAP);
    if initial == 0 || max <= initial * Pow2(EXPONENT_CAP) {
      forall n: nat
        ensures Capped(initial, max, n) == Doubled(initial, max, n)
      {
        CappedIsDoubled(initial, max, n);
        if n > EXPONENT_CAP {
          if initial == 0 {
            NothingDoubled(max, n);
            NothingDoubled(max, EXPONENT_CAP);
          } else {
            SaturatedStays(initial, max, EXPONENT_CAP, n);
          }
        }
      }
    } else {
      assert top >= 1;
      assert Capped(initial, max, EXPONENT_CAP + 1) != Doubled(initial, max, EXPONENT_CAP + 1);
    }
  }

  // --- Metadata retries ------------------------------------------------------------------------------------

  const RETRY_INITIAL_MS: nat := 60 * 1000

  const RETRY_MAX_MS: nat := 24 * 60 * 60 * 1000

  function RetryDelay(attempts: nat): nat {
    Capped(RETRY_INITIAL_MS, RETRY_MAX_MS, attempts)
  }

  lemma DayIsWithinReach()
    ensures RETRY_MAX_MS <= RETRY_INITIAL_MS * Pow2(EXPONENT_CAP)
  {
    assert Pow2(11) == 2048;
    PowersGrow(11, EXPONENT_CAP);
  }

  lemma {:induction false} PowersGrow(n: nat, m: nat)
    requires n <= m
    ensures Pow2(n) <= Pow2(m)
    decreases m
  {
    if n < m {
      PowersGrow(n, m - 1);
    }
  }

  /** The delay after any number of attempts: a minute, doubled each time, at most a day. */
  lemma RetryDelayIsDoubling(attempts: nat)
    ensures RetryDelay(attempts) == Doubled(RETRY_INITIAL_MS, RETRY_MAX_MS, attempts)
    ensures RETRY_INITIAL_MS <= RetryDelay(attempts) <= RETRY_MAX_MS
  {
    hide Pow2, Capped;
    DayIsWithinReach();
    GuardIsInvisible(RETRY_INITIAL_MS, RETRY_MAX_MS);
    DoublingGrows(RETRY_INITIAL_MS, RETRY_MAX_MS, 0, attempts);
  }

  // --- The daemon --------------------------------------------------------------------------------------------

  /** `Math.round`: half goes up. */
  function Round(x: real): (r: int)
    ensures x - 0.5 < r as real <= x + 0.5
  {
    (x + 0.5).Floor
  }

  function Scaled(base: real, factor: real): int {
    Max(0, Round(base * factor))
  }

  /** `_computeBackoff` for the `failures`-th failure in a row; `draw` is the random number. */
  function DaemonBackoff(initial: nat, max: nat, jitterFactor: real, failures: nat, draw: real): int
    requires failures >= 1
  {
    Scaled(Capped(initial, max, failures - 1) as real, 1.0 + jitterFactor * (2.0 * draw - 1.0))
  }

  lemma RoundIsMonotone(x: real, y: real)
    requires x <= y
    ensures Round(x) <= Round(y)
  {
  }

  /** Whatever is drawn, the delay stays within the rounded base times one plus or minus the jitter factor. */
  lemma JitterIsBounded(initial: nat, max: nat, jitterFactor: real, failures: nat, draw: real)
    requires failures >= 1 && jitterFactor >= 0.0 && 0.0 <= draw < 1.0
    ensures var base := Doubled(initial, max, Min(failures - 1, EXPONENT_CAP)) as real;
            var delay := DaemonBackoff(initial, max, jitterFactor, failures, draw);
            && Scaled(base, 1.0 - jitterFactor) <= delay <= Scaled(base, 1.0 + jitterFactor)
  {
    hide Capped, Doubled, Scaled;
    CappedIsDoubled(initial, max, failures - 1);
    var base := Capped(initial, max, failures - 1) as real;
    var low, drawn, high := 1.0 - jitterFactor, 1.0 + jitterFactor * (2.0 * draw - 1.0), 1.0 + jitterFactor;
    JitterStaysInside(jitterFactor, draw);
    ScalesMonotonically(base, low, drawn);
    ScalesMonotonically(base, drawn, high);
  }

  /** The jitter is symmetric: the least draw gives the lower bound, the middle one no jitter, more gives no less. */
  lemma JitterIsSymmetric(initial: nat, max: nat, jitterFactor: real, failures: nat, draw: real, more: real)
    requires failures >= 1 && jitterFactor >= 0.0 && 0.0 <= draw <= more
    ensures var base := Doubled(initial, max, Min(failures - 1, 30));
            && DaemonBackoff(initial, max, jitterFactor, failures, 0.0) == Scaled(base as real, 1.0 - jitterFactor)
            && DaemonBackoff(initial, max, jitterFactor, failures, 0.5) == base
            && DaemonBackoff(initial, max, jitterFactor, failures, 1.0) == Scaled(base as real, 1.0 + jitterFactor)
    ensures DaemonBackoff(initial, max, jitterFactor, failures, draw)
            <= DaemonBackoff(initial, max, jitterFactor, failures, more)
  {
    hide Capped, Doubled;
    CappedIsDoubled(initial, max, failures - 1);
    var base := Capped(initial, max, failures - 1) as real;
    assert Scaled(base, 1.0 + jitterFactor * (2.0 * 0.5 - 1.0)) == Scaled(base, 1.0);
    assert jitterFactor * (more - draw) >= 0.0;
    ScalesMonotonically(base, 1.0 + jitterFactor * (2.0 * draw - 1.0), 1.0 + jitterFactor * (2.0 * more - 1.0));
  }

  lemma JitterStaysInside(jitterFactor: real, draw: real)
    requires jitterFactor >= 0.0 && 0.0 <= draw < 1.0
    ensures -jitterFactor <= jitterFactor * (2.0 * draw - 1.0) <= jitterFactor
  {
  }

  lemma ScalesMonotonically(base: real, x: real, y: real)
    requires base >= 0.0 && x <= y
    ensures Scaled(base, x) <= Scaled(base, y)
  {
    assert base * (y - x) >= 0.0;
    RoundIsMonotone(base * x, base * y);
  }
}
