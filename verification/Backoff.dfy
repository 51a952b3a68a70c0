/** Exponential backoff with equal jitter. */
module Backoff {
  import opened Json

  const DOWNLOAD_ATTEMPTS := 3
  const RETRY_BASE_MS := 1000
  const RETRY_MAX_MS := 8000
  const DOWNLOAD_BASE_MS := 500
  const DOWNLOAD_MAX_MS := 4000

  function Pow2(n: nat): (r: nat)
    ensures r >= 1
  {
    if n == 0 then 1 else 2 * Pow2(n - 1)
  }

  function Min(a: int, b: int): int {
    if a > b then b else a
  }

  /** The delay before jitter, with the shift clamped to 16 as the worker computes it. */
  function Capped(attempt: int, base: nat, cap: nat): nat {
    var shift := if attempt > 1 then attempt - 1 else 0;
    var clamped := if shift > 16 then 16 else shift;
    var exponential := base * Pow2(clamped);
    if exponential > cap then cap else exponential
  }

  /** The delay the policy describes: doubling from `base`, never above `cap`. */
  function Ideal(attempt: int, base: nat, cap: nat): int
    requires attempt >= 1
  {
    Min(base * Pow2(attempt - 1), cap)
  }

  /** One delay: `random` is the draw from 0 to half the capped delay. */
  function Delay(attempt: int, base: nat, cap: nat, random: nat): (ms: nat)
    requires random <= Capped(attempt, base, cap) / 2
    ensures Capped(attempt, base, cap) <= ms <= Capped(attempt, base, cap) * 3 / 2
    ensures ms <= cap + cap / 2
  {
    Capped(attempt, base, cap) + random
  }

  lemma {:induction false} Pow2Monotone(a: nat, b: nat)
    requires a <= b
    ensures Pow2(a) <= Pow2(b)
  {
    if a < b { Pow2Monotone(a, b - 1); }
  }

  lemma Pow2Of16()
    ensures Pow2(16) == 65536 && Pow2(17) == 131072
  {
    assert Pow2(4) == 16;
    assert Pow2(8) == 256;
    assert Pow2(12) == 4096;
    assert Pow2(16) == 65536;
  }

  lemma ScaleMonotone(base: nat, x: nat, y: nat)
    requires x <= y
    ensures base * x <= base * y
  {}

  lemma CappedMeetsIdealAt(attempt: int, base: nat, cap: nat)
    requires attempt >= 1 && (base == 0 || base * 65536 >= cap)
    ensures Capped(attempt, base, cap) == Ideal(attempt, base, cap)
  {
    Pow2Of16();
    if base == 0 {
      assert base * Pow2(attempt - 1) == 0;
    } else if attempt > 17 {
      Pow2Monotone(16, attempt - 1);
      ScaleMonotone(base, Pow2(16), Pow2(attempt - 1));
    }
  }

  /** Clamping the shift is invisible exactly when 16 doublings already reach the cap. */
  lemma CappedMeetsIdeal(base: nat, cap: nat)
    ensures (forall attempt: int :: attempt >= 1 ==> Capped(attempt, base, cap) == Ideal(attempt, base, cap))
            <==> (base == 0 || base * 65536 >= cap)
  {
    if base == 0 || base * 65536 >= cap {
      forall attempt: int | attempt >= 1
        ensures Capped(attempt, base, cap) == Ideal(attempt, base, cap)
      {
        CappedMeetsIdealAt(attempt, base, cap);
      }
    } else {
      Pow2Of16();
      assert Capped(18, base, cap) == base * 65536 < Ideal(18, base, cap);
    }
  }

  /** Later attempts never wait less, and no 32-bit base overflows 64 bits. */
  lemma CappedMonotone(a: int, b: int, base: nat, cap: nat)
    requires a <= b
    ensures Capped(a, base, cap) <= Capped(b, base, cap) <= cap
    ensures base <= INT32_MAX ==> base * Pow2(16) < 0x8000_0000_0000_0000
  {
    var sa := if a > 1 then Min(a - 1, 16) else 0;
    var sb := if b > 1 then Min(b - 1, 16) else 0;
    Pow2Monotone(sa, sb);
    ScaleMonotone(base, Pow2(sa), Pow2(sb));
    Pow2Of16();
  }

  /** The longest a download entry can wait: 2250 ms over two failures, 5250 ms over three. */
  function DownloadWait(failures: nat): nat
    requires failures <= DOWNLOAD_ATTEMPTS
  {
    if failures == 0 then 0
    else DownloadWait(failures - 1) + Capped(failures, DOWNLOAD_BASE_MS, DOWNLOAD_MAX_MS) * 3 / 2
  }

  /** The least a retry waits, by its count: 1, 2, 4 and then 8 seconds. */
  lemma RetryDelays(n: int)
    ensures Capped(n, RETRY_BASE_MS, RETRY_MAX_MS)
            == if n <= 1 then 1000 else if n == 2 then 2000 else if n == 3 then 4000 else 8000
  {
    assert Pow2(0) == 1 && Pow2(1) == 2 && Pow2(2) == 4 && Pow2(3) == 8;
    if n > 4 { CappedMonotone(4, n, RETRY_BASE_MS, RETRY_MAX_MS); }
  }

  /** The least a download waits after its first, second and third failure. */
  lemma DownloadDelays()
    ensures Capped(1, DOWNLOAD_BASE_MS, DOWNLOAD_MAX_MS) == 500
    ensures Capped(2, DOWNLOAD_BASE_MS, DOWNLOAD_MAX_MS) == 1000
    ensures Capped(3, DOWNLOAD_BASE_MS, DOWNLOAD_MAX_MS) == 2000
  {
    assert Pow2(0) == 1 && Pow2(1) == 2 && Pow2(2) == 4;
  }

  lemma DownloadWaits()
    ensures DownloadWait(0) == 0 && DownloadWait(1) == 750 && DownloadWait(2) == 2250 && DownloadWait(3) == 5250
  {
    assert Pow2(1) == 2 && Pow2(2) == 4;
    assert Capped(1, 500, 4000) == 500 && Capped(2, 500, 4000) == 1000 && Capped(3, 500, 4000) == 2000;
    assert DownloadWait(1) == 750;
    assert DownloadWait(2) == 2250;
  }
}
