/** The retry-delay arithmetic shared by the Bedrock and Claude clients.
    Durations are Go `time.Duration` values: int64 nanoseconds, so doubling
    and adding wrap around modulo 2^64, and `int64(d) / 2` truncates toward
    zero. `rand.Int63n(n)` panics when `n <= 0`. */
module Backoff {

  const TwoTo64 := 0x1_0000_0000_0000_0000
  const Int64Min := -0x8000_0000_0000_0000
  const Int64Max := 0x7fff_ffff_ffff_ffff

  /** One second and one minute, in nanoseconds. */
  const Second := 1_000_000_000
  const Minute := 60 * Second

  predicate IsInt64(x: int)
  {
    Int64Min <= x <= Int64Max
  }

  /** The int64 value Go computes for the mathematical result `x`. */
  function Wrap64(x: int): (r: int)
    ensures IsInt64(r)
    ensures IsInt64(x) ==> r == x
  {
    (x - Int64Min) % TwoTo64 + Int64Min
  }

  /** The wrapped value differs from the mathematical one by a multiple of 2^64,
      so wrapping commutes with adding 2^64. */
  lemma Wrap64Congruent(x: int)
    ensures (x - Wrap64(x)) % TwoTo64 == 0
    ensures Wrap64(x + TwoTo64) == Wrap64(x)
  {
  }

  /** `d / 2` with Go's truncating division. */
  function Half(d: int): (r: int)
    ensures d >= 0 ==> 0 <= r && 2 * r <= d < 2 * r + 2
    ensures d < 0 ==> r <= 0 && 2 * r >= d > 2 * r - 2
    ensures r > 0 <==> d >= 2
  {
    if d >= 0 then d / 2 else -((-d) / 2)
  }

  /** `rand.Int63n(Half(delay))` can return `jitter`: the bound is positive and the
      value lies in `[0, bound)`. */
  predicate JitterFits(delay: int, jitter: int)
  {
    0 <= jitter < Half(delay)
  }

  function Min(a: int, b: int): int
  {
    if a <= b then a else b
  }

  function Pow2(k: nat): (r: nat)
    ensures r >= 1
  {
    if k == 0 then 1 else 2 * Pow2(k - 1)
  }

  /** The value of `retryDelay` before retry `k`: the initial delay after `k`
      executions of `retryDelay *= 2`, each wrapping modulo 2^64. */
  function DelayAt(initial: int, k: nat): (r: int)
    requires IsInt64(initial)
    ensures IsInt64(r)
  {
    if k == 0 then initial else Wrap64(2 * DelayAt(initial, k - 1))
  }

  /** The sleep before a retry: `retryDelay + jitter` in int64, clamped from above
      at `maxDelay`; the delay itself is not clamped. */
  function SleepTime(delay: int, jitter: int, maxDelay: int): (r: int)
    ensures r <= maxDelay
    ensures IsInt64(delay + jitter) ==> r == Min(delay + jitter, maxDelay)
  {
    var s := Wrap64(delay + jitter);
    if s > maxDelay then maxDelay else s
  }

  /** `initial` doubled `k` times in unbounded arithmetic. */
  function Doubled(initial: int, k: nat): int
  {
    if k == 0 then initial else 2 * Doubled(initial, k - 1)
  }

  /** Doubling `k` times multiplies by `2^k`, and never shrinks a non-negative value. */
  lemma {:induction false} DoubledIsProduct(initial: int, k: nat)
    ensures Doubled(initial, k) == initial * Pow2(k)
    ensures initial >= 0 ==> initial <= Doubled(initial, k)
  {
    if k > 0 {
      DoubledIsProduct(initial, k - 1);
      assert 2 * (initial * Pow2(k - 1)) == initial * Pow2(k);
    }
  }

  /** While nothing overflows, the delay before retry `k` is `initial * 2^k`. */
  lemma {:induction false} DelayAtExact(initial: int, k: nat)
    requires 0 <= initial <= Int64Max && Doubled(initial, k) <= Int64Max
    ensures DelayAt(initial, k) == Doubled(initial, k)
  {
    if k > 0 {
      DoubledIsProduct(initial, k - 1);
      DelayAtExact(initial, k - 1);
    }
  }

  /** Without overflow, a sleep is `min(delay + jitter, maxDelay)`: never shorter
      than the clamped delay and never longer than one and a half delays. */
  lemma SleepBounds(delay: int, jitter: int, maxDelay: int)
    requires JitterFits(delay, jitter) && delay + jitter <= Int64Max
    ensures SleepTime(delay, jitter, maxDelay) == Min(delay + jitter, maxDelay)
    ensures Min(delay, maxDelay) <= SleepTime(delay, jitter, maxDelay)
    ensures 2 * SleepTime(delay, jitter, maxDelay) < 3 * delay
  {
    assert IsInt64(delay + jitter);
  }

  /** Doubling a non-negative delay more often never gives less. */
  lemma {:induction false} DoubledMonotone(initial: int, a: nat, b: nat)
    requires 0 <= initial && a <= b
    ensures Doubled(initial, a) <= Doubled(initial, b)
    decreases b
  {
    if a < b {
      DoubledMonotone(initial, a, b - 1);
      DoubledIsProduct(initial, b - 1);
    }
  }

  /** For a delay that cannot overflow within `n` doublings, the sleep after
      attempt `k <= n` is `min(initial * 2^k + jitter, maxDelay)`. */
  lemma ScheduleSleep(initial: int, k: nat, n: nat, jitter: int, maxDelay: int)
    requires 0 <= initial <= Int64Max && k <= n && 2 * Doubled(initial, n) <= Int64Max
    requires JitterFits(DelayAt(initial, k), jitter)
    ensures SleepTime(DelayAt(initial, k), jitter, maxDelay) == Min(initial * Pow2(k) + jitter, maxDelay)
  {
    DoubledMonotone(initial, k, n);
    DelayAtExact(initial, k);
    RetrySleep(initial, k, jitter, maxDelay);
  }

  /** Once `m` doublings reach the cap, every later sleep within the
      overflow-free range is exactly the cap. */
  lemma CappedSleep(initial: int, m: nat, k: nat, n: nat, jitter: int, maxDelay: int)
    requires 0 <= initial <= Int64Max && m <= k <= n && 2 * Doubled(initial, n) <= Int64Max
    requires maxDelay <= Doubled(initial, m)
    requires JitterFits(DelayAt(initial, k), jitter)
    ensures SleepTime(DelayAt(initial, k), jitter, maxDelay) == maxDelay
  {
    DoubledMonotone(initial, m, k);
    ScheduleSleep(initial, k, n, jitter, maxDelay);
    DoubledIsProduct(initial, k);
  }

  /** One second doubled 6, 8 and 18 times: 64 s, 256 s and 262144 s. */
  lemma DoubledSeconds()
    ensures Doubled(Second, 6) == 64 * Second
    ensures Doubled(Second, 8) == 256 * Second
    ensures Doubled(Second, 18) == 262144 * Second
  {
    DoubledIsProduct(Second, 6);
    DoubledIsProduct(Second, 8);
    DoubledIsProduct(Second, 18);
    assert Pow2(9) == 512;
    assert Pow2(18) == 262144;
  }

  /** The sleep before retry `k` is `min(initial * 2^k + j, maxDelay)` with
      `0 <= j < initial * 2^k / 2`, while nothing overflows. */
  lemma RetrySleep(initial: int, k: nat, jitter: int, maxDelay: int)
    requires 0 <= initial <= Int64Max && Doubled(initial, k) + jitter <= Int64Max
    requires JitterFits(Doubled(initial, k), jitter)
    ensures SleepTime(DelayAt(initial, k), jitter, maxDelay) == Min(initial * Pow2(k) + jitter, maxDelay)
  {
    DelayAtExact(initial, k);
    DoubledIsProduct(initial, k);
    SleepBounds(Doubled(initial, k), jitter, maxDelay);
  }
}
