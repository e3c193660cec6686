/** internal/domain/backoff.go: exponential backoff computed with a 64-bit shift. */
module Backoff {
  import opened Domain

  const TWO63: int := 0x8000_0000_0000_0000
  const TWO64: int := 0x1_0000_0000_0000_0000
  const SECOND: int := 1_000_000_000
  const MAX_SHIFT: int := 62

  /** time.Duration: a signed 64-bit number of nanoseconds. */
  type Duration = x: int | -TWO63 <= x < TWO63

  datatype Policy = Policy(base: Duration, max: Duration)

  const DEFAULT: Policy := Policy(SECOND, 300 * SECOND)

  function Pow2(n: nat): (r: nat)
    ensures r >= 1
  {
    if n == 0 then 1 else 2 * Pow2(n - 1)
  }

  /** Two's complement truncation to 64 bits. */
  function Wrap64(x: int): Duration {
    var r := x % TWO64;
    if r < TWO63 then r else r - TWO64
  }

  /** Go's `base << n` on int64. */
  function Shift(base: Duration, n: nat): Duration {
    Wrap64(base * Pow2(n))
  }

  function Clamp(attempt: int): (r: nat)
    ensures attempt >= 0 ==> r == attempt
    ensures attempt < 0 ==> r == 0
  {
    if attempt < 0 then 0 else attempt
  }

  /** Backoff.Delay, branch for branch. */
  function Delay(b: Policy, attempt: int): Duration {
    var n := Clamp(attempt);
    if n > MAX_SHIFT || b.base <= 0 then b.max
    else
      var d := Shift(b.base, n);
      if d <= 0 || d > b.max then b.max else d
  }

  /** The documented formula 2^attempt * Base capped at Max, over unbounded integers. */
  function Ideal(b: Policy, attempt: int): int {
    Min(b.base * Pow2(Clamp(attempt)), b.max)
  }

  /** The shift overflows and its truncation looks like a legal delay below the cap. */
  predicate Misread(b: Policy, attempt: int) {
    var n := Clamp(attempt);
    n <= MAX_SHIFT && b.base * Pow2(n) >= TWO63 && 0 < Shift(b.base, n) < b.max
  }

  lemma {:induction false} PowAdd(m: nat, n: nat)
    ensures Pow2(m + n) == Pow2(m) * Pow2(n)
  {
    if n > 0 {
      PowAdd(m, n - 1);
      assert Pow2(m + n) == 2 * Pow2(m + n - 1);
    }
  }

  lemma {:induction false} PowMono(m: nat, n: nat)
    requires m <= n
    ensures Pow2(m) <= Pow2(n)
  {
    if m < n {
      PowMono(m, n - 1);
    }
  }

  lemma SmallPowers()
    ensures Pow2(8) == 256 && Pow2(9) == 512
  {
    assert Pow2(4) == 16;
    PowAdd(4, 4);
    PowAdd(8, 1);
  }

  lemma Power64()
    ensures Pow2(64) == TWO64
  {
    SmallPowers();
    PowAdd(8, 8);
    PowAdd(16, 16);
    PowAdd(32, 32);
  }

  lemma Powers()
    ensures Pow2(8) == 256 && Pow2(9) == 512
    ensures Pow2(62) == 0x4000_0000_0000_0000
    ensures Pow2(63) == TWO63 && Pow2(64) == TWO64
    ensures Pow2(72) == 256 * TWO64
  {
    SmallPowers();
    Power64();
    PowAdd(62, 1);
    PowAdd(63, 1);
    PowAdd(64, 8);
  }

  lemma ScaleUp(x: int, p: int)
    requires x >= 1 && p >= 0
    ensures x * p >= p
  {
    assert (x - 1) * p >= 0;
  }

  lemma WrapIsShifted(x: int) returns (c: int)
    ensures Wrap64(x) == x - c * TWO64
  {
    c := if x % TWO64 < TWO63 then x / TWO64 else x / TWO64 + 1;
  }

  /** Delay is the documented formula at an attempt exactly when the truncated shift is not
      mistaken for a delay: the failing branch is the second guard of the source. */
  lemma ExactIff(b: Policy, attempt: int)
    requires b.base > 0
    ensures Delay(b, attempt) == Ideal(b, attempt) <==> !Misread(b, attempt)
  {
    var n := Clamp(attempt);
    var p := Pow2(n);
    ScaleUp(b.base, p);
    if n > MAX_SHIFT {
      PowMono(63, n);
      Powers();
    } else if b.base * p < TWO63 {
      assert Shift(b.base, n) == b.base * p;
    }
  }

  /** A multiple of p that wraps stays a multiple of p when p divides 2^64. */
  lemma WrapKeepsDivisor(x: int, p: int, a: int, q: int)
    requires p > 0 && x == p * a && p * q == TWO64
    ensures Wrap64(x) > 0 ==> Wrap64(x) >= p
  {
    var c := WrapIsShifted(x);
    var k := a - c * q;
    assert Wrap64(x) == p * k by {
      assert c * TWO64 == c * (p * q) == p * (c * q);
      assert p * (a - c * q) == p * a - p * (c * q);
    }
    if Wrap64(x) > 0 {
      assert k >= 1 by {
        if k <= 0 { ScaleDown(p, k); }
      }
      ScaleUp(k, p);
    }
  }

  lemma ScaleDown(p: int, k: int)
    requires p > 0 && k <= 0
    ensures p * k <= 0
  {
  }

  lemma Regroup(a: int, b: int, c: int)
    ensures (a * b) * c == (a * c) * b == a * (c * b)
  {
  }

  /** A shift of 2^t * q that reads as positive is at least 2^(t+n). */
  lemma ShiftIsLarge(base: Duration, t: nat, q: int, n: nat)
    requires base == Pow2(t) * q
    requires 0 < Shift(base, n)
    ensures Shift(base, n) >= Pow2(t) * Pow2(n)
  {
    var k := t + n;
    PowAdd(t, n);
    Regroup(Pow2(t), q, Pow2(n));
    assert base * Pow2(n) == Pow2(k) * q;
    Powers();
    if k <= 64 {
      PowAdd(k, 64 - k);
      WrapKeepsDivisor(base * Pow2(n), Pow2(k), q, Pow2(64 - k));
    } else {
      NoBitsLeft(base * Pow2(n), k, q);
    }
  }

  lemma NoBitsLeft(x: int, k: nat, q: int)
    requires k > 64 && x == Pow2(k) * q
    ensures Wrap64(x) <= 0
  {
    PowAdd(64, k - 64);
    Powers();
    Regroup(TWO64, q, Pow2(k - 64));
    WrapKeepsDivisor(x, TWO64, Pow2(k - 64) * q, 1);
  }

  lemma ProductBound(base: int, max: int, u: int, p: int)
    requires base >= 1 && u >= 1 && max > u * p && base * p >= TWO63
    ensures base * max >= TWO63 * u
  {
    assert base * max >= base * (u * p) by { assert base * (max - u * p) >= 0; }
    assert base * (u * p) == (base * p) * u;
    assert (base * p) * u >= TWO63 * u by { assert (base * p - TWO63) * u >= 0; }
  }

  /** A base divisible by 2^t with base * max < 2^(63+t) never misreads a truncated shift:
      a wrapped value is a multiple of 2^(t+n), hence too large to pass for a delay. */
  lemma DivisibleBaseIsExact(b: Policy, t: nat, attempt: int)
    requires b.base > 0
    requires b.base % Pow2(t) == 0
    requires b.base * b.max < Pow2(63 + t)
    ensures Delay(b, attempt) == Ideal(b, attempt)
  {
    ExactIff(b, attempt);
    if Misread(b, attempt) {
      var n := Clamp(attempt);
      var q := b.base / Pow2(t);
      assert b.base == Pow2(t) * q;
      ShiftIsLarge(b.base, t, q, n);
      ProductBound(b.base, b.max, Pow2(t), Pow2(n));
      PowAdd(63, t);
      Powers();
    }
  }

  /** The default policy (1s, capped at 5 minutes) meets the bound with t = 9. */
  lemma DefaultIsExact(attempt: int)
    ensures Delay(DEFAULT, attempt) == Ideal(DEFAULT, attempt)
    ensures Delay(DEFAULT, attempt) == Min(1_000_000_000 * Pow2(if attempt < 0 then 0 else attempt), 300_000_000_000)
  {
    Powers();
    DivisibleBaseIsExact(DEFAULT, 9, attempt);
  }

  /** Dropping the bound loses exactness: 5ns doubled 62 times wraps to 2^62. */
  lemma OverflowWitness()
    ensures var b := Policy(5, TWO63 - 1);
            Delay(b, 62) == Pow2(62) && Ideal(b, 62) == b.max && Delay(b, 62) != Ideal(b, 62)
  {
    Powers();
  }

  /** Total default delay over the retries 1..attempts. */
  function DelaySum(attempts: nat): int {
    if attempts == 0 then 0 else DelaySum(attempts - 1) + Delay(DEFAULT, attempts)
  }

  /** The delays of a task with retry limit L: geometric up to nine attempts, then linear. */
  lemma {:induction false} DelaySumClosedForm(limit: nat)
    requires limit >= 1
    ensures limit <= 9 ==> DelaySum(limit - 1) == (Pow2(limit) - 2) * 1_000_000_000
    ensures limit >= 9 ==> DelaySum(limit - 1) == (510 + 300 * (limit - 9)) * 1_000_000_000
  {
    if limit > 1 {
      DelaySumClosedForm(limit - 1);
      DefaultIsExact(limit - 1);
      Powers();
      if limit <= 9 {
        PowMono(limit - 1, 8);
      } else {
        PowMono(9, limit - 1);
      }
    }
  }
}
