/**
 Exponential backoff with jitter (internal/backoff), with the 64-bit wrap-around of its shift and
 product written out. Durations are nanoseconds. The jitter factor is an argument, taken as a real.
 */
module Backoff {

  const TWO_64: int := 0x1_0000_0000_0000_0000
  const TWO_63: int := 0x8000_0000_0000_0000
  const TWO_62: int := 0x4000_0000_0000_0000
  const SECOND: int := 1_000_000_000

  predicate Int64(x: int) {
    -TWO_63 <= x < TWO_63
  }

  // The int64 a computation leaves when its exact value is x.
  function Wrap(x: int): (r: int)
    ensures Int64(r) && (Int64(x) ==> r == x)
  {
    var m := x % TWO_64;
    if m >= TWO_63 then m - TWO_64 else m
  }

  function Pow2(n: nat): (p: int)
    ensures p >= 1
  {
    if n == 0 then 1 else 2 * Pow2(n - 1)
  }

  // 1 << n on int64: shifting everything out leaves zero.
  function ShiftOne(n: nat): int {
    if n >= 64 then 0 else Wrap(Pow2(n))
  }

  function Min(a: int, b: int): int {
    if a <= b then a else b
  }

  // ---- Specification ------------------------------------------------------------------------------------

  function BaseOf(base: int): int {
    if base <= 0 then SECOND else base
  }

  function CapOf(max: int): int {
    if max <= 0 then 60 * SECOND else max
  }

  // failures - 1, for a count of at least one.
  function Doublings(failures: int): nat {
    if failures < 1 then 0 else failures - 1
  }

  // What the doubled base should be, and what int64 arithmetic makes of it.
  function Exact(failures: int, base: int): int {
    BaseOf(base) * Pow2(Doublings(failures))
  }

  function Wrapped(failures: int, base: int): int {
    Wrap(BaseOf(base) * ShiftOne(Doublings(failures)))
  }

  function BeforeJitter(failures: int, base: int, max: int): int {
    var exp := Wrapped(failures, base);
    if exp > CapOf(max) || exp <= 0 then CapOf(max) else exp
  }

  function Scaled(exp: int, factor: real): int {
    (exp as real * factor).Floor
  }

  // ---- The computation ----------------------------------------------------------------------------------

  // For every failure count, base and cap up to 2^62, whatever wraps on the way.
  method ComputeDelay(failures0: int, base0: int, max0: int, factor: real) returns (delay: int)
    requires Int64(failures0) && Int64(base0) && max0 <= TWO_62 && 0.7 <= factor < 1.3
    ensures 0 <= delay <= CapOf(max0)
    ensures delay == Min(CapOf(max0), Scaled(BeforeJitter(failures0, base0, max0), factor))
  {
    var failures, base, max := failures0, base0, max0;
    if failures < 1 { failures := 1; }
    if base <= 0 { base := SECOND; }
    if max <= 0 { max := 60 * SECOND; }
    var exp := Wrap(base * ShiftOne(failures - 1));
    if exp > max || exp <= 0 { exp := max; }
    assert exp == BeforeJitter(failures0, base0, max0);
    ScaledFits(exp, factor);
    delay := Scaled(exp, factor);
    if delay > max { delay := max; }
  }

  // The scaled delay fits in int64, so converting it back truncates and nothing else.
  lemma ScaledFits(exp: int, factor: real)
    requires 0 < exp <= TWO_62 && 0.7 <= factor < 1.3
    ensures 0 <= Scaled(exp, factor) < TWO_63
  {
    var x := exp as real;
    assert x * factor >= 0.0;
    assert x * factor <= x * 1.3;
    assert x * 1.3 < TWO_63 as real;
  }

  // ---- When the product is the exact one ------------------------------------------------------------------

  lemma {:induction false} Pow2Monotone(m: nat, n: nat)
    requires m <= n
    ensures Pow2(m) <= Pow2(n)
    decreases n
  {
    if m < n { Pow2Monotone(m, n - 1); }
  }

  lemma Pow2At()
    ensures Pow2(62) == TWO_62 && Pow2(63) == TWO_63 && Pow2(64) == TWO_64
  {
    Pow2Square(4, 16);
    Pow2Square(8, 0x100);
    Pow2Square(16, 0x1_0000);
    Pow2Square(32, 0x1_0000_0000);
  }

  lemma Pow2Square(n: nat, p: int)
    requires Pow2(n) == p
    ensures Pow2(n + n) == p * p
  {
    Pow2Adds(n, n);
  }

  lemma {:induction false} Pow2Adds(m: nat, n: nat)
    ensures Pow2(m + n) == Pow2(m) * Pow2(n)
    decreases n
  {
    if n > 0 {
      Pow2Adds(m, n - 1);
      assert Pow2(m + n) == 2 * Pow2(m + n - 1);
    }
  }

  // If the exact product fits, so does the shift, and nothing wraps.
  lemma FittingIsExact(failures: int, base: int)
    requires Exact(failures, base) < TWO_63
    ensures Wrapped(failures, base) == Exact(failures, base)
  {
    var n, b := Doublings(failures), BaseOf(base);
    Pow2At();
    if n >= 63 {
      Pow2Monotone(63, n);
      Scale(1, b, Pow2(n));
    }
    Pow2Monotone(n, 62);
  }

  lemma Scale(a: int, b: int, p: int)
    requires a <= b && p >= 0
    ensures a * p <= b * p
  {
  }

  // The value before jitter is the smaller of the cap and the doubled base, exactly when the product
  // fits in int64 or its wrapped value falls outside the range from one to just below the cap.
  lemma BeforeJitterExactly(failures: int, base: int, max: int)
    requires Int64(base) && Int64(max)
    ensures BeforeJitter(failures, base, max) == Min(CapOf(max), Exact(failures, base)) <==>
            Exact(failures, base) < TWO_63 || Wrapped(failures, base) <= 0 || Wrapped(failures, base) >= CapOf(max)
  {
    Scale(1, BaseOf(base), Pow2(Doublings(failures)));
    if Exact(failures, base) < TWO_63 { FittingIsExact(failures, base); }
  }

  // The doubled base within 64 bits.
  function Kept(failures: int, base: int): int
    requires Doublings(failures) <= 62
  {
    BaseOf(base) % Pow2(64 - Doublings(failures)) * Pow2(Doublings(failures))
  }

  lemma ModScales(b: int, q: int, p: int)
    requires b >= 0 && q > 0 && p > 0 && q * p > 0
    ensures b * p % (q * p) == b % q * p
  {
    var d, r := b / q, b % q;
    assert b * p == d * (q * p) + r * p by { assert b == d * q + r; Distribute(d * q, r, p); Associate(d, q, p); }
    assert 0 <= r * p by { Scale(0, r, p); }
    assert r * p < q * p by { Scale(r + 1, q, p); Distribute(r, 1, p); }
    QuotientRemainder(b * p, q * p, d, r * p);
  }

  lemma Associate(a: int, b: int, c: int)
    ensures a * b * c == a * (b * c)
  {
  }

  lemma QuotientRemainder(x: int, m: int, d: int, r: int)
    requires m > 0 && x == d * m + r && 0 <= r < m
    ensures x % m == r
  {
    var e := x / m;
    assert x == e * m + x % m;
    if e > d { Scale(d + 1, e, m); Distribute(d, 1, m); }
    if e < d { Scale(e + 1, d, m); Distribute(e, 1, m); }
  }

  // Up to 62 doublings, int64 keeps the low bits of the doubled base.
  lemma WrappedIsKept(failures: int, base: int)
    requires Doublings(failures) <= 62
    ensures 0 <= Kept(failures, base) < TWO_64 && Wrapped(failures, base) == Wrap(Kept(failures, base))
  {
    var n, b := Doublings(failures), BaseOf(base);
    var p, q := Pow2(n), Pow2(64 - n);
    Pow2At();
    Pow2Adds(64 - n, n);
    Pow2Monotone(n, 62);
    ModScales(b, q, p);
    assert ShiftOne(n) == p && b * p % TWO_64 == Kept(failures, base);
  }

  // From 63 doublings on, nothing positive is kept.
  lemma NothingKept(failures: int, base: int)
    requires Doublings(failures) >= 63
    ensures Wrapped(failures, base) <= 0
  {
    var b := BaseOf(base);
    Pow2At();
    if Doublings(failures) == 63 {
      assert ShiftOne(63) == -TWO_63;
      assert b * -TWO_63 == -b * TWO_63;
      HalfTurns(b);
    } else {
      assert b * 0 == 0;
    }
  }

  lemma HalfTurns(b: int)
    ensures -b * TWO_63 % TWO_64 == if b % 2 == 0 then 0 else TWO_63
  {
    var h := -b / 2;
    if b % 2 == 0 {
      assert -b * TWO_63 == h * TWO_64;
    } else {
      assert -b * TWO_63 == h * TWO_64 + TWO_63;
    }
    QuotientRemainder(-b * TWO_63, TWO_64, h, if b % 2 == 0 then 0 else TWO_63);
  }

  lemma WrapBelow(m: int, cap: int)
    requires 0 <= m < TWO_64 && 0 < cap < TWO_63
    ensures 0 < Wrap(m) < cap <==> 0 < m < cap
  {
  }

  lemma KeptBelow(failures: int, base: int, cap: int)
    requires 0 < cap < TWO_63
    ensures 0 < Wrapped(failures, base) < cap <==> Doublings(failures) <= 62 && 0 < Kept(failures, base) < cap
  {
    if Doublings(failures) <= 62 {
      WrappedIsKept(failures, base);
      WrapBelow(Kept(failures, base), cap);
    } else {
      NothingKept(failures, base);
    }
  }

  // The same in the inputs alone: the value before jitter is wrong exactly when the doubled base does
  // not fit, but what 64 bits keep of it is positive and below the cap.
  lemma BeforeJitterWrongExactly(failures: int, base: int, max: int)
    requires Int64(base) && Int64(max)
    ensures BeforeJitter(failures, base, max) != Min(CapOf(max), Exact(failures, base)) <==>
            Exact(failures, base) >= TWO_63 && Doublings(failures) <= 62 && 0 < Kept(failures, base) < CapOf(max)
  {
    BeforeJitterExactly(failures, base, max);
    KeptBelow(failures, base, CapOf(max));
  }

  // As long as nothing wraps, one more failure never shortens the delay.
  lemma NonDecreasing(failures: int, later: int, base: int, max: int)
    requires Int64(max) && failures <= later && Exact(later, base) < TWO_63
    ensures BeforeJitter(failures, base, max) <= BeforeJitter(later, base, max)
  {
    var m, n := Doublings(failures), Doublings(later);
    Pow2Monotone(m, n);
    Scale2(BaseOf(base), Pow2(m), Pow2(n));
    FittingIsExact(failures, base);
    FittingIsExact(later, base);
    Scale(1, BaseOf(base), Pow2(m));
  }

  lemma Scale2(b: int, p: int, q: int)
    requires b >= 0 && p <= q
    ensures b * p <= b * q
  {
  }

  // A base just above a power of two wraps round to a short delay: with n doublings, 2^(64-n) + c
  // becomes c * 2^n.
  lemma WrapShortensDelay(n: nat, c: int, max: int)
    requires 2 <= n <= 62 && c > 0 && c * Pow2(n) < max <= TWO_62
    ensures var base := Pow2(64 - n) + c;
            BeforeJitter(n + 1, base, max) == c * Pow2(n) &&
                BeforeJitter(n + 1, base, max) < Min(max, Exact(n + 1, base))
  {
    var base, p := Pow2(64 - n) + c, Pow2(n);
    Pow2At();
    Pow2Adds(64 - n, n);
    Pow2Monotone(n, 62);
    assert ShiftOne(n) == p;
    assert base * p == TWO_64 + c * p by { Distribute(Pow2(64 - n), c, p); }
    assert c * p > 0 by { Scale(1, c, p); }
    assert Wrap(TWO_64 + c * p) == c * p;
  }

  lemma Distribute(a: int, b: int, p: int)
    ensures (a + b) * p == a * p + b * p
  {
  }

  // ---- The schedulers -------------------------------------------------------------------------------------

  // Both schedulers take the provider's Retry-After when it is shorter, and never exceed their own
  // limit.
  method Schedule(delay0: int, retryAfter: int, maxDelay: int) returns (delay: int)
    requires delay0 >= 0 && maxDelay > 0
    ensures 0 <= delay <= maxDelay && (retryAfter > 0 ==> delay <= retryAfter)
    ensures delay == Min(if retryAfter > 0 then Min(retryAfter, delay0) else delay0, maxDelay)
  {
    delay := delay0;
    if retryAfter > 0 && retryAfter < delay { delay := retryAfter; }
    if delay > maxDelay { delay := maxDelay; }
  }
}
