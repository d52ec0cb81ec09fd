/** shared/consumer/consumer.go, backoff: retry delays in int64 nanoseconds, with Go's shift. */
module Backoff {

  const TWO63 := 0x8000_0000_0000_0000
  const TWO64 := 0x1_0000_0000_0000_0000

  const DEFAULT_BASE := 200_000_000
  const DEFAULT_MAX := 10_000_000_000

  function Pow2(k: nat): (p: nat)
    ensures p >= 1
  {
    if k == 0 then 1 else 2 * Pow2(k - 1)
  }

  /** Two's complement: the int64 that x wraps to. */
  function Wrap(x: int): int {
    var r := x % TWO64;
    if r >= TWO63 then r - TWO64 else r
  }

  /** d << k on int64: the low 64 bits, zero once every bit is shifted out. */
  function Shl(d: int, k: nat): int {
    if k >= 64 then 0 else Wrap(d * Pow2(k))
  }

  function Delay(base: int, max: int, attempt: nat): int
    requires attempt >= 1
  {
    var d := Shl(base, attempt - 1);
    if d <= 0 || d > max then max else d
  }

  function Min(a: int, b: int): int { if a < b then a else b }

  lemma {:induction false} Pow2Add(a: nat, b: nat)
    ensures Pow2(a + b) == Pow2(a) * Pow2(b) && Pow2(a) >= 1
  {
    if a > 0 {
      Pow2Add(a - 1, b);
      assert Pow2(a) * Pow2(b) == 2 * (Pow2(a - 1) * Pow2(b));
    }
  }

  lemma {:induction false} Pow2Monotone(a: nat, b: nat)
    requires a <= b
    ensures 1 <= Pow2(a) <= Pow2(b)
  {
    if a < b {
      Pow2Monotone(a, b - 1);
    } else if a > 0 {
      Pow2Monotone(a - 1, b - 1);
    }
  }

  lemma TwoTo64()
    ensures Pow2(63) == TWO63 && Pow2(64) == TWO64
  {
    assert Pow2(8) == 256;
    Pow2Add(8, 8);
    Pow2Add(16, 16);
    Pow2Add(32, 32);
    assert Pow2(64) == 2 * Pow2(63);
  }

  lemma MulMonotone(a: nat, b: int, c: int)
    requires b <= c
    ensures a * b <= a * c
  {
    assert a * (c - b) >= 0;
  }

  lemma WrapOf(t: int, y: int)
    requires 0 <= y < TWO64
    ensures Wrap(t * TWO64 + y) == if y >= TWO63 then y - TWO64 else y
  {
  }

  /** The parts of base above and below bit 63 - k, shifted by k. */
  lemma SplitProduct(base: nat, p: nat, q: nat, h: nat, r: nat)
    requires base == h * q + r && r < q && p * q == TWO63 && p >= 1
    ensures base * p == h * TWO63 + r * p && 0 <= r * p < TWO63
  {
    assert h * q * p == h * (p * q);
    MulMonotone(p, r + 1, q);
  }

  lemma WrappedProduct(base: nat, p: nat, q: nat, h: nat, r: nat)
    requires base == h * q + r && r < q && p * q == TWO63 && p >= 1
    ensures 0 <= r * p < TWO63 && Wrap(base * p) == if h % 2 == 0 then r * p else r * p - TWO63
  {
    SplitProduct(base, p, q, h, r);
    var y := r * p;
    assert base * p == (h / 2) * TWO64 + ((h % 2) * TWO63 + y);
    WrapOf(h / 2, (h % 2) * TWO63 + y);
  }

  /** The bits of base from m up, those below m, and the latter shifted up to the sign bit. */
  function High(base: nat, m: nat): nat { Quotient(base, Pow2(m)) }

  function Low(base: nat, m: nat): nat { base - Quotient(base, Pow2(m)) * Pow2(m) }

  function Quotient(a: nat, q: nat): (h: nat)
    requires q >= 1
    ensures h * q <= a < h * q + q && (a < q ==> h == 0)
  {
    Divided(a, q);
    a / q
  }

  lemma Divided(a: nat, q: nat)
    requires q >= 1
    ensures 0 <= a / q && (a / q) * q <= a < (a / q) * q + q && (a < q ==> a / q == 0)
  {
    assert a == (a / q) * q + a % q;
  }

  function LowShifted(base: nat, m: nat): nat
    requires m <= 63
  {
    Low(base, m) * Pow2(63 - m)
  }

  lemma HighLow(base: nat, m: nat)
    ensures base == High(base, m) * Pow2(m) + Low(base, m) && Low(base, m) < Pow2(m)
    ensures base < Pow2(m) ==> High(base, m) == 0 && Low(base, m) == base
  {
    hide Pow2;
  }

  /** What a shift by 63 - m leaves of base: the bits below m, negative when bit m is set. */
  lemma ShiftedBits(base: nat, m: nat)
    requires m <= 63
    ensures 0 <= LowShifted(base, m) < TWO63 && (Low(base, m) > 0 <==> LowShifted(base, m) > 0)
    ensures Wrap(base * Pow2(63 - m)) == if High(base, m) % 2 == 0 then LowShifted(base, m) else LowShifted(base, m) - TWO63
    ensures base * Pow2(63 - m) >= TWO63 <==> base >= Pow2(m)
    ensures base < Pow2(m) ==> High(base, m) == 0 && LowShifted(base, m) == base * Pow2(63 - m)
  {
    TwoTo64();
    Pow2Add(63 - m, m);
    HighLow(base, m);
    var p, q, h, r := Pow2(63 - m), Pow2(m), High(base, m), Low(base, m);
    hide Pow2, High, Low, Wrap;
    WrappedProduct(base, p, q, h, r);
    MulMonotone(p, if r > 0 then 1 else 0, r);
    MulReaches(base, p, q);
  }

  lemma MulReaches(base: nat, p: nat, q: nat)
    requires p * q == TWO63 && p >= 1
    ensures base * p >= TWO63 <==> base >= q
  {
    if base >= q {
      MulMonotone(p, q, base);
    } else {
      MulMonotone(p, base + 1, q);
    }
  }

  /** Bit m of base is zero, there are bits above and below it, and those below, shifted up to the
      sign bit, come out under max. */
  predicate WrapsUnder(base: nat, max: nat, m: nat)
    requires m <= 63
  {
    base >= Pow2(m) && High(base, m) % 2 == 0 && 0 < Low(base, m) && LowShifted(base, m) < max
  }

  /** x is the unwrapped product, d the wrapped one, y the shifted low bits. */
  lemma Compare(x: nat, max: nat, d: int, h: nat, y: nat, top: bool)
    requires 0 < x && 0 < max < TWO63 && (x >= TWO63 <==> top) && y < TWO63
    requires d == (if h % 2 == 0 then y else y - TWO63) && (!top ==> h == 0 && y == x)
    ensures (if d <= 0 || d > max then max else d) == Min(x, max) <==> !(top && h % 2 == 0 && 0 < y && y < max)
  {
  }

  /** One attempt: the delay is the capped exponential if and only if no zero bit of base lets it
      wrap under max at this shift. */
  lemma {:induction false} AttemptIff(base: nat, max: nat, attempt: nat)
    requires 0 < base < TWO63 && 0 < max < TWO63 && attempt >= 1
    ensures Delay(base, max, attempt) == Min(base * Pow2(attempt - 1), max)
       <==> attempt > 64 || !WrapsUnder(base, max, 64 - attempt)
  {
    var k := attempt - 1;
    MulMonotone(Pow2(k), 1, base);
    if k >= 64 {
      TwoTo64();
      Pow2Monotone(64, k);
    } else {
      var m := 63 - k;
      ShiftedBits(base, m);
      hide Pow2, High, Low, LowShifted, Wrap;
      var x := base * Pow2(k);
      Compare(x, max, Wrap(x), High(base, m), LowShifted(base, m), base >= Pow2(m));
    }
  }

  /** All attempts: wrap-around shows if and only if base has such a bit. */
  lemma {:induction false} BackoffIff(base: nat, max: nat)
    requires 0 < base < TWO63 && 0 < max < TWO63
    ensures (forall attempt: nat :: attempt >= 1 ==> Delay(base, max, attempt) == Min(base * Pow2(attempt - 1), max))
       <==> (forall m: nat :: m <= 63 ==> !WrapsUnder(base, max, m))
  {
    forall m: nat | m <= 63
      ensures WrapsUnder(base, max, m) <==> Delay(base, max, 64 - m) != Min(base * Pow2(63 - m), max)
    {
      AttemptIff(base, max, 64 - m);
    }
    forall attempt: nat | attempt >= 1
      ensures Delay(base, max, attempt) == Min(base * Pow2(attempt - 1), max) <==> attempt > 64 || !WrapsUnder(base, max, 64 - attempt)
    {
      AttemptIff(base, max, attempt);
    }
  }

  /** In particular it never shows while Base·Max stays below 2^63. */
  lemma {:induction false} DelayIsCapped(base: nat, max: nat, attempt: nat)
    requires 0 < base && 0 < max && base * max < TWO63 && attempt >= 1
    ensures Delay(base, max, attempt) == Min(base * Pow2(attempt - 1), max)
  {
    MulMonotone(base, 1, max);
    MulMonotone(max, 1, base);
    AttemptIff(base, max, attempt);
    if attempt <= 64 {
      NothingUnder(base, max, 64 - attempt);
    }
  }

  lemma NothingUnder(base: nat, max: nat, m: nat)
    requires base * max < TWO63 && m <= 63
    ensures !WrapsUnder(base, max, m)
  {
    TwoTo64();
    Pow2Add(m, 63 - m);
    var q, p := Pow2(m), Pow2(63 - m);
    hide Pow2, High, Low;
    if base >= q && max > p {
      MulMonotone(max, q, base);
      MulMonotone(q, p, max);
    }
    if Low(base, m) >= 1 {
      MulMonotone(p, 1, Low(base, m));
    }
  }

  /** Retry delays never decrease and never exceed the maximum. */
  lemma {:induction false} DelaysGrow(base: nat, max: nat, attempt: nat, later: nat)
    requires 0 < base && 0 < max && base * max < TWO63 && 1 <= attempt <= later
    ensures 0 < Delay(base, max, attempt) <= Delay(base, max, later) <= max
  {
    DelayIsCapped(base, max, attempt);
    DelayIsCapped(base, max, later);
    Pow2Monotone(attempt - 1, later - 1);
    Pow2Monotone(0, attempt - 1);
    MulMonotone(base, Pow2(attempt - 1), Pow2(later - 1));
    MulMonotone(base, 1, Pow2(attempt - 1));
  }

  lemma {:induction false} DefaultsNeverWrap(attempt: nat)
    requires attempt >= 1
    ensures Delay(DEFAULT_BASE, DEFAULT_MAX, attempt) == Min(DEFAULT_BASE * Pow2(attempt - 1), DEFAULT_MAX)
  {
    DelayIsCapped(DEFAULT_BASE, DEFAULT_MAX, attempt);
  }

  /** With such a bit a delay can wrap to almost nothing: the third of these is 4 ns. */
  lemma {:induction false} LargeBaseWraps()
    ensures var b := 0x4000_0000_0000_0001;
      Delay(b, b, 1) == b && Delay(b, b, 2) == b && Delay(b, b, 3) == 4
  {
    assert Pow2(1) == 2 && Pow2(2) == 4;
  }
}
