/** The conversion of integers to IEEE 754 double precision: exact up to 2^53, rounded to nearest, ties to even, beyond. */
module Float64 {
  const TWO53: int := 0x20_0000_0000_0000

  function Pow2(e: nat): (p: nat)
    ensures p >= 1
  {
    if e == 0 then 1 else 2 * Pow2(e - 1)
  }

  /** v is m * 2^e, or m / 2^e, with a significand of at most 53 bits and an exponent a double has. */
  ghost predicate Denotes(m: int, e: nat, v: real) {
    && -TWO53 < m < TWO53
    && ((e <= 971 && v == (m * Pow2(e)) as real) || (e <= 1074 && v * (Pow2(e) as real) == m as real))
  }

  ghost predicate IsFloat64(v: real) {
    exists m: int, e: nat :: Denotes(m, e, v)
  }

  type float64 = v: real | IsFloat64(v) witness (ZeroIsFloat64(); 0.0)

  type int64 = n: int | -0x8000_0000_0000_0000 <= n <= 0x7FFF_FFFF_FFFF_FFFF

  /** Go's float64(n). */
  function ToFloat64(n: int64): (v: float64)
    ensures v == Rounded(n) as real
  {
    RoundedIsFloat64(n);
    Rounded(n) as real
  }

  lemma ZeroIsFloat64()
    ensures IsFloat64(0.0) && IsFloat64(1.0)
  {
    assert Pow2(0) == 1;
    assert Denotes(0, 0, 0.0) && Denotes(1, 0, 1.0);
  }

  /** The weight, as a power of two, of the last bit a double of n's size keeps. */
  function LastBit(n: nat): nat {
    if n < TWO53 then 0 else 1 + LastBit(n / 2)
  }

  /** n over q to the nearest integer, ties to even. */
  function Nearest(n: nat, q: nat): (m: nat)
    requires q > 0
    ensures n / q <= m <= n / q + 1
  {
    if 2 * (n % q) < q || (2 * (n % q) == q && n / q % 2 == 0) then n / q else n / q + 1
  }

  function Rounded(n: int): int {
    if n < 0 then -(RoundedUp(-n) as int) else RoundedUp(n)
  }

  function RoundedUp(n: nat): nat {
    Nearest(n, Pow2(LastBit(n))) * Pow2(LastBit(n))
  }

  /** Integers up to 2^53 in size are kept. */
  lemma SmallIsExact(n: int)
    requires -TWO53 <= n <= TWO53
    ensures Rounded(n) == n
  {
    var k := if n < 0 then -n else n;
    if k == TWO53 {
      assert LastBit(k) == 1 + LastBit(TWO53 / 2) == 1;
      assert Pow2(1) == 2 * Pow2(0) == 2;
    } else {
      assert LastBit(k) == 0 && Pow2(0) == 1;
    }
  }

  /** The next integer is not: it rounds down to 2^53. */
  lemma NextIsRounded()
    ensures Rounded(TWO53 + 1) == TWO53
  {
    assert LastBit(TWO53 + 1) == 1 + LastBit((TWO53 + 1) / 2) == 1;
    assert Pow2(1) == 2 * Pow2(0) == 2;
  }

  lemma {:induction false} QuotientFits(n: nat)
    ensures n / Pow2(LastBit(n)) < TWO53
  {
    var q := Pow2(LastBit(n));
    if n >= TWO53 {
      QuotientFits(n / 2);
      var half := Pow2(LastBit(n / 2));
      assert q == 2 * half;
      DivideTwice(n, half);
    } else {
      assert q == 1;
    }
  }

  lemma DivideTwice(n: nat, half: nat)
    requires half > 0
    ensures n / (2 * half) == n / 2 / half
  {
    var a, r := n / 2 / half, n / 2 % half;
    assert n / 2 == a * half + r;
    assert n == (2 * half) * a + (2 * r + n % 2);
    QuotientIs(n, 2 * half, a, 2 * r + n % 2);
  }

  lemma QuotientIs(n: nat, d: nat, a: nat, r: nat)
    requires d > 0 && n == d * a + r && r < d
    ensures n / d == a
  {
    var q := n / d;
    assert n == d * q + n % d;
    if q < a {
      TimesKeepsOrder(d, q + 1, a);
    } else if q > a {
      TimesKeepsOrder(d, a + 1, q);
    }
  }

  lemma TimesKeepsOrder(d: nat, x: nat, y: nat)
    requires x <= y
    ensures d * x <= d * y
  {
  }

  lemma {:induction false} LastBitBound(n: nat, j: nat)
    requires n < TWO53 * Pow2(j)
    ensures LastBit(n) <= j
  {
    if n >= TWO53 && j > 0 {
      assert TWO53 * Pow2(j) == 2 * (TWO53 * Pow2(j - 1));
      LastBitBound(n / 2, j - 1);
    }
  }

  lemma NegatedIsFloat64(v: real)
    requires IsFloat64(v)
    ensures IsFloat64(-v)
  {
    var m: int, e: nat :| Denotes(m, e, v);
    assert (-m) * Pow2(e) == -(m * Pow2(e));
    assert (-v) * (Pow2(e) as real) == -(v * (Pow2(e) as real));
    assert Denotes(-m, e, -v);
  }

  lemma DoubleHalf(q: nat)
    ensures TWO53 / 2 * (2 * q) == TWO53 * q
  {
  }

  lemma RoundedUpIsFloat64(n: nat)
    requires n <= 0x8000_0000_0000_0000
    ensures IsFloat64(RoundedUp(n) as real)
  {
    var e := LastBit(n);
    var m := Nearest(n, Pow2(e));
    Pow2Eleven();
    LastBitBound(n, 11);
    QuotientFits(n);
    if m < TWO53 {
      assert Denotes(m, e, RoundedUp(n) as real);
    } else {
      DoubleHalf(Pow2(e));
      assert Denotes(TWO53 / 2, e + 1, RoundedUp(n) as real);
    }
  }

  lemma Pow2Eleven()
    ensures Pow2(11) == 2048
  {
    assert Pow2(1) == 2 && Pow2(2) == 4 && Pow2(3) == 8 && Pow2(4) == 16 && Pow2(5) == 32 && Pow2(6) == 64;
    assert Pow2(7) == 128 && Pow2(8) == 256 && Pow2(9) == 512 && Pow2(10) == 1024;
  }

  /** The conversion of an int64 is a double. */
  lemma RoundedIsFloat64(n: int)
    requires -0x8000_0000_0000_0000 <= n <= 0x7FFF_FFFF_FFFF_FFFF
    ensures IsFloat64(Rounded(n) as real)
  {
    var size := if n < 0 then -n else n;
    RoundedUpIsFloat64(size);
    NegatedIsFloat64(RoundedUp(size) as real);
  }

  /** The rounding is off by at most half the weight of the last bit. */
  lemma RoundedIsNear(n: nat)
    ensures -(Pow2(LastBit(n)) as int) <= 2 * (RoundedUp(n) - n) <= Pow2(LastBit(n))
  {
    NearestIsNear(n, Pow2(LastBit(n)));
  }

  lemma NearestIsNear(n: nat, q: nat)
    requires q > 0
    ensures -(q as int) <= 2 * (Nearest(n, q) * q - n) <= q
  {
    var k, r := n / q, n % q;
    Distribute(k, q);
    assert n == k * q + r;
  }

  /** A tie goes to the even neighbour, so the significand is the nearest one and there is no choice. */
  lemma TiesGoToEven(n: nat, q: nat)
    requires q > 0 && 2 * (n % q) == q
    ensures Nearest(n, q) % 2 == 0
  {
  }

  /** Beyond 2^53 all 53 bits of the significand are used. */
  lemma {:induction false} QuotientIsFull(n: nat)
    requires n >= TWO53
    ensures n / Pow2(LastBit(n)) >= TWO53 / 2
  {
    var half := Pow2(LastBit(n / 2));
    assert Pow2(LastBit(n)) == 2 * half;
    DivideTwice(n, half);
    if n / 2 >= TWO53 {
      QuotientIsFull(n / 2);
    } else {
      assert half == 1;
    }
  }

  lemma Distribute(k: nat, q: nat)
    ensures (k + 1) * q == k * q + q
  {
  }
}
