/** rint of my_global.h, over the reals that are doubles. */
module Rounding {
  import opened Bits

  /** (1LL << DBL_MANT_DIG) - 1 */
  const MAX_EXACT_INTEGER := 0x1F_FFFF_FFFF_FFFF

  /** The integer part, towards zero: the second result of modf. */
  function Trunc(x: real): int {
    if x >= 0.0 then x.Floor else -((-x).Floor)
  }

  /** The remainder of C, which has the sign of the dividend. */
  function CRem(a: int, b: nat): int
    requires b > 0
  {
    if a >= 0 then a % b else -((-a) % b)
  }

  function Rint(x: real): real {
    var i := Trunc(x);
    var f := x - i as real;
    if x > 0.0 then
      (if f > 0.5 || (f == 0.5 && i <= MAX_EXACT_INTEGER && CRem(i, 2) != 0) then i + 1 else i) as real
    else
      (if f < -0.5 || (f == -0.5 && i >= -MAX_EXACT_INTEGER && CRem(i, 2) != 0) then i - 1 else i) as real
  }

  // ---- doubles ----

  /** m times 2^e. */
  function Scaled(m: int, e: int): real {
    if e >= 0 then (m * Pow2(e)) as real else m as real / Pow2(-e) as real
  }

  /** A mantissa of at most 53 bits, scaled; every finite double is one. */
  ghost predicate IsDouble(x: real) {
    exists m: int, e: int :: -MAX_EXACT_INTEGER <= m <= MAX_EXACT_INTEGER && x == Scaled(m, e)
  }

  lemma GrowsByFactor(q: real, r: real)
    requires q >= 0.0 && r >= 1.0
    ensures q * r >= q
  {
    assert q * (r - 1.0) >= 0.0;
    assert q * r == q * (r - 1.0) + q;
  }

  /** A negative exponent makes the number no larger. */
  lemma ScaledDown(m: int, e: int)
    requires e < 0
    ensures m >= 0 ==> 0.0 <= Scaled(m, e) <= m as real
    ensures m <= 0 ==> m as real <= Scaled(m, e) <= 0.0
  {
    var q, r := Scaled(m, e), Pow2(-e) as real;
    assert q * r == m as real;
    if q >= 0.0 { GrowsByFactor(q, r); } else { GrowsByFactor(-q, r); }
  }

  /** Doubles beyond MAX_EXACT_INTEGER are even integers, as the comment in rint says. */
  lemma LargeDoublesAreEven(x: real)
    requires IsDouble(x) && (x > MAX_EXACT_INTEGER as real || x < -(MAX_EXACT_INTEGER as real))
    ensures exists n: int :: x == (2 * n) as real
  {
    var m: int, e: int :| -MAX_EXACT_INTEGER <= m <= MAX_EXACT_INTEGER && x == Scaled(m, e);
    if e < 0 {
      ScaledDown(m, e);
    } else if e > 0 {
      assert m * Pow2(e) == 2 * (m * Pow2(e - 1));
    }
  }

  /** The bound is that of a 53-bit mantissa. */
  lemma MantissaBits()
    ensures MAX_EXACT_INTEGER == Pow2(53) - 1
  {
    Pow8();
    Pow16();
    Pow32();
    Pow2Adds(8, 8);
    Pow2Adds(32, 16);
    Pow2Adds(48, 5);
    assert Pow2(5) == 32;
  }

  /** Scaled is multiplication by a power of two, in either direction. */
  lemma ScaledIsProduct(m: int, k: nat)
    ensures Scaled(m, k) == m as real * Pow2(k) as real
    ensures Scaled(m, -(k as int)) * Pow2(k) as real == m as real
  {
  }

  /** The doubles, without the constant: every mantissa below 2^53 in magnitude, with every exponent. */
  lemma DoublesAre(x: real)
    ensures IsDouble(x) <==>
      exists m: int, e: int :: -0x20_0000_0000_0000 < m < 0x20_0000_0000_0000 && x == Scaled(m, e)
  {
  }

  // ---- round half to even ----

  /** n is the integer nearest to x, and the even one of two equally near. */
  predicate Nearest(x: real, n: int) {
    && -0.5 <= x - n as real <= 0.5
    && (x - n as real == 0.5 || x - n as real == -0.5 ==> n % 2 == 0)
  }

  lemma NearestUnique(x: real, m: int, n: int)
    requires Nearest(x, m) && Nearest(x, n)
    ensures m == n
  {
    assert -1.0 <= m as real - n as real <= 1.0;
  }

  lemma TruncBounds(x: real)
    ensures x >= 0.0 ==> 0.0 <= x - Trunc(x) as real < 1.0
    ensures x <= 0.0 ==> -1.0 < x - Trunc(x) as real <= 0.0
  {
  }

  /** Far out there is nothing to round. */
  lemma RintOfLarge(x: real)
    requires IsDouble(x) && (x > MAX_EXACT_INTEGER as real || x < -(MAX_EXACT_INTEGER as real))
    ensures Rint(x) == x && Nearest(x, RintInt(x))
  {
    LargeDoublesAreEven(x);
    var k: int :| x == (2 * k) as real;
    TruncOfInteger(2 * k);
  }

  lemma TruncOfInteger(n: int)
    ensures Trunc(n as real) == n
  {
  }

  lemma TruncBelow(x: real)
    requires -(0x20_0000_0000_0000 as real) < x < 0x20_0000_0000_0000 as real
    ensures -MAX_EXACT_INTEGER <= Trunc(x) <= MAX_EXACT_INTEGER
  {
    TruncBounds(x);
  }

  lemma RintBelow(x: real)
    requires -(0x20_0000_0000_0000 as real) < x < 0x20_0000_0000_0000 as real
    ensures Nearest(x, RintInt(x)) && -MAX_EXACT_INTEGER - 1 <= RintInt(x) <= MAX_EXACT_INTEGER + 1
  {
    TruncBounds(x);
    TruncBelow(x);
  }

  /** The integer behind the result. */
  function RintInt(x: real): (n: int)
    ensures Rint(x) == n as real
  {
    var i := Trunc(x);
    if Rint(x) == i as real then i else if x > 0.0 then i + 1 else i - 1
  }

  /** On every double rint is the nearest integer with ties to even, and nothing else is. */
  lemma RintIsNearest(x: real, n: int)
    requires IsDouble(x)
    ensures Rint(x) == n as real <==> Nearest(x, n)
  {
    if x > MAX_EXACT_INTEGER as real || x < -(MAX_EXACT_INTEGER as real) { RintOfLarge(x); } else { RintBelow(x); }
    if Nearest(x, n) { NearestUnique(x, n, RintInt(x)); }
  }

  lemma RintIsOdd(x: real)
    ensures Rint(-x) == -Rint(x)
  {
  }

  lemma NearestMonotone(x: real, y: real, m: int, n: int)
    requires x <= y && Nearest(x, m) && Nearest(y, n)
    ensures m <= n
  {
    if m > n {
      assert m as real >= n as real + 1.0;
      assert x == y;
      NearestUnique(x, m, n);
    }
  }

  lemma RintIsMonotone(x: real, y: real)
    requires IsDouble(x) && IsDouble(y) && x <= y
    ensures Rint(x) <= Rint(y)
  {
    var m, n := RintInt(x), RintInt(y);
    RintIsNearest(x, m);
    RintIsNearest(y, n);
    NearestMonotone(x, y, m, n);
  }

  /** The result is a double again: the addition of 1.0 is exact. */
  lemma RintIsDouble(x: real)
    requires IsDouble(x)
    ensures IsDouble(Rint(x)) && Rint(Rint(x)) == Rint(x)
  {
    if x > MAX_EXACT_INTEGER as real || x < -(MAX_EXACT_INTEGER as real) {
      RintOfLarge(x);
    } else {
      RintBelow(x);
      IntegersAreDoubles(RintInt(x));
      TruncOfInteger(RintInt(x));
    }
  }

  lemma IntegersAreDoubles(n: int)
    requires -MAX_EXACT_INTEGER - 1 <= n <= MAX_EXACT_INTEGER + 1
    ensures IsDouble(n as real)
  {
    if n == MAX_EXACT_INTEGER + 1 || n == -MAX_EXACT_INTEGER - 1 {
      assert n as real == Scaled(n / 2, 1);
    } else {
      assert n as real == Scaled(n, 0);
    }
  }

  /** Without the bound to doubles the tie rule fails: here is a real tie the guard lets pass. */
  lemma BeyondDoubles()
    ensures var n := MAX_EXACT_INTEGER + 2; Rint(n as real + 0.5) == n as real && !Nearest(n as real + 0.5, n)
  {
  }

  lemma RintOfInteger(n: int)
    ensures Rint(n as real) == n as real && Nearest(n as real, n)
  {
    TruncOfInteger(n);
  }

  /** The rule over all reals below 2^53, doubles or not, and over all integers. */
  lemma RintOnReals(x: real, n: int)
    requires -(0x20_0000_0000_0000 as real) < x < 0x20_0000_0000_0000 as real || x == x.Floor as real
    ensures Rint(x) == n as real <==> Nearest(x, n)
  {
    if x == x.Floor as real { RintOfInteger(x.Floor); } else { RintBelow(x); }
    if Nearest(x, n) { NearestUnique(x, n, RintInt(x)); }
  }

  lemma HalfIsDouble(n: int)
    requires -0x20_0000_0000_0000 < n < 0x20_0000_0000_0000
    ensures IsDouble(n as real / 2.0)
  {
    assert Pow2(1) == 2;
    assert n as real / 2.0 == Scaled(n, -1);
  }

  lemma EvenNeighbour(h: int)
    ensures Nearest(h as real + 0.5, if h % 2 == 0 then h else h + 1)
  {
  }

  /** Every tie that is a double, n / 2 for an odd n below 2^53, goes to its even neighbour. */
  lemma TiesGoToEven(n: int, h: int)
    requires n == 2 * h + 1 && -0x20_0000_0000_0000 < n < 0x20_0000_0000_0000
    ensures IsDouble(n as real / 2.0)
    ensures Rint(n as real / 2.0) == (if h % 2 == 0 then h else h + 1) as real
  {
    HalfIsDouble(n);
    EvenNeighbour(h);
    assert n as real / 2.0 == h as real + 0.5;
    RintIsNearest(n as real / 2.0, if h % 2 == 0 then h else h + 1);
  }
}
