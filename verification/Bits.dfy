/** Unsigned machine words as naturals: shifts, masks and the bitwise operators of C. */
module Bits {

  function Pow2(n: nat): (r: nat)
    ensures r >= 1
  {
    if n == 0 then 1 else 2 * Pow2(n - 1)
  }

  predicate Bit(x: nat, k: nat) {
    if k == 0 then x % 2 == 1 else Bit(x / 2, k - 1)
  }

  function And(x: nat, y: nat): nat {
    if x == 0 || y == 0 then 0
    else 2 * And(x / 2, y / 2) + (if x % 2 == 1 && y % 2 == 1 then 1 else 0)
  }

  function Or(x: nat, y: nat): nat {
    if x == 0 then y else if y == 0 then x
    else 2 * Or(x / 2, y / 2) + (if x % 2 == 1 || y % 2 == 1 then 1 else 0)
  }

  /** ~x for a word of w bits. */
  function Not(w: nat, x: nat): nat
    requires x < Pow2(w)
  {
    Pow2(w) - 1 - x
  }

  /** x << k, before any truncation. */
  function Shl(x: nat, k: nat): nat {
    if k == 0 then x else 2 * Shl(x, k - 1)
  }

  lemma {:induction false} ShlIsProduct(x: nat, k: nat)
    ensures Shl(x, k) == x * Pow2(k)
  {
    if k > 0 { ShlIsProduct(x, k - 1); }
  }

  // ---- the operators bit by bit ----

  lemma {:induction false} BitZero(k: nat)
    ensures !Bit(0, k)
  {
    if k > 0 { BitZero(k - 1); }
  }

  lemma {:induction false} BitAnd(x: nat, y: nat, k: nat)
    ensures Bit(And(x, y), k) <==> Bit(x, k) && Bit(y, k)
  {
    BitZero(k);
    if x != 0 && y != 0 && k > 0 {
      assert And(x, y) / 2 == And(x / 2, y / 2);
      BitAnd(x / 2, y / 2, k - 1);
    }
  }

  lemma {:induction false} BitOr(x: nat, y: nat, k: nat)
    ensures Bit(Or(x, y), k) <==> Bit(x, k) || Bit(y, k)
  {
    BitZero(k);
    if x != 0 && y != 0 && k > 0 {
      assert Or(x, y) / 2 == Or(x / 2, y / 2);
      BitOr(x / 2, y / 2, k - 1);
    }
  }

  lemma {:induction false} BitNot(w: nat, x: nat, k: nat)
    requires x < Pow2(w) && k < w
    ensures Bit(Not(w, x), k) <==> !Bit(x, k)
  {
    if k > 0 {
      assert Not(w, x) / 2 == Not(w - 1, x / 2);
      BitNot(w - 1, x / 2, k - 1);
    }
  }

  lemma {:induction false} BitPow2(j: nat, k: nat)
    ensures Bit(Pow2(j), k) <==> j == k
  {
    if j == 0 {
      if k > 0 { BitZero(k - 1); }
    } else if k > 0 {
      BitPow2(j - 1, k - 1);
    }
  }

  lemma {:induction false} Pow2Monotone(j: nat, k: nat)
    requires j < k
    ensures Pow2(j) < Pow2(k)
  {
    if j + 1 < k { Pow2Monotone(j, k - 1); }
  }

  lemma {:induction false} Pow2Adds(j: nat, k: nat)
    ensures Pow2(j + k) == Pow2(j) * Pow2(k)
  {
    if j > 0 { Pow2Adds(j - 1, k); }
  }

  lemma Pow8()
    ensures Pow2(7) == 0x80 && Pow2(8) == 0x100
  {
  }

  lemma Pow16()
    ensures Pow2(15) == 0x8000 && Pow2(16) == 0x1_0000
  {
    Pow8();
    Pow2Adds(7, 8);
    Pow2Adds(8, 8);
  }

  lemma Pow24()
    ensures Pow2(23) == 0x80_0000 && Pow2(24) == 0x100_0000
  {
    Pow8();
    Pow16();
    Pow2Adds(15, 8);
    Pow2Adds(16, 8);
  }

  lemma Pow32()
    ensures Pow2(31) == 0x8000_0000 && Pow2(32) == 0x1_0000_0000
  {
    Pow16();
    Pow2Adds(15, 16);
    Pow2Adds(16, 16);
  }

  lemma Pow64()
    ensures Pow2(63) == 0x8000_0000_0000_0000 && Pow2(64) == 0x1_0000_0000_0000_0000
  {
    Pow32();
    Pow2Adds(31, 32);
    Pow2Adds(32, 32);
  }

  lemma {:induction false} WordBound(x: nat, y: nat, w: nat)
    requires x < Pow2(w) && y < Pow2(w)
    ensures And(x, y) < Pow2(w) && Or(x, y) < Pow2(w)
  {
    if w > 0 { WordBound(x / 2, y / 2, w - 1); }
  }

  /** The test word & mask != 0 of a one-bit mask. */
  lemma {:induction false} AndOneBit(x: nat, k: nat)
    ensures And(x, Pow2(k)) == if Bit(x, k) then Pow2(k) else 0
  {
    BitZero(k);
    if x != 0 {
      if k == 0 {
        assert And(x / 2, 0) == 0;
      } else {
        AndOneBit(x / 2, k - 1);
      }
    }
  }

  // ---- the operators as arithmetic ----

  lemma DivHalf(x: nat, n: nat)
    requires n > 0
    ensures x / (2 * n) == (x / 2) / n && x % (2 * n) == 2 * ((x / 2) % n) + x % 2
  {
    var h := x / 2;
    var q, r := h / n, h % n;
    assert h == q * n + r;
    assert x == 2 * h + x % 2;
    assert x == q * (2 * n) + (2 * r + x % 2) by {
      assert 2 * (q * n) == q * (2 * n);
    }
    DivModUnique(x, 2 * n, q, 2 * r + x % 2);
  }

  lemma DivModUnique(x: int, n: nat, q: int, r: int)
    requires n > 0 && 0 <= r < n && x == q * n + r
    ensures x / n == q && x % n == r
  {
    var d := q - x / n;
    DivModDefinition(x, n);
    assert d * n == q * n - x / n * n;
    if d > 0 { MulAtLeast(d, n); } else if d < 0 { MulAtLeast(-d, n); }
  }

  lemma DivModDefinition(x: int, n: nat)
    requires n > 0
    ensures x == x / n * n + x % n && 0 <= x % n < n
  {
  }

  lemma {:induction false} MulAtLeast(d: int, n: nat)
    requires d >= 1
    ensures d * n >= n
  {
    if d > 1 {
      MulAtLeast(d - 1, n);
      assert d * n == (d - 1) * n + n;
    }
  }

  lemma AndHalves(x: nat, y: nat)
    ensures And(x, y) == 2 * And(x / 2, y / 2) + (if x % 2 == 1 && y % 2 == 1 then 1 else 0)
  {
  }

  /** Masking with 2^k - 1 keeps the remainder. */
  lemma {:induction false} AndLowMask(x: nat, k: nat)
    ensures And(x, Pow2(k) - 1) == x % Pow2(k)
  {
    if k > 0 {
      var half := Pow2(k - 1);
      AndLowMask(x / 2, k - 1);
      DivHalf(x, half);
      AndHalves(x, 2 * half - 1);
      assert (2 * half - 1) / 2 == half - 1 && (2 * half - 1) % 2 == 1;
    }
  }

  lemma HalfRoundedDown(x: nat, n: nat)
    requires n > 0
    ensures x - x % (2 * n) == 2 * (x / 2 - x / 2 % n)
  {
    DivHalf(x, n);
  }

  /** A mask of zeros below ones, halved. */
  lemma HighMaskHalves(w: nat, x: nat, k: nat)
    requires 0 < k <= w && Pow2(k - 1) - 1 < Pow2(w - 1) && Pow2(k) - 1 < Pow2(w)
    ensures And(x, Not(w, Pow2(k) - 1)) == 2 * And(x / 2, Not(w - 1, Pow2(k - 1) - 1))
  {
    var mask := Not(w, Pow2(k) - 1);
    AndHalves(x, mask);
    assert mask == 2 * Not(w - 1, Pow2(k - 1) - 1);
  }

  lemma MaskFits(w: nat, k: nat)
    requires k <= w
    ensures 1 <= Pow2(k) <= Pow2(w)
  {
    if k < w { Pow2Monotone(k, w); }
  }

  lemma EmptyHighMask(w: nat, x: nat)
    requires x < Pow2(w)
    ensures And(x, Not(w, 0)) == x
  {
    AndAllOnes(w, x);
  }

  /** From half the word to the word. */
  lemma HighMaskStep(w: nat, x: nat, k: nat)
    requires 0 < k <= w && Pow2(k - 1) - 1 < Pow2(w - 1) && Pow2(k) - 1 < Pow2(w)
    requires And(x / 2, Not(w - 1, Pow2(k - 1) - 1)) == x / 2 - x / 2 % Pow2(k - 1)
    ensures And(x, Not(w, Pow2(k) - 1)) == x - x % Pow2(k)
  {
    HighMaskHalves(w, x, k);
    HalfRoundedDown(x, Pow2(k - 1));
    assert Pow2(k) == 2 * Pow2(k - 1);
  }

  /** Masking with ~(2^k - 1) rounds down. */
  lemma {:induction false} AndHighMask(w: nat, x: nat, k: nat)
    requires x < Pow2(w) && k <= w
    ensures Pow2(k) - 1 < Pow2(w)
    ensures And(x, Not(w, Pow2(k) - 1)) == x - x % Pow2(k)
  {
    MaskFits(w, k);
    if k == 0 {
      EmptyHighMask(w, x);
    } else {
      AndHighMask(w - 1, x / 2, k - 1);
      HighMaskStep(w, x, k);
    }
  }

  lemma {:induction false} AndAllOnes(w: nat, x: nat)
    requires x < Pow2(w)
    ensures And(x, Pow2(w) - 1) == x
  {
    AndLowMask(x, w);
    DivModUnique(x, Pow2(w), 0, x);
  }

  /** Joining disjoint fields is adding them. */
  lemma {:induction false} OrDisjoint(hi: nat, lo: nat, k: nat)
    requires lo < Pow2(k)
    ensures Or(Shl(hi, k), lo) == Shl(hi, k) + lo
    ensures Or(lo, Shl(hi, k)) == Shl(hi, k) + lo
  {
    if k > 0 {
      OrDisjoint(hi, lo / 2, k - 1);
    }
  }
}
