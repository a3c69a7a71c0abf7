/** MY_ALIGN of my_global.h on words of any number of bits. */
module Alignment {
  import opened Bits

  /** w is the width of the type the macro is used at. */
  function MyAlign(w: nat, a: nat, l: nat): nat
    requires 1 <= l <= Pow2(w)
  {
    And((a + l - 1) % Pow2(w), Not(w, l - 1))
  }

  /** r is the least multiple of l that is at least a. */
  predicate RoundsUp(a: nat, l: nat, r: nat)
    requires l > 0
  {
    r % l == 0 && a <= r < a + l
  }

  lemma RoundsUpIsLeast(a: nat, l: nat, r: nat, other: nat)
    requires l > 0 && RoundsUp(a, l, r) && other % l == 0 && other >= a
    ensures other >= r
  {
    if other < r {
      var d := r / l - other / l;
      assert r - other == d * l;
      if d >= 1 { MulAtLeast(d, l); } else if d < 0 { MulAtLeast(-d, l); }
    }
  }

  lemma RoundDown(s: nat, l: nat)
    requires l > 0
    ensures 0 <= s % l < l && s - s % l >= 0 && (s - s % l) % l == 0
  {
    DivModDefinition(s, l);
    DivModUnique(s - s % l, l, s / l, 0);
  }

  /** For a power of two the mask rounds the wrapped sum down. */
  lemma MaskRoundsDown(w: nat, a: nat, k: nat)
    requires k < w
    ensures Pow2(k) <= Pow2(w)
    ensures var s := (a + Pow2(k) - 1) % Pow2(w); MyAlign(w, a, Pow2(k)) == s - s % Pow2(k)
  {
    Pow2Monotone(k, w);
    AndHighMask(w, (a + Pow2(k) - 1) % Pow2(w), k);
  }

  lemma Wrapped(sum: nat, m: nat)
    requires m > 0 && sum < 2 * m
    ensures sum % m == if sum < m then sum else sum - m
  {
    if sum < m { DivModUnique(sum, m, 0, sum); } else { DivModUnique(sum, m, 1, sum - m); }
  }

  /** For a power of two the macro rounds up exactly when the sum does not wrap. */
  lemma AlignsExactlyWhen(w: nat, a: nat, k: nat)
    requires k < w && a < Pow2(w)
    ensures Pow2(k) <= Pow2(w)
    ensures RoundsUp(a, Pow2(k), MyAlign(w, a, Pow2(k))) <==> a + Pow2(k) - 1 < Pow2(w)
  {
    MaskRoundsDown(w, a, k);
    RoundedSum(a, Pow2(k), Pow2(w), MyAlign(w, a, Pow2(k)));
  }

  lemma RoundedSum(a: nat, l: nat, m: nat, r: nat)
    requires 1 <= l <= m && a < m && var s := (a + l - 1) % m; r == s - s % l
    ensures RoundsUp(a, l, r) <==> a + l - 1 < m
  {
    Wrapped(a + l - 1, m);
    RoundDown((a + l - 1) % m, l);
  }

  /** When it wraps: the largest word, aligned to any power of two but 1, becomes 0. */
  lemma AlignWraps(w: nat, k: nat)
    requires 0 < k < w
    ensures Pow2(k) <= Pow2(w)
    ensures MyAlign(w, Pow2(w) - 1, Pow2(k)) == 0 && !RoundsUp(Pow2(w) - 1, Pow2(k), 0)
  {
    MaskRoundsDown(w, Pow2(w) - 1, k);
    var l := Pow2(k);
    assert l >= 2;
    Pow2Monotone(k, w);
    DivModUnique(Pow2(w) - 1 + l - 1, Pow2(w), 1, l - 2);
    DivModUnique(l - 2, l, 0, l - 2);
  }

  /** The largest power of two that divides l. */
  function LowBit(l: nat): nat
    requires l > 0
  {
    if l % 2 == 1 then 1 else 2 * LowBit(l / 2)
  }

  lemma {:induction false} MaskedWithItself(w: nat, x: nat)
    requires x < Pow2(w)
    ensures And(x, Not(w, x)) == 0
  {
    if w > 0 && x != 0 { MaskedWithItself(w - 1, x / 2); }
  }

  lemma {:induction false} MaskedIsLowBit(w: nat, l: nat)
    requires 0 < l < Pow2(w)
    ensures And(l, Not(w, l - 1)) == LowBit(l)
  {
    if l % 2 == 1 {
      assert Not(w, l - 1) / 2 == Not(w - 1, l / 2);
      MaskedWithItself(w - 1, l / 2);
    } else {
      assert Not(w, l - 1) / 2 == Not(w - 1, l / 2 - 1) && Not(w, l - 1) % 2 == 0;
      MaskedIsLowBit(w - 1, l / 2);
    }
  }

  lemma {:induction false} LowBitIsPow2(l: nat)
    requires l > 0
    ensures exists k: nat :: LowBit(l) == Pow2(k)
  {
    if l % 2 == 0 {
      LowBitIsPow2(l / 2);
      var k: nat :| LowBit(l / 2) == Pow2(k);
      assert LowBit(l) == Pow2(k + 1);
    } else {
      assert LowBit(l) == Pow2(0);
    }
  }

  /** Powers of two are the only alignments for which the macro works. */
  lemma OnlyPowersOfTwo(w: nat, l: nat)
    requires 1 <= l < Pow2(w)
    ensures (forall a: nat :: a + l - 1 < Pow2(w) ==> RoundsUp(a, l, MyAlign(w, a, l)))
        <==> exists k: nat :: l == Pow2(k)
  {
    if k: nat :| l == Pow2(k) {
      SmallExponent(w, k);
      forall a: nat | a + l - 1 < Pow2(w) ensures RoundsUp(a, l, MyAlign(w, a, l)) { AlignsExactlyWhen(w, a, k); }
    } else {
      LowBitIsPow2(l);
      AlignOne(w, l);
      LowBitAtMost(l);
      assert LowBit(l) < l;
      DivModUnique(LowBit(l), l, 0, LowBit(l));
      assert !RoundsUp(1, l, MyAlign(w, 1, l));
      assert 1 + l - 1 < Pow2(w);
    }
  }

  lemma SmallExponent(w: nat, k: nat)
    requires Pow2(k) < Pow2(w)
    ensures k < w
  {
    Pow2AtLeast(w, k);
  }

  lemma Pow2AtLeast(w: nat, k: nat)
    ensures k >= w ==> Pow2(k) >= Pow2(w)
  {
    if k > w { Pow2Monotone(w, k); }
  }

  /** Aligning 1 lays bare the lowest set bit of the alignment. */
  lemma AlignOne(w: nat, l: nat)
    requires 1 <= l < Pow2(w)
    ensures MyAlign(w, 1, l) == LowBit(l)
  {
    Wrapped(l, Pow2(w));
    MaskedIsLowBit(w, l);
  }

  lemma {:induction false} LowBitAtMost(l: nat)
    requires l > 0
    ensures 1 <= LowBit(l) <= l
  {
    if l % 2 == 0 { LowBitAtMost(l / 2); }
  }
}
