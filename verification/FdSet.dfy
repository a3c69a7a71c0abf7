/** fd_set: 1024 descriptors as bits of an array of words. */
module FdSet {
  import opened Bits

  const SETSIZE := 1024
  const NFDBITS := 64

  /** One more than the largest word. */
  const WORDS := 0x1_0000_0000_0000_0000

  function Elt(d: nat): nat { d / NFDBITS }

  /** 1UL << (d % NFDBITS); the signed type of the words only renames the same patterns. */
  function Mask(d: nat): nat { Shl(1, d % NFDBITS) }

  class BitSet {
    const words: array<nat>

    ghost predicate Valid()
      reads this, words
    {
      words.Length == SETSIZE / NFDBITS && forall i :: 0 <= i < words.Length ==> words[i] < WORDS
    }

    /** The set of descriptors the bitmap stands for. */
    ghost function Members(): set<int>
      reads this, words
      requires Valid()
    {
      set d: int | 0 <= d < SETSIZE && Bit(words[Elt(d)], d % NFDBITS)
    }

    /** The layout select(2) is handed: descriptor d is bit d mod 64 of word d / 64. */
    lemma Layout()
      requires Valid()
      ensures words.Length == 16
      ensures forall i, k :: 0 <= i < 16 && 0 <= k < 64 ==> (Bit(words[i], k) <==> 64 * i + k in Members())
      ensures forall d :: d in Members() ==> 0 <= d < 1024
    {
      forall i, k | 0 <= i < 16 && 0 <= k < 64 ensures Bit(words[i], k) <==> 64 * i + k in Members() {
        WordOf(i, k);
      }
    }

    constructor ()
      ensures Valid() && fresh(words)
    {
      words := new nat[SETSIZE / NFDBITS](_ => 0);
    }

    method Zero()
      requires Valid()
      modifies words
      ensures Valid() && Members() == {}
    {
      var i := 0;
      while i < words.Length
        invariant i <= words.Length
        invariant forall j :: 0 <= j < i ==> words[j] == 0
        invariant forall j :: i <= j < words.Length ==> words[j] < WORDS
      {
        words[i] := 0;
        i := i + 1;
      }
      forall d: int | 0 <= d < SETSIZE ensures !Bit(words[Elt(d)], d % NFDBITS) { BitZero(d % NFDBITS); }
    }

    method Set(d: nat)
      requires Valid() && d < SETSIZE
      modifies words
      ensures Valid() && Members() == old(Members()) + {d}
      ensures forall i :: 0 <= i < words.Length && i != d / 64 ==> words[i] == old(words[i])
    {
      ghost var was := words[Elt(d)];
      MaskBound(d);
      WordBound(was, Mask(d), NFDBITS);
      words[Elt(d)] := Or(words[Elt(d)], Mask(d));
      forall e: int | 0 <= e < SETSIZE
        ensures Bit(words[Elt(e)], e % NFDBITS) <==> e == d || old(Bit(words[Elt(e)], e % NFDBITS))
      {
        if Elt(e) == Elt(d) {
          BitOr(was, Mask(d), e % NFDBITS);
          MaskBit(d, e);
        }
      }
    }

    method Clr(d: nat)
      requires Valid() && d < SETSIZE
      modifies words
      ensures Valid() && Members() == old(Members()) - {d}
      ensures forall i :: 0 <= i < words.Length && i != d / 64 ==> words[i] == old(words[i])
    {
      ghost var was := words[Elt(d)];
      MaskBound(d);
      WordBound(was, Not(NFDBITS, Mask(d)), NFDBITS);
      words[Elt(d)] := And(words[Elt(d)], Not(NFDBITS, Mask(d)));
      forall e: int | 0 <= e < SETSIZE
        ensures Bit(words[Elt(e)], e % NFDBITS) <==> e != d && old(Bit(words[Elt(e)], e % NFDBITS))
      {
        if Elt(e) == Elt(d) {
          BitAnd(was, Not(NFDBITS, Mask(d)), e % NFDBITS);
          BitNot(NFDBITS, Mask(d), e % NFDBITS);
          MaskBit(d, e);
        }
      }
    }

    method IsSet(d: nat) returns (b: bool)
      requires Valid() && d < SETSIZE
      ensures b <==> d in Members()
    {
      b := And(words[Elt(d)], Mask(d)) != 0;
      MaskBound(d);
      AndOneBit(words[Elt(d)], d % NFDBITS);
    }
  }

  lemma MaskBound(d: nat)
    ensures Mask(d) == Pow2(d % NFDBITS) < Pow2(NFDBITS) == WORDS
  {
    Pow64();
    ShlIsProduct(1, d % NFDBITS);
    Pow2Monotone(d % NFDBITS, NFDBITS);
  }

  lemma WordOf(i: nat, k: nat)
    requires k < 64
    ensures Elt(64 * i + k) == i && (64 * i + k) % NFDBITS == k
  {
    DivModUnique(64 * i + k, 64, i, k);
  }

  /** Within a word, a mask picks out its own descriptor and no other. */
  lemma MaskBit(d: nat, e: nat)
    requires Elt(e) == Elt(d)
    ensures Bit(Mask(d), e % NFDBITS) <==> e == d
  {
    MaskBound(d);
    BitPow2(d % NFDBITS, e % NFDBITS);
  }
}
