/** big_endian.h and my_byteorder.h: most significant byte first. */
module NetworkOrder {
  import opened Bits
  import opened Streams
  import opened LittleEndian
  import opened ByteOrderGeneric

  function Reversed(b: seq<Byte>): (r: seq<Byte>)
    ensures |r| == |b| && forall i :: 0 <= i < |b| ==> r[i] == b[|b| - 1 - i]
  {
    seq(|b|, i requires 0 <= i < |b| => b[|b| - 1 - i])
  }

  /** int4net: four shifted bytes joined by |. */
  function Int4net(b: seq<Byte>): (r: int)
    requires |b| >= 4
    ensures r == S(32, LE(Reversed(b[..4])))
  {
    LowBytes(Reversed(b[..4]));
    OrAscending(b[3], b[2], b[1], b[0]);
    S(32, Or(Or(Or(b[3], Shl(b[2], 8)), Shl(b[1], 16)), Shl(b[0], 24)))
  }

  lemma OrThree(b0: Byte, b1: Byte, b2: Byte)
    ensures Or(Or(b0, Shl(b1, 8)), Shl(b2, 16)) == Sum4(b0, b1, b2, 0) < 0x100_0000
  {
    Shift8(b1);
    Shift16(b2);
    JoinAbove(b0, b1, 8);
    JoinAbove(b0 + 0x100 * (b1 as nat), b2, 16);
  }

  lemma OrAscending(b0: Byte, b1: Byte, b2: Byte, b3: Byte)
    ensures Or(Or(Or(b0, Shl(b1, 8)), Shl(b2, 16)), Shl(b3, 24)) == Sum4(b0, b1, b2, b3)
  {
    OrThree(b0, b1, b2);
    Shift24(b3);
    JoinAbove(Sum4(b0, b1, b2, 0), b3, 24);
  }

  /** A byte joined above a number of k bits. */
  lemma JoinAbove(low: nat, b: Byte, k: nat)
    requires k == 8 || k == 16 || k == 24
    requires low < (if k == 8 then 0x100 else if k == 16 then 0x1_0000 else 0x100_0000)
    ensures Or(low, Shl(b, k)) == low + Shl(b, k)
  {
    Pow8();
    Pow16();
    Pow24();
    OrDisjoint(b, low, k);
  }

  /** t with the low n bytes of a written at p, highest first. */
  function WrittenNet(t: seq<Byte>, p: nat, n: nat, a: int): (r: seq<Byte>)
    requires p + n <= |t|
    ensures |r| == |t|
  {
    t[..p] + Reversed(ToLE(U(8 * n, a), n)) + t[p + n..]
  }

  lemma WrittenNetAt(t: seq<Byte>, p: nat, n: nat, a: int)
    requires p + n <= |t|
    ensures forall j :: 0 <= j < |t| ==>
      WrittenNet(t, p, n, a)[j] == if p <= j < p + n then UChar(Sar(a, 8 * (p + n - 1 - j))) else t[j]
    ensures Sar(a, 0) == a
  {
    StoredBytes(a, n);
    forall j | p <= j < p + n ensures WrittenNet(t, p, n, a)[j] == UChar(Sar(a, 8 * (p + n - 1 - j))) {
      assert WrittenNet(t, p, n, a)[j] == ToLE(U(8 * n, a), n)[p + n - 1 - j];
    }
  }

  method Longstore(t: array<Byte>, p: nat, a: int)
    requires p + 4 <= t.Length
    modifies t
    ensures t[..] == WrittenNet(old(t[..]), p, 4, a)
  {
    t[p + 3] := UChar(a);
    t[p + 2] := UChar(Sar(a, 8));
    t[p + 1] := UChar(Sar(a, 16));
    t[p + 0] := UChar(Sar(a, 24));
    WrittenNetAt(old(t[..]), p, 4, a);
    assert t[..] == WrittenNet(old(t[..]), p, 4, a);
  }

  method Shortstore(t: array<Byte>, p: nat, a: int)
    requires p + 2 <= t.Length
    modifies t
    ensures t[..] == WrittenNet(old(t[..]), p, 2, a)
  {
    var temp := U32(a);
    t[p + 1] := UChar(temp);
    t[p + 0] := UChar(Sar(temp, 8));
    WrittenNetAt(old(t[..]), p, 2, temp);
    Residue16(a);
    assert t[..] == WrittenNet(old(t[..]), p, 2, temp);
  }

  function Ushortget(b: seq<Byte>): (r: nat)
    requires |b| >= 2
    ensures r == LE(Reversed(b[..2]))
  {
    LowBytes(Reversed(b[..2]));
    Wraps2(b[1], b[0]);
    U16(b[1] + U16(Shl(b[0], 8)))
  }

  lemma TwiceReversed(b: seq<Byte>)
    ensures Reversed(Reversed(b)) == b
  {
  }

  /** int4net reads back what longstore wrote: the same 32-bit pattern, the same number exactly when
      it is a 32-bit signed one. */
  lemma NetRoundTrip(t: seq<Byte>, p: nat, a: int)
    requires p + 4 <= |t|
    ensures Int4net(WrittenNet(t, p, 4, a)[p..]) == S(32, U(32, a))
    ensures Int4net(WrittenNet(t, p, 4, a)[p..]) == a <==> -0x8000_0000 <= a < 0x8000_0000
  {
    var b := ToLE(U(32, a), 4);
    assert WrittenNet(t, p, 4, a)[p..][..4] == Reversed(b);
    TwiceReversed(b);
    LoadOfStore(U(32, a), 4);
    DivModUnique(U(32, a), Pow2(32), 0, U(32, a));
    SignedRoundTrip(32, a);
    Pow32();
  }

  /** On the reversed bytes int4net is the little-endian load. */
  lemma NetIsReversedLoad(b: seq<Byte>)
    requires |b| >= 4
    ensures Int4net(b) == S(32, Uint4korr(Reversed(b[..4])))
  {
    assert Reversed(b[..4])[..4] == Reversed(b[..4]);
  }

  lemma ShortRoundTrip(t: seq<Byte>, p: nat, a: int)
    requires p + 2 <= |t|
    ensures Ushortget(WrittenNet(t, p, 2, a)[p..]) == U(16, a)
  {
    var b := ToLE(U(16, a), 2);
    assert WrittenNet(t, p, 2, a)[p..][..2] == Reversed(b);
    TwiceReversed(b);
    LoadOfStore(U(16, a), 2);
    DivModUnique(U(16, a), Pow2(16), 0, U(16, a));
  }
}
