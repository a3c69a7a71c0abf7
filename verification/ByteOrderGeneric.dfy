/** byte_order_generic.h: loads and stores one byte at a time. */
module ByteOrderGeneric {
  import opened Bits
  import opened Streams
  import opened LittleEndian

  // ---- loads ----

  function Uint2korr(b: seq<Byte>): (r: nat)
    requires |b| >= 2
    ensures r == LE(b[..2])
  {
    Shift8(b[1]);
    LowBytes(b[..2]);
    Wraps2(b[0], b[1]);
    U16(b[0] + U16(Shl(b[1], 8)))
  }

  function Uint3korr(b: seq<Byte>): (r: nat)
    requires |b| >= 3
    ensures r == LE(b[..3])
  {
    LowBytes(b[..3]);
    Wraps4(b[0], b[1], b[2], 0, Shl(b[1], 8), Shl(b[2], 16), Shl(0, 24));
    U32(U32(b[0] + U32(Shl(b[1], 8))) + U32(Shl(b[2], 16)))
  }

  /** The 32-bit sum all the wider loads start from. */
  function Uint4korr(b: seq<Byte>): (r: nat)
    requires |b| >= 4
    ensures r == LE(b[..4]) < 0x1_0000_0000
  {
    LowBytes(b[..4]);
    Wraps4(b[0], b[1], b[2], b[3], Shl(b[1], 8), Shl(b[2], 16), Shl(b[3], 24));
    U32(U32(U32(b[0] + U32(Shl(b[1], 8))) + U32(Shl(b[2], 16))) + U32(Shl(b[3], 24)))
  }

  function Uint5korr(b: seq<Byte>): (r: nat)
    requires |b| >= 5
    ensures r == LE(b[..5])
  {
    HighBytes(b, 5);
    Wraps8(Uint4korr(b), b[4], 0);
    U64(Uint4korr(b) + U64(Shl(b[4], 32)))
  }

  function Uint6korr(b: seq<Byte>): (r: nat)
    requires |b| >= 6
    ensures r == LE(b[..6])
  {
    HighBytes(b, 6);
    Wraps8(Uint4korr(b), b[4], b[5]);
    U64(U64(Uint4korr(b) + U64(Shl(b[4], 32))) + U64(Shl(b[5], 40)))
  }

  /** Two 32-bit halves, the high one shifted up. */
  function Uint8korr(b: seq<Byte>): (r: nat)
    requires |b| >= 8
    ensures r == LE(b[..8])
  {
    HighBytes(b, 8);
    Wraps8(Uint4korr(b), Uint4korr(b[4..8]), 0);
    U64(Uint4korr(b) + U64(Shl(Uint4korr(b[4..8]), 32)))
  }

  lemma LowBytes(b: seq<Byte>)
    requires 2 <= |b| <= 4
    ensures |b| == 2 ==> LE(b) == Sum4(b[0], b[1], 0, 0)
    ensures |b| == 3 ==> LE(b) == Sum4(b[0], b[1], b[2], 0)
    ensures |b| == 4 ==> LE(b) == Sum4(b[0], b[1], b[2], b[3])
  {
    assert LE(b[1..]) == b[1] + 256 * LE(b[2..]) by { assert b[1..][1..] == b[2..]; }
    if |b| >= 3 { assert LE(b[2..]) == b[2] + 256 * LE(b[3..]) by { assert b[2..][1..] == b[3..]; } }
    if |b| == 4 { assert LE(b[3..]) == b[3] + 256 * LE(b[4..]) by { assert b[3..][1..] == b[4..]; } }
  }

  /** No partial sum leaves its type. */
  lemma Wraps2(b0: Byte, b1: Byte)
    ensures U16(b0 + U16(Shl(b1, 8))) == Sum4(b0, b1, 0, 0)
    ensures U16(b0 + Shl(b1, 8)) == Sum4(b0, b1, 0, 0)
  {
    Shift8(b1);
  }

  lemma Wraps4(b0: Byte, b1: Byte, b2: Byte, b3: Byte, s1: nat, s2: nat, s3: nat)
    requires s1 == Shl(b1, 8) && s2 == Shl(b2, 16) && s3 == Shl(b3, 24)
    ensures U32(U32(U32(b0 + U32(s1)) + U32(s2)) + U32(s3)) == Sum4(b0, b1, b2, b3) < 0x1_0000_0000
    ensures U32(U32(b0 + U32(s1)) + U32(s2)) == Sum4(b0, b1, b2, 0)
    ensures U32(b0 + s1 + s2 + s3) == Sum4(b0, b1, b2, b3)
  {
    ShiftedSum(b0, b1, b2, b3);
    WrapsChain(b0, s1, s2, s3);
  }

  lemma ShiftedSum(b0: Byte, b1: Byte, b2: Byte, b3: Byte)
    ensures b0 + Shl(b1, 8) + Shl(b2, 16) + Shl(b3, 24) == Sum4(b0, b1, b2, b3) < 0x1_0000_0000
    ensures b0 + Shl(b1, 8) + Shl(b2, 16) == Sum4(b0, b1, b2, 0)
  {
    Shift8(b1);
    Shift16(b2);
    Shift24(b3);
  }

  lemma WrapsChain(x0: nat, x1: nat, x2: nat, x3: nat)
    requires x0 + x1 + x2 + x3 < 0x1_0000_0000
    ensures U32(U32(U32(x0 + U32(x1)) + U32(x2)) + U32(x3)) == x0 + x1 + x2 + x3
    ensures U32(U32(x0 + U32(x1)) + U32(x2)) == x0 + x1 + x2
    ensures U32(x0 + x1 + x2 + x3) == x0 + x1 + x2 + x3
  {
    AddWraps(x0, x1);
    AddWraps(x0 + x1, x2);
    AddWraps(x0 + x1 + x2, x3);
    Fits32(x0 + x1 + x2 + x3);
  }

  lemma AddWraps(sum: nat, x: nat)
    requires sum + x < 0x1_0000_0000
    ensures U32(sum + U32(x)) == sum + x
  {
    Fits32(x);
    Fits32(sum + x);
  }

  lemma Wraps8(lo: nat, hi: nat, top: Byte)
    requires lo < 0x1_0000_0000 && hi < 0x1_0000_0000 && (hi < 0x100 || top == 0)
    ensures U64(lo + U64(Shl(hi, 32))) == lo + 0x1_0000_0000 * hi
    ensures U64(U64(lo + U64(Shl(hi, 32))) + U64(Shl(top, 40))) == lo + 0x1_0000_0000 * (hi + 256 * (top as int))
  {
    Shift32(hi);
    Shift40(top);
    var x, y := Shl(hi, 32), Shl(top, 40);
    Fits64(x);
    Fits64(y);
    Fits64(lo + x);
    Fits64(lo + x + y);
  }

  function Sum4(b0: nat, b1: nat, b2: nat, b3: nat): nat {
    b0 + 0x100 * b1 + 0x1_0000 * b2 + 0x100_0000 * b3
  }

  lemma HighBytes(b: seq<Byte>, n: nat)
    requires 5 <= n <= 8 && n <= |b|
    ensures LE(b[..n]) == LE(b[..4]) + 0x1_0000_0000 * LE(b[4..n])
    ensures n == 5 ==> LE(b[4..n]) == b[4]
    ensures n == 6 ==> LE(b[4..n]) == b[4] + 256 * (b[5] as int)
    ensures n == 8 ==> b[4..n][..4] == b[4..n]
  {
    LESplit(b[..n], 4);
    Shift32(LE(b[4..n]));
    assert b[..n][..4] == b[..4] && b[..n][4..] == b[4..n];
    assert b[4..n][1..] == b[5..n];
    if n == 6 { assert LE(b[5..n]) == b[5] + 256 * LE(b[5..n][1..]) && b[5..n][1..] == []; }
  }

  function Sint2korr(b: seq<Byte>): (r: int)
    requires |b| >= 2
    ensures r == S(16, LE(b[..2]))
  {
    LowBytes(b[..2]);
    Wraps2(b[0], b[1]);
    S(16, U16(b[0] + Shl(b[1], 8)))
  }

  /** The sign bit of the third byte decides whether the fourth is filled with ones. */
  function Sint3korr(b: seq<Byte>): (r: int)
    requires |b| >= 3
    ensures r == S(24, LE(b[..3]))
  {
    SignBit(b[2]);
    OrFields(b[2], b[1], b[0]);
    OrFields4(255, b[2], b[1], b[0]);
    LowBytes(b[..3]);
    SignExtend(b[0], b[1], b[2]);
    S(32, if And(b[2], 128) != 0
          then Or(Or(Or(Shl(255, 24), Shl(b[2], 16)), Shl(b[1], 8)), b[0])
          else Or(Or(Shl(b[2], 16), Shl(b[1], 8)), b[0]))
  }

  lemma SignExtend(b0: Byte, b1: Byte, b2: Byte)
    ensures S(32, Sum4(b0, b1, b2, if b2 >= 128 then 255 else 0)) == S(24, Sum4(b0, b1, b2, 0))
  {
    Pow24();
    Pow32();
  }

  function Sint4korr(b: seq<Byte>): (r: int)
    requires |b| >= 4
    ensures r == S(32, LE(b[..4]))
  {
    LowBytes(b[..4]);
    Wraps4(b[0], b[1], b[2], b[3], Shl(b[1], 8), Shl(b[2], 16), Shl(b[3], 24));
    S(32, U32(b[0] + Shl(b[1], 8) + Shl(b[2], 16) + Shl(b[3], 24)))
  }

  function Sint8korr(b: seq<Byte>): (r: int)
    requires |b| >= 8
    ensures r == S(64, LE(b[..8]))
  {
    S(64, Uint8korr(b))
  }

  lemma SignBit(x: Byte)
    ensures And(x, 128) != 0 <==> x >= 128
  {
    assert Pow2(7) == 128;
    AndOneBit(x, 7);
    TopBit(x, 7);
  }

  lemma {:induction false} TopBit(x: nat, k: nat)
    requires x < 2 * Pow2(k)
    ensures Bit(x, k) <==> x >= Pow2(k)
  {
    if k > 0 { TopBit(x / 2, k - 1); }
  }

  lemma OrFields(b2: Byte, b1: Byte, b0: Byte)
    ensures Or(Or(Shl(b2, 16), Shl(b1, 8)), b0) == Sum4(b0, b1, b2, 0)
  {
    OrFields4(0, b2, b1, b0);
    Shift24(0);
  }

  /** Two adjacent fields joined are one wider field. */
  lemma Join16(hi: nat, lo: Byte)
    ensures Or(Shl(hi, 24), Shl(lo, 16)) == Shl(0x100 * hi + lo, 16)
  {
    Shift24(hi);
    Shift16(lo);
    Shift16(0x100 * hi + lo);
    Pow24();
    OrDisjoint(hi, Shl(lo, 16), 24);
  }

  lemma Join8(hi: nat, lo: Byte)
    ensures Or(Shl(hi, 16), Shl(lo, 8)) == Shl(0x100 * hi + lo, 8)
  {
    Shift16(hi);
    Shift8(lo);
    Shift8(0x100 * hi + lo);
    Pow16();
    OrDisjoint(hi, Shl(lo, 8), 16);
  }

  lemma Join0(hi: nat, lo: Byte)
    ensures Or(Shl(hi, 8), lo) == 0x100 * hi + lo
  {
    Shift8(hi);
    Pow8();
    OrDisjoint(hi, lo, 8);
  }

  lemma OrFields4(b3: Byte, b2: Byte, b1: Byte, b0: Byte)
    ensures Or(Or(Or(Shl(b3, 24), Shl(b2, 16)), Shl(b1, 8)), b0) == Sum4(b0, b1, b2, b3)
  {
    Join16(b3, b2);
    Join8(0x100 * b3 + b2, b1);
    Join0(0x100 * (0x100 * b3 + b2) + b1, b0);
  }

  // ---- stores ----

  function UChar(a: int): Byte { a % 256 }

  /** a >> k; on a negative value the sign is shifted in. */
  function Sar(a: int, k: nat): int { a / Pow2(k) }

  /** t with the low n bytes of a written at p. */
  function Written(t: seq<Byte>, p: nat, n: nat, a: int): (r: seq<Byte>)
    requires p + n <= |t|
    ensures |r| == |t|
  {
    t[..p] + ToLE(U(8 * n, a), n) + t[p + n..]
  }

  /** Byte by byte: the shifts are the digits, and nothing else changes. */
  lemma WrittenAt(t: seq<Byte>, p: nat, n: nat, a: int)
    requires p + n <= |t|
    ensures forall j :: 0 <= j < |t| ==>
      Written(t, p, n, a)[j] == if p <= j < p + n then UChar(Sar(a, 8 * (j - p))) else t[j]
    ensures Sar(a, 0) == a
  {
    StoredBytes(a, n);
    forall j | p <= j < p + n ensures Written(t, p, n, a)[j] == UChar(Sar(a, 8 * (j - p))) {
      assert Written(t, p, n, a)[j] == ToLE(U(8 * n, a), n)[j - p];
    }
  }

  method Int2store(t: array<Byte>, p: nat, a: int)
    requires p + 2 <= t.Length
    modifies t
    ensures t[..] == Written(old(t[..]), p, 2, a)
  {
    var temp := U32(a);
    t[p] := UChar(temp);
    t[p + 1] := UChar(Sar(temp, 8));
    WrittenAt(old(t[..]), p, 2, temp);
    Residue16(a);
    assert t[..] == Written(old(t[..]), p, 2, temp);
  }

  lemma Residue16(a: int)
    ensures U(16, U32(a)) == U(16, a)
  {
    Is16(a);
    Is16(U32(a));
    Narrows(a);
  }

  method Int3store(t: array<Byte>, p: nat, a: int)
    requires p + 3 <= t.Length
    modifies t
    ensures t[..] == Written(old(t[..]), p, 3, a)
  {
    t[p] := UChar(a);
    t[p + 1] := UChar(Sar(a, 8));
    t[p + 2] := UChar(Sar(a, 16));
    WrittenAt(old(t[..]), p, 3, a);
    assert t[..] == Written(old(t[..]), p, 3, a);
  }

  method Int4store(t: array<Byte>, p: nat, a: int)
    requires p + 4 <= t.Length
    modifies t
    ensures t[..] == Written(old(t[..]), p, 4, a)
  {
    t[p] := UChar(a);
    t[p + 1] := UChar(Sar(a, 8));
    t[p + 2] := UChar(Sar(a, 16));
    t[p + 3] := UChar(Sar(a, 24));
    WrittenAt(old(t[..]), p, 4, a);
    assert t[..] == Written(old(t[..]), p, 4, a);
  }

  method Int5store(t: array<Byte>, p: nat, a: int)
    requires p + 5 <= t.Length
    modifies t
    ensures t[..] == Written(old(t[..]), p, 5, a)
  {
    t[p] := UChar(a);
    t[p + 1] := UChar(Sar(a, 8));
    t[p + 2] := UChar(Sar(a, 16));
    t[p + 3] := UChar(Sar(a, 24));
    t[p + 4] := UChar(Sar(a, 32));
    WrittenAt(old(t[..]), p, 5, a);
    assert t[..] == Written(old(t[..]), p, 5, a);
  }

  method Int6store(t: array<Byte>, p: nat, a: int)
    requires p + 6 <= t.Length
    modifies t
    ensures t[..] == Written(old(t[..]), p, 6, a)
  {
    t[p] := UChar(a);
    t[p + 1] := UChar(Sar(a, 8));
    t[p + 2] := UChar(Sar(a, 16));
    t[p + 3] := UChar(Sar(a, 24));
    t[p + 4] := UChar(Sar(a, 32));
    t[p + 5] := UChar(Sar(a, 40));
    WrittenAt(old(t[..]), p, 6, a);
    assert t[..] == Written(old(t[..]), p, 6, a);
  }

  /** Two 32-bit halves, each stored on its own. */
  method Int8store(t: array<Byte>, p: nat, a: int)
    requires p + 8 <= t.Length
    modifies t
    ensures t[..] == Written(old(t[..]), p, 8, a)
  {
    var temp, temp2 := U32(a), U32(Sar(a, 32));
    Int4store(t, p, temp);
    Int4store(t, p + 4, temp2);
    JoinedHalves(old(t[..]), p, a);
  }

  /** Two adjacent patches are one. */
  lemma PatchTwice(t: seq<Byte>, p: nat, lo: seq<Byte>, hi: seq<Byte>)
    requires p + |lo| + |hi| <= |t|
    ensures var first := t[..p] + lo + t[p + |lo|..];
      first[..p + |lo|] + hi + first[p + |lo| + |hi|..] == t[..p] + (lo + hi) + t[p + |lo| + |hi|..]
  {
    var first := t[..p] + lo + t[p + |lo|..];
    assert first[..p + |lo|] == t[..p] + lo;
    assert first[p + |lo| + |hi|..] == t[p + |lo| + |hi|..];
  }

  lemma JoinedHalves(t: seq<Byte>, p: nat, a: int)
    requires p + 8 <= |t|
    ensures Written(Written(t, p, 4, U32(a)), p + 4, 4, U32(Sar(a, 32))) == Written(t, p, 8, a)
  {
    HalvesJoin(a);
    var lo, hi := ToLE(U(32, U32(a)), 4), ToLE(U(32, U32(Sar(a, 32))), 4);
    PatchTwice(t, p, lo, hi);
    assert Written(t, p, 4, U32(a)) == t[..p] + lo + t[p + 4..];
  }

  /** The split into halves is exact. */
  lemma HalvesJoin(a: int)
    ensures ToLE(U(64, a), 8) == ToLE(U(32, U32(a)), 4) + ToLE(U(32, U32(Sar(a, 32))), 4)
  {
    var high := Sar(a, 32);
    StoredBytes(a, 8);
    StoredBytes(a, 4);
    StoredBytes(high, 4);
    SameTwice(a);
    SameTwice(high);
    var all, lo, hi := ToLE(U(64, a), 8), ToLE(U(32, a), 4), ToLE(U(32, high), 4);
    forall i | 0 <= i < 8 ensures all[i] == (lo + hi)[i] {
      if i >= 4 { ByteOfHigh(a, i - 4); }
    }
  }

  lemma SameTwice(v: int)
    ensures U(32, U32(v)) == U(32, v)
  {
    Is32(v);
    Is32(U32(v));
    Narrows(v);
  }

  lemma ByteOfHigh(a: int, i: nat)
    ensures ByteOf(Sar(a, 32), i) == ByteOf(a, i + 4)
  {
    Pow2Adds(32, 8 * i);
    FloorTwice(a, Pow2(32), Pow2(8 * i));
  }

  // ---- round trips ----

  /** The load of width n. */
  function Korr(n: nat, b: seq<Byte>): (r: nat)
    requires n in {2, 3, 4, 5, 6, 8} && |b| >= n
    ensures r == LE(b[..n])
  {
    if n == 2 then Uint2korr(b) else if n == 3 then Uint3korr(b) else if n == 4 then Uint4korr(b)
    else if n == 5 then Uint5korr(b) else if n == 6 then Uint6korr(b) else Uint8korr(b)
  }

  /** Loading what was stored at p gives the value modulo the width, at any place in any buffer. */
  lemma LoadAfterStore(t: seq<Byte>, p: nat, n: nat, a: int)
    requires n in {2, 3, 4, 5, 6, 8} && p + n <= |t|
    ensures Korr(n, Written(t, p, n, a)[p..]) == U(8 * n, a)
  {
    assert Written(t, p, n, a)[p..][..n] == ToLE(U(8 * n, a), n);
    LoadOfStore(U(8 * n, a), n);
    DivModUnique(U(8 * n, a), Pow2(8 * n), 0, U(8 * n, a));
  }

  /** Storing a loaded value back leaves the buffer as it was. */
  lemma StoreAfterLoad(t: seq<Byte>, p: nat, n: nat)
    requires n in {2, 3, 4, 5, 6, 8} && p + n <= |t|
    ensures Written(t, p, n, Korr(n, t[p..])) == t
  {
    var b := t[p..][..n];
    LEBound(b);
    StoreOfLoad(b);
    DivModUnique(LE(b), Pow2(8 * n), 0, LE(b));
    assert t == t[..p] + b + t[p + n..];
  }

  /** sint3korr undoes int3store exactly on the 24-bit signed values. */
  lemma SignedThreeBytes(t: seq<Byte>, p: nat, v: int)
    requires p + 3 <= |t|
    ensures Sint3korr(Written(t, p, 3, v)[p..]) == v <==> -0x80_0000 <= v < 0x80_0000
  {
    LoadAfterStore(t, p, 3, v);
    SignedRoundTrip(24, v);
    Pow24();
  }

  /** Just outside, the sign is lost: 2^23 comes back as -2^23, from any buffer. */
  lemma SignedThreeBytesEdge(t: seq<Byte>, p: nat)
    requires p + 3 <= |t|
    ensures Sint3korr(Written(t, p, 3, 0x80_0000)[p..]) == -0x80_0000
  {
    LoadAfterStore(t, p, 3, 0x80_0000);
    SignedEdge(24);
    Pow24();
  }

  /** And so do the 16, 32 and 64-bit loads for their own ranges. */
  lemma SignedTwoBytes(t: seq<Byte>, p: nat, v: int)
    requires p + 2 <= |t|
    ensures Sint2korr(Written(t, p, 2, v)[p..]) == v <==> -0x8000 <= v < 0x8000
  {
    LoadAfterStore(t, p, 2, v);
    SignedRoundTrip(16, v);
    Pow16();
  }

  lemma SignedFourBytes(t: seq<Byte>, p: nat, v: int)
    requires p + 4 <= |t|
    ensures Sint4korr(Written(t, p, 4, v)[p..]) == v <==> -0x8000_0000 <= v < 0x8000_0000
  {
    LoadAfterStore(t, p, 4, v);
    SignedRoundTrip(32, v);
    Pow32();
  }

  lemma SignedEightBytes(t: seq<Byte>, p: nat, v: int)
    requires p + 8 <= |t|
    ensures Sint8korr(Written(t, p, 8, v)[p..]) == v <==> -0x8000_0000_0000_0000 <= v < 0x8000_0000_0000_0000
  {
    LoadAfterStore(t, p, 8, v);
    SignedRoundTrip(64, v);
    Pow64();
  }
}
