/** byte_order_generic_x86_64.h: whole words loaded and stored in the machine's little-endian order. */
module ByteOrderX86 {
  import opened Bits
  import opened Streams
  import opened LittleEndian
  import G = ByteOrderGeneric

  /** A load of an n-byte word from little-endian memory. */
  function Native(b: seq<Byte>, n: nat): nat
    requires n <= |b|
  {
    LE(b[..n])
  }

  /** A store of the n-byte word v. */
  method StoreNative(t: array<Byte>, p: nat, n: nat, v: nat)
    requires p + n <= t.Length
    modifies t
    ensures t[..] == old(t[..p]) + ToLE(v, n) + old(t[p + n..])
  {
    var i, rest := 0, v;
    ghost var all := ToLE(v, n);
    while i < n
      invariant i <= n && ToLE(rest, n - i) == all[i..]
      invariant forall j :: 0 <= j < t.Length ==> t[j] == if p <= j < p + i then all[j - p] else old(t[j])
    {
      assert all[i..][0] == all[i] && all[i..][1..] == all[i + 1..];
      t[p + i] := rest % 256;
      i, rest := i + 1, rest / 256;
    }
    assert t[..] == old(t[..p]) + all + old(t[p + n..]);
  }

  function Uint2korr(b: seq<Byte>): nat requires |b| >= 2 { Native(b, 2) }

  /** Reads four bytes and masks one away. */
  function Uint3korr(b: seq<Byte>): nat
    requires |b| >= 4
  {
    And(Native(b, 4), 0xFFFFFF)
  }

  function Uint4korr(b: seq<Byte>): nat requires |b| >= 4 { Native(b, 4) }

  function Uint8korr(b: seq<Byte>): nat requires |b| >= 8 { Native(b, 8) }

  function Sint2korr(b: seq<Byte>): int requires |b| >= 2 { S(16, Native(b, 2)) }

  function Sint4korr(b: seq<Byte>): int requires |b| >= 4 { S(32, Native(b, 4)) }

  function Sint8korr(b: seq<Byte>): int requires |b| >= 8 { S(64, Native(b, 8)) }

  /** On every buffer a word load accepts it gives what the byte-wise load gives; where the header
      keeps the byte-wise form (5 and 6 bytes, and the signed 3) there is nothing to compare. */
  lemma LoadsAgree(b: seq<Byte>)
    ensures |b| >= 2 ==> Uint2korr(b) == G.Uint2korr(b) && Sint2korr(b) == G.Sint2korr(b)
    ensures |b| >= 4 ==>
      Uint3korr(b) == G.Uint3korr(b) && Uint4korr(b) == G.Uint4korr(b) && Sint4korr(b) == G.Sint4korr(b)
    ensures |b| >= 8 ==> Uint8korr(b) == G.Uint8korr(b) && Sint8korr(b) == G.Sint8korr(b)
  {
    if |b| >= 4 { FourthByteIgnored(b, b[3]); }
  }

  /** uint3korr is the value of the first three bytes, whatever the fourth it reads. */
  lemma FourthByteIgnored(b: seq<Byte>, x: Byte)
    requires |b| >= 4
    ensures Uint3korr(b[3 := x]) == Uint3korr(b) == G.Uint3korr(b)
  {
    MaskThree(b);
    MaskThree(b[3 := x]);
    assert b[3 := x][..3] == b[..3];
  }

  lemma MaskThree(b: seq<Byte>)
    requires |b| >= 4
    ensures Uint3korr(b) == LE(b[..3])
  {
    var w, low := LE(b[..4]), LE(b[..3]);
    LESplit(b[..4], 3);
    assert b[..4][..3] == b[..3];
    LEBound(b[..3]);
    Shift24(LE(b[..4][3..]));
    Pow24();
    AndLowMask(w, 24);
    DivModUnique(w, 0x100_0000, LE(b[..4][3..]), low);
  }

  method Int2store(t: array<Byte>, p: nat, a: int)
    requires p + 2 <= t.Length
    modifies t
    ensures t[..] == G.Written(old(t[..]), p, 2, a)
  {
    Is16(a);
    StoreNative(t, p, 2, U16(a));
    assert old(t[..])[..p] == old(t[..p]) && old(t[..])[p + 2..] == old(t[p + 2..]);
  }

  method Int3store(t: array<Byte>, p: nat, a: int)
    requires p + 3 <= t.Length
    modifies t
    ensures t[..] == G.Written(old(t[..]), p, 3, a)
  {
    t[p] := G.UChar(a);
    t[p + 1] := G.UChar(G.Sar(U32(a), 8));
    t[p + 2] := G.UChar(G.Sar(a, 16));
    SecondByte(a);
    G.WrittenAt(old(t[..]), p, 3, a);
    assert t[..] == G.Written(old(t[..]), p, 3, a);
  }

  /** The cast to uint before the first shift drops nothing the byte keeps. */
  lemma SecondByte(a: int)
    ensures G.UChar(G.Sar(U32(a), 8)) == G.UChar(G.Sar(a, 8))
  {
    StoredBytes(a, 4);
    StoredBytes(U32(a), 4);
    G.SameTwice(a);
    assert ByteOf(U32(a), 1) == ByteOf(a, 1);
  }

  method Int4store(t: array<Byte>, p: nat, a: int)
    requires p + 4 <= t.Length
    modifies t
    ensures t[..] == G.Written(old(t[..]), p, 4, a)
  {
    Is32(a);
    StoreNative(t, p, 4, U32(a));
    assert old(t[..])[..p] == old(t[..p]) && old(t[..])[p + 4..] == old(t[p + 4..]);
  }

  method Int8store(t: array<Byte>, p: nat, a: int)
    requires p + 8 <= t.Length
    modifies t
    ensures t[..] == G.Written(old(t[..]), p, 8, a)
  {
    Pow64();
    assert U64(a) == U(8 * 8, a);
    StoreNative(t, p, 8, U64(a));
    assert old(t[..])[..p] == old(t[..p]) && old(t[..])[p + 8..] == old(t[p + 8..]);
  }
}
