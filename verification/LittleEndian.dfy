/** n-byte little-endian numbers, and the machine integers of C behind them. */
module LittleEndian {
  import opened Bits
  import opened Streams

  function LE(b: seq<Byte>): nat {
    if b == [] then 0 else b[0] + 256 * LE(b[1..])
  }

  function ToLE(v: nat, n: nat): (b: seq<Byte>)
    ensures |b| == n
  {
    if n == 0 then [] else [v % 256] + ToLE(v / 256, n - 1)
  }

  /** v modulo 2^w: the conversion to an unsigned type of w bits. */
  function U(w: nat, v: int): (r: nat)
    ensures r < Pow2(w)
  {
    v % Pow2(w)
  }

  /** The conversions to uint16, uint32 and ulonglong; a value that fits stays as it is. */
  function U16(v: int): nat { if 0 <= v < 0x1_0000 then v else v % 0x1_0000 }

  function U32(v: int): nat { if 0 <= v < 0x1_0000_0000 then v else v % 0x1_0000_0000 }

  function U64(v: int): nat { if 0 <= v < 0x1_0000_0000_0000_0000 then v else v % 0x1_0000_0000_0000_0000 }

  lemma Is16(v: int)
    ensures U16(v) == U(16, v)
  {
    Pow16();
  }

  lemma Is32(v: int)
    ensures U32(v) == U(32, v)
  {
    Pow32();
  }

  /** Converting twice is converting to the narrower type. */
  lemma Narrows(v: int)
    ensures U16(U32(v)) == U16(v) && U32(U32(v)) == U32(v)
  {
    var u, q := v % 0x1_0000_0000, v / 0x1_0000_0000;
    DivModDefinition(v, 0x1_0000_0000);
    DivModUnique(v, 0x1_0000, 0x1_0000 * q + u / 0x1_0000, u % 0x1_0000);
  }

  /** A value that fits is not changed. */
  lemma Fits32(v: nat)
    requires v < 0x1_0000_0000
    ensures U32(v) == v
  {
  }

  lemma Fits64(v: nat)
    requires v < 0x1_0000_0000_0000_0000
    ensures U64(v) == v
  {
  }

  /** Shifts by whole bytes are multiplications. */
  lemma Shift8(x: nat)
    ensures Shl(x, 8) == 0x100 * x
  {
    Pow8();
    ShlIsProduct(x, 8);
  }

  lemma Shift16(x: nat)
    ensures Shl(x, 16) == 0x1_0000 * x
  {
    ShlTwice(x, 8, 8);
    Shift8(x);
    Shift8(Shl(x, 8));
  }

  lemma Shift24(x: nat)
    ensures Shl(x, 24) == 0x100_0000 * x
  {
    ShlTwice(x, 16, 8);
    Shift16(x);
    Shift8(Shl(x, 16));
  }

  lemma Shift32(x: nat)
    ensures Shl(x, 32) == 0x1_0000_0000 * x
  {
    ShlTwice(x, 24, 8);
    Shift24(x);
    Shift8(Shl(x, 24));
  }

  lemma Shift40(x: nat)
    ensures Shl(x, 40) == 0x100_0000_0000 * x
  {
    ShlTwice(x, 32, 8);
    Shift32(x);
    Shift8(Shl(x, 32));
  }

  lemma {:induction false} ShlTwice(x: nat, j: nat, k: nat)
    ensures Shl(x, j + k) == Shl(Shl(x, j), k)
  {
    if k > 0 { ShlTwice(x, j, k - 1); }
  }

  /** The signed value of a pattern v of w bits. */
  function S(w: nat, v: nat): int
    requires w > 0
  {
    if v < Pow2(w - 1) then v else v - Pow2(w)
  }

  lemma Pow2Byte(n: nat)
    requires n > 0
    ensures Pow2(8 * n) == 256 * Pow2(8 * (n - 1))
  {
    Pow2Adds(8, 8 * (n - 1));
    Pow8();
  }

  lemma {:induction false} LEBound(b: seq<Byte>)
    ensures LE(b) < Pow2(8 * |b|)
  {
    if b != [] {
      LEBound(b[1..]);
      Pow2Byte(|b|);
    }
  }

  lemma DivModByte(v: int, m: nat)
    requires m > 0
    ensures v % (256 * m) == v % 256 + 256 * (v / 256 % m)
  {
    var h := v / 256;
    DivModDefinition(h, m);
    var q, r := h / m, h % m;
    assert v == 256 * (q * m + r) + v % 256;
    assert 256 * (q * m) == q * (256 * m);
    DivModUnique(v, 256 * m, q, 256 * r + v % 256);
  }

  /** Loading what was stored gives the value back, modulo the width. */
  lemma {:induction false} LoadOfStore(v: nat, n: nat)
    ensures LE(ToLE(v, n)) == v % Pow2(8 * n)
  {
    if n > 0 {
      LoadOfStore(v / 256, n - 1);
      Pow2Byte(n);
      DivModByte(v, Pow2(8 * (n - 1)));
    }
  }

  /** Storing what was loaded restores the bytes. */
  lemma {:induction false} StoreOfLoad(b: seq<Byte>)
    ensures ToLE(LE(b), |b|) == b
  {
    if b != [] {
      StoreOfLoad(b[1..]);
      assert LE(b) / 256 == LE(b[1..]) && LE(b) % 256 == b[0];
    }
  }

  lemma LEInjective(a: seq<Byte>, b: seq<Byte>)
    requires |a| == |b| && LE(a) == LE(b)
    ensures a == b
  {
    StoreOfLoad(a);
    StoreOfLoad(b);
  }

  /** The low half and the high half of a number. */
  lemma {:induction false} LESplit(b: seq<Byte>, n: nat)
    requires n <= |b|
    ensures LE(b) == LE(b[..n]) + Shl(LE(b[n..]), 8 * n)
  {
    if n == 0 {
      assert b[0..] == b && b[..0] == [];
    } else {
      var lo, hi := b[..n], LE(b[n..]);
      LESplit(b[1..], n - 1);
      assert b[1..][..n - 1] == lo[1..] && b[1..][n - 1..] == b[n..];
      assert LE(lo) == b[0] + 256 * LE(lo[1..]);
      ShlByte(hi, n);
    }
  }

  lemma ShlByte(x: nat, n: nat)
    requires n > 0
    ensures Shl(x, 8 * n) == 256 * Shl(x, 8 * (n - 1))
  {
    ShlTwice(x, 8 * (n - 1), 8);
    Shift8(Shl(x, 8 * (n - 1)));
  }

  /** Byte i of a number stored from a signed or unsigned value a: (uchar) (a >> 8 * i). */
  function ByteOf(a: int, i: nat): Byte {
    a / Pow2(8 * i) % 256
  }

  /** Two shifts in a row are one shift. */
  lemma FloorTwice(a: int, k: nat, m: nat)
    requires k > 0 && m > 0
    ensures k * m > 0 && a / (k * m) == a / k / m
  {
    MulAtLeast(k, m);
    var h := a / k;
    var q, r, s := h / m, h % m, a % k;
    DivModDefinition(a, k);
    DivModDefinition(h, m);
    RemainderBound(r, s, k, m);
    calc {
      a;
      h * k + s;
      (q * m + r) * k + s;
      q * m * k + r * k + s;
      { assert q * m * k == q * (k * m); }
      q * (k * m) + (r * k + s);
    }
    DivModUnique(a, k * m, q, r * k + s);
  }

  lemma RemainderBound(r: nat, s: nat, k: nat, m: nat)
    requires r < m && s < k
    ensures 0 <= r * k + s < k * m
  {
    var d := m - 1 - r;
    assert d * k == m * k - k - r * k;
    if d > 0 { MulAtLeast(d, k); }
    if r > 0 { MulAtLeast(r, k); }
  }

  /** The bytes that shifts of any integer leave behind are those of its residue. */
  lemma {:induction false} StoredBytes(a: int, n: nat)
    ensures |ToLE(U(8 * n, a), n)| == n && forall i :: 0 <= i < n ==> ToLE(U(8 * n, a), n)[i] == ByteOf(a, i)
    decreases n
  {
    if n > 0 {
      var rest := ToLE(U(8 * (n - 1), a / 256), n - 1);
      StoredBytes(a / 256, n - 1);
      FirstByte(a, n);
      forall i | 0 <= i < n ensures ToLE(U(8 * n, a), n)[i] == ByteOf(a, i) {
        if i > 0 {
          assert ToLE(U(8 * n, a), n)[i] == rest[i - 1];
          LaterByte(a, i);
        }
      }
    }
  }

  lemma FirstByte(a: int, n: nat)
    requires n > 0
    ensures ToLE(U(8 * n, a), n) == [ByteOf(a, 0)] + ToLE(U(8 * (n - 1), a / 256), n - 1)
  {
    Pow2Byte(n);
    DivModByte(a, Pow2(8 * (n - 1)));
  }

  lemma LaterByte(a: int, i: nat)
    requires i > 0
    ensures ByteOf(a / 256, i - 1) == ByteOf(a, i)
  {
    Pow2Byte(i);
    FloorTwice(a, 256, Pow2(8 * (i - 1)));
  }

  /** A signed value survives the trip through its unsigned pattern exactly when it fits. */
  lemma SignedRoundTrip(w: nat, v: int)
    requires w > 0
    ensures S(w, U(w, v)) == v <==> 0 <= v + Pow2(w - 1) < Pow2(w)
  {
    var m := Pow2(w);
    DivModUnique(U(w, v), m, 0, U(w, v));
    if 0 <= v < Pow2(w - 1) {
      DivModUnique(v, m, 0, v);
    } else if v < 0 <= v + Pow2(w - 1) {
      DivModUnique(v, m, -1, v + m);
    }
  }

  /** One past the largest signed value is read back as the smallest. */
  lemma SignedEdge(w: nat)
    requires w > 0
    ensures S(w, U(w, Pow2(w - 1))) == -(Pow2(w - 1) as int)
  {
    DivModUnique(Pow2(w - 1), Pow2(w), 0, Pow2(w - 1));
  }
}
