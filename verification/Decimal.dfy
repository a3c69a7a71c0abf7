/** std::to_string of a count. */
module Decimal {
  import opened Streams

  function Digits(n: nat): (r: seq<Byte>)
    ensures r != [] && 0 !in r
  {
    if n < 10 then [48 + n] else Digits(n / 10) + [48 + n % 10]
  }

  /** Reading a numeral from left to right; v is what has been read already. */
  function Read(ds: seq<Byte>, v: int): int {
    if ds == [] then v else Read(ds[1..], 10 * v + (ds[0] - '0' as int))
  }

  predicate IsDigit(b: Byte) {
    '0' as int <= b <= '9' as int
  }

  /** ds is the decimal numeral of n: digits only, no leading zero, and n when read. */
  ghost predicate IsDecimal(ds: seq<Byte>, n: int) {
    && ds != [] && (forall i :: 0 <= i < |ds| ==> IsDigit(ds[i]))
    && (ds[0] == '0' as int ==> |ds| == 1)
    && Read(ds, 0) == n
  }

  lemma {:induction false} ReadSnoc(ds: seq<Byte>, b: Byte, v: int)
    ensures Read(ds + [b], v) == 10 * Read(ds, v) + (b - '0' as int)
  {
    if ds == [] {
      assert [] + [b] == [b] && [b][1..] == [];
    } else {
      ReadSnoc(ds[1..], b, 10 * v + (ds[0] - '0' as int));
      assert (ds + [b])[1..] == ds[1..] + [b];
    }
  }

  lemma ReadOne(ds: seq<Byte>)
    requires |ds| == 1
    ensures Read(ds, 0) == ds[0] - '0' as int
  {
    ReadSnoc([], ds[0], 0);
    assert [] + [ds[0]] == ds;
  }

  /** A numeral read after v is at least v, and positive if it starts with no zero. */
  lemma {:induction false} ReadGrows(ds: seq<Byte>, v: int)
    requires v >= 0 && forall i :: 0 <= i < |ds| ==> IsDigit(ds[i])
    ensures Read(ds, v) >= v
    ensures ds != [] && ds[0] != '0' as int ==> Read(ds, v) > 0
  {
    if ds != [] {
      ReadGrows(ds[1..], 10 * v + (ds[0] - '0' as int));
    }
  }

  /** The last digit of a longer numeral is the remainder, the others are the numeral of the quotient. */
  lemma DecimalSplits(ds: seq<Byte>, n: int)
    requires IsDecimal(ds, n) && |ds| > 1
    ensures n >= 10 && ds[|ds| - 1] == '0' as int + n % 10 && IsDecimal(ds[..|ds| - 1], n / 10)
  {
    var front, last := ds[..|ds| - 1], ds[|ds| - 1];
    assert ds == front + [last];
    ReadSnoc(front, last, 0);
    ReadGrows(front, 0);
    QuotientOf(Read(front, 0), last - '0' as int);
  }

  lemma QuotientOf(q: int, r: int)
    requires 0 <= r < 10
    ensures (10 * q + r) / 10 == q && (10 * q + r) % 10 == r
  {
  }

  lemma DecimalJoins(ds: seq<Byte>, n: int)
    requires n >= 10 && IsDecimal(ds, n / 10)
    ensures IsDecimal(ds + ['0' as int + n % 10], n)
  {
    var last: Byte := '0' as int + n % 10;
    ReadSnoc(ds, last, 0);
  }

  /** Digits is the decimal numeral of n, and there is no other. */
  lemma {:induction false} DigitsAreDecimal(n: nat, ds: seq<Byte>)
    ensures IsDecimal(ds, n) <==> ds == Digits(n)
    decreases n
  {
    if n < 10 {
      OneDigit(n, ds);
    } else {
      DigitsAreDecimal(n / 10, Digits(n / 10));
      DecimalJoins(Digits(n / 10), n);
      if IsDecimal(ds, n) {
        LongEnough(ds, n);
        DecimalSplits(ds, n);
        DigitsAreDecimal(n / 10, ds[..|ds| - 1]);
        assert ds == ds[..|ds| - 1] + [ds[|ds| - 1]];
      }
    }
  }

  lemma OneDigit(n: nat, ds: seq<Byte>)
    requires n < 10
    ensures IsDecimal(ds, n) <==> ds == [48 + n]
  {
    ReadOne([48 + n]);
    if IsDecimal(ds, n) {
      if |ds| > 1 { DecimalSplits(ds, n); }
      ReadOne(ds);
    }
  }

  lemma LongEnough(ds: seq<Byte>, n: int)
    requires IsDecimal(ds, n) && n >= 10
    ensures |ds| > 1
  {
    if |ds| == 1 { ReadOne(ds); }
  }

  /** The counts from 0 up to n, written one after the other. */
  function Counted(n: nat): (r: seq<Byte>)
    ensures 0 !in r
  {
    if n == 0 then [] else Counted(n - 1) + Digits(n - 1)
  }

  /** sent is the greeting and then one message for each count below n, in order. */
  ghost predicate Conversation(sent: seq<Byte>, n: nat) {
    exists messages: seq<seq<Byte>> ::
      |messages| == n && sent == Bytes("hello\n") + Flatten(messages) && AllDecimal(messages)
  }

  ghost predicate AllDecimal(messages: seq<seq<Byte>>) {
    forall i :: 0 <= i < |messages| ==> IsDecimal(messages[i], i)
  }

  lemma {:induction false} CountedMessages(n: nat) returns (messages: seq<seq<Byte>>)
    ensures |messages| == n && Counted(n) == Flatten(messages) && AllDecimal(messages)
  {
    messages := [];
    if n > 0 {
      var front := CountedMessages(n - 1);
      DigitsAreDecimal(n - 1, Digits(n - 1));
      messages := front + [Digits(n - 1)];
      assert messages[..n - 1] == front;
    }
  }
}
