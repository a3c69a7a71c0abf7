/** m_string.h: trailing spaces skipped a word at a time. */
module TrailingSpace {
  import opened Streams
  import opened LittleEndian

  const SPACE: Byte := 0x20

  /** The byte-at-a-time scan. */
  function Strip(s: seq<Byte>): (r: seq<Byte>)
    ensures r <= s
  {
    if s != [] && s[|s| - 1] == SPACE then Strip(s[..|s| - 1]) else s
  }

  /** It yields the longest prefix that does not end in a space. */
  lemma {:induction false} StripIsLongest(s: seq<Byte>, n: nat)
    requires n <= |s|
    ensures n == |Strip(s)| <==>
      (n == 0 || s[n - 1] != SPACE) && forall i :: n <= i < |s| ==> s[i] == SPACE
  {
    if s != [] && s[|s| - 1] == SPACE {
      var front := s[..|s| - 1];
      if n < |s| { StripIsLongest(front, n); }
    }
  }

  /** SPACE_INT for the two sizes of int the header knows. */
  function SpaceInt(size: nat): nat {
    if size == 4 then 0x20202020 else 0x2020202020202020
  }

  function Spaces(n: nat): (r: seq<Byte>)
    ensures |r| == n && forall i :: 0 <= i < n ==> r[i] == SPACE
  {
    seq(n, _ => SPACE)
  }

  lemma {:induction false} SpaceValue(n: nat)
    requires n > 0
    ensures LE(Spaces(n)) == 0x20 + 256 * LE(Spaces(n - 1))
  {
    assert Spaces(n)[1..] == Spaces(n - 1);
  }

  lemma SpaceInts()
    ensures LE(Spaces(4)) == SpaceInt(4) && LE(Spaces(8)) == SpaceInt(8)
  {
    assert LE(Spaces(0)) == 0;
    SpaceValue(1);
    SpaceValue(2);
    SpaceValue(3);
    SpaceValue(4);
    SpaceValue(5);
    SpaceValue(6);
    SpaceValue(7);
    SpaceValue(8);
  }

  /** A word equals the mask exactly when all its bytes are spaces. */
  lemma WordIsSpaces(b: seq<Byte>)
    requires |b| == 4 || |b| == 8
    ensures LE(b) == SpaceInt(|b|) <==> forall i :: 0 <= i < |b| ==> b[i] == SPACE
  {
    SpaceInts();
    if LE(b) == SpaceInt(|b|) {
      LEInjective(b, Spaces(|b|));
    }
    if forall i :: 0 <= i < |b| ==> b[i] == SPACE {
      assert b == Spaces(|b|);
    }
  }

  /** The aligned word of the given size that ends at address end, in the buffer s at address ptr. */
  function Word(s: seq<Byte>, ptr: nat, end: nat, size: nat): nat
    requires size > 0 && ptr + size <= end <= ptr + |s| && end % size == 0
  {
    LE(s[end - size - ptr..end - ptr])
  }

  const ADDRESSES := 0x1_0000_0000_0000_0000

  lemma Aligned(x: nat, size: nat)
    requires size == 4 || size == 8
    ensures x / size * size <= x < x / size * size + size && x / size * size % size == 0
  {
  }

  lemma OneWordDown(end: nat, start: nat, size: nat)
    requires (size == 4 || size == 8) && end % size == 0 && start % size == 0 && end > start
    ensures end - size >= start && (end - size) % size == 0
  {
  }

  /** Everything of the buffer from address end on is a space. */
  ghost predicate SpacesFrom(s: seq<Byte>, ptr: nat, end: nat) {
    forall i :: 0 <= i < |s| && end <= ptr + i ==> s[i] == SPACE
  }

  lemma WordSkipped(s: seq<Byte>, ptr: nat, end: nat, size: nat)
    requires (size == 4 || size == 8) && ptr + size <= end <= ptr + |s| && end % size == 0
    requires SpacesFrom(s, ptr, end) && Word(s, ptr, end, size) == SpaceInt(size)
    ensures SpacesFrom(s, ptr, end - size)
  {
    var b := s[end - size - ptr..end - ptr];
    WordIsSpaces(b);
    forall i | 0 <= i < |s| && end - size <= ptr + i < end ensures s[i] == SPACE {
      assert s[i] == b[ptr + i - (end - size)];
    }
  }

  /** The loop over the aligned words; every word it reads lies inside the buffer. */
  method SkipWords(s: seq<Byte>, ptr: nat, endWords: nat, startWords: nat, size: nat) returns (end: nat)
    requires (size == 4 || size == 8) && ptr <= startWords < endWords <= ptr + |s|
    requires endWords % size == 0 && startWords % size == 0 && SpacesFrom(s, ptr, endWords)
    ensures startWords <= end <= endWords && SpacesFrom(s, ptr, end)
  {
    end := endWords;
    while end > startWords && (OneWordDown(end, startWords, size); Word(s, ptr, end, size) == SpaceInt(size))
      invariant startWords <= end <= endWords && end % size == 0
      invariant SpacesFrom(s, ptr, end)
    {
      OneWordDown(end, startWords, size);
      WordSkipped(s, ptr, end, size);
      end := end - size;
    }
  }

  method SkipTrailingSpace(s: seq<Byte>, ptr: nat, size: nat) returns (end: nat)
    requires size == 4 || size == 8
    requires ptr + |s| < ADDRESSES
    ensures end == ptr + |Strip(s)|
  {
    end := ptr + |s|;
    if |s| > 20 {
      Aligned(end, size);
      Aligned(ptr + size - 1, size);
      var endWords := end / size * size;
      assert ptr + size - 1 < ADDRESSES;
      var startWords := (ptr + size - 1) / size * size;
      if endWords > ptr {
        while end > endWords && s[end - 1 - ptr] == SPACE
          invariant endWords <= end <= ptr + |s|
          invariant SpacesFrom(s, ptr, end)
        {
          end := end - 1;
        }
        if s[end - 1 - ptr] == SPACE && startWords < endWords {
          end := SkipWords(s, ptr, end, startWords, size);
        }
      }
    }
    while end > ptr && s[end - 1 - ptr] == SPACE
      invariant ptr <= end <= ptr + |s|
      invariant SpacesFrom(s, ptr, end)
    {
      end := end - 1;
    }
    StripIsLongest(s, end - ptr);
  }
}
