/** Bytes, C strings and the pieces a stream is cut into. */
module Streams {

  type Byte = b: int | 0 <= b < 256

  /** A string literal as bytes. */
  function Bytes(s: string): (r: seq<Byte>)
    requires forall i :: 0 <= i < |s| ==> s[i] as int < 256
    ensures |r| == |s| && forall i :: 0 <= i < |s| ==> r[i] == s[i] as int
  {
    seq(|s|, i requires 0 <= i < |s| => s[i] as int)
  }

  function Min(a: nat, b: nat): nat { if a < b then a else b }

  /** What `strlen` and the `char *` constructor of a string see: everything before the first NUL. */
  function CStr(s: seq<Byte>): (r: seq<Byte>)
    ensures r <= s && 0 !in r
    ensures r == s <==> 0 !in s
    ensures r == s || s[|r|] == 0
  {
    if s == [] || s[0] == 0 then [] else [s[0]] + CStr(s[1..])
  }

  /** The bytes of a sequence of chunks, in order. */
  function Flatten(chunks: seq<seq<Byte>>): seq<Byte>
  {
    if chunks == [] then [] else Flatten(chunks[..|chunks| - 1]) + chunks[|chunks| - 1]
  }

  /** The bytes that survive when every chunk passes through a C string. */
  function Echo(chunks: seq<seq<Byte>>): seq<Byte>
  {
    if chunks == [] then [] else Echo(chunks[..|chunks| - 1]) + CStr(chunks[|chunks| - 1])
  }

  lemma FlattenSnoc(chunks: seq<seq<Byte>>, chunk: seq<Byte>)
    ensures Flatten(chunks + [chunk]) == Flatten(chunks) + chunk
    ensures Echo(chunks + [chunk]) == Echo(chunks) + CStr(chunk)
  {
    var all := chunks + [chunk];
    assert all[..|all| - 1] == chunks;
  }

  /** Nothing is lost to the C strings exactly when no chunk holds a NUL. */
  lemma {:induction false} EchoIsLossless(chunks: seq<seq<Byte>>)
    ensures |Echo(chunks)| <= |Flatten(chunks)|
    ensures |Echo(chunks)| == |Flatten(chunks)| <==> 0 !in Flatten(chunks)
    ensures 0 !in Flatten(chunks) ==> Echo(chunks) == Flatten(chunks)
  {
    if chunks != [] {
      EchoIsLossless(chunks[..|chunks| - 1]);
    }
  }
}
