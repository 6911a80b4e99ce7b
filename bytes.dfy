/** Bytes, and the ASCII view of strings that Python's base64 functions take. */
module Bytes {

  newtype byte = x: int | 0 <= x < 256

  /** True when every character of s is a 7-bit ASCII character. */
  predicate IsAscii(s: string) {
    forall i :: 0 <= i < |s| ==> s[i] as int < 128
  }

  /** The bytes of an ASCII string, as `str.encode("ascii")` gives them. */
  function AsciiBytes(s: string): (r: seq<byte>)
    requires IsAscii(s)
    ensures |r| == |s|
    ensures forall i :: 0 <= i < |s| ==> r[i] as int == s[i] as int
  {
    seq(|s|, i requires 0 <= i < |s| => s[i] as int as byte)
  }

  /** The text whose characters are the given 7-bit bytes. */
  function AsciiText(b: seq<byte>): (r: string)
    requires forall i :: 0 <= i < |b| ==> b[i] < 128
    ensures |r| == |b| && IsAscii(r)
    ensures forall i :: 0 <= i < |b| ==> r[i] as int == b[i] as int
  {
    seq(|b|, i requires 0 <= i < |b| => b[i] as int as char)
  }
}
