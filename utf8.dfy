/**
 * UTF-8 as defined by RFC 3629: `str.encode("utf-8")` and the strict
 * `bytes.decode("utf8")`, which rejects overlong forms, surrogates, code
 * points above U+10FFFF, stray continuation bytes and truncated sequences.
 */
module Utf8 {
  import opened Wrappers
  import opened Bytes

  /** The encoding of one character, one to four bytes by code point range. */
  function EncodeChar(c: char): (r: seq<byte>)
    ensures 1 <= |r| <= 4
  {
    var n := c as int;
    if n < 0x80 then [n as byte]
    else if n < 0x800 then [(0xC0 + n / 64) as byte, (0x80 + n % 64) as byte]
    else if n < 0x10000 then
      [(0xE0 + n / 4096) as byte, (0x80 + n / 64 % 64) as byte, (0x80 + n % 64) as byte]
    else
      [(0xF0 + n / 262144) as byte, (0x80 + n / 4096 % 64) as byte,
       (0x80 + n / 64 % 64) as byte, (0x80 + n % 64) as byte]
  }

  function Encode(s: string): (r: seq<byte>)
    ensures |r| >= |s|
  {
    if |s| == 0 then [] else EncodeChar(s[0]) + Encode(s[1..])
  }

  predicate IsContinuation(b: byte) {
    0x80 <= b < 0xC0
  }

  predicate IsScalar(n: int) {
    0 <= n < 0xD800 || 0xE000 <= n < 0x110000
  }

  /** The first character of b and the number of bytes it takes, if b starts with a well-formed sequence. */
  function DecodeOne(b: seq<byte>): (r: Option<(char, nat)>)
    requires |b| > 0
    ensures r.Some? ==> 1 <= r.value.1 <= |b|
  {
    var b0 := b[0] as int;
    if b0 < 0x80 then Some((b0 as char, 1))
    else if 0xC2 <= b0 < 0xE0 then
      if |b| >= 2 && IsContinuation(b[1]) then
        Some((((b0 - 0xC0) * 64 + (b[1] as int - 0x80)) as char, 2))
      else None
    else if 0xE0 <= b0 < 0xF0 then
      if |b| >= 3 && IsContinuation(b[1]) && IsContinuation(b[2]) then
        var n := (b0 - 0xE0) * 4096 + (b[1] as int - 0x80) * 64 + (b[2] as int - 0x80);
        if n >= 0x800 && IsScalar(n) then Some((n as char, 3)) else None
      else None
    else if 0xF0 <= b0 < 0xF5 then
      if |b| >= 4 && IsContinuation(b[1]) && IsContinuation(b[2]) && IsContinuation(b[3]) then
        var n := (b0 - 0xF0) * 262144 + (b[1] as int - 0x80) * 4096 +
                 (b[2] as int - 0x80) * 64 + (b[3] as int - 0x80);
        if 0x10000 <= n < 0x110000 then Some((n as char, 4)) else None
      else None
    else None
  }

  function Decode(b: seq<byte>): Option<string>
    decreases |b|
  {
    if |b| == 0 then Some("")
    else
      match DecodeOne(b)
      case None => None
      case Some((c, k)) =>
        match Decode(b[k..])
        case None => None
        case Some(rest) => Some([c] + rest)
  }

  /** Decoding the first sequence of an encoded character gives the character back. */
  lemma DecodeOneEncodeChar(c: char, rest: seq<byte>)
    ensures DecodeOne(EncodeChar(c) + rest) == Some((c, |EncodeChar(c)|))
  {
    var n := c as int;
    if n < 0x80 {
    } else if n < 0x800 {
      DecodeTwo(c, rest);
    } else if n < 0x10000 {
      DecodeThree(c, rest);
    } else {
      DecodeFour(c, rest);
    }
  }

  lemma DecodeTwo(c: char, rest: seq<byte>)
    requires 0x80 <= c as int < 0x800
    ensures DecodeOne(EncodeChar(c) + rest) == Some((c, 2))
  {
    var n := c as int;
    var b := EncodeChar(c) + rest;
    assert b[0] as int == 0xC0 + n / 64 && b[1] as int == 0x80 + n % 64;
  }

  lemma DecodeThree(c: char, rest: seq<byte>)
    requires 0x800 <= c as int < 0x10000
    ensures DecodeOne(EncodeChar(c) + rest) == Some((c, 3))
  {
    var n := c as int;
    var b := EncodeChar(c) + rest;
    var x0, x1, x2 := n / 4096, n / 64 % 64, n % 64;
    assert x0 * 4096 + x1 * 64 + x2 == n;
    assert b[0] as int == 0xE0 + x0 && b[1] as int == 0x80 + x1 && b[2] as int == 0x80 + x2;
    assert b[0] as int - 0xE0 == x0;
  }

  lemma DecodeFour(c: char, rest: seq<byte>)
    requires 0x10000 <= c as int
    ensures DecodeOne(EncodeChar(c) + rest) == Some((c, 4))
  {
    var n := c as int;
    var b := EncodeChar(c) + rest;
    var x0, x1, x2, x3 := n / 262144, n / 4096 % 64, n / 64 % 64, n % 64;
    FourDigits(n);
    assert b[0] as int == 0xF0 + x0 && b[1] as int == 0x80 + x1;
    assert b[2] as int == 0x80 + x2 && b[3] as int == 0x80 + x3;
  }

  /** A code point splits into the 3 + 6 + 6 + 6 bits of a four-byte sequence. */
  lemma FourDigits(n: int)
    requires 0x10000 <= n < 0x110000
    ensures n / 262144 * 262144 + n / 4096 % 64 * 4096 + n / 64 % 64 * 64 + n % 64 == n
    ensures n / 262144 < 5
  {
    assert n / 64 * 64 + n % 64 == n;
    assert n / 4096 * 64 + n / 64 % 64 == n / 64;
    assert n / 262144 * 64 + n / 4096 % 64 == n / 4096;
  }

  /** The well-formed sequence DecodeOne accepts is exactly the encoding of the character it yields. */
  lemma DecodeOneIsEncoding(b: seq<byte>)
    requires |b| > 0 && DecodeOne(b).Some?
    ensures b[..DecodeOne(b).value.1] == EncodeChar(DecodeOne(b).value.0)
  {
    var b0 := b[0] as int;
    if b0 < 0x80 {
    } else if b0 < 0xE0 {
      TwoIsEncoding(b);
    } else if b0 < 0xF0 {
      ThreeIsEncoding(b);
    } else {
      FourIsEncoding(b);
    }
  }

  lemma TwoIsEncoding(b: seq<byte>)
    requires |b| >= 2 && 0xC2 <= b[0] < 0xE0 && IsContinuation(b[1])
    ensures DecodeOne(b).Some? && b[..2] == EncodeChar(DecodeOne(b).value.0)
  {
    var x0, x1 := b[0] as int - 0xC0, b[1] as int - 0x80;
    var n := x0 * 64 + x1;
    assert DecodeOne(b) == Some((n as char, 2));
    assert n / 64 == x0 && n % 64 == x1;
  }

  lemma ThreeIsEncoding(b: seq<byte>)
    requires |b| >= 3 && 0xE0 <= b[0] < 0xF0 && DecodeOne(b).Some?
    ensures b[..3] == EncodeChar(DecodeOne(b).value.0)
  {
    var x0, x1, x2 := b[0] as int - 0xE0, b[1] as int - 0x80, b[2] as int - 0x80;
    var n := x0 * 4096 + x1 * 64 + x2;
    assert DecodeOne(b) == Some((n as char, 3));
    assert n / 64 == x0 * 64 + x1 && n % 64 == x2;
    assert n / 4096 == x0 && n / 64 % 64 == x1;
  }

  lemma FourIsEncoding(b: seq<byte>)
    requires |b| >= 4 && 0xF0 <= b[0] < 0xF5 && DecodeOne(b).Some?
    ensures b[..4] == EncodeChar(DecodeOne(b).value.0)
  {
    var x0, x1, x2, x3 := b[0] as int - 0xF0, b[1] as int - 0x80, b[2] as int - 0x80, b[3] as int - 0x80;
    var n := x0 * 262144 + x1 * 4096 + x2 * 64 + x3;
    assert DecodeOne(b) == Some((n as char, 4));
    assert n / 64 == x0 * 4096 + x1 * 64 + x2 && n % 64 == x3;
    assert n / 4096 == x0 * 64 + x1 && n / 64 % 64 == x2;
    assert n / 262144 == x0 && n / 4096 % 64 == x1;
  }

  /** Decoding the encoding of any text gives the text back. */
  lemma {:induction false} DecodeEncode(s: string)
    ensures Decode(Encode(s)) == Some(s)
    decreases |s|
  {
    if |s| > 0 {
      var e := EncodeChar(s[0]);
      var tail := Encode(s[1..]);
      DecodeOneEncodeChar(s[0], tail);
      assert (e + tail)[|e|..] == tail;
      DecodeEncode(s[1..]);
      assert [s[0]] + s[1..] == s;
    }
  }

  /** Strict decoding succeeds only on the encoding of what it returns, so no two byte strings decode alike. */
  lemma {:induction false} EncodeDecode(b: seq<byte>, s: string)
    requires Decode(b) == Some(s)
    ensures Encode(s) == b
    decreases |b|
  {
    if |b| > 0 {
      var (c, k) := DecodeOne(b).value;
      assert Decode(b[k..]).Some?;
      var rest := Decode(b[k..]).value;
      assert Decode(b) == Some([c] + rest);
      assert s == [c] + rest;
      DecodeOneIsEncoding(b);
      EncodeDecode(b[k..], rest);
      assert s[0] == c && s[1..] == rest;
      assert b == b[..k] + b[k..];
    }
  }

  /** ASCII text is its own UTF-8 encoding. */
  lemma {:induction false} EncodeAscii(s: string)
    requires IsAscii(s)
    ensures Encode(s) == AsciiBytes(s)
    decreases |s|
  {
    if |s| > 0 {
      EncodeAscii(s[1..]);
      assert AsciiBytes(s) == [s[0] as int as byte] + AsciiBytes(s[1..]);
    }
  }
}
