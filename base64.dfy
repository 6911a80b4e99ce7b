/**
 * The base64 alphabet and padding of section 4 of RFC 4648, and the decoding
 * that Python's `base64.b64decode(s, altchars=None, validate=False)` performs:
 * optional translation of two alternative symbols, removal of every byte
 * outside the alphabet, then a padded decode.
 */
module Base64 {
  import opened Wrappers
  import opened Bytes

  const Pad: byte := 61  // '='

  /** The 6-bit value of an alphabet symbol, or -1 for a byte outside the alphabet. */
  function Value(c: byte): (v: int)
    ensures -1 <= v < 64
  {
    if 65 <= c <= 90 then c as int - 65        // 'A'..'Z'
    else if 97 <= c <= 122 then c as int - 71  // 'a'..'z'
    else if 48 <= c <= 57 then c as int + 4    // '0'..'9'
    else if c == 43 then 62                    // '+'
    else if c == 47 then 63                    // '/'
    else -1
  }

  /** The alphabet symbol of a 6-bit value. */
  function Symbol(v: int): (c: byte)
    requires 0 <= v < 64
    ensures Value(c) == v && c < 128
  {
    if v < 26 then (v + 65) as byte
    else if v < 52 then (v + 71) as byte
    else if v < 62 then (v - 4) as byte
    else if v == 62 then 43
    else 47
  }

  predicate IsSymbol(c: byte) {
    Value(c) >= 0
  }

  /** Padded encoding: each 3 bytes become 4 symbols; a final 1 or 2 bytes are padded with '='. */
  function Encode(b: seq<byte>): (r: seq<byte>)
    ensures |r| == (|b| + 2) / 3 * 4
    ensures forall i :: 0 <= i < |r| ==> IsSymbol(r[i]) || r[i] == Pad
    ensures forall i :: 0 <= i < |r| ==> r[i] < 128
  {
    if |b| == 0 then []
    else if |b| == 1 then
      [Symbol(b[0] as int / 4), Symbol(b[0] as int % 4 * 16), Pad, Pad]
    else if |b| == 2 then
      [Symbol(b[0] as int / 4), Symbol(b[0] as int % 4 * 16 + b[1] as int / 16),
       Symbol(b[1] as int % 16 * 4), Pad]
    else
      EncodeTriple(b[0], b[1], b[2]) + Encode(b[3..])
  }

  function EncodeTriple(b0: byte, b1: byte, b2: byte): (r: seq<byte>)
    ensures |r| == 4 && forall i :: 0 <= i < 4 ==> IsSymbol(r[i]) && r[i] < 128
  {
    [Symbol(b0 as int / 4), Symbol(b0 as int % 4 * 16 + b1 as int / 16),
     Symbol(b1 as int % 16 * 4 + b2 as int / 64), Symbol(b2 as int % 64)]
  }

  /** The three bytes held by four 6-bit values. */
  function Bytes3(v0: int, v1: int, v2: int, v3: int): (r: seq<byte>)
    requires 0 <= v0 < 64 && 0 <= v1 < 64 && 0 <= v2 < 64 && 0 <= v3 < 64
    ensures |r| == 3
  {
    [(v0 * 4 + v1 / 16) as byte, (v1 % 16 * 16 + v2 / 4) as byte, (v2 % 4 * 64 + v3) as byte]
  }

  /** Decodes one group of four symbols; a final group may end in "=" or "==". */
  function DecodeGroup(q: seq<byte>, last: bool): Option<seq<byte>>
    requires |q| == 4
  {
    var v0, v1, v2, v3 := Value(q[0]), Value(q[1]), Value(q[2]), Value(q[3]);
    if v0 < 0 || v1 < 0 then None
    else if v2 >= 0 && v3 >= 0 then Some(Bytes3(v0, v1, v2, v3))
    else if !last then None
    else if v2 >= 0 && q[3] == Pad then Some(Bytes3(v0, v1, v2, 0)[..2])
    else if q[2] == Pad && q[3] == Pad then Some(Bytes3(v0, v1, 0, 0)[..1])
    else None
  }

  /**
   * Decodes a sequence of symbols and padding: the length must be a multiple
   * of four and padding may only close the last group. Bits left over below
   * the last byte are ignored.
   */
  function Decode(s: seq<byte>): Option<seq<byte>>
    decreases |s|
  {
    if |s| == 0 then Some([])
    else if |s| < 4 then None
    else if |s| == 4 then DecodeGroup(s, true)
    else
      match DecodeGroup(s[..4], false)
      case None => None
      case Some(front) =>
        match Decode(s[4..])
        case None => None
        case Some(rest) => Some(front + rest)
  }

  /** What `validate=False` does first: every byte that is neither a symbol nor '=' is discarded. */
  function Filter(s: seq<byte>): (r: seq<byte>)
    ensures |r| <= |s|
    ensures forall i :: 0 <= i < |r| ==> IsSymbol(r[i]) || r[i] == Pad
  {
    if |s| == 0 then []
    else if IsSymbol(s[0]) || s[0] == Pad then [s[0]] + Filter(s[1..])
    else Filter(s[1..])
  }

  /**
   * `bytes.translate(bytes.maketrans(altchars, b"+/"))`: alt0 becomes '+' and
   * alt1 becomes '/'; when the two are equal the later mapping, '/', wins.
   */
  function Translate(s: seq<byte>, alt0: byte, alt1: byte): (r: seq<byte>)
    ensures |r| == |s|
    ensures forall i :: 0 <= i < |s| ==>
      r[i] == (if s[i] == alt1 then 47 else if s[i] == alt0 then 43 else s[i])
  {
    seq(|s|, i requires 0 <= i < |s| => if s[i] == alt1 then 47 as byte else if s[i] == alt0 then 43 as byte else s[i])
  }

  /** The URL- and filename-safe alphabet of section 5 of RFC 4648: '+' written as '-', '/' as '_'. */
  function UrlSafe(s: seq<byte>): (r: seq<byte>)
    ensures |r| == |s|
    ensures forall i :: 0 <= i < |s| ==> r[i] == (if s[i] == 43 then 45 else if s[i] == 47 then 95 else s[i])
  {
    seq(|s|, i requires 0 <= i < |s| => if s[i] == 43 then 45 as byte else if s[i] == 47 then 95 as byte else s[i])
  }

  /** Translating '-' and '_' back undoes the URL-safe spelling of an encoding. */
  lemma UrlSafeTranslate(b: seq<byte>)
    ensures Translate(UrlSafe(Encode(b)), 45, 95) == Encode(b)
  {
    var e := Encode(b);
    var t := Translate(UrlSafe(e), 45, 95);
    forall i | 0 <= i < |e|
      ensures t[i] == e[i]
    {
      assert IsSymbol(e[i]) || e[i] == Pad;
    }
  }

  /** `binascii.a2b_base64` in its non-strict mode, on the bytes left after `altchars` translation. */
  function LenientDecode(s: seq<byte>): Option<seq<byte>> {
    Decode(Filter(s))
  }

  lemma {:induction false} TripleRoundTrip(b0: byte, b1: byte, b2: byte)
    ensures DecodeGroup(EncodeTriple(b0, b1, b2), false) == Some([b0, b1, b2])
    ensures DecodeGroup(EncodeTriple(b0, b1, b2), true) == Some([b0, b1, b2])
  {
    var x0, x1, x2 := b0 as int, b1 as int, b2 as int;
    var v0, v1, v2, v3 := x0 / 4, x0 % 4 * 16 + x1 / 16, x1 % 16 * 4 + x2 / 64, x2 % 64;
    assert v1 / 16 == x0 % 4 && v1 % 16 == x1 / 16;
    assert v2 / 4 == x1 % 16 && v2 % 4 == x2 / 64;
    var q := EncodeTriple(b0, b1, b2);
    assert Value(q[0]) == v0 && Value(q[1]) == v1 && Value(q[2]) == v2 && Value(q[3]) == v3;
    assert Bytes3(v0, v1, v2, v3) == [b0, b1, b2];
  }

  /** Decoding the encoding of any bytes gives those bytes back. */
  lemma {:induction false} DecodeEncode(b: seq<byte>)
    ensures Decode(Encode(b)) == Some(b)
    decreases |b|
  {
    if |b| == 0 {
    } else if |b| == 1 {
      assert b == [b[0]];
      OneByteRoundTrip(b[0]);
    } else if |b| == 2 {
      assert b == [b[0], b[1]];
      TwoBytesRoundTrip(b[0], b[1]);
    } else {
      DecodeEncode(b[3..]);
      LongRoundTrip(b);
    }
  }

  lemma OneByteRoundTrip(x: byte)
    ensures Decode(Encode([x])) == Some([x])
  {
    assert Encode([x]) == [Symbol(x as int / 4), Symbol(x as int % 4 * 16), Pad, Pad];
    OneByteGroup(x);
  }

  /** A final group "xy==" holds one byte. */
  lemma OneByteGroup(x: byte)
    ensures DecodeGroup([Symbol(x as int / 4), Symbol(x as int % 4 * 16), Pad, Pad], true) == Some([x])
  {
    var v0, v1 := x as int / 4, x as int % 4 * 16;
    assert v0 * 4 + v1 / 16 == x as int;
    var q := [Symbol(v0), Symbol(v1), Pad, Pad];
    assert Value(q[0]) == v0 && Value(q[1]) == v1 && Value(q[2]) < 0 && Value(q[3]) < 0;
    assert Bytes3(v0, v1, 0, 0)[..1] == [x];
  }

  lemma TwoBytesRoundTrip(x0: byte, x1: byte)
    ensures Decode(Encode([x0, x1])) == Some([x0, x1])
  {
    assert Encode([x0, x1]) == [Symbol(x0 as int / 4), Symbol(x0 as int % 4 * 16 + x1 as int / 16),
                                Symbol(x1 as int % 16 * 4), Pad];
    TwoBytesGroup(x0, x1);
  }

  /** A final group "xyz=" holds two bytes. */
  lemma TwoBytesGroup(x0: byte, x1: byte)
    ensures DecodeGroup([Symbol(x0 as int / 4), Symbol(x0 as int % 4 * 16 + x1 as int / 16),
                         Symbol(x1 as int % 16 * 4), Pad], true) == Some([x0, x1])
  {
    var v0, v1, v2 := x0 as int / 4, x0 as int % 4 * 16 + x1 as int / 16, x1 as int % 16 * 4;
    assert v1 / 16 == x0 as int % 4 && v1 % 16 == x1 as int / 16 && v2 / 4 == x1 as int % 16;
    var q := [Symbol(v0), Symbol(v1), Symbol(v2), Pad];
    assert Value(q[0]) == v0 && Value(q[1]) == v1 && Value(q[2]) == v2 && Value(q[3]) < 0;
    var r := Bytes3(v0, v1, v2, 0);
    assert r[0] == x0 && r[1] == x1;
    assert r[..2] == [x0, x1];
  }

  /** The step of the induction: a full first group decodes to the first three bytes. */
  lemma LongRoundTrip(b: seq<byte>)
    requires |b| >= 3 && Decode(Encode(b[3..])) == Some(b[3..])
    ensures Decode(Encode(b)) == Some(b)
  {
    var t, u := EncodeTriple(b[0], b[1], b[2]), Encode(b[3..]);
    var front := [b[0], b[1], b[2]];
    EncodeStep(b);
    TripleRoundTrip(b[0], b[1], b[2]);
    DecodeFront(t, u, front, b[3..]);
    SplitThree(b);
  }

  lemma SplitThree(b: seq<byte>)
    requires |b| >= 3
    ensures [b[0], b[1], b[2]] + b[3..] == b
  {
  }

  /** The encoding of three or more bytes starts with the encoding of the first three. */
  lemma EncodeStep(b: seq<byte>)
    requires |b| >= 3
    ensures Encode(b) == EncodeTriple(b[0], b[1], b[2]) + Encode(b[3..])
  {
  }

  /** A group with no padding followed by a decodable tail decodes to the concatenation. */
  lemma DecodeFront(t: seq<byte>, u: seq<byte>, front: seq<byte>, rest: seq<byte>)
    requires |t| == 4 && DecodeGroup(t, false) == Some(front) && Decode(u) == Some(rest)
    ensures Decode(t + u) == Some(front + rest)
  {
    if |u| == 0 {
      assert t + u == t && rest == [];
      assert front + rest == front;
    } else {
      var s := t + u;
      assert s[..4] == t && s[4..] == u;
    }
  }

  /** Bytes already in the alphabet pass through the filter unchanged. */
  lemma {:induction false} FilterKeepsAlphabet(s: seq<byte>)
    requires forall i :: 0 <= i < |s| ==> IsSymbol(s[i]) || s[i] == Pad
    ensures Filter(s) == s
    decreases |s|
  {
    if |s| > 0 {
      FilterKeepsAlphabet(s[1..]);
    }
  }

  /** The lenient decoder inverts the encoder too. */
  lemma LenientDecodeEncode(b: seq<byte>)
    ensures LenientDecode(Encode(b)) == Some(b)
  {
    FilterKeepsAlphabet(Encode(b));
    DecodeEncode(b);
  }
}
