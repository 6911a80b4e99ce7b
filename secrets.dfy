/**
 * The secret decoders (the `SECRET_METHODS` table) and the key-type check
 * that guards them in `load_config`.
 */
module Secrets {
  import opened Wrappers
  import opened Bytes
  import opened Document
  import Base64
  import Utf8

  /** The four names of the decoder table. */
  datatype Scheme = Plain | Base64Plain | Base64Key | KeyFile

  /** A decoded secret, tagged by the decoder that produced it. */
  datatype Secret =
    | PlainSecret(value: Json)      // `plain`: the configured value itself
    | TextSecret(text: string)      // `base64plain`: decoded text
    | KeySecret(key: seq<byte>)     // `base64key`: decoded bytes
    | FileSecret(contents: seq<byte>) // `keyfile`: what the key file reader returned

  /**
   * `load_key_from_disk(value)` or `load_key_from_disk(value, secret)`: the
   * disk read is outside the model; None stands for whatever it raises.
   */
  type KeyFileReader = (Json, Option<Json>) -> Option<seq<byte>>

  function SchemeName(scheme: Scheme): string {
    match scheme
    case Plain => "plain"
    case Base64Plain => "base64plain"
    case Base64Key => "base64key"
    case KeyFile => "keyfile"
  }

  /** The check before the table is used: only the four names pass, anything else raises ValueError. */
  function CheckKeyType(keyType: Json): (r: Result<Scheme, LoadError>)
    ensures r.Ok? <==> keyType.JString? && keyType.s in {"keyfile", "base64plain", "base64key", "plain"}
    ensures r.Ok? ==> keyType == JString(SchemeName(r.value))
    ensures r.Err? ==> r.error == UnsupportedKeyType(keyType)
  {
    if keyType == JString("keyfile") then Ok(KeyFile)
    else if keyType == JString("base64plain") then Ok(Base64Plain)
    else if keyType == JString("base64key") then Ok(Base64Key)
    else if keyType == JString("plain") then Ok(Plain)
    else Err(UnsupportedKeyType(keyType))
  }

  /** What b64decode accepts as data: an ASCII str, which it encodes to bytes. */
  function DecodeData(v: Json): (r: Result<seq<byte>, LoadError>)
    ensures r.Ok? <==> v.JString? && IsAscii(v.s)
    ensures r.Ok? ==> r.value == AsciiBytes(v.s)
    ensures r.Err? && v.JString? ==> r.error == NotAscii
    ensures !v.JString? ==> r == Err(NotBytesLike)
  {
    match v
    case JString(s) => if IsAscii(s) then Ok(AsciiBytes(s)) else Err(NotAscii)
    case _ => Err(NotBytesLike)
  }

  /** The `altchars` argument: data as above, then the length-2 assertion. */
  function AltChars(v: Json): (r: Result<(byte, byte), LoadError>)
    ensures r.Ok? <==> DecodeData(v).Ok? && |DecodeData(v).value| == 2
    ensures r.Ok? ==> r.value == (DecodeData(v).value[0], DecodeData(v).value[1])
    ensures DecodeData(v).Err? ==> r == Err(DecodeData(v).error)
    ensures DecodeData(v).Ok? && r.Err? ==> r.error == AltCharsLength
  {
    var alt :- DecodeData(v);
    if |alt| != 2 then Err(AltCharsLength) else Ok((alt[0], alt[1]))
  }

  /**
   * The bytes b64decode goes on to decode: the data, with the two `altchars`
   * symbols translated to '+' and '/' when altchars is given.
   */
  function KeyData(value: Json, altchars: Option<Json>): (r: Result<seq<byte>, LoadError>)
    ensures r.Ok? <==> DecodeData(value).Ok? && (altchars.Some? ==> AltChars(altchars.value).Ok?)
    ensures r.Ok? && altchars.None? ==> r.value == DecodeData(value).value
    ensures r.Ok? && altchars.Some? ==>
      var alt := AltChars(altchars.value).value;
      r.value == Base64.Translate(DecodeData(value).value, alt.0, alt.1)
    ensures DecodeData(value).Err? ==> r == Err(DecodeData(value).error)
    ensures DecodeData(value).Ok? && altchars.Some? && AltChars(altchars.value).Err? ==>
      r == Err(AltChars(altchars.value).error)
  {
    var data :- DecodeData(value);
    match altchars
    case None => Ok(data)
    case Some(a) =>
      var alt :- AltChars(a);
      Ok(Base64.Translate(data, alt.0, alt.1))
  }

  /** `base64.b64decode(value)` or `base64.b64decode(value, altchars)`: the `base64key` decoder. */
  function DecodeBase64Key(value: Json, altchars: Option<Json>): (r: Result<Secret, LoadError>)
    ensures r.Ok? <==> KeyData(value, altchars).Ok? && Base64.LenientDecode(KeyData(value, altchars).value).Some?
    ensures r.Ok? ==> r.value == KeySecret(Base64.LenientDecode(KeyData(value, altchars).value).value)
    ensures r.Err? && KeyData(value, altchars).Ok? ==> r.error == InvalidBase64
    ensures KeyData(value, altchars).Err? ==> r == Err(KeyData(value, altchars).error)
  {
    var data :- KeyData(value, altchars);
    match Base64.LenientDecode(data)
    case None => Err(InvalidBase64)
    case Some(key) => Ok(KeySecret(key))
  }

  /**
   * The `base64plain` decoder: the value is UTF-8 encoded first, so b64decode
   * receives bytes and drops non-alphabet bytes instead of rejecting non-ASCII
   * text; the decoded bytes are then read strictly as UTF-8.
   */
  function DecodeBase64Plain(value: Json): (r: Result<Secret, LoadError>)
    ensures r.Ok? <==> value.JString? && Base64.LenientDecode(Utf8.Encode(value.s)).Some? &&
                       Utf8.Decode(Base64.LenientDecode(Utf8.Encode(value.s)).value).Some?
    ensures r.Ok? ==> r.value.TextSecret?
    ensures r.Ok? ==> value.JString? && Base64.LenientDecode(Utf8.Encode(value.s)) == Some(Utf8.Encode(r.value.text))
    ensures !value.JString? ==> r == Err(NoEncode)
    ensures value.JString? && Base64.LenientDecode(Utf8.Encode(value.s)).None? ==> r == Err(InvalidBase64)
    ensures value.JString? && Base64.LenientDecode(Utf8.Encode(value.s)).Some? && r.Err? ==> r.error == InvalidUtf8
  {
    if !value.JString? then Err(NoEncode)
    else
      match Base64.LenientDecode(Utf8.Encode(value.s))
      case None => Err(InvalidBase64)
      case Some(raw) =>
        match Utf8.Decode(raw)
        case None => Err(InvalidUtf8)
        case Some(text) =>
          Utf8.EncodeDecode(raw, text);
          Ok(TextSecret(text))
  }

  /**
   * `SECRET_METHODS[scheme](value)` when extra is None, and
   * `SECRET_METHODS[scheme](value, extra)` otherwise. The `plain` and
   * `base64plain` lambdas take one argument and reject a second.
   */
  function Resolve(scheme: Scheme, value: Json, extra: Option<Json>, read: KeyFileReader): (r: Result<Secret, LoadError>)
    ensures scheme == Plain && extra.None? ==> r == Ok(PlainSecret(value))
    ensures extra.Some? && (scheme == Plain || scheme == Base64Plain) ==> r == Err(ExtraArgument)
    ensures scheme == Base64Plain && extra.None? ==> r == DecodeBase64Plain(value)
    ensures scheme == Base64Key ==> r == DecodeBase64Key(value, extra)
    ensures scheme == KeyFile && read(value, extra).Some? ==> r == Ok(FileSecret(read(value, extra).value))
    ensures scheme == KeyFile && read(value, extra).None? ==> r == Err(KeyFileUnreadable(value))
  {
    match scheme
    case Plain => if extra.Some? then Err(ExtraArgument) else Ok(PlainSecret(value))
    case Base64Plain => if extra.Some? then Err(ExtraArgument) else DecodeBase64Plain(value)
    case Base64Key => DecodeBase64Key(value, extra)
    case KeyFile =>
      match read(value, extra)
      case None => Err(KeyFileUnreadable(value))
      case Some(contents) => Ok(FileSecret(contents))
  }

  /** The `plain` scheme hands back the configured value unchanged, whatever its JSON type. */
  lemma PlainIsIdentity(value: Json, read: KeyFileReader)
    ensures Resolve(Plain, value, None, read) == Ok(PlainSecret(value))
  {
  }

  /** Only the `keyfile` scheme consults the key file reader. */
  lemma ReaderOnlyForKeyFile(scheme: Scheme, value: Json, extra: Option<Json>, read1: KeyFileReader, read2: KeyFileReader)
    requires scheme != KeyFile
    ensures Resolve(scheme, value, extra, read1) == Resolve(scheme, value, extra, read2)
  {
  }

  /** The text written as base64 of its UTF-8 bytes. */
  function Base64Text(raw: seq<byte>): (r: string)
    ensures IsAscii(r)
  {
    AsciiText(Base64.Encode(raw))
  }

  lemma Base64TextBytes(raw: seq<byte>)
    ensures Utf8.Encode(Base64Text(raw)) == Base64.Encode(raw)
    ensures AsciiBytes(Base64Text(raw)) == Base64.Encode(raw)
  {
    var t := Base64Text(raw);
    Utf8.EncodeAscii(t);
    assert AsciiBytes(t) == Base64.Encode(raw);
  }

  /** `base64plain` round trip: any text, UTF-8 encoded and written in base64, decodes to itself. */
  lemma Base64PlainRoundTrip(text: string, read: KeyFileReader)
    ensures Resolve(Base64Plain, JString(Base64Text(Utf8.Encode(text))), None, read) == Ok(TextSecret(text))
  {
    var raw := Utf8.Encode(text);
    Base64TextBytes(raw);
    Base64.LenientDecodeEncode(raw);
    Utf8.DecodeEncode(text);
  }

  /** `base64key` round trip: any bytes written in base64 decode to themselves. */
  lemma Base64KeyRoundTrip(key: seq<byte>, read: KeyFileReader)
    ensures Resolve(Base64Key, JString(Base64Text(key)), None, read) == Ok(KeySecret(key))
  {
    Base64TextBytes(key);
    Base64.LenientDecodeEncode(key);
  }

  /**
   * With `"secret": "+/"` in `jwt_creation`, the extra argument reaches
   * b64decode as `altchars` and maps the standard alphabet onto itself, so
   * the round trip still holds.
   */
  lemma Base64KeyStandardAltChars(key: seq<byte>, read: KeyFileReader)
    ensures Resolve(Base64Key, JString(Base64Text(key)), Some(JString("+/")), read) == Ok(KeySecret(key))
  {
    var data := Base64.Encode(key);
    Base64TextBytes(key);
    assert AsciiBytes("+/") == [43, 47];
    assert AltChars(JString("+/")) == Ok((43, 47));
    assert Base64.Translate(data, 43, 47) == data;
    Base64.LenientDecodeEncode(key);
    assert DecodeBase64Key(JString(Base64Text(key)), Some(JString("+/"))) == Ok(KeySecret(key));
  }

  /**
   * A key written in the URL-safe alphabet decodes to itself when `"secret": "-_"`
   * names the two alternative symbols: b64decode translates them back to '+' and '/'.
   */
  lemma Base64KeyUrlSafe(key: seq<byte>, read: KeyFileReader)
    ensures Resolve(Base64Key, JString(AsciiText(Base64.UrlSafe(Base64.Encode(key)))), Some(JString("-_")), read) ==
            Ok(KeySecret(key))
  {
    var data := Base64.Encode(key);
    var url := Base64.UrlSafe(data);
    var text := AsciiText(url);
    assert AsciiBytes(text) == url;
    assert AsciiBytes("-_") == [45, 95];
    assert AltChars(JString("-_")) == Ok((45, 95));
    Base64.UrlSafeTranslate(key);
    assert KeyData(JString(text), Some(JString("-_"))) == Ok(data);
    Base64.LenientDecodeEncode(key);
  }
}
