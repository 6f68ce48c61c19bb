/**
 The response a worker sends back, its JSON form, and the allocation-free length precheck.
 Strings are byte strings: `String` guarantees they are UTF-8, the encoders work on the bytes.
 */
module Protocol {
  import opened Options
  import opened Bytes

  const MAX_UID_SIZE: nat := 128
  const MAX_RESOURCE_SIZE: nat := 512
  const MAX_BODY_SIZE: nat := 64 * 1024 * 1024
  const MAX_WS_MESSAGE_SIZE: nat := 64 * 1024 * 1024

  datatype ResourceResponse = ResourceResponse(uid: bytes, status: u16, body: bytes)

  /** What a response becomes when it cannot be carried: same uid, status 500, no body. */
  function ErrorFor(uid: bytes): ResourceResponse {
    ResourceResponse(uid, 500, [])
  }

  /** The body of the answer to a request for a resource that is not on the allow-list. */
  const NO_SUCH_RESOURCE: bytes := Ascii("No such resource")

  datatype FieldLimitError = FieldLimitError(field: string, length: nat, limit: nat)

  datatype IncomingMessage =
    | Ping
    | Pong
    | Ready(uid: bytes)
    | Request(uid: bytes, resource: bytes)
    | Unknown

  function ValidateField(field: string, value: bytes, limit: nat): Option<FieldLimitError> {
    if |value| <= limit then None else Some(FieldLimitError(field, |value|, limit))
  }

  /** `None` when every identifier is within its limit, otherwise the first that is not. */
  function Validate(m: IncomingMessage): Option<FieldLimitError> {
    match m
    case Ready(uid) => ValidateField("uid", uid, MAX_UID_SIZE)
    case Request(uid, resource) =>
      var bad := ValidateField("uid", uid, MAX_UID_SIZE);
      if bad.Some? then bad else ValidateField("resource", resource, MAX_RESOURCE_SIZE)
    case _ => None
  }

  // ------------------------------------------------------- JSON string encoding

  const QUOTE: byte := 34
  const BACKSLASH: byte := 92

  /** The letter of a two-character escape, for the bytes that have one. */
  function ShortEscape(b: byte): Option<byte> {
    if b == QUOTE then Some(QUOTE)
    else if b == BACKSLASH then Some(BACKSLASH)
    else if b == 8 then Some('b' as byte)
    else if b == 9 then Some('t' as byte)
    else if b == 10 then Some('n' as byte)
    else if b == 12 then Some('f' as byte)
    else if b == 13 then Some('r' as byte)
    else None
  }

  function HexDigit(n: nat): byte
    requires n < 16
  {
    if n < 10 then (48 + n) as byte else (87 + n) as byte
  }

  function EscapeByte(b: byte): bytes {
    match ShortEscape(b)
    case Some(letter) => [BACKSLASH, letter]
    case None =>
      if b < 0x20 then
        [BACKSLASH, 'u' as byte, 48, 48, HexDigit(b as int / 16), HexDigit(b as int % 16)]
      else [b]
  }

  /** The characters between the quotes of the JSON string for `s`. */
  function EncodeContent(s: bytes): bytes {
    if s == [] then [] else EscapeByte(s[0]) + EncodeContent(s[1..])
  }

  const PREFIX: bytes := Ascii("{\"type\":\"response\",\"uid\":\"")
  const BETWEEN_STRINGS: bytes := Ascii("\",\"body\":\"")
  const BEFORE_STATUS: bytes := Ascii("\",\"status\":")
  const END: bytes := Ascii("}")

  function EncodeResponse(r: ResourceResponse): bytes {
    PREFIX + (EncodeContent(r.uid)
        + (BETWEEN_STRINGS + (EncodeContent(r.body) + (BEFORE_STATUS + (Decimal(r.status) + END)))))
  }

  // ------------------------------------------------------------- length precheck

  function CheckedAdd(a: nat, b: nat, usizeMax: nat): Option<nat> {
    if a + b <= usizeMax then Some(a + b) else None
  }

  function JsonByteCost(b: byte): nat {
    if b == QUOTE || b == BACKSLASH || b == 8 || b == 9 || b == 10 || b == 12 || b == 13 then 2
    else if b < 0x20 then 6
    else 1
  }

  function JsonFold(s: bytes, length: nat, usizeMax: nat): Option<nat> {
    if s == [] then Some(length)
    else
      var next :- CheckedAdd(length, JsonByteCost(s[0]), usizeMax);
      JsonFold(s[1..], next, usizeMax)
  }

  function DecimalDigits(value: u16): nat {
    if value <= 9 then 1 else if value <= 99 then 2 else if value <= 999 then 3 else if value <= 9999 then 4 else 5
  }

  /** The checked-addition chain of `response_json_encoded_len` on a machine whose usize ends at `usizeMax`. */
  function ResponseJsonEncodedLen(r: ResourceResponse, usizeMax: nat): Option<nat> {
    var uid :- JsonFold(r.uid, 0, usizeMax);
    var a :- CheckedAdd(|PREFIX|, uid, usizeMax);
    var b :- CheckedAdd(a, |BETWEEN_STRINGS|, usizeMax);
    var body :- JsonFold(r.body, 0, usizeMax);
    var c :- CheckedAdd(b, body, usizeMax);
    var d :- CheckedAdd(c, |BEFORE_STATUS|, usizeMax);
    var e :- CheckedAdd(d, DecimalDigits(r.status), usizeMax);
    CheckedAdd(e, 1, usizeMax)
  }

  lemma {:induction false} JsonFoldIsExact(s: bytes, length: nat, usizeMax: nat)
    requires length <= usizeMax
    ensures JsonFold(s, length, usizeMax) == CheckedAdd(length, |EncodeContent(s)|, usizeMax)
  {
    if s != [] {
      var next := length + JsonByteCost(s[0]);
      assert |EscapeByte(s[0])| == JsonByteCost(s[0]);
      assert |EncodeContent(s)| == JsonByteCost(s[0]) + |EncodeContent(s[1..])|;
      if next <= usizeMax {
        JsonFoldIsExact(s[1..], next, usizeMax);
      }
    }
  }

  lemma {:induction false} DecimalDigitsIsExact(value: u16)
    ensures DecimalDigits(value) == |Decimal(value)|
  {
    assert |Decimal(value)| == 1 + if value < 10 then 0 else |Decimal(value / 10)|;
    if value >= 100 {
      assert |Decimal(value / 10)| == 1 + |Decimal(value / 10 / 10)|;
      if value >= 1000 {
        assert |Decimal(value / 10 / 10)| == 1 + |Decimal(value / 10 / 10 / 10)|;
        if value >= 10000 {
          assert |Decimal(value / 10 / 10 / 10)| == 1 + |Decimal(value / 10 / 10 / 10 / 10)|;
        }
      }
    }
  }

  lemma {:induction false} EncodedParts(r: ResourceResponse)
    ensures |EncodeResponse(r)| == 48 + |EncodeContent(r.uid)| + |EncodeContent(r.body)| + DecimalDigits(r.status)
  {
    DecimalDigitsIsExact(r.status);
  }

  /** The precheck returns the exact encoded length, and `None` exactly when that length is not a usize. */
  lemma {:induction false} JsonPrecheckIsExact(r: ResourceResponse, usizeMax: nat)
    requires usizeMax >= 0xFFFF
    ensures ResponseJsonEncodedLen(r, usizeMax) ==
            if |EncodeResponse(r)| <= usizeMax then Some(|EncodeResponse(r)|) else None
  {
    JsonFoldIsExact(r.uid, 0, usizeMax);
    JsonFoldIsExact(r.body, 0, usizeMax);
    EncodedParts(r);
  }

  lemma {:induction false} ContentLengthBounds(s: bytes)
    ensures |s| <= |EncodeContent(s)| <= 6 * |s|
  {
    if s != [] {
      ContentLengthBounds(s[1..]);
    }
  }

  /** Within the wire limits no checked addition overflows on a 32-bit or wider usize. */
  lemma {:induction false} JsonPrecheckNeverOverflows(r: ResourceResponse, usizeMax: nat)
    requires |r.uid| <= MAX_UID_SIZE && |r.body| <= MAX_BODY_SIZE
    requires usizeMax >= 0xFFFF_FFFF
    ensures ResponseJsonEncodedLen(r, usizeMax) == Some(|EncodeResponse(r)|)
  {
    JsonPrecheckIsExact(r, usizeMax);
    ContentLengthBounds(r.uid);
    ContentLengthBounds(r.body);
    EncodedParts(r);
  }

  /** The error fallback of a valid uid always fits: 51 bytes of frame plus at most six per uid byte. */
  lemma {:induction false} FallbackLength(uid: bytes)
    requires |uid| <= MAX_UID_SIZE
    ensures 51 + |uid| <= |EncodeResponse(ErrorFor(uid))| <= 51 + 6 * |uid| <= 819 < MAX_WS_MESSAGE_SIZE
  {
    ContentLengthBounds(uid);
    EncodedParts(ErrorFor(uid));
  }

  // ------------------------------------------------------------------- decoding

  function HexValue(b: byte): Option<nat> {
    if '0' as byte <= b <= '9' as byte then Some(b as int - 48)
    else if 'a' as byte <= b <= 'f' as byte then Some(b as int - 87)
    else if 'A' as byte <= b <= 'F' as byte then Some(b as int - 55)
    else None
  }

  function HexQuad(s: bytes): Option<nat> {
    if |s| < 4 then None
    else
      var a :- HexValue(s[0]);
      var b :- HexValue(s[1]);
      var c :- HexValue(s[2]);
      var d :- HexValue(s[3]);
      Some(a * 4096 + b * 256 + c * 16 + d)
  }

  /** UTF-8 of a code point of the basic plane; surrogates have none. */
  function Utf8Of(code: nat): Option<bytes> {
    if code < 0x80 then Some([code as byte])
    else if code < 0x800 then Some([(0xC0 + code / 64) as byte, (0x80 + code % 64) as byte])
    else if 0xD800 <= code <= 0xDFFF || code > 0xFFFF then None
    else Some([(0xE0 + code / 4096) as byte, (0x80 + code / 64 % 64) as byte, (0x80 + code % 64) as byte])
  }

  /** The byte a two-character escape stands for (section 7 of RFC 8259). */
  function ShortUnescape(letter: byte): Option<byte> {
    if letter == QUOTE || letter == BACKSLASH || letter == '/' as byte then Some(letter)
    else if letter == 'b' as byte then Some(8)
    else if letter == 't' as byte then Some(9)
    else if letter == 'n' as byte then Some(10)
    else if letter == 'f' as byte then Some(12)
    else if letter == 'r' as byte then Some(13)
    else None
  }

  /** Reads string content up to the closing quote: the decoded bytes and what follows the quote. */
  function DecodeContent(s: bytes): Option<(bytes, bytes)> {
    if s == [] || s[0] < 0x20 then None
    else if s[0] == QUOTE then Some(([], s[1..]))
    else if s[0] != BACKSLASH then
      var tail :- DecodeContent(s[1..]);
      Some(([s[0]] + tail.0, tail.1))
    else if |s| < 2 then None
    else if s[1] == 'u' as byte then
      var code :- HexQuad(s[2..]);
      var decoded :- Utf8Of(code);
      var tail :- DecodeContent(s[6..]);
      Some((decoded + tail.0, tail.1))
    else
      var decoded :- ShortUnescape(s[1]);
      var tail :- DecodeContent(s[2..]);
      Some(([decoded] + tail.0, tail.1))
  }

  function Expect(literal: bytes, s: bytes): Option<bytes> {
    if literal <= s then Some(s[|literal|..]) else None
  }

  function DecodeResponse(s: bytes): Option<ResourceResponse> {
    var s1 :- Expect(PREFIX, s);
    var uid :- DecodeContent(s1);
    var s2 :- Expect(BETWEEN_STRINGS[1..], uid.1);
    var body :- DecodeContent(s2);
    var s3 :- Expect(BEFORE_STATUS[1..], body.1);
    var status :- ParseInt(s3);
    if status.1 == END && status.0 < 0x1_0000 then Some(ResourceResponse(uid.0, status.0, body.0)) else None
  }

  lemma {:induction false} DecodeOneByte(b: byte, s: bytes)
    requires DecodeContent(s).Some?
    ensures DecodeContent(EscapeByte(b) + s) ==
            Some(([b] + DecodeContent(s).value.0, DecodeContent(s).value.1))
  {
    var e := EscapeByte(b) + s;
    match ShortEscape(b) {
      case Some(letter) =>
        assert e[2..] == s;
      case None =>
        if b < 0x20 {
          assert e[2..][..4] == [48, 48, HexDigit(b as int / 16), HexDigit(b as int % 16)];
          assert HexQuad(e[2..]) == Some(b as int);
          assert e[6..] == s;
        } else {
          assert e[1..] == s;
        }
    }
  }

  lemma {:induction false} DecodeContentRoundTrip(s: bytes, rest: bytes)
    ensures DecodeContent(EncodeContent(s) + ([QUOTE] + rest)) == Some((s, rest))
  {
    var closing := [QUOTE] + rest;
    if s == [] {
      assert EncodeContent(s) + closing == closing;
      assert closing[1..] == rest;
    } else {
      DecodeContentRoundTrip(s[1..], rest);
      DecodeOneByte(s[0], EncodeContent(s[1..]) + closing);
      assert EncodeContent(s) + closing == EscapeByte(s[0]) + (EncodeContent(s[1..]) + closing);
      assert [s[0]] + s[1..] == s;
    }
  }

  lemma {:induction false} ExpectLiteral(literal: bytes, s: bytes)
    ensures Expect(literal, literal + s) == Some(s)
  {
    assert (literal + s)[..|literal|] == literal;
    assert (literal + s)[|literal|..] == s;
  }

  /** Decoding gives back the uid, the status and the body, whatever bytes they hold. */
  lemma {:induction false} JsonRoundTrip(r: ResourceResponse)
    ensures DecodeResponse(EncodeResponse(r)) == Some(r)
  {
    var s6 := Decimal(r.status) + END;
    var s5 := BEFORE_STATUS + s6;
    var s4 := EncodeContent(r.body) + s5;
    var s3 := BETWEEN_STRINGS + s4;
    ExpectLiteral(PREFIX, EncodeContent(r.uid) + s3);
    assert s3 == [QUOTE] + (BETWEEN_STRINGS[1..] + s4);
    DecodeContentRoundTrip(r.uid, BETWEEN_STRINGS[1..] + s4);
    ExpectLiteral(BETWEEN_STRINGS[1..], s4);
    assert s5 == [QUOTE] + (BEFORE_STATUS[1..] + s6);
    DecodeContentRoundTrip(r.body, BEFORE_STATUS[1..] + s6);
    ExpectLiteral(BEFORE_STATUS[1..], s6);
    assert !IsDigit(END[0]);
    ParseIntOfDecimal(r.status, END);
  }

  lemma {:induction false} JsonInjective(a: ResourceResponse, b: ResourceResponse)
    requires EncodeResponse(a) == EncodeResponse(b)
    ensures a == b
  {
    JsonRoundTrip(a);
    JsonRoundTrip(b);
  }

  // --------------------------------------------------------------- always UTF-8

  lemma {:induction false} EncodeContentConcat(a: bytes, b: bytes)
    ensures EncodeContent(a + b) == EncodeContent(a) + EncodeContent(b)
  {
    if a == [] {
      assert a + b == b;
    } else {
      assert (a + b)[1..] == a[1..] + b;
      EncodeContentConcat(a[1..], b);
    }
  }

  lemma {:induction false} EncodeHighBytes(s: bytes)
    requires forall i :: 0 <= i < |s| ==> s[i] >= 0x80
    ensures EncodeContent(s) == s
  {
    if s != [] {
      EncodeHighBytes(s[1..]);
    }
  }

  lemma {:induction false} EscapeIsAscii(b: byte)
    requires b <= 0x7F
    ensures ValidUtf8(EscapeByte(b))
  {
    AsciiIsUtf8(EscapeByte(b));
  }

  /** Escaping never splits a character, so the content of a string stays well-formed UTF-8. */
  lemma {:induction false} EncodeContentIsUtf8(s: bytes)
    requires ValidUtf8(s)
    ensures ValidUtf8(EncodeContent(s))
  {
    if s != [] {
      var n := CharLen(s);
      var head, tail := s[..n], s[n..];
      assert s == head + tail;
      EncodeContentConcat(head, tail);
      EncodeContentIsUtf8(tail);
      if n == 1 {
        EscapeIsAscii(s[0]);
        assert EncodeContent(head) == EscapeByte(s[0]) + EncodeContent([]);
        assert EncodeContent(head) == EscapeByte(s[0]);
      } else {
        EncodeHighBytes(head);
        assert CharLen(head) == n && head[n..] == [];
      }
      ValidUtf8Concat(EncodeContent(head), EncodeContent(tail));
    }
  }

  lemma {:induction false} PrefixedUtf8(literal: bytes, content: bytes, rest: bytes)
    requires forall i :: 0 <= i < |literal| ==> literal[i] <= 0x7F
    requires ValidUtf8(content) && ValidUtf8(rest)
    ensures ValidUtf8(literal + (content + rest))
  {
    AsciiIsUtf8(literal);
    ValidUtf8Concat(content, rest);
    ValidUtf8Concat(literal, content + rest);
  }

  /** The conversion of the finished buffer to a string cannot fail. */
  lemma {:induction false} JsonIsUtf8(r: ResourceResponse)
    requires ValidUtf8(r.uid) && ValidUtf8(r.body)
    ensures ValidUtf8(EncodeResponse(r))
  {
    var end := Decimal(r.status) + END;
    EncodeContentIsUtf8(r.uid);
    EncodeContentIsUtf8(r.body);
    AsciiIsUtf8(Decimal(r.status));
    AsciiIsUtf8(end[|Decimal(r.status)|..]);
    assert end == Decimal(r.status) + end[|Decimal(r.status)|..];
    PrefixedUtf8(BEFORE_STATUS, Decimal(r.status), end[|Decimal(r.status)|..]);
    PrefixedUtf8(BETWEEN_STRINGS, EncodeContent(r.body), BEFORE_STATUS + end);
    PrefixedUtf8(PREFIX, EncodeContent(r.uid), BETWEEN_STRINGS + (EncodeContent(r.body) + (BEFORE_STATUS + end)));
  }
}
