/**
 application/x-www-form-urlencoded: the serializer the POST body goes through, the parser
 of section 5.1 of the WHATWG URL Standard, and the allocation-free length precheck.
 */
module FormEncoding {
  import opened Options
  import opened Bytes
  import opened Protocol

  const AMPERSAND: byte := 38
  const PERCENT: byte := 37
  const PLUS: byte := 43
  const EQUALS: byte := 61
  const SPACE: byte := 32

  type Pairs = seq<(bytes, bytes)>

  /** ASCII letters and digits, and `*`, `-`, `.`, `_`. */
  predicate Unchanged(b: byte) {
    48 <= b <= 57 || 65 <= b <= 90 || 97 <= b <= 122 || b == 42 || b == 45 || b == 46 || b == 95
  }

  function UpperHex(n: nat): byte
    requires n < 16
  {
    if n < 10 then (48 + n) as byte else (55 + n) as byte
  }

  function SerializeByte(b: byte): bytes {
    if Unchanged(b) then [b]
    else if b == SPACE then [PLUS]
    else [PERCENT, UpperHex(b as int / 16), UpperHex(b as int % 16)]
  }

  function SerializeComponent(s: bytes): bytes {
    if s == [] then [] else SerializeByte(s[0]) + SerializeComponent(s[1..])
  }

  function SerializePair(name: bytes, value: bytes): (r: bytes)
    ensures r != []
  {
    SerializeComponent(name) + ([EQUALS] + SerializeComponent(value))
  }

  /** `append_pair`: a separator unless the target is still empty, then `name=value`. */
  function AppendPair(target: bytes, name: bytes, value: bytes): bytes {
    if target == [] then SerializePair(name, value) else target + ([AMPERSAND] + SerializePair(name, value))
  }

  function Serialize(pairs: Pairs): bytes {
    if pairs == [] then []
    else
      var last := pairs[|pairs| - 1];
      AppendPair(Serialize(pairs[..|pairs| - 1]), last.0, last.1)
  }

  const STATUS_NAME: bytes := Ascii("status")
  const BODY_NAME: bytes := Ascii("body")

  function ResponsePairs(r: ResourceResponse): Pairs {
    [(STATUS_NAME, Decimal(r.status)), (BODY_NAME, r.body)]
  }

  /** The body of the POST that carries a response. */
  function EncodeForm(r: ResourceResponse): bytes {
    Serialize(ResponsePairs(r))
  }

  // -------------------------------------------------------------------- parsing

  function IndexOf(s: bytes, b: byte): (n: nat)
    ensures n <= |s|
    ensures forall i :: 0 <= i < n ==> s[i] != b
    ensures n < |s| ==> s[n] == b
  {
    if s == [] || s[0] == b then 0 else 1 + IndexOf(s[1..], b)
  }

  function PercentDecode(s: bytes): bytes {
    if s == [] then []
    else if s[0] == PLUS then [SPACE] + PercentDecode(s[1..])
    else if s[0] == PERCENT && |s| >= 3 && HexValue(s[1]).Some? && HexValue(s[2]).Some? then
      [(HexValue(s[1]).value * 16 + HexValue(s[2]).value) as byte] + PercentDecode(s[3..])
    else [s[0]] + PercentDecode(s[1..])
  }

  function ParsePair(s: bytes): (bytes, bytes) {
    var n := IndexOf(s, EQUALS);
    (PercentDecode(s[..n]), if n < |s| then PercentDecode(s[n + 1..]) else [])
  }

  /** Splits at `&`, skips empty sequences, splits each at its first `=`, and decodes both halves. */
  function Parse(s: bytes): Pairs
    decreases |s|
  {
    if s == [] then []
    else
      var n := IndexOf(s, AMPERSAND);
      (if n == 0 then [] else [ParsePair(s[..n])]) + (if n < |s| then Parse(s[n + 1..]) else [])
  }

  lemma {:induction false} IndexOfAbsent(s: bytes, b: byte, rest: bytes)
    requires forall i :: 0 <= i < |s| ==> s[i] != b
    ensures IndexOf(s + rest, b) == |s| + IndexOf(rest, b)
  {
    if s == [] {
      assert s + rest == rest;
    } else {
      assert (s + rest)[1..] == s[1..] + rest;
      IndexOfAbsent(s[1..], b, rest);
    }
  }

  lemma {:induction false} ComponentHasNoSeparators(s: bytes)
    ensures forall i :: 0 <= i < |SerializeComponent(s)| ==>
              SerializeComponent(s)[i] != AMPERSAND && SerializeComponent(s)[i] != EQUALS
  {
    if s != [] {
      ComponentHasNoSeparators(s[1..]);
    }
  }

  lemma {:induction false} DecodeOneByte(b: byte, rest: bytes)
    ensures PercentDecode(SerializeByte(b) + rest) == [b] + PercentDecode(rest)
  {
    var e := SerializeByte(b) + rest;
    if Unchanged(b) || b == SPACE {
      assert e[1..] == rest;
    } else {
      assert e[3..] == rest;
      assert HexValue(UpperHex(b as int / 16)) == Some(b as int / 16);
      assert HexValue(UpperHex(b as int % 16)) == Some(b as int % 16);
    }
  }

  lemma {:induction false} ComponentRoundTrip(s: bytes)
    ensures PercentDecode(SerializeComponent(s)) == s
  {
    if s != [] {
      ComponentRoundTrip(s[1..]);
      DecodeOneByte(s[0], SerializeComponent(s[1..]));
    }
  }

  lemma {:induction false} ParsePairOf(n: bytes, v: bytes)
    requires forall i :: 0 <= i < |n| ==> n[i] != EQUALS
    ensures ParsePair(n + ([EQUALS] + v)) == (PercentDecode(n), PercentDecode(v))
  {
    var s := n + ([EQUALS] + v);
    IndexOfAbsent(n, EQUALS, [EQUALS] + v);
    assert s[..|n|] == n && s[|n| + 1..] == v;
  }

  /** What parsing makes of one sequence between separators. */
  function ParseChunk(s: bytes): Pairs {
    if s == [] then [] else [ParsePair(s)]
  }

  lemma {:induction false} ParseOnlyChunk(s: bytes)
    requires forall i :: 0 <= i < |s| ==> s[i] != AMPERSAND
    ensures Parse(s) == ParseChunk(s)
  {
    IndexOfAbsent(s, AMPERSAND, []);
    assert s + [] == s && s[..|s|] == s;
  }

  lemma {:induction false} ParseFirstChunk(s: bytes, t: bytes)
    requires forall i :: 0 <= i < |s| ==> s[i] != AMPERSAND
    ensures Parse(s + ([AMPERSAND] + t)) == ParseChunk(s) + Parse(t)
  {
    var whole := s + ([AMPERSAND] + t);
    IndexOfAbsent(s, AMPERSAND, [AMPERSAND] + t);
    assert whole[..|s|] == s && whole[|s| + 1..] == t;
  }

  lemma {:induction false} Reassociate<T>(a: seq<T>, b: seq<T>, c: seq<T>)
    ensures (a + b) + c == a + (b + c)
  {
  }

  lemma {:induction false} SplitAtSeparator(s: bytes, n: nat)
    requires n < |s| && s[n] == AMPERSAND
    ensures s == s[..n] + ([AMPERSAND] + s[n + 1..])
  {
  }

  lemma {:induction false} ParseConcat(s: bytes, t: bytes)
    ensures Parse(s + ([AMPERSAND] + t)) == Parse(s) + Parse(t)
    decreases |s|
  {
    var n := IndexOf(s, AMPERSAND);
    if n == |s| {
      ParseFirstChunk(s, t);
      ParseOnlyChunk(s);
    } else {
      ParseConcatSplit(s[..n], s[n + 1..], t);
      SplitAtSeparator(s, n);
    }
  }

  lemma {:induction false} ParseConcatSplit(head: bytes, tail: bytes, t: bytes)
    requires forall i :: 0 <= i < |head| ==> head[i] != AMPERSAND
    ensures Parse((head + ([AMPERSAND] + tail)) + ([AMPERSAND] + t)) == Parse(head + ([AMPERSAND] + tail)) + Parse(t)
    decreases |head| + 1 + |tail|, 0
  {
    var rest := [AMPERSAND] + t;
    calc {
      Parse((head + ([AMPERSAND] + tail)) + rest);
      { Reassociate(head, [AMPERSAND] + tail, rest); Reassociate([AMPERSAND], tail, rest); }
      Parse(head + ([AMPERSAND] + (tail + rest)));
      { ParseFirstChunk(head, tail + rest); }
      ParseChunk(head) + Parse(tail + rest);
      { ParseConcat(tail, t); }
      ParseChunk(head) + (Parse(tail) + Parse(t));
      { Reassociate(ParseChunk(head), Parse(tail), Parse(t)); }
      (ParseChunk(head) + Parse(tail)) + Parse(t);
      { ParseFirstChunk(head, tail); }
      Parse(head + ([AMPERSAND] + tail)) + Parse(t);
    }
  }

  lemma {:induction false} PairRoundTrip(name: bytes, value: bytes)
    ensures Parse(SerializePair(name, value)) == [(name, value)]
  {
    ComponentHasNoSeparators(name);
    ComponentHasNoSeparators(value);
    ParseOnlyChunk(SerializePair(name, value));
    ParsePairOf(SerializeComponent(name), SerializeComponent(value));
    ComponentRoundTrip(name);
    ComponentRoundTrip(value);
  }

  /** Parsing undoes serialization for every list of pairs of arbitrary byte strings. */
  lemma {:induction false} FormRoundTrip(pairs: Pairs)
    ensures Parse(Serialize(pairs)) == pairs
    ensures pairs != [] ==> Serialize(pairs) != []
  {
    if pairs != [] {
      var init, last := pairs[..|pairs| - 1], pairs[|pairs| - 1];
      assert pairs == init + [last];
      FormRoundTrip(init);
      PairRoundTrip(last.0, last.1);
      if init != [] {
        ParseConcat(Serialize(init), SerializePair(last.0, last.1));
      }
    }
  }

  lemma {:induction false} ResponseFormRoundTrip(r: ResourceResponse)
    ensures Parse(EncodeForm(r)) == [(Ascii("status"), Decimal(r.status)), (Ascii("body"), r.body)]
    ensures ParseInt(Parse(EncodeForm(r))[0].1) == Some((r.status, []))
  {
    FormRoundTrip(ResponsePairs(r));
    ParseIntOfDecimal(r.status, []);
    assert Decimal(r.status) + [] == Decimal(r.status);
  }

  // ------------------------------------------------------------- length precheck

  function FormByteCost(b: byte): nat {
    if Unchanged(b) || b == SPACE then 1 else 3
  }

  function FormFold(s: bytes, length: nat, usizeMax: nat): Option<nat> {
    if s == [] then Some(length)
    else
      var next :- CheckedAdd(length, FormByteCost(s[0]), usizeMax);
      FormFold(s[1..], next, usizeMax)
  }

  const FORM_FIELDS: nat := |"status="| + |"&body="|

  function ResponseFormEncodedLen(r: ResourceResponse, usizeMax: nat): Option<nat> {
    var a :- CheckedAdd(FORM_FIELDS, DecimalDigits(r.status), usizeMax);
    var body :- FormFold(r.body, 0, usizeMax);
    CheckedAdd(a, body, usizeMax)
  }

  lemma {:induction false} FormFoldIsExact(s: bytes, length: nat, usizeMax: nat)
    requires length <= usizeMax
    ensures FormFold(s, length, usizeMax) == CheckedAdd(length, |SerializeComponent(s)|, usizeMax)
  {
    if s != [] {
      var next := length + FormByteCost(s[0]);
      assert |SerializeByte(s[0])| == FormByteCost(s[0]);
      assert |SerializeComponent(s)| == FormByteCost(s[0]) + |SerializeComponent(s[1..])|;
      if next <= usizeMax {
        FormFoldIsExact(s[1..], next, usizeMax);
      }
    }
  }

  lemma {:induction false} UnchangedComponent(s: bytes)
    requires forall i :: 0 <= i < |s| ==> Unchanged(s[i])
    ensures SerializeComponent(s) == s
  {
    if s != [] {
      UnchangedComponent(s[1..]);
    }
  }

  lemma {:induction false} EncodedFormParts(r: ResourceResponse)
    ensures |EncodeForm(r)| == 13 + DecimalDigits(r.status) + |SerializeComponent(r.body)|
  {
    DecimalDigitsIsExact(r.status);
    UnchangedComponent(Decimal(r.status));
    UnchangedComponent(STATUS_NAME);
    UnchangedComponent(BODY_NAME);
    var pairs := ResponsePairs(r);
    var first := AppendPair([], STATUS_NAME, Decimal(r.status));
    assert pairs[..1] == [pairs[0]] && pairs[..1][..0] == [];
    assert Serialize(pairs[..1]) == first;
    assert EncodeForm(r) == AppendPair(first, BODY_NAME, r.body);
  }

  /** The precheck returns the exact serialized length, and `None` exactly when that length is not a usize. */
  lemma {:induction false} FormPrecheckIsExact(r: ResourceResponse, usizeMax: nat)
    requires usizeMax >= 0xFFFF
    ensures ResponseFormEncodedLen(r, usizeMax) ==
            if |EncodeForm(r)| <= usizeMax then Some(|EncodeForm(r)|) else None
  {
    FormFoldIsExact(r.body, 0, usizeMax);
    EncodedFormParts(r);
  }

  lemma {:induction false} ComponentLengthBounds(s: bytes)
    ensures |s| <= |SerializeComponent(s)| <= 3 * |s|
  {
    if s != [] {
      ComponentLengthBounds(s[1..]);
    }
  }

  lemma {:induction false} FormPrecheckNeverOverflows(r: ResourceResponse, usizeMax: nat)
    requires |r.body| <= MAX_BODY_SIZE && usizeMax >= 0xFFFF_FFFF
    ensures ResponseFormEncodedLen(r, usizeMax) == Some(|EncodeForm(r)|)
  {
    FormPrecheckIsExact(r, usizeMax);
    ComponentLengthBounds(r.body);
    EncodedFormParts(r);
  }
}
