/** Optional results; usable with the failure-propagating `:-`. */
module Options {
  datatype Option<+T> = None | Some(value: T) {
    predicate IsFailure() { None? }
    function PropagateFailure<U>(): Option<U>
      requires None?
    {
      None
    }
    function Extract(): T
      requires Some?
    {
      value
    }
  }
}

/** Byte strings, ASCII literals, decimal numerals and UTF-8 well-formedness. */
module Bytes {
  import opened Options

  newtype byte = x: int | 0 <= x < 256
  type bytes = seq<byte>
  type u16 = n: nat | n < 0x1_0000

  function Ascii(s: string): (r: bytes)
    requires forall i :: 0 <= i < |s| ==> s[i] as int < 128
    ensures |r| == |s|
    ensures forall i :: 0 <= i < |s| ==> r[i] as int == s[i] as int
  {
    seq(|s|, i requires 0 <= i < |s| => (s[i] as int) as byte)
  }

  // ---------------------------------------------------------------- decimal

  predicate IsDigit(b: byte) {
    '0' as byte <= b <= '9' as byte
  }

  /** Shortest decimal numeral, most significant digit first. */
  function Decimal(n: nat): (r: bytes)
    ensures r != [] && forall i :: 0 <= i < |r| ==> IsDigit(r[i])
  {
    if n < 10 then [(n + 48) as byte] else Decimal(n / 10) + [(n % 10 + 48) as byte]
  }

  /** Value of a run of digits. */
  function Value(ds: bytes): nat
    requires forall i :: 0 <= i < |ds| ==> IsDigit(ds[i])
  {
    if ds == [] then 0
    else
      assert IsDigit(ds[|ds| - 1]);
      10 * Value(ds[..|ds| - 1]) + (ds[|ds| - 1] as int - 48)
  }

  lemma {:induction false} ValueOfDecimal(n: nat)
    ensures Value(Decimal(n)) == n
    ensures n >= 10 ==> Decimal(n)[0] != '0' as byte
    ensures 1 <= n < 10 ==> Decimal(n)[0] != '0' as byte
  {
    if n >= 10 {
      ValueOfDecimal(n / 10);
      var ds := Decimal(n);
      assert ds[..|ds| - 1] == Decimal(n / 10);
    }
  }

  /** Splits off the longest leading run of digits. */
  function DigitRun(s: bytes): (n: nat)
    ensures n <= |s|
    ensures forall i :: 0 <= i < n ==> IsDigit(s[i])
    ensures n < |s| ==> !IsDigit(s[n])
  {
    if s == [] || !IsDigit(s[0]) then 0 else 1 + DigitRun(s[1..])
  }

  lemma {:induction false} DigitRunOf(ds: bytes, rest: bytes)
    requires forall i :: 0 <= i < |ds| ==> IsDigit(ds[i])
    requires rest == [] || !IsDigit(rest[0])
    ensures DigitRun(ds + rest) == |ds|
  {
    if ds == [] {
      assert ds + rest == rest;
    } else {
      assert (ds + rest)[1..] == ds[1..] + rest;
      DigitRunOf(ds[1..], rest);
    }
  }

  /** An integer without leading zeros (section 6 of RFC 8259) and what follows it. */
  function ParseInt(s: bytes): Option<(nat, bytes)> {
    var n := DigitRun(s);
    if n == 0 || (n > 1 && s[0] == '0' as byte) then None
    else Some((Value(s[..n]), s[n..]))
  }

  lemma {:induction false} ParseIntOfDecimal(n: nat, rest: bytes)
    requires rest == [] || !IsDigit(rest[0])
    ensures ParseInt(Decimal(n) + rest) == Some((n, rest))
  {
    DigitRunOf(Decimal(n), rest);
    ValueOfDecimal(n);
    assert (Decimal(n) + rest)[..|Decimal(n)|] == Decimal(n);
    assert (Decimal(n) + rest)[|Decimal(n)|..] == rest;
  }

  // ------------------------------------------------------------------ UTF-8

  predicate IsTail(b: byte) {
    0x80 <= b <= 0xBF
  }

  /** Length of the character at the head of `s`, or 0 if it is malformed (section 4 of RFC 3629). */
  function CharLen(s: bytes): (n: nat)
    ensures n <= |s|
  {
    if s == [] then 0
    else if s[0] <= 0x7F then 1
    else if |s| >= 2 && 0xC2 <= s[0] <= 0xDF && IsTail(s[1]) then 2
    else if |s| >= 3 && IsTail(s[1]) && IsTail(s[2]) &&
            (match s[0]
             case 0xE0 => s[1] >= 0xA0
             case 0xED => s[1] <= 0x9F
             case b => 0xE1 <= b <= 0xEF) then 3
    else if |s| >= 4 && IsTail(s[1]) && IsTail(s[2]) && IsTail(s[3]) &&
            (match s[0]
             case 0xF0 => s[1] >= 0x90
             case 0xF4 => s[1] <= 0x8F
             case b => 0xF1 <= b <= 0xF3) then 4
    else 0
  }

  predicate ValidUtf8(s: bytes) {
    s == [] || (CharLen(s) > 0 && ValidUtf8(s[CharLen(s)..]))
  }

  lemma {:induction false} ValidUtf8Concat(a: bytes, b: bytes)
    requires ValidUtf8(a) && ValidUtf8(b)
    ensures ValidUtf8(a + b)
  {
    if a == [] {
      assert a + b == b;
    } else {
      var n := CharLen(a);
      assert CharLen(a + b) == n;
      assert (a + b)[n..] == a[n..] + b;
      ValidUtf8Concat(a[n..], b);
    }
  }

  lemma {:induction false} AsciiIsUtf8(s: bytes)
    requires forall i :: 0 <= i < |s| ==> s[i] <= 0x7F
    ensures ValidUtf8(s)
  {
    if s != [] {
      AsciiIsUtf8(s[1..]);
    }
  }
}
