/**
 * The two string-to-number conversions the app relies on: Swift's `Int(_:)`
 * and `Double(_:)` initialisers, which return nil for text they cannot read.
 * Values are exact (`real`), not rounded to binary floating point.
 */
module Parsing {
  import opened Wrappers

  predicate IsDigit(c: char) {
    '0' <= c <= '9'
  }

  predicate AllDigits(s: string) {
    forall i :: 0 <= i < |s| ==> IsDigit(s[i])
  }

  function DigitValue(c: char): (d: nat)
    requires IsDigit(c)
    ensures d < 10
  {
    (c as int) - ('0' as int)
  }

  /** The value of a string of decimal digits, most significant digit first. */
  function DigitsValue(s: string): (v: nat)
    requires AllDigits(s)
  {
    if s == [] then 0 else DigitsValue(s[..|s| - 1]) * 10 + DigitValue(s[|s| - 1])
  }

  function Pow10(n: nat): (p: nat)
    ensures p >= 1
  {
    if n == 0 then 1 else 10 * Pow10(n - 1)
  }

  /** The range of Swift's 64-bit `Int`. */
  const IntMin: int := -0x8000_0000_0000_0000
  const IntMax: int := 0x7fff_ffff_ffff_ffff

  /** An optional leading sign: whether it was `-`, and the text after it. */
  function SplitSign(s: string): (r: (bool, string))
    ensures r.1 == s || (|s| > 0 && r.1 == s[1..])
  {
    if |s| > 0 && (s[0] == '-' || s[0] == '+') then (s[0] == '-', s[1..]) else (false, s)
  }

  /** Index of the first '.', or |s| when there is none. */
  function DotIndex(s: string): (k: nat)
    ensures k <= |s|
    ensures k < |s| ==> s[k] == '.'
    ensures forall i :: 0 <= i < k ==> s[i] != '.'
  {
    if s == [] then 0 else if s[0] == '.' then 0 else 1 + DotIndex(s[1..])
  }

  /**
   * `Int(s)`: an optional sign followed by at least one ASCII digit, and
   * nothing else; nil also when the value does not fit in 64 bits.
   */
  function ParseInt(s: string): (r: Option<int>)
    ensures r.Some? ==> IntMin <= r.value <= IntMax
    ensures r.Some? && r.value < 0 ==> |s| > 0 && s[0] == '-'
  {
    var (neg, body) := SplitSign(s);
    if body == [] || !AllDigits(body) then None
    else
      var n: int := DigitsValue(body);
      var v := if neg then -n else n;
      if IntMin <= v <= IntMax then Some(v) else None
  }

  /**
   * `Double(s)` for decimal text: an optional sign, then digits with an
   * optional fractional part after one '.', with at least one digit in all.
   */
  function ParseDouble(s: string): (r: Option<real>)
    ensures r.Some? && r.value < 0.0 ==> |s| > 0 && s[0] == '-'
  {
    var (neg, body) := SplitSign(s);
    match ParseUnsigned(body)
    case Some(m) => Some(if neg then -m else m)
    case None => None
  }

  /** The number written `whole.frac`: the whole part plus the fraction digits over a power of ten. */
  function DecimalValue(whole: string, frac: string): (v: real)
    requires AllDigits(whole) && AllDigits(frac)
    ensures v >= 0.0
  {
    DigitsValue(whole) as real + DigitsValue(frac) as real / Pow10(|frac|) as real
  }

  /** Digits, optionally followed by '.' and more digits; at least one digit. */
  function ParseUnsigned(body: string): (r: Option<real>)
    ensures r.Some? ==> r.value >= 0.0
  {
    var k := DotIndex(body);
    var whole := body[..k];
    var frac := if k < |body| then body[k + 1..] else [];
    if AllDigits(whole) && AllDigits(frac) && |whole| + |frac| > 0 then
      Some(DecimalValue(whole, frac))
    else None
  }

  /** Text that `Int(_:)` reads is also read by `Double(_:)`, with the same value. */
  lemma IntTextIsDoubleText(s: string)
    requires ParseInt(s).Some?
    ensures ParseDouble(s) == Some(ParseInt(s).value as real)
  {
    var (neg, body) := SplitSign(s);
    NoDotInDigits(body);
    assert body[..|body|] == body;
  }

  lemma {:induction false} NoDotInDigits(s: string)
    requires AllDigits(s)
    ensures DotIndex(s) == |s|
  {
    if s != [] {
      assert IsDigit(s[0]);
      NoDotInDigits(s[1..]);
    }
  }

  lemma {:induction false} DotAfterDigits(whole: string, rest: string)
    requires AllDigits(whole)
    requires |rest| > 0 && rest[0] == '.'
    ensures DotIndex(whole + rest) == |whole|
  {
    if whole == [] {
      assert whole + rest == rest;
    } else {
      assert (whole + rest)[1..] == whole[1..] + rest;
      DotAfterDigits(whole[1..], rest);
    }
  }

  /** How `Double(_:)` reads `whole.frac` without a sign. */
  lemma UnsignedText(body: string, whole: string, frac: string)
    requires body == whole + "." + frac
    requires AllDigits(whole) && AllDigits(frac) && |whole| + |frac| > 0
    ensures ParseUnsigned(body) == Some(DecimalValue(whole, frac))
  {
    var rest := "." + frac;
    assert body == whole + rest;
    DotAfterDigits(whole, rest);
    var k := DotIndex(body);
    assert body[..k] == whole;
    assert body[k + 1..] == rest[1..] == frac;
  }

  /** A leading '-' negates what follows it. */
  lemma NegativeText(s: string)
    requires |s| > 0 && s[0] == '-'
    ensures ParseDouble(s) == match ParseUnsigned(s[1..]) case Some(m) => Some(-m) case None => None
  {
  }
}
