/** The host's unsigned 128-bit integer and its decimal text form: `Display`
    renders it in canonical decimal, and the JSON form is that text inside a
    string. Parsing follows the integer parser of Rust's standard library. */
module Numeric {
  import opened Results
  import opened Json

  /** 2^128: one more than the largest `Uint128`. */
  const U128_LIMIT: nat := 0x1_0000_0000_0000_0000_0000_0000_0000_0000

  type Uint128 = n: nat | n < U128_LIMIT

  predicate IsDigit(c: char) {
    '0' <= c <= '9'
  }

  function DigitValue(c: char): (d: nat)
    requires IsDigit(c)
    ensures d < 10
  {
    (c as int) - ('0' as int)
  }

  function DigitChar(d: nat): (c: char)
    requires d < 10
    ensures IsDigit(c) && DigitValue(c) == d
  {
    (('0' as int) + d) as char
  }

  predicate AllDigits(s: string) {
    forall i :: 0 <= i < |s| ==> IsDigit(s[i])
  }

  /** A decimal numeral with no superfluous leading zero. */
  predicate Canonical(s: string) {
    |s| > 0 && AllDigits(s) && (s[0] == '0' ==> |s| == 1)
  }

  /** The number a string of decimal digits denotes (most significant first). */
  function DigitsValue(s: string): nat
    requires AllDigits(s)
    decreases |s|
  {
    if |s| == 0 then 0
    else DigitsValue(s[..|s| - 1]) * 10 + DigitValue(s[|s| - 1])
  }

  /** Canonical decimal rendering of `n`; its digits denote `n` again. */
  function Decimal(n: nat): (s: string)
    ensures Canonical(s)
    ensures s[0] == '0' <==> n == 0
    ensures DigitsValue(s) == n
    decreases n
  {
    if n < 10 then [DigitChar(n)]
    else
      var p := Decimal(n / 10);
      var s := p + [DigitChar(n % 10)];
      assert s[..|s| - 1] == p;
      s
  }

  /** A numeral whose leading digit is not zero denotes a positive number. */
  lemma {:induction false} LeadingNonZeroIsPositive(s: string)
    requires |s| > 0 && AllDigits(s) && s[0] != '0'
    ensures DigitsValue(s) > 0
    decreases |s|
  {
    if |s| > 1 {
      var p := s[..|s| - 1];
      assert p[0] == s[0];
      LeadingNonZeroIsPositive(p);
    }
  }

  /** Rendering is the inverse of reading on canonical numerals: each number
      has exactly one canonical decimal form. */
  lemma {:induction false} CanonicalIsDecimal(s: string)
    requires Canonical(s)
    ensures Decimal(DigitsValue(s)) == s
    decreases |s|
  {
    if |s| > 1 {
      var p := s[..|s| - 1];
      assert p[0] == s[0];
      LeadingNonZeroIsPositive(p);
      CanonicalIsDecimal(p);
      var n := DigitsValue(s);
      assert n / 10 == DigitsValue(p) && n % 10 == DigitValue(s[|s| - 1]);
      assert s == p + [s[|s| - 1]];
    }
  }

  /** `u128::from_str`: an optional `+`, then at least one decimal digit
      (leading zeros allowed), denoting a value below 2^128. */
  function ParseUint128(s: string): (r: Result<Uint128, DecodeError>)
    ensures r.Err? ==> r.error == InvalidNumber(s)
    ensures r.Ok? <==>
      var d := if |s| > 0 && s[0] == '+' then s[1..] else s;
      |d| > 0 && AllDigits(d) && DigitsValue(d) < U128_LIMIT
    ensures r.Ok? ==> r.value == DigitsValue(if |s| > 0 && s[0] == '+' then s[1..] else s)
    ensures Canonical(s) ==> (r.Ok? <==> DigitsValue(s) < U128_LIMIT)
  {
    var d := if |s| > 0 && s[0] == '+' then s[1..] else s;
    if |d| == 0 || !AllDigits(d) then Err(InvalidNumber(s))
    else if DigitsValue(d) >= U128_LIMIT then Err(InvalidNumber(s))
    else Ok(DigitsValue(d))
  }

  /** Reading the canonical rendering gives the number back, for every `Uint128`
      from 0 to 2^128 - 1. */
  lemma ParseDecimal(n: Uint128)
    ensures ParseUint128(Decimal(n)) == Ok(n)
  {
  }

  /** The parser accepts a canonical numeral only for the number it renders. */
  lemma ParseCanonical(s: string, n: Uint128)
    requires Canonical(s)
    ensures ParseUint128(s) == Ok(n) <==> s == Decimal(n)
  {
    if ParseUint128(s) == Ok(n) {
      CanonicalIsDecimal(s);
    }
  }

  /** JSON form of a `Uint128`: its decimal rendering as a string. */
  function EncodeUint128(n: Uint128): (j: JValue)
    ensures j.JStr? && Canonical(j.str)
    ensures DecodeUint128(j) == Ok(n)
  {
    ParseDecimal(n);
    JStr(Decimal(n))
  }

  /** A `Uint128` is read only from a JSON string; a JSON number is refused. */
  function DecodeUint128(j: JValue): (r: Result<Uint128, DecodeError>)
    ensures !j.JStr? ==> r == Err(InvalidType("a string holding a Uint128"))
    ensures j.JStr? ==> r == ParseUint128(j.str)
  {
    match j
    case JStr(s) => ParseUint128(s)
    case _ => Err(InvalidType("a string holding a Uint128"))
  }
}
