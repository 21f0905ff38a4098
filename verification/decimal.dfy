/** Decimal rendering of YAML integers, as Rust's `i64::to_string` produces it:
    an optional `-` followed by the digits of the magnitude, without leading
    zeros. The parsers use it wherever an integer key or value is accepted as
    text (`parse_key`, `parse_yaml_to_string`). */
module Decimal {

  /** The range of Rust's `i64`, the integer type of `yaml_rust::Yaml::Integer`. */
  type I64 = n: int | -0x8000_0000_0000_0000 <= n < 0x8000_0000_0000_0000

  predicate IsDigit(c: char) {
    '0' <= c <= '9'
  }

  predicate AllDigits(s: string) {
    forall i :: 0 <= i < |s| ==> IsDigit(s[i])
  }

  function DigitChar(d: nat): (c: char)
    requires d < 10
    ensures IsDigit(c) && c as int - '0' as int == d
  {
    ('0' as int + d) as char
  }

  /** Digits of `n`, most significant first, no leading zero ("0" for zero). */
  function NatToString(n: nat): (s: string)
    ensures |s| >= 1 && AllDigits(s)
    ensures |s| > 1 ==> s[0] != '0'
    decreases n
  {
    if n < 10 then [DigitChar(n)] else NatToString(n / 10) + [DigitChar(n % 10)]
  }

  /** `n.to_string()` for an `i64`. */
  function IntToString(n: I64): string {
    if n < 0 then "-" + NatToString(-(n as int)) else NatToString(n)
  }

  /** Reads back a string of digits (the partner of `NatToString`). */
  function DigitsValue(s: string): nat
    requires AllDigits(s)
    decreases |s|
  {
    if |s| == 0 then 0
    else DigitsValue(s[..|s| - 1]) * 10 + (s[|s| - 1] as int - '0' as int)
  }

  /** Reads back a rendered integer (the partner of `IntToString`). */
  function ParseInt(s: string): int
    requires |s| >= 1
    requires s[0] == '-' ==> AllDigits(s[1..])
    requires s[0] != '-' ==> AllDigits(s)
  {
    if s[0] == '-' then -(DigitsValue(s[1..]) as int) else DigitsValue(s)
  }

  lemma {:induction false} NatToStringRoundTrip(n: nat)
    ensures DigitsValue(NatToString(n)) == n
    decreases n
  {
    if n >= 10 {
      var s := NatToString(n);
      NatToStringRoundTrip(n / 10);
      assert s[..|s| - 1] == NatToString(n / 10);
    }
  }

  /** Rendering an integer and reading it back gives the integer again, so
      two distinct YAML integers never render to the same text. */
  lemma IntToStringRoundTrip(n: I64)
    ensures var s := IntToString(n);
            |s| >= 1 && (s[0] == '-' <==> n < 0) && ParseInt(s) == n
  {
    var s := IntToString(n);
    if n < 0 {
      assert s[1..] == NatToString(-(n as int));
      NatToStringRoundTrip(-(n as int));
    } else {
      NatToStringRoundTrip(n);
    }
  }

  lemma IntToStringInjective(a: I64, b: I64)
    requires IntToString(a) == IntToString(b)
    ensures a == b
  {
    IntToStringRoundTrip(a);
    IntToStringRoundTrip(b);
  }
}
