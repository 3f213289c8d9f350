/**
 * Decimal text as the Rust and C++ sources read and write it: `str::parse::<u64>()`,
 * `str::parse::<c_int>()` and `to_string()` / `format!("{}")` of integers.
 */
module Decimal {
  import opened Wrappers

  const U64_LIMIT: int := 0x1_0000_0000_0000_0000
  const I32_MIN: int := -0x8000_0000
  const I32_LIMIT: int := 0x8000_0000

  type u64 = x: int | 0 <= x < 0x1_0000_0000_0000_0000
  type i32 = x: int | -0x8000_0000 <= x < 0x8000_0000

  predicate IsDigit(c: char) { '0' <= c <= '9' }

  predicate AllDigits(s: string) { forall i :: 0 <= i < |s| ==> IsDigit(s[i]) }

  function DigitValue(c: char): nat
    requires IsDigit(c)
  {
    c as int - '0' as int
  }

  function DigitChar(d: nat): (c: char)
    requires d < 10
    ensures IsDigit(c) && DigitValue(c) == d
  {
    ('0' as int + d) as char
  }

  /** The number a string of decimal digits denotes, most significant digit first. */
  function DigitsValue(s: string): nat
    requires AllDigits(s)
  {
    if s == [] then 0 else DigitsValue(s[..|s| - 1]) * 10 + DigitValue(s[|s| - 1])
  }

  /** `n.to_string()`: shortest decimal form, no sign, no leading zero. */
  function NatToString(n: nat): string
  {
    if n < 10 then [DigitChar(n)] else NatToString(n / 10) + [DigitChar(n % 10)]
  }

  /** `format!("{}", i)` for a signed integer. */
  function IntToString(i: int): string
  {
    if i < 0 then "-" + NatToString(-i) else NatToString(i)
  }

  /** Rust's `str::parse::<u64>()`: one optional leading '+', then at least one digit, value below 2^64. */
  function ParseU64(s: string): Option<u64>
  {
    var d := if |s| > 1 && s[0] == '+' then s[1..] else s;
    if |d| > 0 && AllDigits(d) && DigitsValue(d) < U64_LIMIT then Some(DigitsValue(d)) else None
  }

  /** Rust's `str::parse::<c_int>()`: an optional sign, then at least one digit, value within 32 bits. */
  function ParseI32(s: string): Option<i32>
  {
    if |s| > 1 && s[0] == '-' then
      var d := s[1..];
      if AllDigits(d) && DigitsValue(d) <= -I32_MIN then Some(0 - DigitsValue(d)) else None
    else
      var d := if |s| > 1 && s[0] == '+' then s[1..] else s;
      if |d| > 0 && AllDigits(d) && DigitsValue(d) < I32_LIMIT then Some(DigitsValue(d)) else None
  }

  lemma {:induction false} DigitsValuePrefix(s: string, c: char)
    requires AllDigits(s) && IsDigit(c)
    ensures AllDigits(s + [c]) && DigitsValue(s + [c]) == DigitsValue(s) * 10 + DigitValue(c)
  {
    assert (s + [c])[..|s + [c]| - 1] == s;
  }

  /** Printing a number yields digits only, at least one, and reading them back gives the number. */
  lemma {:induction false} NatToStringDigits(n: nat)
    ensures |NatToString(n)| > 0 && AllDigits(NatToString(n))
    ensures DigitsValue(NatToString(n)) == n
  {
    if n >= 10 {
      NatToStringDigits(n / 10);
      DigitsValuePrefix(NatToString(n / 10), DigitChar(n % 10));
    }
  }

  /** Round trip: `n.to_string().parse::<u64>() == Ok(n)`. */
  lemma ParseU64OfNatToString(n: u64)
    ensures ParseU64(NatToString(n)) == Some(n)
  {
    NatToStringDigits(n);
    var s := NatToString(n);
    assert IsDigit(s[0]);
  }

  /** Round trip for signed 32-bit values: `i.to_string().parse::<c_int>() == Ok(i)`. */
  lemma ParseI32OfIntToString(i: i32)
    ensures ParseI32(IntToString(i)) == Some(i)
  {
    if i < 0 {
      var m: nat := 0 - i as int;
      NatToStringDigits(m);
      var s := IntToString(i);
      assert s[1..] == NatToString(m);
    } else {
      NatToStringDigits(i);
      var s := NatToString(i);
      assert IsDigit(s[0]);
    }
  }

  /** Printed integers never contain the separator of the stored-token format. */
  lemma IntToStringHasNoColon(i: int)
    ensures ':' !in IntToString(i)
  {
    var n: nat := if i < 0 then -i else i;
    NatToStringDigits(n);
    assert forall k :: 0 <= k < |NatToString(n)| ==> IsDigit(NatToString(n)[k]);
    if i < 0 {
      assert IntToString(i) == "-" + NatToString(n);
    }
  }

  /** Anything the u64 parser accepts is plain digits, possibly after one '+'. */
  lemma ParseU64Accepts(s: string)
    requires ParseU64(s).Some?
    ensures |s| > 0
    ensures forall k :: 0 <= k < |s| ==> IsDigit(s[k]) || (k == 0 && s[k] == '+')
  {
  }
}
