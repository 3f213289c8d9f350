/**
 * `IsValidUint64` of native/src/discord_client.cc:12-24, repeated character for character in
 * native/src/discord_client_new.cc:11-26: a decimal string is accepted iff it is non-empty,
 * all digits, at most 20 characters, and, at exactly 20, not greater than the text of 2^64 - 1
 * under `std::string` ordering.
 */
module Uint64Text {
  import opened Wrappers
  import opened Decimal
  import opened TextOrder

  /** "18446744073709551615", the decimal text of 2^64 - 1. */
  const MAX_TEXT: string := "1844674407" + "3709551615"

  function Pow10(n: nat): (r: nat)
    ensures r >= 1
  {
    if n == 0 then 1 else 10 * Pow10(n - 1)
  }

  /** The acceptance rule, check by check. */
  predicate ValidUint64(s: string)
  {
    |s| > 0 && AllDigits(s) && |s| <= 20 && (|s| == 20 ==> !LexLess(MAX_TEXT, s))
  }

  /**
   * `strtoull` on a string of digits: their value, or ULLONG_MAX when it does not fit. The end
   * pointer is always at the terminating NUL for such a string.
   */
  function Strtoull(s: string): (r: u64)
    requires AllDigits(s)
    ensures DigitsValue(s) < U64_LIMIT ==> r == DigitsValue(s)
  {
    if DigitsValue(s) < U64_LIMIT then DigitsValue(s) else U64_LIMIT - 1
  }

  /** The validator, with its character loop. `outValue` is meaningful only when `ok`. */
  method IsValidUint64(str: string) returns (ok: bool, outValue: u64)
    ensures ok <==> ValidUint64(str)
    ensures ok ==> outValue == DigitsValue(str)
  {
    outValue := 0;
    if |str| == 0 {
      return false, outValue;
    }
    var i := 0;
    while i < |str|
      invariant 0 <= i <= |str|
      invariant forall k :: 0 <= k < i ==> IsDigit(str[k])
    {
      if !IsDigit(str[i]) {
        return false, outValue;
      }
      i := i + 1;
    }
    if |str| > 20 {
      return false, outValue;
    }
    if |str| == 20 && LexLess(MAX_TEXT, str) {
      return false, outValue;
    }
    ValidMeansFits(str);
    outValue := Strtoull(str);
    ok := true;
  }

  // ---------------------------------------------------------------- why the rule is right

  lemma {:induction false} DigitsValueBound(s: string)
    requires AllDigits(s)
    ensures DigitsValue(s) < Pow10(|s|)
  {
    if s != [] {
      DigitsValueBound(s[..|s| - 1]);
    }
  }

  /** The leading digit weighs 10^(n-1). */
  lemma {:induction false} DigitsValueFront(s: string)
    requires AllDigits(s) && |s| > 0
    ensures DigitsValue(s) == DigitValue(s[0]) * Pow10(|s| - 1) + DigitsValue(s[1..])
  {
    if |s| > 1 {
      var init, tail := s[..|s| - 1], s[1..];
      var d0, dl := DigitValue(s[0]), DigitValue(s[|s| - 1]);
      DigitsValueFront(init);
      assert DigitsValue(tail) == DigitsValue(init[1..]) * 10 + dl by {
        assert init[1..] == tail[..|tail| - 1];
      }
      FrontArith(d0, Pow10(|s| - 2), DigitsValue(init[1..]), dl);
    }
  }

  lemma FrontArith(d0: nat, p: nat, x: nat, dl: nat)
    ensures (d0 * p + x) * 10 + dl == d0 * (10 * p) + (x * 10 + dl)
  {
  }

  /** For digit strings of equal length, `std::string` order is numeric order. */
  lemma {:induction false} LexOrderIsNumeric(a: string, b: string)
    requires |a| == |b| && AllDigits(a) && AllDigits(b)
    ensures LexLess(a, b) <==> DigitsValue(a) < DigitsValue(b)
    decreases |a|
  {
    if a != [] {
      var ta, tb := a[1..], b[1..];
      LexOrderIsNumeric(ta, tb);
      DigitsValueFront(a);
      DigitsValueFront(b);
      DigitsValueBound(ta);
      DigitsValueBound(tb);
      var p := Pow10(|a| - 1);
      var da, db := DigitValue(a[0]), DigitValue(b[0]);
      if da < db {
        MulStep(da, db, p);
      } else if da > db {
        MulStep(db, da, p);
      }
    }
  }

  /** A larger leading digit outweighs any tail. */
  lemma MulStep(a: nat, b: nat, p: nat)
    requires a < b
    ensures a * p + p <= b * p
  {
    var d: nat := b - a - 1;
    assert b == a + 1 + d;
    assert b * p == a * p + p + d * p;
  }

  lemma MaxTextDigits()
    ensures |MAX_TEXT| == 20 && AllDigits(MAX_TEXT)
  {
    assert MAX_TEXT == "18446744073709551615";
  }

  /** One more digit: the value so far times ten, plus the digit. */
  lemma StepValue(s: string, k: nat, v: nat)
    requires AllDigits(s) && k < |s| && DigitsValue(s[..k]) == v
    ensures DigitsValue(s[..k + 1]) == v * 10 + DigitValue(s[k])
  {
    assert s[..k + 1] == s[..k] + [s[k]];
    DigitsValuePrefix(s[..k], s[k]);
  }

  lemma MaxTextValue()
    ensures AllDigits(MAX_TEXT) && |MAX_TEXT| == 20
    ensures DigitsValue(MAX_TEXT) == U64_LIMIT - 1
  {
    var s := MAX_TEXT;
    MaxTextDigits();
    assert s[..0] == [];
    StepValue(s, 0, 0);
    StepValue(s, 1, 1);
    StepValue(s, 2, 18);
    StepValue(s, 3, 184);
    StepValue(s, 4, 1844);
    StepValue(s, 5, 18446);
    StepValue(s, 6, 184467);
    StepValue(s, 7, 1844674);
    StepValue(s, 8, 18446744);
    StepValue(s, 9, 184467440);
    StepValue(s, 10, 1844674407);
    StepValue(s, 11, 18446744073);
    StepValue(s, 12, 184467440737);
    StepValue(s, 13, 1844674407370);
    StepValue(s, 14, 18446744073709);
    StepValue(s, 15, 184467440737095);
    StepValue(s, 16, 1844674407370955);
    StepValue(s, 17, 18446744073709551);
    StepValue(s, 18, 184467440737095516);
    StepValue(s, 19, 1844674407370955161);
    assert s[..20] == s;
  }

  lemma Pow10Of19()
    ensures Pow10(19) == 10000000000000000000
  {
    assert Pow10(0) == 1;
    assert Pow10(1) == 10;
    assert Pow10(2) == 100;
    assert Pow10(3) == 1000;
    assert Pow10(4) == 10000;
    assert Pow10(5) == 100000;
    assert Pow10(6) == 1000000;
    assert Pow10(7) == 10000000;
    assert Pow10(8) == 100000000;
    assert Pow10(9) == 1000000000;
    assert Pow10(10) == 10000000000;
    assert Pow10(11) == 100000000000;
    assert Pow10(12) == 1000000000000;
    assert Pow10(13) == 10000000000000;
    assert Pow10(14) == 100000000000000;
    assert Pow10(15) == 1000000000000000;
    assert Pow10(16) == 10000000000000000;
    assert Pow10(17) == 100000000000000000;
    assert Pow10(18) == 1000000000000000000;
    assert Pow10(19) == 10000000000000000000;
  }

  /** What the checks add up to: at most 20 digits whose value fits in 64 bits. */
  lemma ValidMeansFits(s: string)
    ensures ValidUint64(s) <==> |s| > 0 && |s| <= 20 && AllDigits(s) && DigitsValue(s) < U64_LIMIT
  {
    if |s| > 0 && |s| <= 20 && AllDigits(s) {
      if |s| == 20 {
        MaxTextValue();
        LexOrderIsNumeric(MAX_TEXT, s);
      } else {
        DigitsValueBound(s);
        Pow10Monotone(|s|, 19);
        Pow10Of19();
      }
    }
  }

  lemma {:induction false} Pow10Monotone(m: nat, n: nat)
    requires m <= n
    ensures Pow10(m) <= Pow10(n)
    decreases n
  {
    if m < n {
      Pow10Monotone(m, n - 1);
    }
  }

  /** Whatever the validator accepts, Rust's `parse::<u64>` reads as the same number. */
  lemma AcceptedAlsoParses(s: string)
    requires ValidUint64(s)
    ensures ParseU64(s) == Some(DigitsValue(s))
  {
    ValidMeansFits(s);
    assert IsDigit(s[0]);
  }

  /** The C++ rule is stricter than Rust's: no '+' sign, no zero padding past 20 characters. */
  lemma StricterThanRust()
    ensures ParseU64("+1") == Some(1) && !ValidUint64("+1")
    ensures ParseU64("000000000000000000001") == Some(1) && !ValidUint64("000000000000000000001")
  {
    var padded := "000000000000000000001";
    assert AllDigits(padded);
    assert DigitsValue(padded) == 1 by {
      var k := |padded| - 1;
      assert forall j :: 0 <= j <= k ==> AllDigits(padded[..j]);
      ZeroPrefix(padded[..k]);
      assert padded[..k] == padded[..|padded| - 1];
    }
    assert !IsDigit("+1"[0]);
    assert "+1"[1..] == "1";
    assert DigitsValue("1") == 1 by {
      assert "1"[..0] == [];
    }
  }

  lemma {:induction false} ZeroPrefix(z: string)
    requires forall j :: 0 <= j < |z| ==> z[j] == '0'
    ensures AllDigits(z) && DigitsValue(z) == 0
  {
    if z != [] {
      ZeroPrefix(z[..|z| - 1]);
    }
  }
}
