/** Python's decimal conversions on non-negative integers, as the driver
    uses them: `str(n)`, `s.zfill(width)` and `int(s)`. */
module Decimal {
  import opened Errors

  predicate IsDigit(c: char) {
    '0' <= c <= '9'
  }

  predicate AllDigits(s: string) {
    forall i :: 0 <= i < |s| ==> IsDigit(s[i])
  }

  function DigitChar(d: nat): (c: char)
    requires d < 10
    ensures IsDigit(c)
  {
    ('0' as int + d) as char
  }

  function DigitValue(c: char): (d: nat)
    requires IsDigit(c)
    ensures d < 10
  {
    c as int - '0' as int
  }

  /** The number a string of decimal digits denotes; leading zeros allowed. */
  function DigitsValue(s: string): nat
    requires AllDigits(s)
  {
    if s == [] then 0 else DigitsValue(s[..|s| - 1]) * 10 + DigitValue(s[|s| - 1])
  }

  /** `str(n)` for a non-negative integer: no sign, no leading zero. */
  function Str(n: nat): (s: string)
    ensures s != [] && AllDigits(s)
    ensures |s| > 1 ==> s[0] != '0'
  {
    if n < 10 then [DigitChar(n)] else Str(n / 10) + [DigitChar(n % 10)]
  }

  function Zeros(k: nat): (s: string)
    ensures |s| == k && forall i :: 0 <= i < k ==> s[i] == '0'
  {
    if k == 0 then [] else Zeros(k - 1) + "0"
  }

  /** `s.zfill(width)`: pad on the left with '0' to `width` characters,
      never truncating; a leading sign stays in front of the zeros. */
  function ZFill(s: string, width: nat): string {
    if |s| >= width then s
    else if s != [] && (s[0] == '+' || s[0] == '-') then [s[0]] + Zeros(width - |s|) + s[1..]
    else Zeros(width - |s|) + s
  }

  /** `int(s)` in base 10 on a whitespace-free string: an optional sign then
      at least one digit; anything else raises `ValueError`. */
  function ParseInt(s: string): (r: Result<int>)
    ensures r.Ok? <==> exists k :: 0 <= k <= 1 && k < |s| && (k == 1 <==> s[0] in "+-") && AllDigits(s[k..])
  {
    var k := if s != [] && s[0] in "+-" then 1 else 0;
    if |s| <= k || !AllDigits(s[k..]) then Err(ValueError("invalid literal for int() with base 10"))
    else if k == 1 && s[0] == '-' then Ok(-(DigitsValue(s[1..]) as int))
    else Ok(DigitsValue(s[k..]))
  }

  lemma {:induction false} DigitsValueOfStr(n: nat)
    ensures DigitsValue(Str(n)) == n
  {
    if n >= 10 {
      var s := Str(n);
      assert s[..|s| - 1] == Str(n / 10);
      DigitsValueOfStr(n / 10);
    }
  }

  /** Leading zeros do not change the value of a digit string. */
  lemma {:induction false} DigitsValueLeadingZeros(k: nat, s: string)
    requires AllDigits(s)
    ensures AllDigits(Zeros(k) + s) && DigitsValue(Zeros(k) + s) == DigitsValue(s)
    decreases |s|
  {
    var z := Zeros(k) + s;
    if s == [] {
      assert z == Zeros(k);
      ZerosValue(k);
    } else {
      assert z[..|z| - 1] == Zeros(k) + s[..|s| - 1];
      DigitsValueLeadingZeros(k, s[..|s| - 1]);
    }
  }

  lemma {:induction false} ZerosValue(k: nat)
    ensures AllDigits(Zeros(k)) && DigitsValue(Zeros(k)) == 0
  {
    if k > 0 {
      assert Zeros(k)[..k - 1] == Zeros(k - 1);
      ZerosValue(k - 1);
    }
  }

  /** A number below 10^4 has at most four digits. */
  lemma {:induction false} StrLengthBound(n: nat)
    requires n < 10000
    ensures |Str(n)| <= 4
  {
    if n >= 10 {
      StrLengthBound3(n / 10);
    }
  }

  lemma {:induction false} StrLengthBound3(n: nat)
    requires n < 1000
    ensures |Str(n)| <= 3
  {
    if n >= 100 {
      assert |Str(n / 10)| <= 2 by {
        assert |Str(n / 100)| == 1;
      }
    } else if n >= 10 {
      assert |Str(n / 10)| == 1;
    }
  }

  /** `int(str(n).zfill(w)) == n`: zero padding survives the trip back
      through `int`, whatever the width. */
  lemma ZFillStrRoundTrip(n: nat, width: nat)
    ensures AllDigits(ZFill(Str(n), width))
    ensures ParseInt(ZFill(Str(n), width)) == Ok(n)
  {
    var s := Str(n);
    var z := ZFill(s, width);
    DigitsValueOfStr(n);
    if |s| >= width {
      assert z == s;
    } else {
      assert z == Zeros(width - |s|) + s;
      DigitsValueLeadingZeros(width - |s|, s);
    }
    assert z[0] !in "+-";
    assert z[0..] == z;
  }
}
