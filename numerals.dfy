/** Decimal numerals: the digits Python's `int()` reads and the digits
    `str(n)`, `'%d'` and `'%0Nd'` write. */
module Numerals {
  import opened Wrappers
  import opened Strings

  predicate IsDigit(c: char)
  {
    '0' <= c <= '9'
  }

  predicate AllDigits(s: string)
  {
    forall i :: 0 <= i < |s| ==> IsDigit(s[i])
  }

  /** One or more decimal digits: the language of the regular expression
      `\d+` without the UNICODE flag. */
  predicate IsDigits(s: string)
  {
    s != [] && AllDigits(s)
  }

  /** A digit string with no superfluous leading zero. */
  predicate IsCanonical(s: string)
  {
    IsDigits(s) && (s[0] == '0' ==> s == "0")
  }

  function DigitValue(c: char): nat
    requires IsDigit(c)
  {
    (c as int) - ('0' as int)
  }

  function DigitChar(d: nat): (c: char)
    requires d < 10
    ensures IsDigit(c) && DigitValue(c) == d
  {
    (('0' as int) + d) as char
  }

  /** The value of a decimal numeral, most significant digit first. */
  function DigitsValue(s: string): nat
    requires AllDigits(s)
  {
    if s == [] then 0
    else DigitsValue(s[..|s| - 1]) * 10 + DigitValue(s[|s| - 1])
  }

  /** Python's `str(n)` for a non-negative integer. */
  function ShowNat(n: nat): (r: string)
    ensures IsCanonical(r)
  {
    if n < 10 then [DigitChar(n)]
    else
      var p := ShowNat(n / 10);
      assert p[0] != '0';
      p + [DigitChar(n % 10)]
  }

  /** `k` zeros. */
  function Zeros(k: nat): (r: string)
    ensures |r| == k && AllDigits(r)
    ensures forall i :: 0 <= i < k ==> r[i] == '0'
  {
    if k == 0 then [] else "0" + Zeros(k - 1)
  }

  /** `'%0*d' % (width, n)`: the numeral of `n` padded with zeros to at least
      `width` characters. */
  function ShowPadded(n: nat, width: nat): (r: string)
    ensures IsDigits(r) && |r| >= width
  {
    var s := ShowNat(n);
    if |s| >= width then s else Zeros(width - |s|) + s
  }

  /** Python 2's `int(s)` on a string: surrounding whitespace is ignored,
      then an optional sign, which whitespace may follow, and one or more
      ASCII digits; anything else raises ValueError. */
  function ParseInt(s: string): (r: Result<int, PyError>)
    ensures r.Failure? ==> r.error == ValueError
  {
    var t := Strip(s);
    if t != [] && (t[0] == '+' || t[0] == '-') && IsDigits(t[1..][LeadingSpace(t[1..])..]) then
      var u := t[1..][LeadingSpace(t[1..])..];
      var v: int := DigitsValue(u);
      Success(if t[0] == '-' then -v else v)
    else if IsDigits(t) then
      Success(DigitsValue(t))
    else
      Failure(ValueError)
  }

  // ---------------------------------------------------------------------
  // Properties
  // ---------------------------------------------------------------------

  lemma {:induction false} DigitIsNotSpace(c: char)
    requires IsDigit(c)
    ensures !IsSpace(c)
  {
    SpaceRanges(c);
  }

  /** Reading back a written numeral gives the number. */
  lemma {:induction false} ShowNatValue(n: nat)
    ensures DigitsValue(ShowNat(n)) == n
  {
    if n >= 10 {
      var s := ShowNat(n);
      var p := ShowNat(n / 10);
      assert s[..|s| - 1] == p;
      ShowNatValue(n / 10);
    }
  }

  lemma {:induction false} CanonicalPositive(s: string)
    requires IsDigits(s) && s[0] != '0'
    ensures DigitsValue(s) > 0
  {
    if |s| > 1 {
      CanonicalPositive(s[..|s| - 1]);
    }
  }

  /** Writing the value of a canonical numeral gives the numeral back, so
      `ShowNat` is a bijection between naturals and canonical numerals. */
  lemma {:induction false} ValueShowNat(s: string)
    requires IsCanonical(s)
    ensures ShowNat(DigitsValue(s)) == s
  {
    if |s| == 1 {
      assert s == [DigitChar(DigitValue(s[0]))];
    } else {
      var p := s[..|s| - 1];
      assert p[0] == s[0];
      CanonicalPositive(p);
      ValueShowNat(p);
      var n := DigitsValue(s);
      assert n / 10 == DigitsValue(p) && n % 10 == DigitValue(s[|s| - 1]);
      assert s == p + [s[|s| - 1]];
    }
  }

  /** Leading zeros do not change a numeral's value. */
  lemma {:induction false} ZerosValue(k: nat, s: string)
    requires AllDigits(s)
    ensures DigitsValue(Zeros(k) + s) == DigitsValue(s)
    decreases |s|
  {
    if s == [] {
      assert Zeros(k) + s == Zeros(k);
      ZerosOnlyValue(k);
    } else {
      var z := Zeros(k) + s;
      assert z[..|z| - 1] == Zeros(k) + s[..|s| - 1];
      ZerosValue(k, s[..|s| - 1]);
    }
  }

  lemma {:induction false} ZerosOnlyValue(k: nat)
    ensures DigitsValue(Zeros(k)) == 0
  {
    if k > 0 {
      assert Zeros(k)[..k - 1] == Zeros(k - 1) by {
        ZerosAllZero(k);
      }
      ZerosOnlyValue(k - 1);
    }
  }

  lemma {:induction false} ZerosAllZero(k: nat)
    requires k > 0
    ensures Zeros(k)[..k - 1] == Zeros(k - 1)
  {
    assert forall i :: 0 <= i < k - 1 ==> Zeros(k)[i] == Zeros(k - 1)[i];
  }

  /** A zero-padded numeral reads back as the number. */
  lemma {:induction false} PaddedValue(n: nat, width: nat)
    ensures DigitsValue(ShowPadded(n, width)) == n
  {
    ShowNatValue(n);
    var s := ShowNat(n);
    if |s| < width {
      assert ShowPadded(n, width) == Zeros(width - |s|) + s;
      ZerosValue(width - |s|, s);
    } else {
      assert ShowPadded(n, width) == s;
    }
  }

  /** A digit string contains no whitespace, so `Strip` leaves it alone. */
  lemma {:induction false} DigitsTrimmed(s: string)
    requires IsDigits(s)
    ensures Strip(s) == s && NoSpace(s)
  {
    DigitIsNotSpace(s[0]);
    DigitIsNotSpace(s[|s| - 1]);
    StripTrimmed(s);
    forall i | 0 <= i < |s| ensures !IsSpace(s[i]) {
      DigitIsNotSpace(s[i]);
    }
  }

  /** `int()` reads every digit string as its value: `int(str(n)) == n`,
      and leading zeros are accepted. */
  lemma {:induction false} ParseDigits(s: string)
    requires IsDigits(s)
    ensures ParseInt(s) == Success(DigitsValue(s))
  {
    DigitsTrimmed(s);
  }

  lemma {:induction false} ParseShowNat(n: nat)
    ensures ParseInt(ShowNat(n)) == Success(n)
  {
    ParseDigits(ShowNat(n));
    ShowNatValue(n);
  }

  lemma {:induction false} ParsePadded(n: nat, width: nat)
    ensures ParseInt(ShowPadded(n, width)) == Success(n)
  {
    ParseDigits(ShowPadded(n, width));
    PaddedValue(n, width);
  }
}
