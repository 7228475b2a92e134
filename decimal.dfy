/**
 * Decimal spelling of integers (Python's `str`, JavaScript's `toString`) and the two parsers
 * the code applies to such spellings: Python's `int` and JavaScript's `Number`.
 */
module Decimal {
  import opened Wrappers
  import opened Strings

  function DigitValue(c: char): nat
    requires IsDigit(c)
  {
    c as int - '0' as int
  }

  function DigitChar(d: nat): (c: char)
    requires d < 10
    ensures IsDigit(c) && DigitValue(c) == d
  {
    ('0' as int + d) as char
  }

  function Pow10(k: nat): (p: nat)
    ensures p >= 1
  {
    if k == 0 then 1 else 10 * Pow10(k - 1)
  }

  /** Every character is a decimal digit (the empty string included). */
  predicate AllDigits(s: string) {
    forall k :: 0 <= k < |s| ==> IsDigit(s[k])
  }

  /** The spelling `str` gives a natural number: digits, with no leading zero unless it is "0". */
  predicate Canonical(s: string) {
    |s| >= 1 && AllDigits(s) && (s[0] == '0' ==> |s| == 1)
  }

  function ShowNat(n: nat): (s: string)
    ensures Canonical(s)
    ensures s[0] == '0' <==> n == 0
  {
    if n < 10 then [DigitChar(n)] else ShowNat(n / 10) + [DigitChar(n % 10)]
  }

  /** `str(i)` in Python, `i.toString()` in JavaScript. */
  function Show(i: int): (s: string)
    ensures i < 0 ==> s == "-" + ShowNat(-i)
    ensures i >= 0 ==> s == ShowNat(i)
  {
    if i < 0 then "-" + ShowNat(-i) else ShowNat(i)
  }

  /** The value of a string of digits, read most significant digit first. */
  function DigitsValue(s: string): nat
    requires AllDigits(s)
    decreases |s|
  {
    if |s| == 0 then 0 else 10 * DigitsValue(s[..|s| - 1]) + DigitValue(s[|s| - 1])
  }

  lemma {:induction false} DigitsValueOfShowNat(n: nat)
    ensures DigitsValue(ShowNat(n)) == n
  {
    if n >= 10 {
      DigitsValueOfShowNat(n / 10);
      var s := ShowNat(n);
      assert s[..|s| - 1] == ShowNat(n / 10);
    }
  }

  lemma {:induction false} DigitsValueAppend(a: string, b: string)
    requires AllDigits(a) && AllDigits(b)
    ensures AllDigits(a + b)
    ensures DigitsValue(a + b) == DigitsValue(a) * Pow10(|b|) + DigitsValue(b)
    decreases |b|
  {
    if |b| == 0 {
      assert a + b == a;
    } else {
      var ab := a + b;
      var b' := b[..|b| - 1];
      assert ab[..|ab| - 1] == a + b';
      DigitsValueAppend(a, b');
      var d := DigitValue(b[|b| - 1]);
      assert DigitsValue(ab) == 10 * DigitsValue(a + b') + d;
      ShiftDigit(DigitsValue(a), Pow10(|b'|), DigitsValue(b'), d);
    }
  }

  /** Appending a digit `d` to a value `x * p + y` shifts both parts by ten. Kept apart so that
      the nonlinear step is proved without the sequence facts of the caller in scope. */
  lemma ShiftDigit(x: nat, p: nat, y: nat, d: nat)
    ensures 10 * (x * p + y) + d == x * (10 * p) + (10 * y + d)
  {
  }

  lemma {:induction false} CanonicalPositive(s: string)
    requires Canonical(s) && s[0] != '0'
    ensures DigitsValue(s) >= 1
    decreases |s|
  {
    if |s| > 1 {
      CanonicalPositive(s[..|s| - 1]);
    }
  }

  /** A canonical spelling is the spelling of its own value. */
  lemma {:induction false} ShowNatOfDigits(s: string)
    requires Canonical(s)
    ensures ShowNat(DigitsValue(s)) == s
    decreases |s|
  {
    if |s| > 1 {
      var u := s[..|s| - 1];
      var d := DigitValue(s[|s| - 1]);
      assert Canonical(u);
      ShowNatOfDigits(u);
      CanonicalPositive(u);
      var n := DigitsValue(s);
      assert n == 10 * DigitsValue(u) + d;
      assert n / 10 == DigitsValue(u) && n % 10 == d;
      assert DigitChar(d) == s[|s| - 1];
      assert s == u + [s[|s| - 1]];
    }
  }

  /**
   * Python's `int(s)` on a string: an optional sign followed by at least one digit; anything
   * else raises ValueError (None here).
   */
  function ParseInt(s: string): Option<int> {
    if |s| >= 2 && s[0] == '-' && AllDigits(s[1..]) then Some(0 - DigitsValue(s[1..]) as int)
    else if |s| >= 2 && s[0] == '+' && AllDigits(s[1..]) then Some(DigitsValue(s[1..]))
    else if |s| >= 1 && AllDigits(s) then Some(DigitsValue(s))
    else None
  }

  /** `int` reads a canonical spelling of `n`, with or without a minus sign, as `n` or `-n`. */
  lemma ParseIntOfCanonical(u: string, n: nat)
    requires Canonical(u) && DigitsValue(u) == n
    ensures ParseInt(u) == Some(n)
    ensures ParseInt("-" + u) == Some(-(n as int))
  {
    var s := "-" + u;
    assert s[1..] == u;
  }

  lemma ParseIntOfShow(i: int)
    ensures ParseInt(Show(i)) == Some(i)
  {
    if i < 0 {
      DigitsValueOfShowNat(-i);
      ParseIntOfCanonical(ShowNat(-i), -i);
    } else {
      DigitsValueOfShowNat(i);
      ParseIntOfCanonical(ShowNat(i), i);
    }
  }

  /** Count of digits at the start of `s`. */
  function LeadingDigits(s: string): (n: nat)
    ensures n <= |s| && AllDigits(s[..n])
    ensures n < |s| ==> !IsDigit(s[n])
  {
    if |s| == 0 || !IsDigit(s[0]) then 0
    else
      var n := 1 + LeadingDigits(s[1..]);
      assert s[..n] == [s[0]] + s[1..][..n - 1];
      n
  }

  /** The value of the digits after a decimal point: `0.d1d2...` is `(d1 + 0.d2...) / 10`. */
  function FractionValue(d: string): real
    requires AllDigits(d)
    decreases |d|
  {
    if |d| == 0 then 0.0 else (DigitValue(d[0]) as real + FractionValue(d[1..])) / 10.0
  }

  /** An unsigned decimal literal: digits, optionally a point and more digits, at least one digit. */
  function UnsignedDecimal(t: string): Option<real> {
    var n := LeadingDigits(t);
    if n == |t| then
      (if n > 0 then Some(DigitsValue(t) as real) else None)
    else if t[n] == '.' && AllDigits(t[n + 1..]) && (n > 0 || |t| > n + 1) then
      Some(DigitsValue(t[..n]) as real + FractionValue(t[n + 1..]))
    else None
  }

  /**
   * JavaScript's `Number(s)` on a string: surrounding whitespace is ignored, blank text is 0,
   * and an optionally signed decimal literal is its value; anything else is NaN (None here).
   */
  function JsNumber(s: string): Option<real> {
    var t := Trim(s);
    if t == [] then Some(0.0)
    else if t[0] == '-' then
      (match UnsignedDecimal(t[1..]) case Some(v) => Some(-v) case None => None)
    else if t[0] == '+' then UnsignedDecimal(t[1..])
    else UnsignedDecimal(t)
  }

  lemma UnsignedDecimalOfDigits(t: string)
    requires |t| >= 1 && AllDigits(t)
    ensures UnsignedDecimal(t) == Some(DigitsValue(t) as real)
  {
    assert LeadingDigits(t) == |t|;
  }

  /** A canonical spelling, signed or not, has no whitespace to trim. */
  lemma CanonicalTrimmed(u: string)
    requires Canonical(u)
    ensures Trim(u) == u && Trim("-" + u) == "-" + u
  {
    assert IsDigit(u[0]) && IsDigit(u[|u| - 1]);
    assert Trimmed(u);
    var s := "-" + u;
    assert s[0] == '-' && s[|s| - 1] == u[|u| - 1];
    assert Trimmed(s);
  }

  /** `Number` on trimmed text that opens with a digit reads it as an unsigned literal. */
  lemma JsNumberUnsigned(t: string)
    requires Trim(t) == t && |t| > 0 && IsDigit(t[0])
    ensures JsNumber(t) == UnsignedDecimal(t)
  {
  }

  /** `Number` on trimmed text that opens with a minus sign negates the literal after it. */
  lemma JsNumberNegated(t: string, u: string)
    requires t == "-" + u && Trim(t) == t
    ensures JsNumber(t) == match UnsignedDecimal(u) case Some(v) => Some(-v) case None => None
  {
    assert t[0] == '-' && t[1..] == u;
  }

  /** `Number` reads a canonical spelling of `n`, with or without a minus sign, as `n` or `-n`. */
  lemma JsNumberOfCanonical(u: string, n: nat)
    requires Canonical(u) && DigitsValue(u) == n
    ensures JsNumber(u) == Some(n as real)
    ensures JsNumber("-" + u) == Some(-(n as real))
  {
    CanonicalTrimmed(u);
    UnsignedDecimalOfDigits(u);
    JsNumberUnsigned(u);
    JsNumberNegated("-" + u, u);
  }

  lemma JsNumberOfShow(i: int)
    ensures JsNumber(Show(i)) == Some(i as real)
  {
    if i < 0 {
      DigitsValueOfShowNat(-i);
      JsNumberOfCanonical(ShowNat(-i), -i);
    } else {
      DigitsValueOfShowNat(i);
      JsNumberOfCanonical(ShowNat(i), i);
    }
  }
}
