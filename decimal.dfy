/** Decimal text of integers as the bot reads and writes it: Python's
    str(int) (used for JSON keys and for the canonical form of a count) and
    int(str) (used to read counts, JSON keys and user input). */
module Decimal {
  import opened Util

  function DigitChar(d: nat): (c: char)
    requires d < 10
    ensures IsAsciiDigit(c) && c as int - '0' as int == d
  {
    ('0' as int + d) as char
  }

  function DigitOf(c: char): (d: nat)
    requires IsAsciiDigit(c)
    ensures d < 10 && DigitChar(d) == c
  {
    c as int - '0' as int
  }

  /** Decimal digits of a natural number, most significant first, no leading zeros. */
  function NatText(n: nat): (s: string)
    ensures |s| >= 1 && AllDigits(s)
    ensures |s| > 1 ==> s[0] != '0'
    ensures n == 0 <==> s == "0"
    decreases n
  {
    if n < 10 then [DigitChar(n)] else NatText(n / 10) + [DigitChar(n % 10)]
  }

  /** Python's str(n). */
  function Show(n: int): string
  {
    if n < 0 then "-" + NatText(-n) else NatText(n)
  }

  /** Value of a string of decimal digits (leading zeros allowed). */
  function DigitsValue(s: string): nat
    requires AllDigits(s)
  {
    if s == [] then 0 else 10 * DigitsValue(s[..|s| - 1]) + DigitOf(s[|s| - 1])
  }

  lemma {:induction false} DigitsValueOfNatText(n: nat)
    ensures DigitsValue(NatText(n)) == n
    decreases n
  {
    if n >= 10 {
      var s := NatText(n);
      assert s[..|s| - 1] == NatText(n / 10);
      DigitsValueOfNatText(n / 10);
    }
  }

  lemma {:induction false} DigitsValuePositive(s: string)
    requires AllDigits(s) && |s| >= 1 && s[0] != '0'
    ensures DigitsValue(s) >= 1
  {
    if |s| > 1 {
      DigitsValuePositive(s[..|s| - 1]);
    }
  }

  lemma {:induction false} NatTextOfDigitsValue(s: string)
    requires AllDigits(s) && |s| >= 1 && (|s| > 1 ==> s[0] != '0')
    ensures NatText(DigitsValue(s)) == s
  {
    if |s| > 1 {
      var p := s[..|s| - 1];
      DigitsValuePositive(p);
      NatTextOfDigitsValue(p);
      var v := DigitsValue(s);
      assert v / 10 == DigitsValue(p) && v % 10 == DigitOf(s[|s| - 1]);
      assert s == p + [s[|s| - 1]];
    }
  }

  /** A run of digits in Python's integer-literal shape: digits with single
      underscores allowed between two digits. */
  predicate IsDigitGroup(b: string)
  {
    |b| > 0 && IsAsciiDigit(b[0]) && IsAsciiDigit(b[|b| - 1])
    && (forall i :: 0 <= i < |b| ==> IsAsciiDigit(b[i]) || b[i] == '_')
    && (forall i :: 0 <= i < |b| - 1 ==> b[i] == '_' ==> b[i + 1] != '_')
  }

  function DropUnderscores(b: string): (r: string)
    requires forall i :: 0 <= i < |b| ==> IsAsciiDigit(b[i]) || b[i] == '_'
    ensures AllDigits(r) && |r| <= |b|
    ensures AllDigits(b) ==> r == b
  {
    if b == [] then [] else (if b[0] == '_' then [] else [b[0]]) + DropUnderscores(b[1..])
  }

  function ParseUnsigned(b: string): Option<nat>
  {
    if IsDigitGroup(b) then Some(DigitsValue(DropUnderscores(b))) else None
  }

  /** A sign-optional digit group, with no surrounding whitespace. */
  function ParseSigned(t: string): Option<int>
  {
    if |t| > 0 && (t[0] == '-' || t[0] == '+') then
      match ParseUnsigned(t[1..])
      case None => None
      case Some(v) => Some(if t[0] == '-' then -(v as int) else v as int)
    else
      match ParseUnsigned(t)
      case None => None
      case Some(v) => Some(v)
  }

  /** Python's int(s) on text: surrounding whitespace is ignored, one optional
      sign, then a digit group. */
  function ParseInt(s: string): Option<int>
  {
    ParseSigned(Strip(s))
  }

  /** The shape str(n) produces: "0", or an optional minus sign followed by
      digits that do not start with zero. */
  predicate Canonical(s: string)
  {
    s == "0"
    || (|s| >= 1 && AllDigits(s) && s[0] != '0')
    || (|s| >= 2 && s[0] == '-' && AllDigits(s[1..]) && s[1] != '0')
  }

  lemma ShowIsCanonical(n: int)
    ensures Canonical(Show(n))
  {
    if n < 0 {
      var s := Show(n);
      assert s[1..] == NatText(-n);
    }
  }

  lemma ParseDigits(d: string, v: nat)
    requires |d| > 0 && AllDigits(d) && DigitsValue(d) == v
    ensures ParseUnsigned(d) == Some(v)
  {
    assert IsDigitGroup(d);
  }

  lemma ParsePlainDigits(t: string, v: nat)
    requires |t| > 0 && AllDigits(t) && DigitsValue(t) == v
    ensures ParseInt(t) == Some(v as int)
  {
    assert !IsSpace(t[0]) && !IsSpace(t[|t| - 1]);
    StripNoSpaceEnds(t);
    assert ParseInt(t) == ParseSigned(t);
    ParseDigits(t, v);
    assert ParseSigned(t) == Some(v as int);
  }

  lemma ParseMinusDigits(t: string, v: nat)
    requires |t| > 0 && AllDigits(t) && DigitsValue(t) == v
    ensures ParseInt("-" + t) == Some(-(v as int))
  {
    var s := "-" + t;
    assert s[1..] == t;
    assert !IsSpace(s[0]) && !IsSpace(s[|s| - 1]);
    StripNoSpaceEnds(s);
    ParseDigits(t, v);
  }

  /** int(str(n)) == n. */
  lemma ParseShow(n: int)
    ensures ParseInt(Show(n)) == Some(n)
  {
    if n < 0 {
      DigitsValueOfNatText(-n);
      ParseMinusDigits(NatText(-n), -n);
    } else {
      DigitsValueOfNatText(n);
      ParsePlainDigits(NatText(n), n);
    }
  }

  /** str is injective, so keys written with str(...) never collide. */
  lemma ShowInjective(a: int, b: int)
    ensures Show(a) == Show(b) ==> a == b
  {
    if Show(a) == Show(b) {
      ParseShow(a);
      ParseShow(b);
    }
  }

  lemma CanonicalNegativeIsStrict(s: string)
    requires Canonical(s) && s[0] == '-'
    ensures ParseInt(s).Some? && Show(ParseInt(s).value) == s
  {
    var t := s[1..];
    var v := DigitsValue(t);
    assert s == "-" + t;
    ParseMinusDigits(t, v);
    DigitsValuePositive(t);
    NatTextOfDigitsValue(t);
    assert Show(-(v as int)) == s;
  }

  lemma CanonicalPlainIsStrict(s: string)
    requires Canonical(s) && s[0] != '-'
    ensures ParseInt(s).Some? && Show(ParseInt(s).value) == s
  {
    var v := DigitsValue(s);
    ParsePlainDigits(s, v);
    NatTextOfDigitsValue(s);
    assert Show(v) == s;
  }

  /** A text is accepted as a strict integer (int() succeeds and str() gives
      the text back) exactly when it has the canonical shape. */
  lemma StrictIntegerIffCanonical(s: string)
    ensures (ParseInt(s).Some? && Show(ParseInt(s).value) == s) <==> Canonical(s)
  {
    if ParseInt(s).Some? && Show(ParseInt(s).value) == s {
      ShowIsCanonical(ParseInt(s).value);
    }
    if Canonical(s) {
      if s[0] == '-' {
        CanonicalNegativeIsStrict(s);
      } else {
        CanonicalPlainIsStrict(s);
      }
    }
  }
}
