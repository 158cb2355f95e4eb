/**
 * Tab keys of the port registry.
 *
 * A devtools page names its port after the inspected tab (a decimal string),
 * while a content script's port carries the tab id as a number in its sender
 * metadata. JavaScript turns a number used as a property key into its decimal
 * string, so both meet under the same key. The model keys the registry by that
 * string: `IntToString` is the number-to-key conversion and `IsNumeric` is the
 * test `+str + '' === str` restricted to decimal integers.
 */
module TabKey {

  predicate IsDigit(c: char) { '0' <= c <= '9' }

  function DigitValue(c: char): nat
    requires IsDigit(c)
  {
    (c as int - '0' as int) as nat
  }

  function DigitChar(d: nat): (c: char)
    requires d < 10
    ensures IsDigit(c) && DigitValue(c) == d
  {
    ('0' as int + d) as char
  }

  /** Decimal digits without a superfluous leading zero: what `String(n)` prints for n >= 0. */
  predicate CanonicalNat(s: string)
  {
    |s| > 0 && (forall i :: 0 <= i < |s| ==> IsDigit(s[i])) && (|s| == 1 || s[0] != '0')
  }

  /**
   * `+str + '' === str` over the decimal integers: the string reads back as
   * itself after a trip through a number. "-0" is excluded, since -0 prints as "0".
   */
  predicate IsNumeric(s: string)
    ensures IsNumeric(s) ==> |s| > 0 && (s[0] == '0' ==> s == "0")
    ensures IsNumeric(s) ==> s != "-0" && (s[0] == '-' ==> |s| >= 2 && s[1] != '0')
  {
    CanonicalNat(s) || (|s| >= 2 && s[0] == '-' && CanonicalNat(s[1..]) && s[1..] != "0")
  }

  function NatToString(n: nat): (s: string)
    ensures |s| > 0 && IsDigit(s[0])
    decreases n
  {
    if n < 10 then [DigitChar(n)] else NatToString(n / 10) + [DigitChar(n % 10)]
  }

  /** The property key JavaScript uses for the number `n`. */
  function IntToString(n: int): (s: string)
    ensures |s| > 0 && (s[0] == '-' <==> n < 0)
  {
    if n < 0 then "-" + NatToString(-n) else NatToString(n)
  }

  function ParseNat(s: string): nat
    requires forall i :: 0 <= i < |s| ==> IsDigit(s[i])
    decreases |s|
  {
    if |s| == 0 then 0 else ParseNat(s[..|s| - 1]) * 10 + DigitValue(s[|s| - 1])
  }

  /** The unary `+` of JavaScript on a numeric port name. */
  function ParseInt(s: string): (n: int)
    requires IsNumeric(s)
    ensures n < 0 <==> s[0] == '-'
  {
    if CanonicalNat(s) then ParseNat(s)
    else
      ParseNatPositive(s[1..]);
      -(ParseNat(s[1..]) as int)
  }

  lemma {:induction false} NatToStringCanonical(n: nat)
    ensures CanonicalNat(NatToString(n))
    ensures NatToString(n)[0] == '0' <==> n == 0
    decreases n
  {
    if n >= 10 {
      NatToStringCanonical(n / 10);
      var s := NatToString(n);
      assert s == NatToString(n / 10) + [DigitChar(n % 10)];
      assert s[0] == NatToString(n / 10)[0];
    }
  }

  lemma {:induction false} ParseNatToString(n: nat)
    ensures CanonicalNat(NatToString(n))
    ensures ParseNat(NatToString(n)) == n
    decreases n
  {
    NatToStringCanonical(n);
    if n >= 10 {
      ParseNatToString(n / 10);
      var s := NatToString(n);
      assert s[..|s| - 1] == NatToString(n / 10);
    }
  }

  lemma {:induction false} ParseNatPositive(s: string)
    requires CanonicalNat(s) && s[0] != '0'
    ensures ParseNat(s) > 0
    decreases |s|
  {
    if |s| > 1 {
      var p := s[..|s| - 1];
      assert p[0] == s[0];
      ParseNatPositive(p);
    }
  }

  lemma {:induction false} NatToStringParse(s: string)
    requires CanonicalNat(s)
    ensures NatToString(ParseNat(s)) == s
    decreases |s|
  {
    if |s| > 1 {
      var p := s[..|s| - 1];
      assert p[0] == s[0];
      assert CanonicalNat(p);
      ParseNatPositive(p);
      NatToStringParse(p);
      var n := ParseNat(s);
      var d := DigitValue(s[|s| - 1]);
      assert n == ParseNat(p) * 10 + d;
      assert n / 10 == ParseNat(p) && n % 10 == d;
      assert DigitChar(d) == s[|s| - 1];
      assert s == p + [s[|s| - 1]];
    } else {
      assert s == [DigitChar(DigitValue(s[0]))];
    }
  }

  /** Every number turns into a key that `isNumeric` accepts and `+` reads back. */
  lemma IntToStringRoundTrip(n: int)
    ensures IsNumeric(IntToString(n))
    ensures ParseInt(IntToString(n)) == n
  {
    ParseNatToString(if n < 0 then -n else n);
    NatToStringCanonical(if n < 0 then -n else n);
    if n < 0 {
      var s := IntToString(n);
      assert s[1..] == NatToString(-n);
      assert s[0] == '-';
      assert !CanonicalNat(s);
    }
  }

  /** A numeric port name is exactly the key of the number it denotes. */
  lemma ParseIntRoundTrip(s: string)
    requires IsNumeric(s)
    ensures IntToString(ParseInt(s)) == s
  {
    if CanonicalNat(s) {
      NatToStringParse(s);
    } else {
      NatToStringParse(s[1..]);
      ParseNatPositive(s[1..]);
      assert s == "-" + s[1..];
    }
  }

  /** `isNumeric` accepts a port name iff it is the key of some tab number. */
  lemma IsNumericIffKey(s: string)
    ensures IsNumeric(s) <==> exists n :: IntToString(n) == s
  {
    if IsNumeric(s) {
      ParseIntRoundTrip(s);
    }
    if exists n :: IntToString(n) == s {
      var n :| IntToString(n) == s;
      IntToStringRoundTrip(n);
    }
  }

  /** Distinct tab numbers never share a registry key. */
  lemma IntToStringInjective(a: int, b: int)
    ensures IntToString(a) == IntToString(b) ==> a == b
  {
    IntToStringRoundTrip(a);
    IntToStringRoundTrip(b);
  }
}
