/**
 * The string primitives the clinic forms rely on: String.prototype.trim,
 * parseInt with radix 10 (section 19.2.5 of ECMA-262) and the decimal text
 * JavaScript gives an integral Number when it is put in a template literal.
 * Strings are sequences of code points; none of the white-space code points
 * lies outside the Basic Multilingual Plane, so UTF-16 does not matter here.
 */
module Text {
  import opened Wrappers

  /**
   * The code points of the WhiteSpace and LineTerminator tables of ECMA-262
   * (sections 12.2 and 12.3), listed one by one.
   */
  const WhiteSpaceCodePoints: set<char> := {
    '\t', '\U{000B}', '\U{000C}', ' ', '\U{00A0}', '\U{FEFF}',
    '\U{1680}', '\U{2000}', '\U{2001}', '\U{2002}', '\U{2003}', '\U{2004}', '\U{2005}',
    '\U{2006}', '\U{2007}', '\U{2008}', '\U{2009}', '\U{200A}', '\U{202F}', '\U{205F}', '\U{3000}',
    '\n', '\r', '\U{2028}', '\U{2029}'
  }

  /** The white space both trim and parseInt skip. */
  predicate IsWhiteSpace(c: char)
    ensures IsWhiteSpace(c) <==> c in WhiteSpaceCodePoints
  {
    || c == '\t' || c == '\n' || c == '\U{000B}' || c == '\U{000C}' || c == '\r'
    || c == ' ' || c == '\U{00A0}' || c == '\U{1680}'
    || ('\U{2000}' <= c <= '\U{200A}')
    || c == '\U{2028}' || c == '\U{2029}' || c == '\U{202F}' || c == '\U{205F}'
    || c == '\U{3000}' || c == '\U{FEFF}'
  }

  predicate AllWhiteSpace(s: string) {
    forall k | 0 <= k < |s| :: IsWhiteSpace(s[k])
  }

  /** Neither end of s is white space: what trim returns. */
  predicate IsTrimmed(s: string) {
    s == [] || (!IsWhiteSpace(s[0]) && !IsWhiteSpace(s[|s| - 1]))
  }

  /** Removes the leading white space: the suffix of s that starts at its first other character. */
  function TrimStart(s: string): (r: string)
    ensures |r| <= |s|
    ensures AllWhiteSpace(s[..|s| - |r|])
    ensures r == [] || !IsWhiteSpace(r[0])
  {
    if s != [] && IsWhiteSpace(s[0]) then TrimStart(s[1..]) else s
  }

  /** What TrimStart keeps is the rest of s, unchanged. */
  lemma {:induction false} TrimStartSuffix(s: string)
    ensures TrimStart(s) == s[|s| - |TrimStart(s)|..]
  {
    if s != [] && IsWhiteSpace(s[0]) {
      TrimStartSuffix(s[1..]);
    }
  }

  /** Removes the trailing white space: the prefix of s that ends at its last other character. */
  function TrimEnd(s: string): (r: string)
    ensures |r| <= |s| && r == s[..|r|]
    ensures AllWhiteSpace(s[|r|..])
    ensures r == [] || !IsWhiteSpace(r[|r| - 1])
  {
    if s != [] && IsWhiteSpace(s[|s| - 1]) then
      var r := TrimEnd(s[..|s| - 1]);
      assert s[|r|..] == s[..|s| - 1][|r|..] + [s[|s| - 1]];
      r
    else
      s
  }

  /** String.prototype.trim. */
  function Trim(s: string): (r: string)
    ensures IsTrimmed(r)
    ensures |r| <= |s|
  {
    TrimEnd(TrimStart(s))
  }

  /** trim gives the empty string exactly when every character is white space. */
  lemma TrimEmptyIff(s: string)
    ensures Trim(s) == [] <==> AllWhiteSpace(s)
  {
    var t := TrimStart(s);
    TrimStartSuffix(s);
    if Trim(s) == [] {
      assert AllWhiteSpace(t[0..]);
      assert s == s[..|s| - |t|] + t;
    }
  }

  /**
   * trim strips white-space padding and nothing else: a trimmed string
   * padded on both sides with white space trims back to itself.
   */
  lemma TrimPadded(front: string, t: string, back: string)
    requires AllWhiteSpace(front) && AllWhiteSpace(back) && IsTrimmed(t)
    ensures Trim(front + t + back) == t
  {
    var s := front + t + back;
    if t == [] {
      assert AllWhiteSpace(s) by {
        forall k | 0 <= k < |s| ensures IsWhiteSpace(s[k]) {
          if k < |front| { assert s[k] == front[k]; } else { assert s[k] == back[k - |front|]; }
        }
      }
      TrimEmptyIff(s);
    } else {
      var u := TrimStart(s);
      TrimStartSuffix(s);
      var i := |s| - |u|;
      assert s[|front|] == t[0];
      assert i == |front|;
      assert u == t + back;
      var r := TrimEnd(u);
      assert u[|t| - 1] == t[|t| - 1];
      assert |r| == |t|;
    }
  }

  /** A string that is already trimmed is left as it is. */
  lemma TrimTrimmed(t: string)
    requires IsTrimmed(t)
    ensures Trim(t) == t
  {
  }

  predicate IsDigit(c: char) {
    '0' as int <= c as int <= '9' as int
  }

  predicate AllDigits(s: string) {
    forall k | 0 <= k < |s| :: IsDigit(s[k])
  }

  function DigitValue(c: char): (d: nat)
    requires IsDigit(c)
    ensures d < 10
  {
    (c as int) - ('0' as int)
  }

  /** The longest prefix of s made of decimal digits. */
  function DigitPrefix(s: string): (r: string)
    ensures |r| <= |s| && r == s[..|r|]
    ensures AllDigits(r)
    ensures |r| == |s| || !IsDigit(s[|r|])
  {
    if s != [] && IsDigit(s[0]) then [s[0]] + DigitPrefix(s[1..]) else []
  }

  /** The value of a string of decimal digits, most significant first. */
  function DigitsValue(ds: string): nat
    requires AllDigits(ds)
  {
    if ds == [] then 0 else 10 * DigitsValue(ds[..|ds| - 1]) + DigitValue(ds[|ds| - 1])
  }

  /**
   * parseInt(s, 10): skip leading white space, take one optional sign, then
   * the longest run of decimal digits; None stands for NaN, the result when
   * that run is empty. Whatever follows the digits is ignored.
   */
  function ParseInt10(s: string): (r: Option<int>)
    ensures r.Some? <==> StartsWithNumber(TrimStart(s))
    ensures r.Some? && r.value < 0 ==> TrimStart(s)[0] == '-'
  {
    ParseSigned(TrimStart(s))
  }

  /** A decimal digit, possibly after one sign: what parseInt needs to read a number. */
  predicate StartsWithNumber(t: string) {
    || (t != [] && IsDigit(t[0]))
    || (|t| >= 2 && (t[0] == '-' || t[0] == '+') && IsDigit(t[1]))
  }

  /**
   * parseInt(s, 10) once the leading white space is gone: NaN exactly when
   * no digit follows the optional sign, negative only after a '-'.
   */
  function ParseSigned(t: string): (r: Option<int>)
    ensures r.Some? <==> StartsWithNumber(t)
    ensures r.Some? && r.value < 0 ==> t[0] == '-'
    ensures r.Some? && t[0] == '-' ==> r.value <= 0
  {
    if t != [] && t[0] == '-' then
      match ParseDigits(t[1..])
      case None => None
      case Some(magnitude) => Some(-(magnitude as int))
    else if t != [] && t[0] == '+' then ParseDigits(t[1..]) else ParseDigits(t)
  }

  /** The value of the run of digits u starts with; None when it starts with none. */
  function ParseDigits(u: string): (r: Option<nat>)
    ensures r.Some? <==> u != [] && IsDigit(u[0])
  {
    var digits := DigitPrefix(u);
    if digits == [] then None else Some(DigitsValue(digits))
  }

  function DigitChar(d: nat): (c: char)
    requires d < 10
    ensures IsDigit(c) && DigitValue(c) == d
  {
    (('0' as int) + d) as char
  }

  /** The decimal digits of n, without leading zeros. */
  function NaturalText(n: nat): (r: string)
    ensures r != [] && AllDigits(r)
    ensures |r| == 1 || r[0] != '0'
    ensures r[0] == '0' <==> n == 0
  {
    if n < 10 then [DigitChar(n)] else NaturalText(n / 10) + [DigitChar(n % 10)]
  }

  /** The text of an integral Number: a '-' for a negative value, then its digits. */
  function DecimalText(n: int): (r: string)
    ensures r != [] && (r[0] == '-' <==> n < 0)
    ensures var digits := if n < 0 then r[1..] else r;
            digits != [] && AllDigits(digits) && (|digits| == 1 || digits[0] != '0')
  {
    if n < 0 then "-" + NaturalText(-n) else NaturalText(n)
  }

  lemma {:induction false} NaturalTextValue(n: nat)
    ensures DigitsValue(NaturalText(n)) == n
  {
    if n >= 10 {
      NaturalTextValue(n / 10);
      var s := NaturalText(n);
      assert s[..|s| - 1] == NaturalText(n / 10);
    }
  }

  /** The digit run of a string of digits followed by anything but a digit is those digits. */
  lemma {:induction false} DigitPrefixOfDigits(ds: string, rest: string)
    requires AllDigits(ds)
    requires rest == [] || !IsDigit(rest[0])
    ensures DigitPrefix(ds + rest) == ds
  {
    if ds == [] {
      assert ds + rest == rest;
    } else {
      assert (ds + rest)[0] == ds[0];
      assert (ds + rest)[1..] == ds[1..] + rest;
      DigitPrefixOfDigits(ds[1..], rest);
    }
  }

  /** Leading white space does not change what parseInt reads. */
  lemma {:induction false} ParseSkipsWhiteSpace(front: string, s: string)
    requires AllWhiteSpace(front)
    ensures TrimStart(front + s) == TrimStart(s)
    ensures ParseInt10(front + s) == ParseInt10(s)
  {
    if front == [] {
      assert front + s == s;
    } else {
      assert (front + s)[0] == front[0];
      assert (front + s)[1..] == front[1..] + s;
      ParseSkipsWhiteSpace(front[1..], s);
    }
  }

  /** parseInt reads back the decimal text of any integer. */
  lemma ParseDecimal(n: int)
    ensures ParseInt10(DecimalText(n)) == Some(n)
  {
    ParseDecimalText([], n, []);
    assert [] + DecimalText(n) + [] == DecimalText(n);
  }

  lemma SignOrDigitIsNotWhiteSpace(c: char)
    requires c == '-' || IsDigit(c)
    ensures !IsWhiteSpace(c)
  {
  }

  /** parseInt reads back the decimal text of any integer when a non-digit tail, if any, follows it. */
  lemma ParseSignedDecimalText(n: int, rest: string)
    requires rest == [] || !IsDigit(rest[0])
    ensures ParseSigned(DecimalText(n) + rest) == Some(n)
  {
    if n < 0 {
      ParseNegativeDecimalText(n, rest);
    } else {
      ParseNonNegativeDecimalText(n, rest);
    }
  }

  /** The negative case: '-', the digits of -n, then the tail. */
  lemma ParseNegativeDecimalText(n: int, rest: string)
    requires n < 0
    requires rest == [] || !IsDigit(rest[0])
    ensures ParseSigned(DecimalText(n) + rest) == Some(n)
  {
    ParseNaturalText(-n, rest);
    ParseSignedValue("-", NaturalText(-n) + rest, -n);
    NegativeDecimalTextSplits(n, rest);
  }

  /** Negative decimal text is a minus sign, then the digits of the magnitude. */
  lemma NegativeDecimalTextSplits(n: int, rest: string)
    requires n < 0
    ensures DecimalText(n) + rest == "-" + (NaturalText(-n) + rest)
  {
  }

  /** The digits of m, then a tail that does not start with a digit, read back as m. */
  lemma ParseNaturalText(m: nat, rest: string)
    requires rest == [] || !IsDigit(rest[0])
    ensures ParseDigits(NaturalText(m) + rest) == Some(m)
  {
    NaturalTextValue(m);
    ParseDigitsOfDigits(NaturalText(m), rest);
  }

  /** The non-negative case: the digits of n, then the tail. */
  lemma ParseNonNegativeDecimalText(n: nat, rest: string)
    requires rest == [] || !IsDigit(rest[0])
    ensures ParseSigned(DecimalText(n) + rest) == Some(n)
  {
    NaturalTextValue(n);
    ParseSignedUnsigned(NaturalText(n), rest);
  }

  /**
   * After the blanks, parseInt takes one optional sign and the digit run
   * that follows it, and negates the value only for '-': "+30" is 30 and
   * "-007" is -7. ParseDigitsOfDigits gives v for any run of digits.
   */
  lemma ParseSignedValue(sign: string, u: string, v: nat)
    requires sign == "" || sign == "+" || sign == "-"
    requires ParseDigits(u) == Some(v)
    ensures ParseSigned(sign + u) == Some(if sign == "-" then -(v as int) else v as int)
  {
    if sign == "" {
      assert sign + u == u;
    } else {
      var t := sign + u;
      assert t[0] == sign[0] && t[1..] == u;
    }
  }

  /** The same from the raw text: any white space, one optional sign, then the digits. */
  lemma ParseInt10Value(front: string, sign: string, u: string, v: nat)
    requires AllWhiteSpace(front)
    requires sign == "" || sign == "+" || sign == "-"
    requires ParseDigits(u) == Some(v)
    ensures ParseInt10(front + sign + u) == Some(if sign == "-" then -(v as int) else v as int)
  {
    var t := sign + u;
    assert front + sign + u == front + t;
    ParseSkipsWhiteSpace(front, t);
    assert t[0] == (if sign == "" then u[0] else sign[0]);
    assert !IsWhiteSpace(t[0]);
    ParseSignedValue(sign, u, v);
  }

  /** A run of digits, followed by a non-digit if anything, reads as its value. */
  lemma ParseDigitsOfDigits(ds: string, rest: string)
    requires ds != [] && AllDigits(ds)
    requires rest == [] || !IsDigit(rest[0])
    ensures ParseDigits(ds + rest) == Some(DigitsValue(ds))
  {
    DigitPrefixOfDigits(ds, rest);
  }

  /** parseInt reads a run of digits, followed by a non-digit if anything, as its value. */
  lemma ParseSignedUnsigned(ds: string, rest: string)
    requires ds != [] && AllDigits(ds)
    requires rest == [] || !IsDigit(rest[0])
    ensures ParseSigned(ds + rest) == Some(DigitsValue(ds))
  {
    ParseDigitsOfDigits(ds, rest);
    assert (ds + rest)[0] == ds[0];
  }

  /**
   * parseInt reads back the decimal text of any integer, even when white
   * space precedes it and a non-digit tail follows it.
   */
  lemma ParseDecimalText(front: string, n: int, rest: string)
    requires AllWhiteSpace(front)
    requires rest == [] || !IsDigit(rest[0])
    ensures ParseInt10(front + DecimalText(n) + rest) == Some(n)
  {
    var s := DecimalText(n) + rest;
    assert front + DecimalText(n) + rest == front + s;
    ParseSkipsWhiteSpace(front, s);
    var c := s[0];
    assert c == '-' || IsDigit(c) by {
      if n >= 0 {
        assert c == NaturalText(n)[0];
      }
    }
    SignOrDigitIsNotWhiteSpace(c);
    ParseSignedDecimalText(n, rest);
  }

  /** parseInt skips leading blanks: " 42" reads as 42. */
  lemma ParseInt10LeadingBlank()
    ensures ParseInt10(" 42") == Some(42)
  {
    assert NaturalText(4) == "4";
    assert DecimalText(42) == "42";
    assert AllWhiteSpace(" ");
    ParseDecimalText(" ", 42, "");
    assert " " + "42" + "" == " 42";
  }

  /** parseInt ignores what follows the digits: "30abc" reads as 30. */
  lemma ParseInt10TrailingJunk()
    ensures ParseInt10("30abc") == Some(30)
  {
    assert NaturalText(3) == "3";
    assert DecimalText(30) == "30";
    ParseDecimalText("", 30, "abc");
    assert "" + "30" + "abc" == "30abc";
  }

  /** parseInt honours a leading minus: "-5" reads as -5. */
  lemma ParseInt10Negative()
    ensures ParseInt10("-5") == Some(-5)
  {
    assert NaturalText(5) == [DigitChar(5)];
    assert DecimalText(-5) == "-5";
    ParseDecimalText("", -5, "");
    assert "" + "-5" + "" == "-5";
  }

  /** parseInt accepts an explicit plus: " +30" reads as 30. */
  lemma ParseInt10Plus()
    ensures ParseInt10(" +30") == Some(30)
  {
    assert AllWhiteSpace(" ");
    assert ParseDigits("30") == Some(30) by {
      ParseDigitsOfDigits("30", "");
      assert "30" + "" == "30";
    }
    ParseInt10Value(" ", "+", "30", 30);
    assert " " + "+" + "30" == " +30";
  }

  /** parseInt gives NaN when no digit follows the blanks and the sign. */
  lemma ParseInt10Rejects()
    ensures ParseInt10("abc") == None
    ensures ParseInt10("") == None
    ensures ParseInt10(" -") == None
  {
  }
}
