/** The few JavaScript string conversions the playback code relies on:
    rendering an integer in a template literal, `parseInt(s, 10)`, and
    `String.prototype.includes`. */
module JsText {
  import opened Results

  predicate IsDigit(c: char) {
    '0' <= c <= '9'
  }

  function DigitChar(d: nat): (c: char)
    requires d < 10
    ensures IsDigit(c) && c as int - '0' as int == d
  {
    "0123456789"[d]
  }

  function DigitValue(c: char): (d: nat)
    requires IsDigit(c)
    ensures d < 10 && DigitChar(d) == c
  {
    c as int - '0' as int
  }

  predicate AllDigits(s: string) {
    forall i :: 0 <= i < |s| ==> IsDigit(s[i])
  }

  /** Decimal digits of a natural number, most significant first, no leading zero. */
  function NatToString(n: nat): (s: string)
    ensures |s| > 0 && AllDigits(s)
    ensures n < 10 <==> |s| == 1
  {
    if n < 10 then [DigitChar(n)] else NatToString(n / 10) + [DigitChar(n % 10)]
  }

  /** The number a string of decimal digits denotes. */
  function DigitsValue(s: string): nat
    requires AllDigits(s)
  {
    if s == [] then 0 else DigitsValue(s[..|s| - 1]) * 10 + DigitValue(s[|s| - 1])
  }

  lemma {:induction false} DigitsValueOfNatToString(n: nat)
    ensures DigitsValue(NatToString(n)) == n
  {
    if n >= 10 {
      var s := NatToString(n);
      assert s[..|s| - 1] == NatToString(n / 10);
      DigitsValueOfNatToString(n / 10);
    }
  }

  /** `${i}` for an integer `i`: a minus sign for negative values. */
  function IntToString(i: int): (s: string)
    ensures |s| > 0 && (IsDigit(s[0]) || s[0] == '-')
    ensures s[0] == '-' <==> i < 0
  {
    if i < 0 then "-" + NatToString(-i) else NatToString(i)
  }

  /** A printed integer holds only digits and its minus sign. */
  lemma IntToStringCharacters(i: int)
    ensures forall c :: c in IntToString(i) ==> IsDigit(c) || c == '-'
  {
    var s := IntToString(i);
    forall c | c in s ensures IsDigit(c) || c == '-' {
      var k :| 0 <= k < |s| && s[k] == c;
      if i < 0 {
        assert k > 0 ==> s[k] == NatToString(-i)[k - 1];
      }
    }
  }

  /** The characters `parseInt` skips before the number: the white space and
      line terminators of section 7.2 and 7.3 of ECMA-262. */
  predicate IsJsWhiteSpace(c: char) {
    var k := c as int;
    k == 0x09 || k == 0x0A || k == 0x0B || k == 0x0C || k == 0x0D || k == 0x20
    || k == 0xA0 || k == 0x1680 || (0x2000 <= k <= 0x200A) || k == 0x2028
    || k == 0x2029 || k == 0x202F || k == 0x205F || k == 0x3000 || k == 0xFEFF
  }

  function TrimStart(s: string): (t: string)
    ensures |t| <= |s|
    ensures t == [] || !IsJsWhiteSpace(t[0])
  {
    if s != [] && IsJsWhiteSpace(s[0]) then TrimStart(s[1..]) else s
  }

  /** The longest prefix of `s` made of decimal digits. */
  function DigitPrefix(s: string): (p: string)
    ensures AllDigits(p) && p <= s
    ensures |p| < |s| ==> !IsDigit(s[|p|])
  {
    if s != [] && IsDigit(s[0]) then [s[0]] + DigitPrefix(s[1..]) else []
  }

  /** A digit comes first, or right after one sign. */
  predicate StartsNumber(t: string) {
    || (t != [] && IsDigit(t[0]))
    || (|t| >= 2 && (t[0] == '-' || t[0] == '+') && IsDigit(t[1]))
  }

  /** `parseInt(s, 10)`; `None` stands for `NaN`. A number is read exactly
      when a digit follows the leading white space and at most one sign, and
      it is negative only after a minus sign. */
  function ParseInt(s: string): (r: Option<int>)
    ensures r.Some? <==> StartsNumber(TrimStart(s))
    ensures r.Some? && r.value < 0 ==> TrimStart(s)[0] == '-'
  {
    ParseSigned(TrimStart(s))
  }

  /** An optional sign followed by the digits `parseInt` reads. */
  function ParseSigned(t: string): Option<int> {
    if t != [] && t[0] == '-' then
      match ParseUnsigned(t[1..])
      case Some(v) => Some(-v)
      case None => None
    else if t != [] && t[0] == '+' then ParseUnsigned(t[1..])
    else ParseUnsigned(t)
  }

  function ParseUnsigned(t: string): (r: Option<int>)
    ensures r.Some? <==> t != [] && IsDigit(t[0])
    ensures r.Some? ==> r.value >= 0
  {
    var digits := DigitPrefix(t);
    if digits == [] then None else Some(DigitsValue(digits))
  }

  /** `parseInt` reads back every integer printed in plain decimal. */
  lemma ParseIntOfIntToString(i: int)
    ensures ParseInt(IntToString(i)) == Some(i)
  {
    assert IntToString(i) + [] == IntToString(i);
    ParseIntIgnoresTrailing(i, []);
  }

  /** Distinct integers print differently. */
  lemma IntToStringInjective(i: int, j: int)
    ensures IntToString(i) == IntToString(j) ==> i == j
  {
    ParseIntOfIntToString(i);
    ParseIntOfIntToString(j);
  }

  /** `parseInt` stops at the first character that is not a digit:
      `parseInt("120.5") == 120`. */
  lemma ParseIntIgnoresTrailing(i: int, rest: string)
    requires rest == [] || !IsDigit(rest[0])
    ensures ParseInt(IntToString(i) + rest) == Some(i)
  {
    if i < 0 {
      ParseNegative(i, rest);
    } else {
      ParseNonNegative(i, rest);
    }
  }

  lemma ParseNonNegative(i: int, rest: string)
    requires i >= 0
    requires rest == [] || !IsDigit(rest[0])
    ensures ParseInt(IntToString(i) + rest) == Some(i)
  {
    var s := NatToString(i) + rest;
    assert IntToString(i) + rest == s;
    assert s[0] == NatToString(i)[0];
    assert TrimStart(s) == s;
    UnsignedOfDigits(i, rest);
  }

  lemma ParseNegative(i: int, rest: string)
    requires i < 0
    requires rest == [] || !IsDigit(rest[0])
    ensures ParseInt(IntToString(i) + rest) == Some(i)
  {
    var n: nat := -i;
    var t := NatToString(n) + rest;
    assert IntToString(i) + rest == "-" + t;
    UnsignedOfDigits(n, rest);
    ParseMinus(t, n);
  }

  /** A minus sign negates the digits after it. */
  lemma ParseMinus(t: string, v: int)
    requires ParseUnsigned(t) == Some(v)
    ensures ParseInt("-" + t) == Some(-v)
  {
    var s := "-" + t;
    TrimStartStops(s);
    assert s[1..] == t;
  }

  lemma TrimStartStops(s: string)
    requires s != [] && !IsJsWhiteSpace(s[0])
    ensures TrimStart(s) == s
  {
  }

  lemma UnsignedOfDigits(n: nat, rest: string)
    requires rest == [] || !IsDigit(rest[0])
    ensures ParseUnsigned(NatToString(n) + rest) == Some(n)
  {
    DigitPrefixOfDigits(NatToString(n), rest);
    DigitsValueOfNatToString(n);
  }

  lemma {:induction false} DigitPrefixOfDigits(d: string, rest: string)
    requires AllDigits(d)
    requires rest == [] || !IsDigit(rest[0])
    ensures DigitPrefix(d + rest) == d
  {
    if d != [] {
      assert (d + rest)[1..] == d[1..] + rest;
      DigitPrefixOfDigits(d[1..], rest);
    }
  }

  /** `s.includes(sub)`. */
  predicate Contains(s: string, sub: string) {
    sub <= s || (s != [] && Contains(s[1..], sub))
  }

  /** `includes` finds `sub` exactly when it starts at some position of `s`. */
  lemma ContainsAt(s: string, sub: string)
    ensures Contains(s, sub) <==> exists i :: 0 <= i <= |s| && sub <= s[i..]
  {
    if Contains(s, sub) {
      var i := ContainsWitness(s, sub);
    } else {
      forall i | 0 <= i <= |s| ensures !(sub <= s[i..]) {
        if sub <= s[i..] {
          ContainsFrom(s, sub, i);
        }
      }
    }
  }

  lemma {:induction false} ContainsWitness(s: string, sub: string) returns (i: nat)
    requires Contains(s, sub)
    ensures i <= |s| && sub <= s[i..]
    decreases |s|
  {
    if sub <= s {
      i := 0;
      assert s[0..] == s;
    } else {
      var j := ContainsWitness(s[1..], sub);
      i := j + 1;
      assert s[i..] == s[1..][j..];
    }
  }

  lemma {:induction false} ContainsFrom(s: string, sub: string, i: nat)
    requires i <= |s| && sub <= s[i..]
    ensures Contains(s, sub)
    decreases i
  {
    if i > 0 {
      assert s[1..][i - 1..] == s[i..];
      ContainsFrom(s[1..], sub, i - 1);
    } else {
      assert s[0..] == s;
    }
  }
}
