/**
 * JavaScript number <-> string conversions used by the pages: `n.toString()`
 * (and `${n}` in a template literal) on an integer, and the global
 * `parseInt(s)` with no radix argument, as section 19.2.5 of ECMA-262
 * defines it.
 */
module JsNumber {
  import opened Wrappers
  import opened JsString

  predicate IsDecimalDigit(c: char) {
    '0' <= c <= '9'
  }

  /** The value of `c` as a digit of radix 36 (`0-9`, `a-z`, `A-Z`); 36 for any other character. */
  function DigitValue(c: char): nat {
    if '0' <= c <= '9' then c as nat - '0' as nat
    else if 'a' <= c <= 'z' then c as nat - 'a' as nat + 10
    else if 'A' <= c <= 'Z' then c as nat - 'A' as nat + 10
    else 36
  }

  predicate IsRadixDigit(c: char, radix: nat) {
    DigitValue(c) < radix
  }

  /** The longest prefix of `s` made of digits of `radix`. */
  function DigitPrefix(s: string, radix: nat): string {
    if s != [] && IsRadixDigit(s[0], radix) then [s[0]] + DigitPrefix(s[1..], radix) else []
  }

  /** The number that a digit string denotes in `radix`, most significant digit first. */
  function ValueOf(digits: string, radix: nat): nat {
    if digits == [] then 0
    else ValueOf(digits[..|digits| - 1], radix) * radix + DigitValue(digits[|digits| - 1])
  }

  /**
   * The digits after the sign: radix-16 digits after a `0x`/`0X` prefix and
   * decimal digits otherwise, up to the first character that is not a digit.
   * `None` when there is no digit.
   */
  function ParseUnsigned(u: string): Option<nat> {
    var hex := |u| >= 2 && u[0] == '0' && (u[1] == 'x' || u[1] == 'X');
    var radix := if hex then 16 else 10;
    var digits := DigitPrefix(if hex then u[2..] else u, radix);
    if digits == [] then None else Some(ValueOf(digits, radix))
  }

  /**
   * `parseInt(s)`: skip leading whitespace, take an optional sign, then read
   * the digits as `ParseUnsigned` does. `None` is `NaN`.
   */
  function ParseInt(s: string): Option<int> {
    var t := TrimStart(s);
    var negative := t != [] && t[0] == '-';
    var u := if t != [] && (t[0] == '-' || t[0] == '+') then t[1..] else t;
    match ParseUnsigned(u)
    case None => None
    case Some(v) =>
      var r: int := if negative then 0 - v as int else v;
      Some(r)
  }

  function DigitChar(d: nat): char
    requires d < 10
  {
    ('0' as int + d) as char
  }

  /** Decimal notation of a natural number, without leading zeros. */
  function Digits(n: nat): string {
    if n < 10 then [DigitChar(n)] else Digits(n / 10) + [DigitChar(n % 10)]
  }

  /** `n.toString()` for an integer `n`. */
  function NumberToString(n: int): string {
    if n < 0 then "-" + Digits(-n) else Digits(n)
  }

  lemma {:induction false} DigitsShape(n: nat)
    ensures |Digits(n)| >= 1
    ensures forall k :: 0 <= k < |Digits(n)| ==> IsDecimalDigit(Digits(n)[k])
    ensures Digits(n)[0] == '0' ==> n == 0
  {
    if n >= 10 {
      DigitsShape(n / 10);
      assert Digits(n)[0] == Digits(n / 10)[0];
    }
  }

  lemma {:induction false} ValueOfDigits(n: nat)
    ensures ValueOf(Digits(n), 10) == n
  {
    if n >= 10 {
      ValueOfDigits(n / 10);
      var d := Digits(n);
      assert d[..|d| - 1] == Digits(n / 10);
    }
  }

  lemma {:induction false} DigitPrefixStops(a: string, rest: string, radix: nat)
    requires forall k :: 0 <= k < |a| ==> IsRadixDigit(a[k], radix)
    requires rest == [] || !IsRadixDigit(rest[0], radix)
    ensures DigitPrefix(a + rest, radix) == a
  {
    if a == [] {
      assert a + rest == rest;
    } else {
      assert (a + rest)[1..] == a[1..] + rest;
      DigitPrefixStops(a[1..], rest, radix);
    }
  }

  /**
   * `parseInt` reads an integer back from the text `toString` gives it,
   * whatever non-digit text follows, except that a `0` followed by `x` or `X`
   * starts a hexadecimal literal.
   */
  lemma UnsignedLeadingInteger(m: nat, rest: string)
    requires rest == [] || !IsDecimalDigit(rest[0])
    requires m == 0 && rest != [] ==> rest[0] != 'x' && rest[0] != 'X'
    ensures ParseUnsigned(Digits(m) + rest) == Some(m)
  {
    var d := Digits(m);
    DigitsShape(m);
    ValueOfDigits(m);
    var u := d + rest;
    assert !(|u| >= 2 && u[0] == '0' && (u[1] == 'x' || u[1] == 'X')) by {
      if |u| >= 2 && u[0] == '0' {
        assert d[0] == '0';
        assert |d| == 1;
        assert u[1] == rest[0];
      }
    }
    DigitPrefixStops(d, rest, 10);
  }

  /** Digits after a minus sign are read as a negative number. */
  lemma ParseIntNegative(u: string, v: nat)
    requires ParseUnsigned(u) == Some(v)
    ensures ParseInt("-" + u) == Some(-(v as int))
  {
    var s := "-" + u;
    assert s[0] == '-' && s[1..] == u;
    assert TrimStart(s) == s;
  }

  /** A string starting with a digit is read without skipping or sign. */
  lemma ParseIntFromDigit(u: string, v: nat)
    requires u != [] && IsDecimalDigit(u[0]) && ParseUnsigned(u) == Some(v)
    ensures ParseInt(u) == Some(v)
  {
    assert TrimStart(u) == u;
  }

  lemma ParseIntLeadingInteger(n: int, rest: string)
    requires rest == [] || !IsDecimalDigit(rest[0])
    requires n == 0 && rest != [] ==> rest[0] != 'x' && rest[0] != 'X'
    ensures ParseInt(NumberToString(n) + rest) == Some(n)
  {
    var m: nat := if n < 0 then -n else n;
    var u := Digits(m) + rest;
    UnsignedLeadingInteger(m, rest);
    DigitsShape(m);
    if n < 0 {
      assert NumberToString(n) + rest == "-" + u;
      ParseIntNegative(u, m);
    } else {
      assert NumberToString(n) + rest == u;
      ParseIntFromDigit(u, m);
    }
  }

  /** `parseInt(n.toString()) == n`. */
  lemma ParseIntRoundTrip(n: int)
    ensures ParseInt(NumberToString(n)) == Some(n)
  {
    ParseIntLeadingInteger(n, []);
    assert NumberToString(n) + [] == NumberToString(n);
  }
}
