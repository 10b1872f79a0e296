/** Integer text conversions: JavaScript's `parseInt(s)` (no radix argument)
    and the decimal text of an integer, as `String(n)` renders it. */
module Numbers {
  import opened Wrappers
  import opened Text

  function DigitChar(d: nat): (c: char)
    requires d < 10
    ensures '0' <= c <= '9'
  {
    ('0' as int + d) as char
  }

  /** The decimal digits of `n`, most significant first, without leading zeros. */
  function NatDigits(n: nat): (r: string)
    ensures |r| >= 1
    ensures forall i :: 0 <= i < |r| ==> '0' <= r[i] <= '9'
    ensures |r| > 1 ==> r[0] != '0'
    decreases n
  {
    if n < 10 then [DigitChar(n)] else NatDigits(n / 10) + [DigitChar(n % 10)]
  }

  /** `String(n)` for an integer `n`. */
  function DecimalString(n: int): (r: string)
    ensures r != [] && !IsJsSpace(r[0]) && !IsJsSpace(r[|r| - 1])
    ensures ',' !in r
    ensures r[0] == '-' || '0' <= r[0] <= '9'
    ensures r[0] == '-' <==> n < 0
  {
    if n < 0 then "-" + NatDigits(-n) else NatDigits(n)
  }

  /** The value of `c` as a digit in base `radix` (10 or 16), if it is one. */
  function DigitValue(c: char, radix: nat): (r: Option<nat>)
    ensures r.Some? ==> r.value < radix
  {
    if '0' <= c <= '9' && (c as int - '0' as int) < radix then Some(c as int - '0' as int)
    else if radix == 16 && 'a' <= c <= 'f' then Some(c as int - 'a' as int + 10)
    else if radix == 16 && 'A' <= c <= 'F' then Some(c as int - 'A' as int + 10)
    else None
  }

  /** The length of the longest prefix of `s` made of base-`radix` digits. */
  function DigitRun(s: string, radix: nat): (k: nat)
    ensures k <= |s|
    ensures forall i :: 0 <= i < k ==> DigitValue(s[i], radix).Some?
    ensures k < |s| ==> DigitValue(s[k], radix).None?
    decreases |s|
  {
    if s == [] || DigitValue(s[0], radix).None? then 0 else 1 + DigitRun(s[1..], radix)
  }

  /** The number a string of digits denotes in base `radix`. */
  function DigitsValue(s: string, radix: nat): nat
    requires radix == 10 || radix == 16
    requires forall i :: 0 <= i < |s| ==> DigitValue(s[i], radix).Some?
    decreases |s|
  {
    if s == [] then 0
    else if radix == 16 then 16 * DigitsValue(s[..|s| - 1], radix) + DigitValue(s[|s| - 1], radix).value
    else 10 * DigitsValue(s[..|s| - 1], radix) + DigitValue(s[|s| - 1], radix).value
  }

  /** The digits after the sign: base 16 after a `0x`/`0X` prefix, base 10
      otherwise; the longest run of digits is read and the rest ignored. */
  function ParseUnsigned(u: string): Option<nat> {
    var hex := |u| >= 2 && u[0] == '0' && (u[1] == 'x' || u[1] == 'X');
    var radix := if hex then 16 else 10;
    var v := if hex then u[2..] else u;
    var k := DigitRun(v, radix);
    if k == 0 then None else Some(DigitsValue(v[..k], radix))
  }

  /** An optional sign followed by the digits; `None` stands for `NaN` (no
      digit at all). */
  function ParseSigned(t: string): Option<int> {
    var negative := t != [] && t[0] == '-';
    var u := if t != [] && (t[0] == '-' || t[0] == '+') then t[1..] else t;
    match ParseUnsigned(u)
    case None => None
    case Some(m) => if negative then Some(-(m as int)) else Some(m)
  }

  /** `parseInt(s)`: skip leading white space, then read a signed number. */
  function ParseInt(s: string): Option<int> {
    ParseSigned(TrimStart(s))
  }

  /** After a leading `-`, the value is the negated unsigned reading. */
  lemma ParseIntMinus(u: string)
    ensures ParseUnsigned(u).None? ==> ParseSigned("-" + u) == None
    ensures ParseUnsigned(u).Some? ==> ParseSigned("-" + u) == Some(-(ParseUnsigned(u).value as int))
  {
    assert ("-" + u)[1..] == u;
  }

  lemma {:induction false} NatDigitsValue(n: nat)
    ensures DigitRun(NatDigits(n), 10) == |NatDigits(n)|
    ensures DigitsValue(NatDigits(n), 10) == n
    decreases n
  {
    var d := NatDigits(n);
    if n >= 10 {
      NatDigitsValue(n / 10);
      assert d[..|d| - 1] == NatDigits(n / 10);
    }
    assert forall i :: 0 <= i < |d| ==> DigitValue(d[i], 10).Some?;
    DigitRunAll(d, 10);
  }

  lemma {:induction false} DigitRunAll(s: string, radix: nat)
    requires forall i :: 0 <= i < |s| ==> DigitValue(s[i], radix).Some?
    ensures DigitRun(s, radix) == |s|
    decreases |s|
  {
    if s != [] {
      DigitRunAll(s[1..], radix);
    }
  }

  lemma TrimStartKeeps(s: string)
    requires s != [] && !IsJsSpace(s[0])
    ensures TrimStart(s) == s
  {
  }

  lemma NegativeText(n: int)
    requires n < 0
    ensures DecimalString(n) == "-" + NatDigits(-n)
  {
  }

  /** `parseInt(String(n)) == n`: the decimal text of an integer reads back as
      that integer. */
  lemma DecimalRoundTrip(n: int)
    ensures ParseInt(DecimalString(n)) == Some(n)
  {
    DecimalThenText(n, "");
    assert DecimalString(n) + "" == DecimalString(n);
  }

  /** One leading white-space character is skipped. */
  lemma TrimStartSkips(s: string)
    requires s != [] && IsJsSpace(s[0])
    ensures TrimStart(s) == TrimStart(s[1..])
  {
  }

  /** Without a sign the number is read as it stands. */
  lemma ParseSignedUnsigned(t: string)
    requires t != [] && t[0] != '-' && t[0] != '+'
    ensures ParseUnsigned(t).None? ==> ParseSigned(t) == None
    ensures ParseUnsigned(t).Some? ==> ParseSigned(t) == Some(ParseUnsigned(t).value)
  {
  }

  /** Reading stops at the first character that is not a digit. */
  lemma {:induction false} DigitRunStops(d: string, rest: string, radix: nat)
    requires forall i :: 0 <= i < |d| ==> DigitValue(d[i], radix).Some?
    requires rest != [] ==> DigitValue(rest[0], radix).None?
    ensures DigitRun(d + rest, radix) == |d|
    decreases |d|
  {
    if d == [] {
      assert d + rest == rest;
    } else {
      DigitRunStops(d[1..], rest, radix);
      assert (d + rest)[1..] == d[1..] + rest;
    }
  }

  /** The text a number may be followed by without changing how it reads:
      anything but a further digit, or an `x` that would turn a lone `0`
      into a hexadecimal prefix. */
  predicate Terminates(rest: string) {
    rest != [] ==> DigitValue(rest[0], 10).None? && rest[0] != 'x' && rest[0] != 'X'
  }

  lemma ParseUnsignedDigitsThen(m: nat, d: string, rest: string)
    requires d == NatDigits(m) && Terminates(rest)
    ensures ParseUnsigned(d + rest) == Some(m)
  {
    var u := d + rest;
    NatDigitsValue(m);
    assert |u| >= 2 ==> u[1] != 'x' && u[1] != 'X' by {
      if |d| >= 2 {
        assert u[1] == d[1];
      } else if |u| >= 2 {
        assert u[1] == rest[0];
      }
    }
    assert forall i :: 0 <= i < |d| ==> DigitValue(d[i], 10).Some?;
    DigitRunStops(d, rest, 10);
    assert u[..|d|] == d;
  }

  lemma DigitsThenText(m: nat, rest: string, s: string)
    requires Terminates(rest) && s == NatDigits(m) + rest
    ensures ParseInt(s) == Some(m)
  {
    TrimStartKeeps(s);
    ParseUnsignedDigitsThen(m, NatDigits(m), rest);
    ParseSignedUnsigned(s);
  }

  lemma MinusDigitsThenText(m: nat, rest: string, s: string)
    requires Terminates(rest) && s == "-" + (NatDigits(m) + rest)
    ensures ParseInt(s) == Some(-(m as int))
  {
    TrimStartKeeps(s);
    ParseUnsignedDigitsThen(m, NatDigits(m), rest);
    ParseIntMinus(NatDigits(m) + rest);
  }

  /** `parseInt(String(n) + rest) == n` when `rest` does not continue the
      number: the count at the head of a text such as `12min` reads back. */
  lemma DecimalThenText(n: int, rest: string)
    requires Terminates(rest)
    ensures ParseInt(DecimalString(n) + rest) == Some(n)
  {
    if n < 0 {
      NegativeText(n);
      assert DecimalString(n) + rest == "-" + (NatDigits(-n) + rest);
      MinusDigitsThenText(-n, rest, DecimalString(n) + rest);
    } else {
      DigitsThenText(n, rest, DecimalString(n) + rest);
    }
  }

  /** Every character of `s` is white space. */
  predicate AllSpace(s: string) {
    forall i :: 0 <= i < |s| ==> IsJsSpace(s[i])
  }

  /** After a hexadecimal prefix, digits are read in base 16 up to the
      first character that is not one. */
  lemma ParseUnsignedHex(u: string, d: string, rest: string)
    requires |u| >= 2 && u[0] == '0' && (u[1] == 'x' || u[1] == 'X') && u[2..] == d + rest
    requires d != [] && forall i :: 0 <= i < |d| ==> DigitValue(d[i], 16).Some?
    requires rest != [] ==> DigitValue(rest[0], 16).None?
    ensures ParseUnsigned(u) == Some(DigitsValue(d, 16))
  {
    DigitRunStops(d, rest, 16);
    assert (d + rest)[..|d|] == d;
  }

  /** Leading white space is skipped, whatever follows it. */
  lemma SpaceThen(s: string, lead: string, t: string)
    requires s == lead + t && AllSpace(lead) && (t != [] ==> !IsJsSpace(t[0]))
    ensures ParseInt(s) == ParseSigned(t)
  {
    TrimStartSpaces(lead, t);
  }

  /** The text after a fixed head. */
  lemma HexShape(head: string, d: string, rest: string, s: string)
    requires s == head + d + rest
    ensures |s| == |head| + |d| + |rest| && s[..|head|] == head && s[|head|..] == d + rest
  {
    assert s == head + (d + rest);
  }

  /** A `0x` or `0X` prefix switches to base 16, and the hexadecimal digits
      are read up to the first character that is not one:
      `parseInt("0x1Ag") == 26`. */
  lemma HexThenText(x: char, d: string, rest: string, s: string)
    requires x == 'x' || x == 'X'
    requires d != [] && forall i :: 0 <= i < |d| ==> DigitValue(d[i], 16).Some?
    requires rest != [] ==> DigitValue(rest[0], 16).None?
    requires s == ['0', x] + d + rest
    ensures s[0] == '0'
    ensures ParseInt(s) == Some(DigitsValue(d, 16))
  {
    HexShape(['0', x], d, rest, s);
    ParseUnsignedHex(s, d, rest);
    TrimStartKeeps(s);
    ParseSignedUnsigned(s);
  }

  /** A minus sign before a number that has no white space or sign of
      its own negates it: `parseInt("-0x1Ag") == -26`. */
  lemma MinusThen(s: string)
    requires s != [] && !IsJsSpace(s[0]) && s[0] != '-' && s[0] != '+'
    requires ParseInt(s).Some?
    ensures ParseInt("-" + s) == Some(-ParseInt(s).value)
  {
    TrimStartKeeps(s);
    ParseSignedUnsigned(s);
    TrimStartKeeps("-" + s);
    ParseIntMinus(s);
  }

  /** Without a digit after the white space, the sign and the prefix, the
      result is `NaN`: `parseInt("abc")`, `parseInt(" -")`, `parseInt("0x")`. */
  lemma NoDigitNaN(lead: string, sign: string, prefix: string, rest: string, s: string)
    requires AllSpace(lead) && (sign == "" || sign == "-" || sign == "+")
    requires prefix == "" || prefix == "0x" || prefix == "0X"
    requires rest != [] ==> DigitValue(rest[0], if prefix == "" then 10 else 16).None?
    requires sign == "" && prefix == "" && rest != []
             ==> !IsJsSpace(rest[0]) && rest[0] != '-' && rest[0] != '+'
    requires s == lead + sign + prefix + rest
    ensures ParseInt(s) == None
  {
    var u := prefix + rest;
    var t := sign + u;
    assert s == lead + t;
    UnsignedNaN(prefix, rest, u);
    if sign == "" {
      assert t == u;
      if t != [] {
        ParseSignedUnsigned(u);
      }
    } else {
      assert t[1..] == u;
    }
    SpaceThen(s, lead, t);
  }

  lemma UnsignedNaN(prefix: string, rest: string, u: string)
    requires prefix == "" || prefix == "0x" || prefix == "0X"
    requires rest != [] ==> DigitValue(rest[0], if prefix == "" then 10 else 16).None?
    requires u == prefix + rest
    ensures ParseUnsigned(u) == None
  {
    if prefix == "" {
      assert u == rest;
    } else {
      assert u[2..] == rest;
    }
  }
}
