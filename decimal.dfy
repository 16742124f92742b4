/** The number/string conversions the client's usage counter relies on:
    `Number.prototype.toString()` for the integers it stores, `parseInt(s, 10)`
    for reading them back, and `parseInt(s)` without a radix, which also
    reads a `0x`-prefixed hexadecimal literal. */
module Decimal {
  import opened Common

  predicate IsDigit(c: char)
  {
    '0' <= c <= '9'
  }

  function DigitChar(d: nat): (c: char)
    requires d < 10
    ensures IsDigit(c) && c as int - '0' as int == d
  {
    (d + '0' as int) as char
  }

  predicate AllDigits(s: string)
  {
    forall i :: 0 <= i < |s| ==> IsDigit(s[i])
  }

  /** Decimal rendering of a natural number, most significant digit first. */
  function NatToString(n: nat): (s: string)
    ensures |s| >= 1 && AllDigits(s)
    decreases n
  {
    if n < 10 then [DigitChar(n)] else NatToString(n / 10) + [DigitChar(n % 10)]
  }

  /** `n.toString()` for an integer `n`. */
  function IntToString(i: int): (s: string)
    ensures |s| >= 1 && (s[0] == '-' || IsDigit(s[0]))
  {
    if i < 0 then "-" + NatToString(-i) else NatToString(i)
  }

  /** The value of a string of decimal digits. */
  function DigitsValue(s: string): nat
    requires AllDigits(s)
  {
    if s == [] then 0 else DigitsValue(s[..|s| - 1]) * 10 + (s[|s| - 1] as int - '0' as int)
  }

  /** Length of the longest prefix of `s` made of decimal digits. */
  function DigitRunLength(s: string): (k: nat)
    ensures k <= |s| && AllDigits(s[..k])
    ensures k < |s| ==> !IsDigit(s[k])
  {
    if s == [] || !IsDigit(s[0]) then 0
    else
      var k := 1 + DigitRunLength(s[1..]);
      assert s[..k] == [s[0]] + s[1..][..k - 1];
      k
  }

  /** `s` without its leading white space. */
  function TrimStart(s: string): (t: string)
    ensures |t| <= |s| && t == s[|s| - |t|..]
    ensures t != [] ==> !IsJsSpace(t[0])
    ensures forall i :: 0 <= i < |s| - |t| ==> IsJsSpace(s[i])
  {
    if s != [] && IsJsSpace(s[0]) then TrimStart(s[1..]) else s
  }

  /** `parseInt(s, 10)`: skip leading white space, take an optional sign and
      then the longest run of decimal digits; `None` stands for NaN, the
      result when that run is empty. */
  function ParseInt(s: string): (r: Option<int>)
    ensures r.None? <==> DigitRunLength(SignlessBody(TrimStart(s))) == 0
  {
    var t := TrimStart(s);
    var body := SignlessBody(t);
    var k := DigitRunLength(body);
    if k == 0 then None
    else
      var magnitude: int := DigitsValue(body[..k]);
      Some(if t[0] == '-' then -magnitude else magnitude)
  }

  /** What follows an optional leading sign. */
  function SignlessBody(t: string): (body: string)
    ensures body == t || (t != [] && (t[0] == '-' || t[0] == '+') && body == t[1..])
  {
    if t != [] && (t[0] == '-' || t[0] == '+') then t[1..] else t
  }

  lemma {:induction false} NatToStringValue(n: nat)
    ensures DigitsValue(NatToString(n)) == n
    decreases n
  {
    if n >= 10 {
      NatToStringValue(n / 10);
      var s := NatToString(n / 10);
      var t := s + [DigitChar(n % 10)];
      assert t[..|t| - 1] == s;
    }
  }

  /** A run of digits is read to its end. */
  lemma {:induction false} DigitRunOfDigits(s: string)
    requires AllDigits(s)
    ensures DigitRunLength(s) == |s|
  {
    if s != [] {
      DigitRunOfDigits(s[1..]);
    }
  }

  /** `toString` writes no leading white space. */
  lemma IntToStringUntrimmed(i: int)
    ensures TrimStart(IntToString(i)) == IntToString(i)
  {
    assert !IsJsSpace(IntToString(i)[0]);
  }

  /** After its optional minus sign, `toString` writes the digits of the
      magnitude. */
  lemma IntToStringBody(i: int)
    ensures SignlessBody(IntToString(i)) == NatToString(if i < 0 then -i else i)
  {
    var s := IntToString(i);
    if i < 0 {
      assert s[1..] == NatToString(-i);
    } else {
      assert IsDigit(s[0]);
    }
  }

  /** `toString` starts with a minus sign exactly for a negative integer. */
  lemma IntToStringSign(i: int)
    ensures IntToString(i)[0] == '-' <==> i < 0
  {
    if i >= 0 {
      assert IsDigit(IntToString(i)[0]);
    }
  }

  /** Reading back a stored count gives the count that was stored. */
  lemma ParseIntRoundTrip(i: int)
    ensures ParseInt(IntToString(i)) == Some(i)
  {
    var m: nat := if i < 0 then -i else i;
    var digits := NatToString(m);
    IntToStringUntrimmed(i);
    IntToStringBody(i);
    IntToStringSign(i);
    DigitRunOfDigits(digits);
    NatToStringValue(m);
    assert digits[..|digits|] == digits;
  }

  predicate IsHexDigit(c: char)
  {
    IsDigit(c) || ('a' <= c <= 'f') || ('A' <= c <= 'F')
  }

  function HexDigitValue(c: char): (v: nat)
    requires IsHexDigit(c)
    ensures v < 16
    ensures IsDigit(c) ==> v == c as int - '0' as int
  {
    if IsDigit(c) then c as int - '0' as int
    else if 'a' <= c <= 'f' then c as int - 'a' as int + 10
    else c as int - 'A' as int + 10
  }

  predicate AllHexDigits(s: string)
  {
    forall i :: 0 <= i < |s| ==> IsHexDigit(s[i])
  }

  /** The value of a string of hexadecimal digits. */
  function HexDigitsValue(s: string): nat
    requires AllHexDigits(s)
  {
    if s == [] then 0 else HexDigitsValue(s[..|s| - 1]) * 16 + HexDigitValue(s[|s| - 1])
  }

  /** Length of the longest prefix of `s` made of hexadecimal digits. */
  function HexRunLength(s: string): (k: nat)
    ensures k <= |s| && AllHexDigits(s[..k])
    ensures k < |s| ==> !IsHexDigit(s[k])
  {
    if s == [] || !IsHexDigit(s[0]) then 0
    else
      var k := 1 + HexRunLength(s[1..]);
      assert s[..k] == [s[0]] + s[1..][..k - 1];
      k
  }

  /** `0x` or `0X` at the start of the text after the sign. */
  predicate HasHexPrefix(body: string)
  {
    |body| >= 2 && body[0] == '0' && (body[1] == 'x' || body[1] == 'X')
  }

  /** `parseInt(s)` with no radix: as `parseInt(s, 10)`, except that a `0x`
      or `0X` after the optional sign selects base 16 and is skipped. */
  function ParseIntNoRadix(s: string): (r: Option<int>)
    ensures !HasHexPrefix(SignlessBody(TrimStart(s))) ==> r == ParseInt(s)
    ensures HasHexPrefix(SignlessBody(TrimStart(s))) ==>
              (r.None? <==> HexRunLength(SignlessBody(TrimStart(s))[2..]) == 0)
  {
    var t := TrimStart(s);
    var body := SignlessBody(t);
    if !HasHexPrefix(body) then ParseInt(s)
    else
      var digits := body[2..];
      var k := HexRunLength(digits);
      if k == 0 then None
      else
        var magnitude: int := HexDigitsValue(digits[..k]);
        Some(if t[0] == '-' then -magnitude else magnitude)
  }

  /** Without a radix a stored count still reads back as itself: the decimal
      rendering never starts with `0x`. */
  lemma ParseIntNoRadixRoundTrip(i: int)
    ensures ParseIntNoRadix(IntToString(i)) == Some(i)
  {
    var m: nat := if i < 0 then -i else i;
    IntToStringUntrimmed(i);
    IntToStringBody(i);
    assert !HasHexPrefix(NatToString(m)) by {
      if |NatToString(m)| >= 2 {
        assert IsDigit(NatToString(m)[1]);
      }
    }
    ParseIntRoundTrip(i);
  }

  /** A `0x` literal starts with no white space and no sign. */
  lemma HexLiteralShape(h: string)
    ensures TrimStart("0x" + h) == "0x" + h
    ensures SignlessBody("0x" + h) == "0x" + h
    ensures HasHexPrefix("0x" + h) && ("0x" + h)[2..] == h
  {
    var s := "0x" + h;
    assert s[0] == '0' && s[1] == 'x';
    assert !IsJsSpace(s[0]);
  }

  /** In base 10 the digit run of a `0x` literal stops at the `x`, so every
      such literal reads as 0. */
  lemma DecimalReadsHexAsZero(h: string)
    ensures ParseInt("0x" + h) == Some(0)
  {
    var s := "0x" + h;
    HexLiteralShape(h);
    assert s[1..][0] == 'x';
    assert DigitRunLength(s) == 1;
    assert s[..1] == "0" && DigitsValue("0") == 0;
  }

  /** Without a radix the `0x` is skipped and the hexadecimal digits after
      it are read in base 16. */
  lemma NoRadixReadsHex(h: string)
    requires HexRunLength(h) > 0
    ensures ParseIntNoRadix("0x" + h) == Some(HexDigitsValue(h[..HexRunLength(h)]))
  {
    HexLiteralShape(h);
  }

  /** The radix matters: for every `0x` literal with at least one hex digit,
      base 10 reads 0 and no radix reads the hexadecimal value. */
  lemma HexPrefixReadsAsHex(h: string)
    requires HexRunLength(h) > 0
    ensures ParseInt("0x" + h) == Some(0)
    ensures ParseIntNoRadix("0x" + h) == Some(HexDigitsValue(h[..HexRunLength(h)]))
  {
    DecimalReadsHexAsZero(h);
    NoRadixReadsHex(h);
  }

  /** The instance "0x3": 3 without a radix, 0 in base 10. */
  lemma HexThreeReadsAsThree()
    ensures ParseIntNoRadix("0x3") == Some(3)
    ensures ParseInt("0x3") == Some(0)
  {
    var three := "3";
    assert three[..1] == three;
    assert HexDigitsValue(three) == HexDigitsValue([]) * 16 + 3;
    HexPrefixReadsAsHex(three);
    assert "0x" + three == "0x3";
  }
}
