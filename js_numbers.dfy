/** JavaScript numbers as far as route ids need them: integers and NaN, their
    truthiness, `parseInt`, `Number` on strings, and integer-to-text. */
module JsNumbers {
  import opened Wrappers
  import opened JsText

  /** A JavaScript number that is an integer, or NaN. */
  datatype JsNumber = NaN | Int(value: int)

  /** JavaScript truthiness of a number: NaN and 0 are falsy. */
  predicate Truthy(n: JsNumber) {
    n.Int? && n.value != 0
  }

  /** Value of `c` as a digit in bases up to 36; 36 for a non-digit. */
  function DigitValue(c: char): (d: nat)
    ensures d <= 36
    ensures ('0' <= c <= '9') <==> d < 10
  {
    if '0' <= c <= '9' then c as int - '0' as int
    else if 'a' <= c <= 'z' then c as int - 'a' as int + 10
    else if 'A' <= c <= 'Z' then c as int - 'A' as int + 10
    else 36
  }

  predicate IsDigit(c: char, radix: nat) {
    DigitValue(c) < radix
  }

  predicate AllDigits(s: string, radix: nat) {
    forall j :: 0 <= j < |s| ==> IsDigit(s[j], radix)
  }

  /** The longest prefix of `s` made of digits of the radix. */
  function DigitPrefix(s: string, radix: nat): (r: string)
    ensures |r| <= |s| && r == s[..|r|]
    ensures AllDigits(r, radix)
    ensures |r| == |s| || !IsDigit(s[|r|], radix)
  {
    if |s| > 0 && IsDigit(s[0], radix) then [s[0]] + DigitPrefix(s[1..], radix) else []
  }

  /** The value of a digit string, most significant digit first. */
  function DigitsValue(ds: string, radix: nat): nat {
    if |ds| == 0 then 0
    else DigitsValue(ds[..|ds| - 1], radix) * radix + DigitValue(ds[|ds| - 1])
  }

  function DigitChar(d: nat): (c: char)
    requires d < 10
    ensures DigitValue(c) == d
  {
    ('0' as int + d) as char
  }

  /** Decimal text of a natural number, as a template literal prints it. */
  function NatToString(n: nat): (r: string)
    ensures |r| > 0 && AllDigits(r, 10)
    ensures r[0] == '0' ==> n == 0 && |r| == 1
  {
    if n < 10 then [DigitChar(n)] else NatToString(n / 10) + [DigitChar(n % 10)]
  }

  /** Decimal text of an integer, as `${n}` prints it. */
  function IntToString(i: int): (r: string)
    ensures |r| > 0
    ensures r[0] == '-' <==> i < 0
  {
    if i < 0 then "-" + NatToString(-i) else NatToString(i)
  }

  /** After the sign, if any, `${n}` is all decimal digits. */
  lemma IntToStringDigits(i: int)
    ensures i >= 0 ==> AllDigits(IntToString(i), 10)
    ensures i < 0 ==> |IntToString(i)| > 1 && AllDigits(IntToString(i)[1..], 10)
  {
    if i < 0 {
      assert IntToString(i)[1..] == NatToString(-i);
    }
  }

  /** The digits `NatToString` writes read back as the number written. */
  lemma {:induction false} NatToStringValue(n: nat)
    ensures DigitsValue(NatToString(n), 10) == n
  {
    if n >= 10 {
      NatToStringValue(n / 10);
      var r := NatToString(n);
      assert r[..|r| - 1] == NatToString(n / 10);
    }
  }

  /** A string made only of digits is its own digit prefix. */
  lemma {:induction false} DigitPrefixAll(s: string, radix: nat)
    requires AllDigits(s, radix)
    ensures DigitPrefix(s, radix) == s
  {
    if |s| > 0 {
      DigitPrefixAll(s[1..], radix);
    }
  }

  /** The second argument of `parseInt`: 10, or left out. */
  datatype Radix = Radix10 | NoRadix

  /** `parseInt(s, 10)` and `parseInt(s)`: skip leading whitespace, read one
      sign, then (only without a radix) a `0x`/`0X` prefix switching to base
      16, then the longest run of digits; NaN when that run is empty. */
  function ParseInt(s: string, radix: Radix): (r: JsNumber)
  {
    var t := TrimStart(s);
    var negative := |t| > 0 && t[0] == '-';
    var u := if |t| > 0 && (t[0] == '-' || t[0] == '+') then t[1..] else t;
    match Magnitude(u, radix)
    case None => NaN
    case Some(v) => Int(if negative then -(v as int) else v)
  }

  /** The unsigned part of `parseInt`: without a radix a `0x`/`0X` prefix
      selects base 16; then the value of the longest digit run, if any. */
  function Magnitude(u: string, radix: Radix): (r: Option<nat>)
  {
    if radix == NoRadix && |u| >= 2 && u[0] == '0' && (u[1] == 'x' || u[1] == 'X')
    then DigitRun(u[2..], 16)
    else DigitRun(u, 10)
  }

  /** The value of the longest run of base-`base` digits starting `s`; none
      when `s` does not start with a digit. */
  function DigitRun(s: string, base: nat): (r: Option<nat>)
    ensures r.None? <==> s == [] || !IsDigit(s[0], base)
  {
    var ds := DigitPrefix(s, base);
    if |ds| == 0 then None else Some(DigitsValue(ds, base))
  }

  /** Both forms of `parseInt` read back every integer's decimal text. */
  lemma ParseIntOfIntToString(i: int, radix: Radix)
    ensures ParseInt(IntToString(i), radix) == Int(i)
  {
    var n: nat := if i < 0 then -i else i;
    NatToStringValue(n);
    if i < 0 {
      var t := IntToString(i);
      assert t[0] == '-' && t[1..] == NatToString(n);
      ParseNegativeText(t, NatToString(n), radix);
    } else {
      ParseDigitText(NatToString(n), radix);
    }
  }

  /** A canonical decimal digit string reads as its value. */
  lemma MagnitudeOfDigits(d: string, radix: Radix)
    requires |d| > 0 && AllDigits(d, 10) && (d[0] == '0' ==> |d| == 1)
    ensures Magnitude(d, radix) == Some(DigitsValue(d, 10))
  {
    DigitPrefixAll(d, 10);
    assert !(|d| >= 2 && d[0] == '0');
  }

  /** A string that does not start with whitespace has nothing to skip. */
  lemma TrimStartNone(s: string)
    requires |s| > 0 && !IsWhitespace(s[0])
    ensures TrimStart(s) == s
  {
  }

  /** `parseInt` of an unsigned string with no leading whitespace is its magnitude. */
  lemma ParseUnsigned(t: string, radix: Radix)
    requires TrimStart(t) == t && |t| > 0 && t[0] != '-' && t[0] != '+'
    ensures ParseInt(t, radix) == match Magnitude(t, radix) case None => NaN case Some(v) => Int(v)
  {
  }

  /** `parseInt` of a string starting with a minus sign negates the magnitude of the rest. */
  lemma ParseMinus(t: string, radix: Radix)
    requires TrimStart(t) == t && |t| > 0 && t[0] == '-'
    ensures ParseInt(t, radix) == match Magnitude(t[1..], radix) case None => NaN case Some(v) => Int(-(v as int))
  {
  }

  /** A canonical digit string parses to its value. */
  lemma ParseDigitText(d: string, radix: Radix)
    requires |d| > 0 && AllDigits(d, 10) && (d[0] == '0' ==> |d| == 1)
    ensures ParseInt(d, radix) == Int(DigitsValue(d, 10))
  {
    assert IsDigit(d[0], 10);
    TrimStartNone(d);
    ParseUnsigned(d, radix);
    MagnitudeOfDigits(d, radix);
  }

  /** A minus sign before a canonical digit string negates its value. */
  lemma ParseNegativeText(t: string, d: string, radix: Radix)
    requires |d| > 0 && AllDigits(d, 10) && (d[0] == '0' ==> |d| == 1)
    requires |t| > 0 && t[0] == '-' && t[1..] == d
    ensures ParseInt(t, radix) == Int(-(DigitsValue(d, 10) as int))
  {
    TrimStartNone(t);
    ParseMinus(t, radix);
    MagnitudeOfDigits(d, radix);
  }

  /** The base a `0x`, `0o` or `0b` prefix selects in a numeric literal; 0 otherwise. */
  function PrefixBase(c: char): nat {
    if c == 'x' || c == 'X' then 16
    else if c == 'o' || c == 'O' then 8
    else if c == 'b' || c == 'B' then 2
    else 0
  }

  /** `Number(s)` for a string: surrounding whitespace is ignored, the empty
      string is 0, `0x`/`0o`/`0b` introduce base 16/8/2 integers, otherwise a
      signed run of decimal digits; everything else is NaN here. */
  function StringToNumber(s: string): (r: JsNumber)
  {
    var t := Trim(s);
    if |t| == 0 then Int(0)
    else if |t| >= 2 && t[0] == '0' && PrefixBase(t[1]) > 0 then
      var base := PrefixBase(t[1]);
      var body := t[2..];
      if |body| > 0 && AllDigits(body, base) then Int(DigitsValue(body, base)) else NaN
    else
      var body := if t[0] == '-' || t[0] == '+' then t[1..] else t;
      var v: int := DigitsValue(body, 10);
      if |body| > 0 && AllDigits(body, 10) then Int(if t[0] == '-' then -v else v) else NaN
  }

  /** `Number(param)` for an optional route parameter: `Number(undefined)` is NaN. */
  function ToNumber(param: Option<string>): (r: JsNumber)
    ensures param.None? ==> r == NaN
    ensures param.Some? && Trim(param.value) == [] ==> r == Int(0)
  {
    match param
    case None => NaN
    case Some(s) => StringToNumber(s)
  }

  /** `Number` reads back every integer's decimal text. */
  lemma StringToNumberOfIntToString(i: int)
    ensures StringToNumber(IntToString(i)) == Int(i)
  {
    var n: nat := if i < 0 then -i else i;
    NatToStringValue(n);
    var t := IntToString(i);
    assert !IsWhitespace(t[0]) && !IsWhitespace(t[|t| - 1]);
    TrimUnchanged(t);
    if i < 0 {
      NegativeTextToNumber(t, NatToString(n));
    } else {
      DigitTextToNumber(t);
    }
  }

  lemma NegativeTextToNumber(t: string, d: string)
    requires t == "-" + d && Trim(t) == t && |d| > 0 && AllDigits(d, 10)
    ensures StringToNumber(t) == Int(-(DigitsValue(d, 10) as int))
  {
    assert t[1..] == d;
  }

  lemma DigitTextToNumber(t: string)
    requires Trim(t) == t && |t| > 0 && AllDigits(t, 10) && (t[0] == '0' ==> |t| == 1)
    ensures StringToNumber(t) == Int(DigitsValue(t, 10))
  {
    assert IsDigit(t[0], 10);
    assert '0' <= t[0] <= '9';
    assert !(|t| >= 2 && t[0] == '0');
  }
}
