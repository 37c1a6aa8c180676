/**
 * The JavaScript number conversions the storefront uses on whole numbers:
 * `String(n)` / `n.toString()`, and `parseInt` with radix 10 or with the
 * radix left out (where a `0x` prefix selects hexadecimal), and `Number(v)`
 * on whole-number text.
 */
module JsNumber {
  import opened Strings
  import opened JsonDoc

  /** A JavaScript number that is a whole number or `NaN`. */
  datatype Num = Int(i: int) | NaN

  function DigitChar(d: nat): (c: char)
    requires d < 10
    ensures IsDigit(c)
  {
    "0123456789"[d]
  }

  function DigitValue(c: char): (d: nat)
    requires IsDigit(c)
    ensures d < 10 && DigitChar(d) == c
  {
    c as int - '0' as int
  }

  /** The decimal numeral of `n`, without leading zeros. */
  function NatToString(n: nat): (s: string)
    ensures |s| >= 1
    ensures forall k | 0 <= k < |s| :: IsDigit(s[k])
    ensures |s| > 1 ==> s[0] != '0'
  {
    if n < 10 then [DigitChar(n)] else NatToString(n / 10) + [DigitChar(n % 10)]
  }

  /** `String(i)` for a whole number. */
  function IntToString(i: int): string {
    if i < 0 then "-" + NatToString(-i) else NatToString(i)
  }

  /** `String(x)`. */
  function NumToString(x: Num): string {
    match x
    case Int(i) => IntToString(i)
    case NaN => "NaN"
  }

  /** The value of a string of decimal digits. */
  function DigitsValue(d: string): nat
    requires forall k | 0 <= k < |d| :: IsDigit(d[k])
  {
    if |d| == 0 then 0 else DigitsValue(d[..|d| - 1]) * 10 + DigitValue(d[|d| - 1])
  }

  /** The longest prefix of `s` whose characters satisfy `digit`. */
  function DigitPrefix(s: string, hex: bool): (p: string)
    ensures |p| <= |s| && p == s[..|p|]
    ensures forall k | 0 <= k < |p| :: IsDigitIn(p[k], hex)
    ensures |p| < |s| ==> !IsDigitIn(s[|p|], hex)
  {
    if |s| > 0 && IsDigitIn(s[0], hex) then [s[0]] + DigitPrefix(s[1..], hex) else ""
  }

  predicate IsHexDigit(c: char) {
    IsDigit(c) || 'a' <= c <= 'f' || 'A' <= c <= 'F'
  }

  predicate IsDigitIn(c: char, hex: bool) {
    if hex then IsHexDigit(c) else IsDigit(c)
  }

  function HexValue(c: char): nat
    requires IsHexDigit(c)
  {
    if IsDigit(c) then DigitValue(c)
    else if 'a' <= c <= 'f' then c as int - 'a' as int + 10
    else c as int - 'A' as int + 10
  }

  /** The value of a string of hexadecimal digits. */
  function HexDigitsValue(d: string): nat
    requires forall k | 0 <= k < |d| :: IsHexDigit(d[k])
  {
    if |d| == 0 then 0 else HexDigitsValue(d[..|d| - 1]) * 16 + HexValue(d[|d| - 1])
  }

  /** The sign `parseInt` reads after the leading whitespace, and the text after it. */
  function SplitSign(s: string): (int, string) {
    if |s| > 0 && s[0] == '-' then (-1, s[1..])
    else if |s| > 0 && s[0] == '+' then (1, s[1..])
    else (1, s)
  }

  /** `parseInt(s, 10)`: the longest run of decimal digits after optional whitespace and sign. */
  function ParseDecimal(s: string): (r: Num)
    ensures r.NaN? <==> var (_, body) := SplitSign(TrimStart(s)); |body| == 0 || !IsDigit(body[0])
  {
    var (sign, body) := SplitSign(TrimStart(s));
    var digits := DigitPrefix(body, false);
    if |digits| == 0 then NaN else Int(sign * DigitsValue(digits))
  }

  /** `parseInt(s)`: as `ParseDecimal`, except that a `0x` or `0X` prefix selects hexadecimal. */
  function ParseInt(s: string): (r: Num) {
    var (sign, body) := SplitSign(TrimStart(s));
    if |body| >= 2 && body[0] == '0' && (body[1] == 'x' || body[1] == 'X') then
      var digits := DigitPrefix(body[2..], true);
      if |digits| == 0 then NaN else Int(sign * HexDigitsValue(digits))
    else
      ParseDecimal(s)
  }

  lemma {:induction false} DigitsValueOfNatToString(n: nat)
    ensures DigitsValue(NatToString(n)) == n
    decreases n
  {
    var s := NatToString(n);
    if n >= 10 {
      DigitsValueOfNatToString(n / 10);
      assert s[..|s| - 1] == NatToString(n / 10);
    }
  }

  lemma {:induction false} DigitPrefixOfDigits(s: string)
    requires forall k | 0 <= k < |s| :: IsDigit(s[k])
    ensures DigitPrefix(s, false) == s
    decreases |s|
  {
    if |s| > 0 {
      DigitPrefixOfDigits(s[1..]);
      assert s == [s[0]] + s[1..];
    }
  }

  /** `parseInt` reads back what `String` writes: the decimal round trip. */
  lemma ParseIntOfIntToString(i: int)
    ensures ParseDecimal(IntToString(i)) == Int(i)
    ensures ParseInt(IntToString(i)) == Int(i)
  {
    var m: nat := if i < 0 then -i else i;
    var digits := NatToString(m);
    var s := IntToString(i);
    assert TrimStart(s) == s by {
      assert !IsWhitespace(s[0]);
    }
    var (sign, body) := SplitSign(s);
    assert body == digits && sign == (if i < 0 then -1 else 1) by {
      if i < 0 {
        assert s[1..] == digits;
      }
    }
    DigitPrefixOfDigits(digits);
    DigitsValueOfNatToString(m);
  }

  /** `NaN` prints as `NaN`, which `parseInt` reads back as `NaN`. */
  lemma ParseIntOfNumToString(x: Num)
    ensures ParseInt(NumToString(x)) == x
  {
    if x.Int? {
      ParseIntOfIntToString(x.i);
    } else {
      assert TrimStart("NaN") == "NaN" by { assert !IsWhitespace('N'); }
      assert SplitSign("NaN") == (1, "NaN");
      assert DigitPrefix("NaN", false) == "";
    }
  }

  predicate AllDigits(s: string) {
    forall k | 0 <= k < |s| :: IsDigit(s[k])
  }

  /**
   * `Number(s)` on a string, for integers: blank text is 0 and a signed
   * decimal numeral its value. Everything else is `NaN` here, including
   * what JavaScript reads as a number: fractions (`"1.5"`), exponents
   * (`"1e3"`), hexadecimal, octal and binary literals (`"0x1F"`) and
   * `"Infinity"`.
   */
  function StringToNumber(s: string): (r: Num)
    ensures Trim(s) == "" ==> r == Int(0)
  {
    var t := Trim(s);
    if t == "" then Int(0)
    else
      var (sign, body) := SplitSign(t);
      if |body| > 0 && AllDigits(body) then Int(sign * DigitsValue(body)) else NaN
  }

  /**
   * `Number(v)` on a JSON value. An array is read through its text: `[]`
   * and `[null]` give "", one element gives that element's text, and more
   * than one hold a comma, which is not a number.
   */
  function NumberOf(v: Json): Num {
    match v
    case JNull => Int(0)
    case JBool(b) => Int(if b then 1 else 0)
    case JNum(n) => Int(n)
    case JStr(s) => StringToNumber(s)
    case JArr(items) =>
      if |items| == 0 then Int(0)
      else if |items| > 1 then NaN
      else if items[0].JBool? || items[0].JObj? then NaN
      else NumberOf(items[0])
    case JObj(_) => NaN
  }

  lemma TrimUnpadded(s: string)
    requires |s| > 0 && !IsWhitespace(s[0]) && !IsWhitespace(s[|s| - 1])
    ensures Trim(s) == s
  {
    assert TrimStart(s) == s;
  }

  /** A numeral starts with a sign or a digit and ends with a digit. */
  lemma IntToStringEnds(i: int)
    ensures var s := IntToString(i); |s| > 0 && (s[0] == '-' || IsDigit(s[0])) && IsDigit(s[|s| - 1])
  {
  }

  /** An array reads as the number its one element's text spells, as 0 when empty, and as `NaN` with two or more. */
  lemma NumberOfArray(i: int, v: Json)
    ensures NumberOf(JArr([])) == Int(0) && NumberOf(JArr([JNull])) == Int(0)
    ensures NumberOf(JArr([JNum(i)])) == Int(i) && NumberOf(JArr([JStr(IntToString(i))])) == Int(i)
    ensures NumberOf(JArr([JArr([JNum(i)])])) == Int(i)
    ensures NumberOf(JArr([JBool(true)])).NaN? && NumberOf(JArr([v, v])).NaN?
  {
    NumberOfIntToString(i);
  }

  /** `Number` reads back what `String` writes. */
  lemma NumberOfIntToString(i: int)
    ensures StringToNumber(IntToString(i)) == Int(i)
    ensures NumberOf(JStr(IntToString(i))) == Int(i)
  {
    var m: nat := if i < 0 then -i else i;
    var digits := NatToString(m);
    var sign := if i < 0 then -1 else 1;
    var s := IntToString(i);
    IntToStringEnds(i);
    TrimUnpadded(s);
    assert SplitSign(s) == (sign, digits) by {
      if i < 0 {
        assert s[1..] == digits;
      }
    }
    assert AllDigits(digits);
    DigitsValueOfNatToString(m);
    assert sign * DigitsValue(digits) == i;
  }
}
