/**
 * JavaScript's `Number(text)` and `parseFloat(text)` as the form handlers use them,
 * for text written in plain decimal notation, and the decimal rendering of an
 * integer used in error messages.
 */
module JsNumber {
  import opened Wrappers

  /** A JavaScript number as far as the handlers look at it: NaN or a finite value. */
  datatype JsNumber = NaN | Num(value: real)

  /** JavaScript's `!x` on a number: true for 0 and for NaN. */
  predicate Falsy(n: JsNumber) {
    n.NaN? || n.value == 0.0
  }

  predicate IsDigit(c: char) {
    '0' <= c <= '9'
  }

  predicate AllDigits(s: string) {
    forall i :: 0 <= i < |s| ==> IsDigit(s[i])
  }

  /** A character that can occur in plain decimal notation. */
  predicate IsNumeral(c: char) {
    IsDigit(c) || c == '.' || c == '-' || c == '+'
  }

  function DigitValue(c: char): (d: nat)
    requires IsDigit(c)
    ensures d < 10
  {
    c as int - '0' as int
  }

  function DigitChar(d: nat): (c: char)
    requires d < 10
    ensures IsDigit(c) && DigitValue(c) == d
  {
    ('0' as int + d) as char
  }

  function Pow10(n: nat): (p: nat)
    ensures p >= 1
  {
    if n == 0 then 1 else 10 * Pow10(n - 1)
  }

  /** The value of a run of decimal digits, most significant first. */
  function DigitsValue(s: string): (v: nat)
    requires AllDigits(s)
    ensures v < Pow10(|s|)
  {
    if s == [] then 0
    else
      var init := s[..|s| - 1];
      assert AllDigits(init);
      var v := DigitsValue(init) * 10 + DigitValue(s[|s| - 1]);
      assert v < Pow10(|s|) by {
        assert DigitsValue(init) + 1 <= Pow10(|s| - 1);
        assert (DigitsValue(init) + 1) * 10 <= Pow10(|s| - 1) * 10;
      }
      v
  }

  /** How many decimal digits `s` starts with. */
  function LeadingDigits(s: string): (n: nat)
    ensures n <= |s|
    ensures forall i :: 0 <= i < n ==> IsDigit(s[i])
    ensures n < |s| ==> !IsDigit(s[n])
  {
    if s != [] && IsDigit(s[0]) then 1 + LeadingDigits(s[1..]) else 0
  }

  /** Where the parts of a decimal number sit at the start of a text. */
  datatype Layout = Layout(signLen: nat, intLen: nat, hasDot: bool, fracLen: nat) {
    function Length(): nat {
      signLen + intLen + (if hasDot then 1 + fracLen else 0)
    }
    function FracStart(): nat {
      signLen + intLen + 1
    }
  }

  /** An optional sign, the digits before the point, and the point and digits after it if present. */
  function LayoutOf(s: string): (l: Layout)
    ensures l.Length() <= |s| && l.signLen <= 1
    ensures l.signLen == 1 ==> s[0] == '-' || s[0] == '+'
    ensures forall i :: l.signLen <= i < l.signLen + l.intLen ==> IsDigit(s[i])
    ensures l.hasDot ==> s[l.signLen + l.intLen] == '.'
    ensures l.hasDot ==> forall i :: l.FracStart() <= i < l.Length() ==> IsDigit(s[i])
    ensures !l.hasDot ==> l.fracLen == 0
    ensures s != [] && IsDigit(s[0]) ==> l.signLen == 0 && l.intLen > 0
  {
    var signLen := if |s| > 0 && (s[0] == '-' || s[0] == '+') then 1 else 0;
    var intLen := LeadingDigits(s[signLen..]);
    var hasDot := signLen + intLen < |s| && s[signLen + intLen] == '.';
    var fracLen := if hasDot then LeadingDigits(s[signLen + intLen + 1..]) else 0;
    Layout(signLen, intLen, hasDot, fracLen)
  }

  /** The longest prefix of a text that reads as a decimal number: its length and value. */
  datatype Scan = Scan(length: nat, value: real)

  /**
   * Reads an optional sign, digits, and optionally a '.' followed by digits, with at
   * least one digit in all; None when the text does not start that way.
   */
  function ScanDecimal(s: string): (r: Option<Scan>)
    ensures r.Some? ==> 0 < r.value.length <= |s|
    ensures r.Some? ==> forall i :: 0 <= i < r.value.length ==> IsNumeral(s[i])
    ensures r.Some? && r.value.value < 0.0 ==> s[0] == '-'
    ensures s != [] && IsDigit(s[0]) ==> r.Some?
  {
    var l := LayoutOf(s);
    if l.intLen + l.fracLen == 0 then None
    else
      var magnitude := Magnitude(s, l);
      Some(Scan(l.Length(), if l.signLen == 1 && s[0] == '-' then -magnitude else magnitude))
  }

  /** The digits after the point, as a fraction below 1. */
  function Fraction(digits: string): (f: real)
    requires AllDigits(digits)
    ensures 0.0 <= f
  {
    var v := DigitsValue(digits) as real;
    var p := Pow10(|digits|) as real;
    assert p > 0.0;
    v / p
  }

  /** The unsigned value of the number laid out at the start of `s`. */
  function Magnitude(s: string, l: Layout): (m: real)
    requires l == LayoutOf(s)
    ensures 0.0 <= m
  {
    var intDigits := s[l.signLen..l.signLen + l.intLen];
    assert AllDigits(intDigits);
    var fraction := if l.hasDot then
      var fracDigits := s[l.FracStart()..l.Length()];
      assert AllDigits(fracDigits);
      Fraction(fracDigits)
    else 0.0;
    DigitsValue(intDigits) as real + fraction
  }

  /**
   * `Number(s)`: the empty text is 0; a text that is a decimal number in full is its
   * value; anything else is NaN.
   */
  function Number(s: string): (n: JsNumber)
    ensures s == "" ==> n == Num(0.0)
    ensures (exists i :: 0 <= i < |s| && !IsNumeral(s[i])) ==> n == NaN
    ensures n.Num? && n.value < 0.0 ==> s[0] == '-'
  {
    if s == "" then Num(0.0)
    else
      match ScanDecimal(s)
      case Some(sc) => if sc.length == |s| then Num(sc.value) else NaN
      case None => NaN
  }

  /** `parseFloat(s)`: the value of the longest decimal prefix, NaN when there is none. */
  function ParseFloat(s: string): (n: JsNumber)
    ensures s == "" ==> n == NaN
    ensures s != [] && IsDigit(s[0]) ==> n.Num?
    ensures n.Num? && n.value < 0.0 ==> s[0] == '-'
  {
    match ScanDecimal(s)
    case Some(sc) => Num(sc.value)
    case None => NaN
  }

  /** On a non-empty text that `Number` accepts, `parseFloat` gives the same value. */
  lemma ParseFloatAgreesWithNumber(s: string)
    requires s != "" && Number(s).Num?
    ensures ParseFloat(s) == Number(s)
  {
  }

  /** `parseFloat` stops at the first character that cannot continue the number; `Number` then gives NaN. */
  lemma {:induction false} ParseFloatIgnoresTrailingText(digits: string, rest: string)
    requires digits != [] && AllDigits(digits)
    requires rest != [] && !IsNumeral(rest[0])
    ensures ParseFloat(digits + rest) == Num(DigitsValue(digits) as real)
    ensures Number(digits + rest) == NaN
  {
    var s := digits + rest;
    LeadingDigitsOfDigitsThen(digits, rest);
    assert s[..|digits|] == digits;
    assert !IsNumeral(s[|digits|]);
  }

  lemma {:induction false} LeadingDigitsOfDigitsThen(digits: string, rest: string)
    requires AllDigits(digits)
    requires rest == [] || !IsDigit(rest[0])
    ensures LeadingDigits(digits + rest) == |digits|
  {
    if digits != [] {
      assert (digits + rest)[1..] == digits[1..] + rest;
      LeadingDigitsOfDigitsThen(digits[1..], rest);
    }
  }

  /** The decimal digits of a natural number, without leading zeros. */
  function NatToString(n: nat): (s: string)
    ensures s != [] && AllDigits(s)
    ensures DigitsValue(s) == n
    decreases n
  {
    if n < 10 then [DigitChar(n)]
    else
      var s := NatToString(n / 10) + [DigitChar(n % 10)];
      assert s[..|s| - 1] == NatToString(n / 10);
      s
  }

  /** JavaScript's rendering of an integer-valued number in a template string. */
  function IntToString(i: int): (s: string)
    ensures s != []
  {
    if i < 0 then "-" + NatToString(-i) else NatToString(i)
  }

  /** The text of a decimal number: a sign ("", "-" or "+"), digits, and optionally a point and more digits. */
  function DecimalText(sign: string, intDigits: string, point: bool, fracDigits: string): string {
    sign + intDigits + (if point then "." + fracDigits else "")
  }

  /** The well-formed decimal texts: at least one digit, and fraction digits only after a point. */
  predicate DecimalParts(sign: string, intDigits: string, point: bool, fracDigits: string) {
    && (sign == "" || sign == "-" || sign == "+")
    && AllDigits(intDigits) && AllDigits(fracDigits)
    && |intDigits| + |fracDigits| > 0
    && (!point ==> fracDigits == "")
  }

  /** The value such a text denotes. */
  function DecimalValue(sign: string, intDigits: string, fracDigits: string): real
    requires AllDigits(intDigits) && AllDigits(fracDigits)
  {
    var magnitude := DigitsValue(intDigits) as real + Fraction(fracDigits);
    if sign == "-" then -magnitude else magnitude
  }

  /** What follows a known prefix of a text's suffix. */
  lemma SuffixAfter(t: string, k: nat, u: string, v: string)
    requires k <= |t| && t[k..] == u + v
    ensures k + |u| <= |t| && t[k + |u|..] == v
  {
  }

  /** What follows the sign of a decimal text, and what follows its integer digits. */
  lemma DecimalTextSuffixes(sign: string, intDigits: string, point: bool, fracDigits: string, rest: string)
    ensures var t := DecimalText(sign, intDigits, point, fracDigits) + rest;
      var tail := if point then "." + (fracDigits + rest) else rest;
      && |sign| + |intDigits| <= |t|
      && t[..|sign|] == sign
      && t[|sign|..] == intDigits + tail
      && t[|sign| + |intDigits|..] == tail
  {
  }

  /** The sign and integer digits found in a decimal text. */
  lemma IntLayoutOfDecimalText(sign: string, intDigits: string, point: bool, fracDigits: string, rest: string)
    requires DecimalParts(sign, intDigits, point, fracDigits)
    requires rest == [] || !IsNumeral(rest[0])
    ensures var l := LayoutOf(DecimalText(sign, intDigits, point, fracDigits) + rest);
      l.signLen == |sign| && l.intLen == |intDigits|
  {
    var t := DecimalText(sign, intDigits, point, fracDigits) + rest;
    var tail := if point then "." + (fracDigits + rest) else rest;
    DecimalTextSuffixes(sign, intDigits, point, fracDigits, rest);
    assert |sign| == 0 ==> t[0] == (intDigits + tail)[0];
    LeadingDigitsOfDigitsThen(intDigits, tail);
  }

  /** The layout found in a decimal text followed by nothing, or by a character that cannot continue it. */
  lemma {:induction false} LayoutOfDecimalText(sign: string, intDigits: string, point: bool, fracDigits: string, rest: string)
    requires DecimalParts(sign, intDigits, point, fracDigits)
    requires rest == [] || !IsNumeral(rest[0])
    ensures LayoutOf(DecimalText(sign, intDigits, point, fracDigits) + rest)
      == Layout(|sign|, |intDigits|, point, |fracDigits|)
  {
    var t := DecimalText(sign, intDigits, point, fracDigits) + rest;
    var k := |sign| + |intDigits|;
    DecimalTextSuffixes(sign, intDigits, point, fracDigits, rest);
    IntLayoutOfDecimalText(sign, intDigits, point, fracDigits, rest);
    if point {
      SuffixAfter(t, k, ".", fracDigits + rest);
      LeadingDigitsOfDigitsThen(fracDigits, rest);
    }
  }

  /** Where the sign, the integer digits and the fraction digits sit in a decimal text. */
  lemma DecimalTextSlices(sign: string, intDigits: string, point: bool, fracDigits: string, rest: string)
    ensures var t := DecimalText(sign, intDigits, point, fracDigits) + rest;
      var k := |sign| + |intDigits|;
      && |DecimalText(sign, intDigits, point, fracDigits)| == k + (if point then 1 + |fracDigits| else 0)
      && t[..|sign|] == sign
      && t[|sign|..k] == intDigits
      && (point ==> t[k + 1..k + 1 + |fracDigits|] == fracDigits)
  {
  }

  /** A decimal text followed by nothing, or by a character that cannot continue it, scans to its full length and value. */
  lemma {:induction false} ScanDecimalText(sign: string, intDigits: string, point: bool, fracDigits: string, rest: string)
    requires DecimalParts(sign, intDigits, point, fracDigits)
    requires rest == [] || !IsNumeral(rest[0])
    ensures var d := DecimalText(sign, intDigits, point, fracDigits);
      ScanDecimal(d + rest) == Some(Scan(|d|, DecimalValue(sign, intDigits, fracDigits)))
  {
    var t := DecimalText(sign, intDigits, point, fracDigits) + rest;
    LayoutOfDecimalText(sign, intDigits, point, fracDigits, rest);
    DecimalTextSlices(sign, intDigits, point, fracDigits, rest);
    var l := LayoutOf(t);
    assert !point ==> Fraction(fracDigits) == 0.0;
    assert Magnitude(t, l) == DigitsValue(intDigits) as real + Fraction(fracDigits);
    assert (l.signLen == 1 && t[0] == '-') == (sign == "-") by {
      assert |sign| == 1 ==> t[0] == sign[0];
    }
  }

  /** `Number` reads a decimal text as the value it denotes. */
  lemma NumberReadsDecimalText(sign: string, intDigits: string, point: bool, fracDigits: string)
    requires DecimalParts(sign, intDigits, point, fracDigits)
    ensures Number(DecimalText(sign, intDigits, point, fracDigits)) == Num(DecimalValue(sign, intDigits, fracDigits))
  {
    var d := DecimalText(sign, intDigits, point, fracDigits);
    ScanDecimalText(sign, intDigits, point, fracDigits, []);
    assert d + [] == d;
  }

  /**
   * `parseFloat` reads a decimal text as the value it denotes, whether it ends the input
   * or is followed by a character that cannot continue it.
   */
  lemma ParseFloatReadsDecimalPrefix(sign: string, intDigits: string, point: bool, fracDigits: string, rest: string)
    requires DecimalParts(sign, intDigits, point, fracDigits)
    requires rest == [] || !IsNumeral(rest[0])
    ensures ParseFloat(DecimalText(sign, intDigits, point, fracDigits) + rest) == Num(DecimalValue(sign, intDigits, fracDigits))
  {
    ScanDecimalText(sign, intDigits, point, fracDigits, rest);
  }
}
