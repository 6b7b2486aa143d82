/**
 * A model of JavaScript's `Number.parseInt(s)` called without a radix, as the UI
 * uses it on object keys and on the values of select controls.
 *
 * The result is an integer or NaN.  The steps follow the language standard
 * (ECMA-262, section 19.2.5 "parseInt ( string, radix )"): leading white space
 * is skipped, one sign is read, a `0x`/`0X` prefix selects radix 16 (otherwise
 * radix 10), and the longest prefix of digits valid in that radix is read;
 * no digit at all gives NaN.
 */
module JsNumbers {

  /** A JavaScript number as parseInt can produce it. */
  datatype IntOrNaN = Int(value: int) | NaN

  /** The white-space and line-terminator characters parseInt skips (the ASCII ones and a few common others). */
  predicate IsWhitespace(c: char) {
    c == ' ' || c == '\t' || c == '\n' || c == '\r' || c == '\U{000B}' || c == '\U{000C}'
    || c == '\U{00A0}' || c == '\U{FEFF}' || c == '\U{2028}' || c == '\U{2029}'
  }

  /** The value of `c` as a digit in radix 36; 36 when `c` is no digit in any radix. */
  function DigitValue(c: char): (d: nat)
    ensures d <= 36
  {
    if '0' <= c <= '9' then c as int - '0' as int
    else if 'a' <= c <= 'z' then c as int - 'a' as int + 10
    else if 'A' <= c <= 'Z' then c as int - 'A' as int + 10
    else 36
  }

  predicate IsDecimalDigit(c: char) {
    DigitValue(c) < 10
  }

  /** The values of the longest prefix of `s` made of digits valid in `radix`. */
  function DigitPrefix(s: string, radix: nat): (ds: seq<nat>)
    ensures |ds| <= |s|
    ensures forall i :: 0 <= i < |ds| ==> ds[i] == DigitValue(s[i]) < radix
    ensures |ds| < |s| ==> DigitValue(s[|ds|]) >= radix
  {
    if |s| > 0 && DigitValue(s[0]) < radix then [DigitValue(s[0])] + DigitPrefix(s[1..], radix) else []
  }

  /** The number a sequence of digits denotes in `radix`, most significant digit first. */
  function DigitsValue(ds: seq<nat>, radix: nat): nat {
    if |ds| == 0 then 0 else DigitsValue(ds[..|ds| - 1], radix) * radix + ds[|ds| - 1]
  }

  /** `Number.parseInt(s)` with the radix left undefined: leading white space is skipped. */
  function ParseInt(s: string): (r: IntOrNaN)
    ensures r.Int? ==> exists i :: 0 <= i < |s| && IsDecimalDigit(s[i])
    ensures |s| > 0 && '1' <= s[0] <= '9' ==> r.Int? && r.value >= 0
  {
    if |s| > 0 && IsWhitespace(s[0]) then
      var r := ParseInt(s[1..]);
      assert r.Int? ==> exists i :: 0 <= i < |s| && IsDecimalDigit(s[i]) by {
        if r.Int? {
          var i :| 0 <= i < |s[1..]| && IsDecimalDigit(s[1..][i]);
          assert IsDecimalDigit(s[i + 1]);
        }
      }
      r
    else
      ParseSigned(s)
  }

  /** parseInt on a string that does not start with white space: an optional sign, then the magnitude. */
  function ParseSigned(t: string): (r: IntOrNaN)
    ensures r.Int? ==> (|t| > 0 && IsDecimalDigit(t[0])) || (|t| > 1 && IsDecimalDigit(t[1]))
    ensures |t| > 0 && '1' <= t[0] <= '9' ==> r.Int? && r.value >= 0
  {
    if |t| > 0 && t[0] == '-' then Negate(ParseMagnitude(t[1..]))
    else if |t| > 0 && t[0] == '+' then ParseMagnitude(t[1..])
    else ParseMagnitude(t)
  }

  function Negate(x: IntOrNaN): IntOrNaN {
    if x.NaN? then NaN else Int(-x.value)
  }

  /** An unsigned number: a `0x`/`0X` prefix selects radix 16, otherwise radix 10; no digit gives NaN. */
  function ParseMagnitude(u: string): (r: IntOrNaN)
    ensures r.Int? ==> |u| > 0 && IsDecimalDigit(u[0]) && r.value >= 0
    ensures |u| > 0 && '1' <= u[0] <= '9' ==> r.Int?
  {
    var hex := |u| >= 2 && u[0] == '0' && (u[1] == 'x' || u[1] == 'X');
    var radix := if hex then 16 else 10;
    var digits := DigitPrefix(if hex then u[2..] else u, radix);
    if |digits| == 0 then NaN else Int(DigitsValue(digits, radix))
  }

  function DigitChar(d: nat): (c: char)
    requires d < 10
    ensures DigitValue(c) == d
  {
    ('0' as int + d) as char
  }

  /** The canonical decimal spelling of `n`, as JavaScript's `String(n)` writes a non-negative integer. */
  function DecimalString(n: nat): (s: string)
    ensures |s| > 0
    ensures forall i :: 0 <= i < |s| ==> IsDecimalDigit(s[i])
    ensures |s| > 1 ==> s[0] != '0'
  {
    if n < 10 then [DigitChar(n)] else DecimalString(n / 10) + [DigitChar(n % 10)]
  }

  /** The digit values of a string of digits. */
  function DigitValues(s: string): (ds: seq<nat>)
    ensures |ds| == |s|
  {
    seq(|s|, i requires 0 <= i < |s| => DigitValue(s[i]))
  }

  lemma DigitPrefixOfDigits(s: string, radix: nat)
    requires forall i :: 0 <= i < |s| ==> DigitValue(s[i]) < radix
    ensures DigitPrefix(s, radix) == DigitValues(s)
  {
    var ds := DigitPrefix(s, radix);
    assert |ds| == |s|;
  }

  lemma {:induction false} DecimalDigitsValue(n: nat)
    ensures DigitsValue(DigitValues(DecimalString(n)), 10) == n
  {
    if n >= 10 {
      var s := DecimalString(n);
      var front := DecimalString(n / 10);
      assert s == front + [DigitChar(n % 10)];
      assert DigitValues(s)[..|s| - 1] == DigitValues(front);
      DecimalDigitsValue(n / 10);
    }
  }

  /** parseInt reads back every non-negative integer from its decimal spelling. */
  lemma DecimalRoundTrip(n: nat)
    ensures ParseInt(DecimalString(n)) == Int(n)
  {
    var s := DecimalString(n);
    assert !IsWhitespace(s[0]) && s[0] != '-' && s[0] != '+';
    assert !(|s| >= 2 && s[0] == '0');
    DigitPrefixOfDigits(s, 10);
    DecimalDigitsValue(n);
    assert ParseMagnitude(s) == Int(n);
  }

  /** A string that starts with something other than white space, a sign or a decimal digit -- such as an identifier -- parses to NaN. */
  lemma NonNumericIsNaN(s: string)
    requires |s| > 0 && !IsWhitespace(s[0]) && s[0] != '+' && s[0] != '-' && !IsDecimalDigit(s[0])
    ensures ParseInt(s) == NaN
  {
  }
}
