/**
 * Python's integer text conversions as the modelled code uses them: str(n),
 * int(s) / long(s) on decimal text, "%0<w>d" and "%0<w>x" formatting, and
 * floor division `//`.
 */
module Numbers {
  import opened Wrappers
  import opened Text

  const DigitChars := "0123456789abcdef"

  predicate IsDigit(c: char) {
    '0' <= c <= '9'
  }

  predicate AllDigits(s: string) {
    forall i :: 0 <= i < |s| ==> IsDigit(s[i])
  }

  /** A lower-case digit of some base up to 16. */
  predicate IsBaseDigit(c: char, base: nat) {
    ('0' <= c <= '9' && c as int - '0' as int < base)
    || ('a' <= c <= 'f' && c as int - 'a' as int + 10 < base)
  }

  function DigitValue(c: char): nat
    requires '0' <= c <= '9' || 'a' <= c <= 'f'
  {
    if c <= '9' then c as int - '0' as int else c as int - 'a' as int + 10
  }

  predicate AllBaseDigits(s: string, base: nat) {
    forall i :: 0 <= i < |s| ==> IsBaseDigit(s[i], base)
  }

  /** The value of a digit string, most significant digit first. */
  function BaseValue(s: string, base: nat): nat
    requires AllBaseDigits(s, base)
  {
    if s == [] then 0
    else
      var v := BaseValue(s[..|s| - 1], base);
      NatProduct(v, base);
      v * base + DigitValue(s[|s| - 1])
  }

  lemma NatProduct(a: nat, b: nat)
    ensures a * b >= 0
  {
  }

  /** The lower-case digit character of value d. */
  function DigitChar(d: nat, base: nat): (c: char)
    requires d < base <= 16
    ensures IsBaseDigit(c, base) && DigitValue(c) == d
  {
    if d < 10 then ('0' as int + d) as char else ('a' as int + d - 10) as char
  }

  lemma DivStep(n: nat, base: nat)
    requires 2 <= base <= n
    ensures 0 < n / base < n && 0 <= n % base < base
    ensures n == (n / base) * base + n % base
  {
  }

  /** The digits of n in the given base, without leading zeros. */
  function NatToBase(n: nat, base: nat): (r: string)
    requires 2 <= base <= 16
    ensures |r| >= 1 && AllBaseDigits(r, base)
    ensures |r| > 1 ==> r[0] != '0'
    decreases n
  {
    if n < base then [DigitChar(n, base)]
    else
      DivStep(n, base);
      NatToBase(n / base, base) + [DigitChar(n % base, base)]
  }

  lemma {:induction false} NatToBaseValue(n: nat, base: nat)
    requires 2 <= base <= 16
    ensures BaseValue(NatToBase(n, base), base) == n
    decreases n
  {
    if n >= base {
      DivStep(n, base);
      NatToBaseValue(n / base, base);
      var s := NatToBase(n, base);
      assert s[..|s| - 1] == NatToBase(n / base, base);
    }
  }

  function Zeros(n: nat): (r: string)
    ensures |r| == n && forall i :: 0 <= i < n ==> r[i] == '0'
  {
    seq(n, _ => '0')
  }

  lemma {:induction false} ZerosValue(n: nat, base: nat)
    requires base >= 2
    ensures AllBaseDigits(Zeros(n), base) && BaseValue(Zeros(n), base) == 0
  {
    if n > 0 {
      ZerosValue(n - 1, base);
      assert Zeros(n)[..n - 1] == Zeros(n - 1);
    }
  }

  /** Leading zeros do not change the value of a digit string. */
  lemma {:induction false} LeadingZerosValue(z: nat, s: string, base: nat)
    requires base >= 2 && AllBaseDigits(s, base)
    ensures AllBaseDigits(Zeros(z) + s, base)
    ensures BaseValue(Zeros(z) + s, base) == BaseValue(s, base)
  {
    ZerosValue(z, base);
    if s != [] {
      var t := s[..|s| - 1];
      LeadingZerosValue(z, t, base);
      assert (Zeros(z) + s)[..|Zeros(z) + s| - 1] == Zeros(z) + t;
    } else {
      assert Zeros(z) + s == Zeros(z);
    }
  }

  /** str(n) for an integer. */
  function IntToString(i: int): string {
    if i < 0 then "-" + NatToBase(-i, 10) else NatToBase(i, 10)
  }

  lemma DecimalDigits(s: string)
    requires AllBaseDigits(s, 10)
    ensures AllDigits(s)
  {
  }

  /** int(s) on text already stripped: an optional sign followed by decimal digits. */
  function ParseDecimal(s: string): Option<int> {
    if |s| >= 2 && (s[0] == '-' || s[0] == '+') && AllDigits(s[1..]) then
      assert AllBaseDigits(s[1..], 10);
      var v: int := BaseValue(s[1..], 10);
      var x: int := if s[0] == '-' then -v else v;
      Some(x)
    else if |s| >= 1 && AllDigits(s) then
      assert AllBaseDigits(s, 10);
      Some(BaseValue(s, 10))
    else None
  }

  /** int(s) / long(s): surrounding whitespace is ignored, anything else malformed fails. */
  function ParseInt(s: string): Option<int> {
    ParseDecimal(Strip(s))
  }

  /** int("") fails. */
  lemma EmptyIsNoNumber()
    ensures ParseInt("") == None
  {
  }

  /** str(i) ends in a decimal digit, so no word reads as one. */
  lemma EndsInDigit(i: int)
    ensures |IntToString(i)| >= 1 && IsDigit(IntToString(i)[|IntToString(i)| - 1])
  {
    var d := NatToBase(if i < 0 then -i else i, 10);
    assert IsBaseDigit(d[|d| - 1], 10);
  }

  lemma NoWhitespaceInNumber(i: int)
    ensures forall k :: 0 <= k < |IntToString(i)| ==> !IsWhitespace(IntToString(i)[k])
  {
  }

  lemma StripOfClean(s: string)
    requires forall k :: 0 <= k < |s| ==> !IsWhitespace(s[k])
    ensures Strip(s) == s
  {
  }

  /** int(str(i)) == i. */
  lemma ParseIntToString(i: int)
    ensures ParseInt(IntToString(i)) == Some(i)
  {
    var s := IntToString(i);
    NoWhitespaceInNumber(i);
    StripOfClean(s);
    var n: nat := if i < 0 then -i else i;
    var d := NatToBase(n, 10);
    NatToBaseValue(n, 10);
    DecimalDigits(d);
    assert IsDigit(d[0]);
    if i < 0 {
      assert s == "-" + d && s[1..] == d;
      assert ParseDecimal(s) == Some(-(BaseValue(d, 10) as int));
    } else {
      assert s == d && s[0] != '-' && s[0] != '+';
      assert ParseDecimal(s) == Some(BaseValue(d, 10));
    }
  }

  /**
   * Python's "%0<width>d" (base 10) and "%0<width>x" (base 16): the sign, then
   * zeros up to the width, then the digits.
   */
  function FormatInt(i: int, width: nat, base: nat): (r: string)
    requires 2 <= base <= 16
  {
    var sign := if i < 0 then "-" else "";
    var digits := NatToBase(if i < 0 then -i else i, base);
    var pad := width - |sign| - |digits|;
    sign + Zeros(if pad > 0 then pad else 0) + digits
  }

  /** A zero-padded non-negative number is at least as wide as asked and reads back as itself. */
  lemma FormatNatValue(n: nat, width: nat, base: nat)
    requires 2 <= base <= 16
    ensures var r := FormatInt(n, width, base);
      |r| >= width && AllBaseDigits(r, base) && BaseValue(r, base) == n
      && (|NatToBase(n, base)| <= width ==> |r| == width)
  {
    var digits := NatToBase(n, base);
    var pad := width - |digits|;
    var z := if pad > 0 then pad else 0;
    assert FormatInt(n, width, base) == Zeros(z) + digits;
    LeadingZerosValue(z, digits, base);
    NatToBaseValue(n, base);
  }

  /** Python's a // b, which rounds toward negative infinity. */
  function FloorDiv(a: int, b: int): (q: int)
    requires b != 0
    ensures b > 0 ==> b * q <= a < b * q + b
    ensures b < 0 ==> b * q >= a > b * q + b
  {
    if b > 0 then a / b else (-a) / (-b)
  }
}
