/**
 * Decimal text of Java `long` values: `Long.toString` (also what string
 * concatenation and `String.valueOf` produce) and its inverse `Long.parseLong`.
 */
module JavaNumbers {

  import opened JavaLang

  /** An ASCII digit, the only kind `Long.toString` writes. */
  predicate IsDigit(c: char) {
    '0' <= c <= '9'
  }

  predicate AllDigits(s: string) {
    forall i :: 0 <= i < |s| ==> IsDigit(s[i])
  }

  function DigitChar(d: nat): (c: char)
    requires d < 10
    ensures IsDigit(c) && c as int - '0' as int == d
  {
    ('0' as int + d) as char
  }

  /**
   * The zero of the run of ten decimal digits (Unicode general category Nd)
   * holding code point `n`, or -1. The runs are those of the Basic
   * Multilingual Plane as of Unicode 13.0, the version Java 17 implements;
   * `Long.parseLong` reads UTF-16 code units, so digits outside this plane
   * arrive as surrogates, which are no digits.
   */
  function DigitZero(n: int): (z: int)
    ensures z == -1 || (z >= 0 && z <= n < z + 10)
  {
    if n < 0x0030 then -1 else if n < 0x003A then 0x0030
    else if n < 0x0660 then -1 else if n < 0x066A then 0x0660
    else if n < 0x06F0 then -1 else if n < 0x06FA then 0x06F0
    else if n < 0x07C0 then -1 else if n < 0x07CA then 0x07C0
    else if n < 0x0966 then -1 else if n < 0x0970 then 0x0966
    else if n < 0x09E6 then -1 else if n < 0x09F0 then 0x09E6
    else if n < 0x0A66 then -1 else if n < 0x0A70 then 0x0A66
    else if n < 0x0AE6 then -1 else if n < 0x0AF0 then 0x0AE6
    else if n < 0x0B66 then -1 else if n < 0x0B70 then 0x0B66
    else if n < 0x0BE6 then -1 else if n < 0x0BF0 then 0x0BE6
    else if n < 0x0C66 then -1 else if n < 0x0C70 then 0x0C66
    else if n < 0x0CE6 then -1 else if n < 0x0CF0 then 0x0CE6
    else if n < 0x0D66 then -1 else if n < 0x0D70 then 0x0D66
    else if n < 0x0DE6 then -1 else if n < 0x0DF0 then 0x0DE6
    else if n < 0x0E50 then -1 else if n < 0x0E5A then 0x0E50
    else if n < 0x0ED0 then -1 else if n < 0x0EDA then 0x0ED0
    else if n < 0x0F20 then -1 else if n < 0x0F2A then 0x0F20
    else if n < 0x1040 then -1 else if n < 0x104A then 0x1040
    else if n < 0x1090 then -1 else if n < 0x109A then 0x1090
    else if n < 0x17E0 then -1 else if n < 0x17EA then 0x17E0
    else if n < 0x1810 then -1 else if n < 0x181A then 0x1810
    else if n < 0x1946 then -1 else if n < 0x1950 then 0x1946
    else if n < 0x19D0 then -1 else if n < 0x19DA then 0x19D0
    else if n < 0x1A80 then -1 else if n < 0x1A8A then 0x1A80
    else if n < 0x1A90 then -1 else if n < 0x1A9A then 0x1A90
    else if n < 0x1B50 then -1 else if n < 0x1B5A then 0x1B50
    else if n < 0x1BB0 then -1 else if n < 0x1BBA then 0x1BB0
    else if n < 0x1C40 then -1 else if n < 0x1C4A then 0x1C40
    else if n < 0x1C50 then -1 else if n < 0x1C5A then 0x1C50
    else if n < 0xA620 then -1 else if n < 0xA62A then 0xA620
    else if n < 0xA8D0 then -1 else if n < 0xA8DA then 0xA8D0
    else if n < 0xA900 then -1 else if n < 0xA90A then 0xA900
    else if n < 0xA9D0 then -1 else if n < 0xA9DA then 0xA9D0
    else if n < 0xA9F0 then -1 else if n < 0xA9FA then 0xA9F0
    else if n < 0xAA50 then -1 else if n < 0xAA5A then 0xAA50
    else if n < 0xABF0 then -1 else if n < 0xABFA then 0xABF0
    else if n < 0xFF10 then -1 else if n < 0xFF1A then 0xFF10
    else -1
  }

  /** `Character.digit(c, 10)`: the value of a decimal digit of any script, or `None` where Java gives -1. */
  function CharDigit(c: char): (d: Option<nat>)
    ensures d.Some? ==> d.value < 10
    ensures IsDigit(c) ==> d == Some(c as int - '0' as int)
    ensures c as int < '0' as int ==> d.None?
  {
    var z := DigitZero(c as int);
    if z < 0 then None else Some(c as int - z)
  }

  predicate AllDecimal(s: string) {
    forall i :: 0 <= i < |s| ==> CharDigit(s[i]).Some?
  }

  /** The value of a string of decimal digits, most significant first. */
  function DecimalValue(s: string): nat
    requires AllDecimal(s)
  {
    if s == [] then 0 else DecimalValue(s[..|s| - 1]) * 10 + CharDigit(s[|s| - 1]).value
  }

  /** The shortest decimal text of `n`. */
  function NatToDecimal(n: nat): (s: string)
    ensures |s| > 0 && AllDigits(s) && AllDecimal(s)
    ensures n > 0 ==> s[0] != '0'
  {
    if n < 10 then [DigitChar(n)] else NatToDecimal(n / 10) + [DigitChar(n % 10)]
  }

  /** `Long.toString(n)`: a minus sign for negative values, then the decimal digits of the magnitude. */
  function LongToString(n: int): (s: string)
    ensures |s| > 0
    ensures forall i :: 0 <= i < |s| ==> IsDigit(s[i]) || s[i] == '-'
    ensures s[0] == '-' <==> n < 0
  {
    if n < 0 then "-" + NatToDecimal(-n) else NatToDecimal(n)
  }

  /**
   * `Long.parseLong(s)`: an optional `+` or `-` followed by at least one
   * decimal digit of any script, denoting a value within the range of `long`;
   * anything else raises `NumberFormatException`, modelled as `None`.
   */
  function ParseLong(s: string): (r: Option<Long>)
    ensures r.Some? ==> |s| > 0 && forall i :: 0 < i < |s| ==> CharDigit(s[i]).Some?
    ensures r.Some? && CharDigit(s[0]).None? ==> s[0] == '-' || s[0] == '+'
    ensures r.Some? && r.value < 0 ==> s[0] == '-'
  {
    if |s| == 0 then None
    else
      var negative := s[0] == '-';
      var digits := if s[0] == '-' || s[0] == '+' then s[1..] else s;
      if |digits| == 0 || !AllDecimal(digits) then None
      else
        var magnitude: int := DecimalValue(digits);
        var v := if negative then -magnitude else magnitude;
        if LONG_MIN <= v <= LONG_MAX then Some(v) else None
  }

  lemma {:induction false} DecimalValueOfNatToDecimal(n: nat)
    ensures DecimalValue(NatToDecimal(n)) == n
    decreases n
  {
    var s := NatToDecimal(n);
    if n >= 10 {
      assert s[..|s| - 1] == NatToDecimal(n / 10);
      DecimalValueOfNatToDecimal(n / 10);
    }
  }

  /** Unsigned ASCII digits parse to their value. */
  lemma ParseUnsigned(d: string)
    requires d != [] && AllDigits(d) && AllDecimal(d) && DecimalValue(d) <= LONG_MAX
    ensures ParseLong(d) == Some(DecimalValue(d))
  {
    assert IsDigit(d[0]);
  }

  /** A minus sign followed by digits parses to the negated value. */
  lemma ParseNegative(d: string)
    requires d != [] && AllDecimal(d) && DecimalValue(d) <= -LONG_MIN
    ensures ParseLong("-" + d).Some? && ParseLong("-" + d).value as int == -(DecimalValue(d) as int)
  {
    assert ("-" + d)[1..] == d;
  }

  /** Parsing the text `Long.toString` produces gives back the value. */
  lemma {:induction false} ParseLongOfLongToString(n: Long)
    ensures ParseLong(LongToString(n)) == Some(n)
  {
    var m: int := n;
    if m < 0 {
      DecimalValueOfNatToDecimal(-m);
      ParseNegative(NatToDecimal(-m));
    } else {
      DecimalValueOfNatToDecimal(m);
      ParseUnsigned(NatToDecimal(m));
    }
  }

  /** `Long.parseLong` reads decimal digits of every script: full-width and Arabic-Indic "42" are 42. */
  lemma ParseLongReadsAnyScript()
    ensures ParseLong("\U{FF14}\U{FF12}") == Some(42)
    ensures ParseLong("-\U{0664}\U{0662}") == Some(-42)
  {
    var w := "\U{FF14}\U{FF12}";
    assert CharDigit(w[0]) == Some(4) && CharDigit(w[1]) == Some(2);
    assert w[..1][..0] == [] && w[..1] == [w[0]];
    assert DecimalValue(w) == 42;
    var a := "\U{0664}\U{0662}";
    assert CharDigit(a[0]) == Some(4) && CharDigit(a[1]) == Some(2);
    assert a[..1][..0] == [] && a[..1] == [a[0]];
    assert DecimalValue(a) == 42;
    assert ("-" + a)[1..] == a;
  }

  lemma {:induction false} LongToStringInjective(m: Long, n: Long)
    requires LongToString(m) == LongToString(n)
    ensures m == n
  {
    ParseLongOfLongToString(m);
    ParseLongOfLongToString(n);
  }

  /** The text of a value never contains a path separator. */
  lemma LongToStringHasNoSlash(n: int)
    ensures '/' !in LongToString(n)
  {
  }
}
