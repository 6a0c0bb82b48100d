/**
 * The `java.lang.String` operations the core relies on. Java distinguishes two
 * notions of "space": `isBlank` uses `Character.isWhitespace`, while `trim`
 * strips every code point up to U+0020. Both are modelled as written, and the
 * lemmas at the end show that neither implies the other.
 */
module JavaText {

  import opened JavaLang

  /** `Character.isWhitespace`: the Unicode space, line and paragraph separators except the
    * no-break spaces U+00A0, U+2007 and U+202F, plus the controls U+0009-U+000D and U+001C-U+001F. */
  predicate IsWhitespace(c: char) {
    var n := c as int;
    (0x09 <= n <= 0x0D) || (0x1C <= n <= 0x20) || n == 0x1680
    || (0x2000 <= n <= 0x200A && n != 0x2007)
    || n == 0x2028 || n == 0x2029 || n == 0x205F || n == 0x3000
  }

  /** `String.isBlank`: empty or made only of whitespace. */
  predicate IsBlank(s: string) {
    forall i :: 0 <= i < |s| ==> IsWhitespace(s[i])
  }

  /** The code points `String.trim` removes: those up to U+0020. */
  predicate IsTrimmable(c: char) {
    c as int <= 0x20
  }

  /** Number of leading code points `trim` removes. */
  function TrimStartIndex(s: string): (n: nat)
    ensures n <= |s|
    ensures forall k :: 0 <= k < n ==> IsTrimmable(s[k])
    ensures n == |s| || !IsTrimmable(s[n])
  {
    if |s| == 0 || !IsTrimmable(s[0]) then 0 else 1 + TrimStartIndex(s[1..])
  }

  /** Position after the last code point `trim` keeps. */
  function TrimEndIndex(s: string): (n: nat)
    ensures n <= |s|
    ensures forall k :: n <= k < |s| ==> IsTrimmable(s[k])
    ensures n == 0 || !IsTrimmable(s[n - 1])
  {
    if |s| == 0 || !IsTrimmable(s[|s| - 1]) then |s| else TrimEndIndex(s[..|s| - 1])
  }

  /** `String.trim`: the longest infix of `s` that neither starts nor ends with a code point up to U+0020. */
  function Trim(s: string): (r: string)
    ensures |r| <= |s|
    ensures r == [] || (!IsTrimmable(r[0]) && !IsTrimmable(r[|r| - 1]))
    ensures r == [] <==> forall k :: 0 <= k < |s| ==> IsTrimmable(s[k])
  {
    var t := s[TrimStartIndex(s)..];
    t[..TrimEndIndex(t)]
  }

  /** A string with no trimmable code point at either end is its own trim. */
  lemma TrimOfTrimmed(s: string)
    requires s == [] || (!IsTrimmable(s[0]) && !IsTrimmable(s[|s| - 1]))
    ensures Trim(s) == s
  {
  }

  lemma {:induction false} TrimIdempotent(s: string)
    ensures Trim(Trim(s)) == Trim(s)
  {
    TrimOfTrimmed(Trim(s));
  }

  /** `Character.toLowerCase` under `Locale.ROOT`, on the ASCII letters. */
  function LowerChar(c: char): char {
    if 'A' <= c <= 'Z' then (c as int + 32) as char else c
  }

  /** `String.toLowerCase(Locale.ROOT)`, code point by code point. */
  function ToLower(s: string): (r: string)
    ensures |r| == |s|
    ensures forall i :: 0 <= i < |s| ==> r[i] == LowerChar(s[i])
  {
    if s == [] then [] else [LowerChar(s[0])] + ToLower(s[1..])
  }

  predicate IsLowerCase(s: string) {
    forall i :: 0 <= i < |s| ==> !('A' <= s[i] <= 'Z')
  }

  lemma {:induction false} ToLowerIsLowerCase(s: string)
    ensures IsLowerCase(ToLower(s))
  {
    var r := ToLower(s);
    forall i | 0 <= i < |r|
      ensures !('A' <= r[i] <= 'Z')
    {
      assert r[i] == LowerChar(s[i]);
    }
  }

  lemma {:induction false} ToLowerOfLowerCase(s: string)
    requires IsLowerCase(s)
    ensures ToLower(s) == s
  {
    var r := ToLower(s);
    forall i | 0 <= i < |s|
      ensures r[i] == s[i]
    {
      assert r[i] == LowerChar(s[i]);
    }
  }

  lemma {:induction false} ToLowerIdempotent(s: string)
    ensures ToLower(ToLower(s)) == ToLower(s)
  {
    ToLowerIsLowerCase(s);
    ToLowerOfLowerCase(ToLower(s));
  }

  /** Lower-casing never turns a kept code point into a trimmable one or back, so it commutes with `trim`. */
  lemma {:induction false} TrimOfLowerTrimmed(s: string)
    ensures Trim(ToLower(Trim(s))) == ToLower(Trim(s))
  {
    var t := Trim(s);
    var l := ToLower(t);
    if l != [] {
      assert l[0] == LowerChar(t[0]);
      assert l[|l| - 1] == LowerChar(t[|t| - 1]);
    }
    TrimOfTrimmed(l);
  }

  /** `String.indexOf(c)`: the first position holding `c`. */
  function IndexOf(s: string, c: char): (r: Option<nat>)
    ensures r.Some? ==> r.value < |s| && s[r.value] == c && forall k :: 0 <= k < r.value ==> s[k] != c
    ensures r.None? ==> c !in s
  {
    if s == [] then None
    else if s[0] == c then Some(0)
    else match IndexOf(s[1..], c)
      case None => None
      case Some(k) => Some(k + 1)
  }

  /** `String.lastIndexOf(c)`: the last position holding `c`. */
  function LastIndexOf(s: string, c: char): (r: Option<nat>)
    ensures r.Some? ==> r.value < |s| && s[r.value] == c && forall k :: r.value < k < |s| ==> s[k] != c
    ensures r.None? ==> c !in s
  {
    if s == [] then None
    else if s[|s| - 1] == c then Some(|s| - 1)
    else LastIndexOf(s[..|s| - 1], c)
  }

  /** `String.endsWith(suffix)`. */
  predicate EndsWith(s: string, suffix: string) {
    |suffix| <= |s| && s[|s| - |suffix|..] == suffix
  }

  /** A control character that `isBlank` keeps but `trim` removes. */
  lemma NotBlankButTrimsToEmpty()
    ensures !IsBlank("\U{0001}") && Trim("\U{0001}") == ""
  {
    assert !IsWhitespace("\U{0001}"[0]);
  }

}
