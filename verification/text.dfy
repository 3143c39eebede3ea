/**
 * String helpers shared by the Kotlin and C++ parts of the model: Kotlin's
 * notion of whitespace (`Char.isWhitespace`), `trim`, `isBlank`, prefix tests,
 * and the decimal rendering used by `std::to_string` and `String.format("%d")`.
 */
module Text {

  /** Kotlin `Char.isWhitespace()`: Java `Character.isWhitespace` or
      `Character.isSpaceChar`, written out as the code points they accept. */
  predicate IsWhitespace(c: char) {
    ('\t' <= c <= '\r')
    || ('\U{1C}' <= c <= ' ')
    || c == '\U{A0}' || c == '\U{1680}'
    || ('\U{2000}' <= c <= '\U{200A}')
    || c == '\U{2028}' || c == '\U{2029}' || c == '\U{202F}' || c == '\U{205F}'
    || c == '\U{3000}'
  }

  /** Kotlin `CharSequence.isBlank()`: empty or whitespace only. */
  predicate IsBlank(s: string) {
    forall i :: 0 <= i < |s| ==> IsWhitespace(s[i])
  }

  predicate StartsWith(s: string, prefix: string) {
    |prefix| <= |s| && s[..|prefix|] == prefix
  }

  predicate EndsWith(s: string, suffix: string) {
    |suffix| <= |s| && s[|s| - |suffix|..] == suffix
  }

  /** Whether every character from `lo` up to `hi` is whitespace. */
  predicate BlankBetween(s: string, lo: int, hi: int)
    requires 0 <= lo <= hi <= |s|
  {
    forall i :: lo <= i < hi ==> IsWhitespace(s[i])
  }

  /** Length of the whitespace run that starts at `lo`. */
  function BlankAfter(s: string, lo: nat): (n: nat)
    requires lo <= |s|
    ensures lo + n <= |s|
    ensures BlankBetween(s, lo, lo + n)
    ensures lo + n < |s| ==> !IsWhitespace(s[lo + n])
    decreases |s| - lo
  {
    if lo == |s| || !IsWhitespace(s[lo]) then 0 else 1 + BlankAfter(s, lo + 1)
  }

  /** Length of the whitespace run that ends at `hi`, not reaching below
      `lo`. */
  function BlankBefore(s: string, lo: nat, hi: nat): (n: nat)
    requires lo <= hi <= |s|
    ensures n <= hi - lo
    ensures BlankBetween(s, hi - n, hi)
    ensures n < hi - lo ==> !IsWhitespace(s[hi - 1 - n])
    decreases hi
  {
    if hi == lo || !IsWhitespace(s[hi - 1]) then 0 else 1 + BlankBefore(s, lo, hi - 1)
  }

  /** Kotlin `String.trim()`: the text between the leading and the trailing
      whitespace runs. */
  function Trim(s: string): (r: string)
    ensures |r| <= |s|
  {
    var a := BlankAfter(s, 0);
    s[a..|s| - BlankBefore(s, a, |s|)]
  }

  /** The trimmed text is the part of the text right after its leading
      whitespace, and only whitespace comes before and after it. */
  lemma TrimIsMiddle(s: string)
    ensures var a := BlankAfter(s, 0);
      var r := Trim(s);
      && a + |r| <= |s|
      && r == s[a..a + |r|]
      && BlankBetween(s, 0, a) && BlankBetween(s, a + |r|, |s|)
  {
  }

  /** The trimmed text neither starts nor ends with whitespace, and it is
      empty exactly when the text is blank. */
  lemma TrimEnds(s: string)
    ensures var r := Trim(s);
      && (r == [] || (!IsWhitespace(r[0]) && !IsWhitespace(r[|r| - 1])))
      && (r == [] <==> IsBlank(s))
  {
    var a := BlankAfter(s, 0);
    var b := BlankBefore(s, a, |s|);
    if a < |s| {
      assert !IsWhitespace(s[a]) && b < |s| - a;
    }
  }

  /** Kotlin `String.removePrefix`. */
  function RemovePrefix(s: string, prefix: string): (r: string)
    ensures StartsWith(s, prefix) ==> prefix + r == s
    ensures !StartsWith(s, prefix) ==> r == s
  {
    if StartsWith(s, prefix) then
      assert prefix + s[|prefix|..] == s[..|prefix|] + s[|prefix|..];
      s[|prefix|..]
    else s
  }

  /** A text with two slots filled between three fixed pieces. */
  function Splice(head: string, x: string, mid: string, y: string, tail: string): string {
    head + x + mid + y + tail
  }

  /** Each piece and each filling of a spliced text can be read back at its
      offset. */
  lemma SpliceParts(head: string, x: string, mid: string, y: string, tail: string)
    ensures var p := Splice(head, x, mid, y, tail);
      && |p| == |head| + |x| + |mid| + |y| + |tail|
      && p[..|head|] == head
      && p[|head|..|head| + |x|] == x
      && p[|head| + |x|..|head| + |x| + |mid|] == mid
      && p[|head| + |x| + |mid|..|p| - |tail|] == y
      && p[|p| - |tail|..] == tail
  {
    var p := Splice(head, x, mid, y, tail);
    assert p == (((head + x) + mid) + y) + tail;
    assert p[..|head| + |x| + |mid| + |y|] == ((head + x) + mid) + y;
    assert p[..|head| + |x| + |mid|] == (head + x) + mid;
    assert p[..|head| + |x|] == head + x;
  }

  /** The line breaks of Kotlin's `lines()` joined back with "\n" (as
      `trimIndent` does): "\r\n" and a lone "\r" both become "\n". */
  function NormalizeBreaks(s: string): (r: string)
    ensures |r| <= |s|
    ensures forall i :: 0 <= i < |r| ==> r[i] != '\r'
    ensures (forall i :: 0 <= i < |s| ==> s[i] != '\r') ==> r == s
    decreases |s|
  {
    if s == [] then []
    else if s[0] == '\r' then
      "\n" + NormalizeBreaks(if |s| > 1 && s[1] == '\n' then s[2..] else s[1..])
    else
      [s[0]] + NormalizeBreaks(s[1..])
  }

  /** Concatenation of a list of strings, left to right. */
  function Concat(parts: seq<string>): string {
    if parts == [] then "" else Concat(parts[..|parts| - 1]) + parts[|parts| - 1]
  }

  // ---- decimal rendering ----

  predicate IsDigit(c: char) { '0' <= c <= '9' }

  function DigitValue(c: char): nat
    requires IsDigit(c)
  {
    (c as int - '0' as int) as nat
  }

  function DigitChar(d: nat): (c: char)
    requires d < 10
    ensures IsDigit(c) && DigitValue(c) == d
  {
    ('0' as int + d) as char
  }

  /** `std::to_string` / `%d` of a non-negative number: shortest decimal form. */
  function NatToDecimal(n: nat): (s: string)
    ensures |s| >= 1
    ensures forall i :: 0 <= i < |s| ==> IsDigit(s[i])
    ensures |s| > 1 ==> s[0] != '0'
  {
    if n < 10 then [DigitChar(n)] else NatToDecimal(n / 10) + [DigitChar(n % 10)]
  }

  /** `std::to_string` / `%d` of any integer: a minus sign for negatives. */
  function IntToDecimal(n: int): string {
    if n < 0 then "-" + NatToDecimal(-n) else NatToDecimal(n)
  }

  /** `%02d` of a non-negative number: at least two digits, zero-padded. */
  function TwoDigits(n: nat): string {
    if n < 10 then "0" + NatToDecimal(n) else NatToDecimal(n)
  }

  /** Value of a string of decimal digits (the inverse of NatToDecimal). */
  function DecimalValue(s: string): nat
    requires forall i :: 0 <= i < |s| ==> IsDigit(s[i])
  {
    if s == [] then 0 else 10 * DecimalValue(s[..|s| - 1]) + DigitValue(s[|s| - 1])
  }

  /** Reading the rendered digits back gives the number: the decimal
      rendering loses nothing. */
  lemma {:induction false} DecimalRoundTrip(n: nat)
    ensures DecimalValue(NatToDecimal(n)) == n
  {
    if n >= 10 {
      var q, r := n / 10, n % 10;
      assert n == 10 * q + r;
      DecimalRoundTrip(q);
      var s := NatToDecimal(n);
      assert s == NatToDecimal(q) + [DigitChar(r)];
      assert s[..|s| - 1] == NatToDecimal(q);
      assert DecimalValue(s) == 10 * DecimalValue(NatToDecimal(q)) + r;
    }
  }

  /** `%02d` keeps the value and, below 100, has exactly two digits. */
  lemma TwoDigitsRoundTrip(n: nat)
    requires n < 100
    ensures |TwoDigits(n)| == 2
    ensures forall i :: 0 <= i < 2 ==> IsDigit(TwoDigits(n)[i])
    ensures DecimalValue(TwoDigits(n)) == n
  {
    DecimalRoundTrip(n);
    if n < 10 {
      var s := TwoDigits(n);
      assert s[..1] == "0";
    } else {
      assert NatToDecimal(n) == NatToDecimal(n / 10) + [DigitChar(n % 10)];
    }
  }
}
