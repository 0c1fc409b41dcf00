/** String helpers standing for the JavaScript string operations the source
    uses: the `\d` regular-expression class, decimal rendering of integers in
    template literals, `String.prototype.trim`, `startsWith`, `split` on a
    one-character separator and `Array.prototype.join`. */
module Strings {

  /** `\d` in a JavaScript regular expression without the `u` flag. */
  predicate IsDigit(c: char) {
    '0' <= c <= '9'
  }

  predicate AllDigits(s: string) {
    forall k :: 0 <= k < |s| ==> IsDigit(s[k])
  }

  /** Length of the longest prefix of `s` made of digits. */
  function DigitSpan(s: string): (n: nat)
    ensures n <= |s|
    ensures AllDigits(s[..n])
    ensures n < |s| ==> !IsDigit(s[n])
    decreases |s|
  {
    if s == [] || !IsDigit(s[0]) then 0 else 1 + DigitSpan(s[1..])
  }

  /** The digit span of a run of digits followed by a non-digit (or by
      nothing) is exactly that run. */
  lemma {:induction false} DigitSpanOfRun(d: string, rest: string)
    requires AllDigits(d)
    requires rest == [] || !IsDigit(rest[0])
    ensures DigitSpan(d + rest) == |d|
    decreases |d|
  {
    if d == [] {
      assert d + rest == rest;
    } else {
      assert (d + rest)[1..] == d[1..] + rest;
      DigitSpanOfRun(d[1..], rest);
    }
  }

  /** A string is all digits exactly when its digit span is all of it. */
  lemma DigitSpanWhole(s: string)
    ensures DigitSpan(s) == |s| <==> AllDigits(s)
  {
    if AllDigits(s) {
      assert s + [] == s;
      DigitSpanOfRun(s, []);
    }
    assert s[..|s|] == s;
  }

  function DigitChar(v: nat): (c: char)
    requires v < 10
    ensures IsDigit(c)
  {
    ('0' as int + v) as char
  }

  /** Numeric value of a digit string, most significant digit first. */
  function Value(d: string): nat
    requires AllDigits(d)
    decreases |d|
  {
    if d == [] then 0
    else Value(d[..|d| - 1]) * 10 + (d[|d| - 1] as int - '0' as int)
  }

  /** Decimal rendering of a non-negative integer, as `${n}` produces it. */
  function Show(n: nat): (r: string)
    ensures |r| >= 1
    ensures AllDigits(r)
    ensures Value(r) == n
    ensures r[0] == '0' ==> n == 0
    decreases n
  {
    if n < 10 then [DigitChar(n)] else Show(n / 10) + [DigitChar(n % 10)]
  }

  /** Rendering is injective: different numbers never print alike. */
  lemma ShowInjective(m: nat, n: nat)
    requires Show(m) == Show(n)
    ensures m == n
  {
    assert Value(Show(m)) == Value(Show(n));
  }

  /** The characters `String.prototype.trim` removes: white space and line
      terminators of ECMAScript (tab, vertical tab, form feed, space, no-break
      space, byte order mark, the Unicode space separators, line feed,
      carriage return, line and paragraph separators). */
  predicate IsWhitespace(c: char) {
    c == '\t' || c == '\n' || c == '\U{B}' || c == '\U{C}' || c == '\r' ||
    c == ' ' || c == '\U{A0}' || c == '\U{1680}' || ('\U{2000}' <= c <= '\U{200A}') ||
    c == '\U{2028}' || c == '\U{2029}' || c == '\U{202F}' || c == '\U{205F}' ||
    c == '\U{3000}' || c == '\U{FEFF}'
  }

  predicate AllWhitespace(s: string) {
    forall k :: 0 <= k < |s| ==> IsWhitespace(s[k])
  }

  /** Number of characters at the start of `s` that satisfy `p`. */
  function LeadingSpan(s: string, p: char -> bool): (n: nat)
    ensures n <= |s|
    ensures forall k :: 0 <= k < n ==> p(s[k])
    ensures n < |s| ==> !p(s[n])
    decreases |s|
  {
    if s == [] || !p(s[0]) then 0 else 1 + LeadingSpan(s[1..], p)
  }

  /** Number of characters at the end of `s` that satisfy `p`. */
  function TrailingSpan(s: string, p: char -> bool): (n: nat)
    ensures n <= |s|
    ensures forall k :: |s| - n <= k < |s| ==> p(s[k])
    ensures n < |s| ==> !p(s[|s| - 1 - n])
    decreases |s|
  {
    if s == [] || !p(s[|s| - 1]) then 0 else 1 + TrailingSpan(s[..|s| - 1], p)
  }

  /** `s` without its longest prefix and suffix of characters satisfying `p`. */
  function Strip(s: string, p: char -> bool): (r: string)
    ensures |r| <= |s|
    ensures r != [] ==> !p(r[0]) && !p(r[|r| - 1])
    ensures exists i :: 0 <= i <= |s| - |r| && r == s[i..][..|r|]
                        && (forall k :: 0 <= k < i ==> p(s[k]))
                        && (forall k :: i + |r| <= k < |s| ==> p(s[k]))
    ensures r == [] <==> forall k :: 0 <= k < |s| ==> p(s[k])
  {
    var i := LeadingSpan(s, p);
    var j := TrailingSpan(s, p);
    if i == |s| then
      assert s[|s|..|s|] == [];
      []
    else
      assert !p(s[i]) && i <= |s| - 1 - j;
      assert s[i..|s| - j] == s[i..][..|s| - j - i];
      s[i..|s| - j]
  }

  /** `s.trim()`: `s` without its leading and trailing white space. */
  function Trim(s: string): (r: string)
    ensures |r| <= |s|
    ensures r != [] ==> !IsWhitespace(r[0]) && !IsWhitespace(r[|r| - 1])
    ensures exists i :: 0 <= i <= |s| - |r| && r == s[i..][..|r|]
                        && (forall k :: 0 <= k < i ==> IsWhitespace(s[k]))
                        && (forall k :: i + |r| <= k < |s| ==> IsWhitespace(s[k]))
    ensures r == [] <==> AllWhitespace(s)
  {
    Strip(s, IsWhitespace)
  }

  predicate StartsWith(s: string, prefix: string) {
    |prefix| <= |s| && s[..|prefix|] == prefix
  }

  predicate EndsWith(s: string, suffix: string) {
    |suffix| <= |s| && s[|s| - |suffix|..] == suffix
  }

  /** `parts.join(sep)`. */
  function Join(parts: seq<string>, sep: string): string
    decreases |parts|
  {
    if parts == [] then ""
    else if |parts| == 1 then parts[0]
    else parts[0] + sep + Join(parts[1..], sep)
  }

  /** Number of occurrences of `c` in `s`. */
  function Count(s: string, c: char): nat
    decreases |s|
  {
    if s == [] then 0 else (if s[0] == c then 1 else 0) + Count(s[1..], c)
  }

  /** `s.split(sep)` for a one-character separator: every maximal run
      between separators is a piece, empty pieces included. */
  function Split(s: string, sep: char): (r: seq<string>)
    ensures |r| == Count(s, sep) + 1
    ensures forall k :: 0 <= k < |r| ==> sep !in r[k]
    ensures Join(r, [sep]) == s
    decreases |s|
  {
    if s == [] then [""]
    else
      var rest := Split(s[1..], sep);
      if s[0] == sep then [""] + rest
      else [[s[0]] + rest[0]] + rest[1..]
  }
}
