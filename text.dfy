/**
 * The Python string built-ins the orchestrator relies on, each with the
 * behaviour CPython gives it: `str.startswith`, `str.replace(pat, "")`,
 * `str.strip()`, `str.lower()`, `str.join` and `f"{n}"` for an `int`.
 */
module Text {

  /** `s.startswith(prefix)`. */
  predicate StartsWith(s: string, prefix: string) {
    |prefix| <= |s| && s[..|prefix|] == prefix
  }

  /** `pat in s`: some position of `s` starts with `pat`. */
  predicate Occurs(pat: string, s: string) {
    exists i :: 0 <= i <= |s| && StartsWith(s[i..], pat)
  }

  lemma OccursAt(a: string, pat: string, b: string)
    ensures Occurs(pat, a + pat + b)
  {
    var s := a + pat + b;
    assert s[|a|..][..|pat|] == pat;
  }

  lemma OccursBetween(a: string, pat: string, b: string, c: string)
    ensures Occurs(pat, a + pat + b + c)
  {
    var s := a + pat + b + c;
    assert s[|a|..][..|pat|] == pat;
  }

  /** An occurrence stays one when text is put in front. */
  lemma OccursAfter(pre: string, s: string, pat: string)
    requires Occurs(pat, s)
    ensures Occurs(pat, pre + s)
  {
    var i :| 0 <= i <= |s| && StartsWith(s[i..], pat);
    assert (pre + s)[|pre| + i..] == s[i..];
  }

  /** An occurrence stays one when text is put after it. */
  lemma OccursBefore(s: string, post: string, pat: string)
    requires Occurs(pat, s)
    ensures Occurs(pat, s + post)
  {
    var i :| 0 <= i <= |s| && StartsWith(s[i..], pat);
    assert (s + post)[i..][..|pat|] == s[i..][..|pat|];
  }

  lemma OccursAtEnd(a: string, pat: string)
    ensures Occurs(pat, a + pat)
  {
    assert (a + pat)[|a|..] == pat;
  }

  /** Text without an occurrence keeps none when its first character is dropped. */
  lemma NoOccurrenceInTail(pat: string, s: string)
    requires s != "" && !Occurs(pat, s)
    ensures !Occurs(pat, s[1..])
  {
    forall i | 0 <= i <= |s[1..]|
      ensures !StartsWith(s[1..][i..], pat)
    {
      assert s[1..][i..] == s[i + 1..];
    }
  }

  /** A pattern longer than the text does not occur in it. */
  lemma NoOccurrenceWhenLonger(pat: string, s: string)
    requires |pat| > |s|
    ensures !Occurs(pat, s)
  {
  }

  /**
   * `s.replace(pat, "")`: CPython scans left to right and removes every
   * non-overlapping occurrence; text formed by a removal is not scanned again.
   */
  function RemoveAll(s: string, pat: string): (r: string)
    requires pat != ""
    ensures |r| <= |s|
    decreases |s|
  {
    if s == "" then ""
    else if StartsWith(s, pat) then RemoveAll(s[|pat|..], pat)
    else [s[0]] + RemoveAll(s[1..], pat)
  }

  /** Text holding no occurrence of the pattern comes back unchanged. */
  lemma {:induction false} RemoveAllWithoutOccurrence(s: string, pat: string)
    requires pat != "" && !Occurs(pat, s)
    ensures RemoveAll(s, pat) == s
  {
    if s != "" {
      assert s[0..] == s;
      assert !StartsWith(s, pat);
      NoOccurrenceInTail(pat, s);
      RemoveAllWithoutOccurrence(s[1..], pat);
    }
  }

  /** A leading occurrence is removed and the scan carries on after it. */
  lemma RemoveAllLeading(pat: string, s: string)
    requires pat != ""
    ensures RemoveAll(pat + s, pat) == RemoveAll(s, pat)
  {
    assert (pat + s)[..|pat|] == pat;
    assert (pat + s)[|pat|..] == s;
  }

  /** Python's `str.isspace()` characters, the ones `strip()` removes. */
  predicate IsSpace(c: char) {
    || ('\t' <= c <= '\r')
    || ('\U{1C}' <= c <= ' ')
    || c == '\U{85}' || c == '\U{A0}' || c == '\U{1680}'
    || ('\U{2000}' <= c <= '\U{200A}')
    || c == '\U{2028}' || c == '\U{2029}' || c == '\U{202F}' || c == '\U{205F}'
    || c == '\U{3000}'
  }

  predicate AllSpace(s: string) {
    forall k :: 0 <= k < |s| ==> IsSpace(s[k])
  }

  /** How many whitespace characters `s` starts with. */
  function LeadingSpaces(s: string): (n: nat)
    ensures n <= |s| && AllSpace(s[..n])
    ensures n == |s| || !IsSpace(s[n])
  {
    if s != "" && IsSpace(s[0]) then
      var m := LeadingSpaces(s[1..]);
      assert s[..m + 1] == [s[0]] + s[1..][..m];
      1 + m
    else 0
  }

  /** How many whitespace characters `s` ends with. */
  function TrailingSpaces(s: string): (n: nat)
    ensures n <= |s| && AllSpace(s[|s| - n..])
    ensures n == |s| || !IsSpace(s[|s| - n - 1])
  {
    if s != "" && IsSpace(s[|s| - 1]) then
      var m := TrailingSpaces(s[..|s| - 1]);
      assert s[|s| - (m + 1)..] == s[..|s| - 1][|s| - 1 - m..] + [s[|s| - 1]];
      1 + m
    else 0
  }

  /** `s.strip()`. */
  function Strip(s: string): (r: string)
    ensures r == "" || (!IsSpace(r[0]) && !IsSpace(r[|r| - 1]))
    ensures exists i :: 0 <= i <= |s| - |r| && r == s[i..i + |r|]
                        && AllSpace(s[..i]) && AllSpace(s[i + |r|..])
  {
    var i := LeadingSpaces(s);
    var m := TrailingSpaces(s[i..]);
    StripSpan(s, i, m);
    s[i..|s| - m]
  }

  /** The text between the leading and the trailing spaces is a span of `s` with non-space ends. */
  lemma StripSpan(s: string, i: nat, m: nat)
    requires i <= |s| && AllSpace(s[..i]) && (i == |s| || !IsSpace(s[i]))
    requires m <= |s| - i && AllSpace(s[i..][|s| - i - m..])
    requires m == |s| - i || !IsSpace(s[i..][|s| - i - m - 1])
    ensures var r := s[i..|s| - m];
      && (r == "" || (!IsSpace(r[0]) && !IsSpace(r[|r| - 1])))
      && 0 <= i <= |s| - |r| && r == s[i..i + |r|] && AllSpace(s[..i]) && AllSpace(s[i + |r|..])
  {
    assert s[i..][|s| - i - m..] == s[|s| - m..];
  }

  /** Text with non-space ends, after one leading space, strips to itself. */
  lemma StripOneLeadingSpace(s: string)
    requires s != "" && !IsSpace(s[0]) && !IsSpace(s[|s| - 1])
    ensures Strip(" " + s) == s
  {
    var p := " " + s;
    assert p[1..] == s;
    assert LeadingSpaces(p) == 1 by {
      assert IsSpace(p[0]) && p[1..][0] == s[0];
    }
    assert TrailingSpaces(s) == 0;
  }

  /** ASCII case folding; every other character is left as it is. */
  function LowerChar(c: char): char {
    if 'A' <= c <= 'Z' then (c as int + 32) as char else c
  }

  /** `s.lower()` on ASCII text. */
  function Lower(s: string): string {
    seq(|s|, i requires 0 <= i < |s| => LowerChar(s[i]))
  }

  /** `s.replace(a, b)` for single characters `a` and `b`. */
  function ReplaceChar(s: string, a: char, b: char): string {
    seq(|s|, i requires 0 <= i < |s| => if s[i] == a then b else s[i])
  }

  /** Appending is associative; stated once so that proofs about logs need not rediscover it. */
  lemma AppendAssoc<T>(a: seq<T>, b: seq<T>, c: seq<T>)
    ensures a + b + c == a + (b + c)
  {
  }

  /** `sep.join(parts)`. */
  function Join(parts: seq<string>, sep: string): string {
    if parts == [] then ""
    else if |parts| == 1 then parts[0]
    else parts[0] + sep + Join(parts[1..], sep)
  }

  /** `"".join(parts)`, built from the right as a `+=` loop builds it. */
  function Concat(parts: seq<string>): string {
    if parts == [] then "" else Concat(parts[..|parts| - 1]) + parts[|parts| - 1]
  }

  lemma {:induction false} ConcatSplit(a: seq<string>, b: seq<string>)
    ensures Concat(a + b) == Concat(a) + Concat(b)
  {
    if b != [] {
      assert (a + b)[..|a + b| - 1] == a + b[..|b| - 1];
      ConcatSplit(a, b[..|b| - 1]);
    } else {
      assert a + b == a;
    }
  }

  function DigitChar(d: nat): char
    requires d < 10
  {
    "0123456789"[d]
  }

  /** Decimal digits of a natural number, most significant first. */
  function Digits(n: nat): (r: string)
    ensures r != ""
  {
    if n < 10 then [DigitChar(n)] else Digits(n / 10) + [DigitChar(n % 10)]
  }

  /** `f"{v}"` for a Python `int`. */
  function Decimal(v: int): string {
    if v < 0 then "-" + Digits(-v) else Digits(v)
  }
}
