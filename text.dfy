/**
 * String rewriting used to build notification bodies: JavaScript's
 * `String.prototype.replace` with a global literal pattern, the markup escape
 * applied to sender and subject, its inverse, and decimal rendering of numbers
 * as done by string concatenation.
 */
module Text {
  import opened Common

  /**
   * `s.replace(/pat/g, rep)` for a literal, non-empty pattern: scan left to
   * right, replace every non-overlapping occurrence, copy everything else.
   */
  function ReplaceAll(s: string, pat: string, rep: string): (r: string)
    requires pat != []
    decreases |s|
  {
    if |s| < |pat| then s
    else if s[..|pat|] == pat then rep + ReplaceAll(s[|pat|..], pat, rep)
    else [s[0]] + ReplaceAll(s[1..], pat, rep)
  }

  /** A string without the pattern's first character has nothing to replace. */
  lemma {:induction false} ReplaceAllWithoutMatch(s: string, pat: string, rep: string)
    requires pat != [] && pat[0] !in s
    ensures ReplaceAll(s, pat, rep) == s
    decreases |s|
  {
    if |s| >= |pat| {
      assert s[0] in s;
      assert s[..|pat|] != pat by { assert s[..|pat|][0] == s[0]; }
      assert forall c :: c in s[1..] ==> c in s;
      ReplaceAllWithoutMatch(s[1..], pat, rep);
      assert s == [s[0]] + s[1..];
    }
  }

  /**
   * Escapes `&` first and then `<`; `>` is left alone. No `<` remains, so
   * the escaped text cannot open a tag (`EscapeHTMLIsPerChar` shows the two
   * passes amount to the per-character escape).
   */
  function EscapeHTML(text: string): (r: string)
    ensures '<' !in r
  {
    EscapeHTMLIsPerChar(text);
    EscapeEachNoOpenAngle(text);
    ReplaceAll(ReplaceAll(text, "&", "&amp;"), "<", "&lt;")
  }

  /** Reverses the escape: `&lt;` back to `<`, then `&amp;` back to `&`. */
  function Unescape(html: string): string
  {
    ReplaceAll(ReplaceAll(html, "&lt;", "<"), "&amp;", "&")
  }

  /** Reference definition of the escape, one character at a time. */
  function EscapeChar(c: char): string
  {
    if c == '&' then "&amp;" else if c == '<' then "&lt;" else [c]
  }

  function EscapeEach(s: string): string
    decreases |s|
  {
    if s == [] then [] else EscapeChar(s[0]) + EscapeEach(s[1..])
  }

  /** The text after the first pass of the escape: only `&` rewritten. */
  function AmpEach(s: string): string
    decreases |s|
  {
    if s == [] then [] else (if s[0] == '&' then "&amp;" else [s[0]]) + AmpEach(s[1..])
  }

  // ---------------------------------------------------------------------------
  // Unfolding facts about ReplaceAll

  lemma ReplaceAllHit(x: string, pat: string, rep: string)
    requires pat != []
    ensures ReplaceAll(pat + x, pat, rep) == rep + ReplaceAll(x, pat, rep)
  {
  }

  lemma ReplaceAllSkip(c: char, x: string, pat: string, rep: string)
    requires pat != [] && c != pat[0]
    ensures ReplaceAll([c] + x, pat, rep) == [c] + ReplaceAll(x, pat, rep)
  {
  }

  /** Rewriting a one-character pattern distributes over concatenation. */
  lemma {:induction false} ReplaceCharAppend(a: string, b: string, p: char, rep: string)
    ensures ReplaceAll(a + b, [p], rep) == ReplaceAll(a, [p], rep) + ReplaceAll(b, [p], rep)
    decreases |a|
  {
    if a == [] {
      assert a + b == b;
    } else {
      assert (a + b)[1..] == a[1..] + b;
      assert (a + b)[..1] == a[..1];
      ReplaceCharAppend(a[1..], b, p, rep);
    }
  }

  lemma ReplaceCharCons(c: char, x: string, p: char, rep: string)
    ensures ReplaceAll([c] + x, [p], rep) == (if c == p then rep else [c]) + ReplaceAll(x, [p], rep)
  {
  }

  // ---------------------------------------------------------------------------
  // Properties of the escape

  /** The two chained replaces agree with the per-character reference definition. */
  lemma {:induction false} EscapeHTMLIsPerChar(s: string)
    ensures ReplaceAll(ReplaceAll(s, "&", "&amp;"), "<", "&lt;") == EscapeEach(s)
    decreases |s|
  {
    if s != [] {
      var c, rest := s[0], s[1..];
      assert s == [c] + rest;
      var first := if c == '&' then "&amp;" else [c];
      ReplaceCharCons(c, rest, '&', "&amp;");
      assert ReplaceAll(s, "&", "&amp;") == first + ReplaceAll(rest, "&", "&amp;");
      ReplaceCharAppend(first, ReplaceAll(rest, "&", "&amp;"), '<', "&lt;");
      if c == '&' {
        assert ReplaceAll("&amp;", "<", "&lt;") == "&amp;";
      } else {
        ReplaceCharCons(c, [], '<', "&lt;");
        assert [c] + [] == [c];
      }
      assert ReplaceAll(first, "<", "&lt;") == EscapeChar(c);
      EscapeHTMLIsPerChar(rest);
    }
  }

  lemma {:induction false} EscapeEachNoOpenAngle(s: string)
    ensures '<' !in EscapeEach(s)
    decreases |s|
  {
    if s != [] {
      EscapeEachNoOpenAngle(s[1..]);
    }
  }

  lemma {:induction false} EscapeEachPlainText(s: string)
    requires '&' !in s && '<' !in s
    ensures EscapeEach(s) == s
    decreases |s|
  {
    if s != [] {
      assert s[0] in s && forall c :: c in s[1..] ==> c in s;
      EscapeEachPlainText(s[1..]);
      assert s == [s[0]] + s[1..];
    }
  }

  /** Text with neither `&` nor `<` (for instance one with only `>`) is left unchanged. */
  lemma EscapeLeavesPlainText(s: string)
    requires '&' !in s && '<' !in s
    ensures EscapeHTML(s) == s
  {
    EscapeHTMLIsPerChar(s);
    EscapeEachPlainText(s);
  }

  lemma ReplaceAllMiss(s: string, pat: string, rep: string, j: nat)
    requires j < |pat| <= |s| && s[j] != pat[j]
    ensures ReplaceAll(s, pat, rep) == [s[0]] + ReplaceAll(s[1..], pat, rep)
  {
  }

  lemma AmpTailSurvivesLt(x: string)
    ensures ReplaceAll(['a', 'm', 'p', ';'] + x, "&lt;", "<") == ['a', 'm', 'p', ';'] + ReplaceAll(x, "&lt;", "<")
  {
    var t1, t2, t3 := [';'] + x, ['p', ';'] + x, ['m', 'p', ';'] + x;
    assert ['p', ';'] + x == ['p'] + t1 && ['m', 'p', ';'] + x == ['m'] + t2;
    assert ['a', 'm', 'p', ';'] + x == ['a'] + t3;
    ReplaceAllSkip(';', x, "&lt;", "<");
    ReplaceAllSkip('p', t1, "&lt;", "<");
    ReplaceAllSkip('m', t2, "&lt;", "<");
    ReplaceAllSkip('a', t3, "&lt;", "<");
  }

  /** An escaped ampersand is not mistaken for `&lt;`. */
  lemma AmpEntitySurvivesLt(x: string)
    ensures ReplaceAll("&amp;" + x, "&lt;", "<") == "&amp;" + ReplaceAll(x, "&lt;", "<")
  {
    var t := "&amp;" + x;
    var tail := ['a', 'm', 'p', ';'] + x;
    assert t[1] == 'a' && t[1..] == tail;
    ReplaceAllMiss(t, "&lt;", "<", 1);
    AmpTailSurvivesLt(x);
  }

  /** Undoing `&lt;` in the fully escaped text leaves the output of the first pass. */
  lemma {:induction false} UnescapeLtOfEscape(s: string)
    ensures ReplaceAll(EscapeEach(s), "&lt;", "<") == AmpEach(s)
    decreases |s|
  {
    if s != [] {
      var c, x := s[0], EscapeEach(s[1..]);
      assert EscapeEach(s) == EscapeChar(c) + x;
      assert AmpEach(s) == (if c == '&' then "&amp;" else [c]) + AmpEach(s[1..]);
      UnescapeLtOfEscape(s[1..]);
      if c == '<' {
        ReplaceAllHit(x, "&lt;", "<");
      } else if c == '&' {
        AmpEntitySurvivesLt(x);
      } else {
        ReplaceAllSkip(c, x, "&lt;", "<");
      }
    }
  }

  /** Undoing `&amp;` in the first-pass text gives back the original. */
  lemma {:induction false} UnescapeAmpOfAmp(s: string)
    ensures ReplaceAll(AmpEach(s), "&amp;", "&") == s
    decreases |s|
  {
    if s != [] {
      var x := AmpEach(s[1..]);
      UnescapeAmpOfAmp(s[1..]);
      if s[0] == '&' {
        ReplaceAllHit(x, "&amp;", "&");
      } else {
        ReplaceAllSkip(s[0], x, "&amp;", "&");
      }
      assert s == [s[0]] + s[1..];
    }
  }

  /** Escaping loses nothing: un-escaping the notification text restores the input. */
  lemma EscapeRoundTrip(s: string)
    ensures Unescape(EscapeHTML(s)) == s
  {
    EscapeHTMLIsPerChar(s);
    UnescapeLtOfEscape(s);
    UnescapeAmpOfAmp(s);
  }

  // ---------------------------------------------------------------------------
  // Decimal rendering, as `'' + n` does for a non-negative integer

  predicate IsDigit(c: char)
  {
    '0' <= c <= '9'
  }

  predicate AllDigits(s: string)
  {
    forall i :: 0 <= i < |s| ==> IsDigit(s[i])
  }

  function DigitChar(d: nat): (c: char)
    requires d < 10
    ensures IsDigit(c) && c as int - '0' as int == d
  {
    ('0' as int + d) as char
  }

  /** The decimal digits of `n`, most significant first, without leading zeros. */
  function DecimalString(n: nat): (r: string)
    ensures r != [] && AllDigits(r)
    ensures |r| > 1 ==> r[0] != '0'
    decreases n
  {
    if n < 10 then [DigitChar(n)] else DecimalString(n / 10) + [DigitChar(n % 10)]
  }

  /** The number a string of decimal digits denotes. */
  function DigitsValue(s: string): nat
    requires AllDigits(s)
    decreases |s|
  {
    if s == [] then 0
    else DigitsValue(s[..|s| - 1]) * 10 + (s[|s| - 1] as int - '0' as int)
  }

  /** Reading back the rendered digits gives the number. */
  lemma {:induction false} DecimalRoundTrip(n: nat)
    ensures DigitsValue(DecimalString(n)) == n
    decreases n
  {
    var r := DecimalString(n);
    if n >= 10 {
      DecimalRoundTrip(n / 10);
      assert r[..|r| - 1] == DecimalString(n / 10);
    }
  }

  /** Position of the first `c` in `s`, if any. */
  function FirstIndex(s: string, c: char): (r: Option<nat>)
    ensures r.None? ==> c !in s
    ensures r.Some? ==> r.value < |s| && s[r.value] == c && c !in s[..r.value]
    decreases |s|
  {
    if s == [] then None
    else if s[0] == c then Some(0)
    else match FirstIndex(s[1..], c)
      case None => None
      case Some(k) => Some(k + 1)
  }

  /** Position of the last `c` in `s`, if any. */
  function LastIndex(s: string, c: char): (r: Option<nat>)
    ensures r.None? ==> c !in s
    ensures r.Some? ==> r.value < |s| && s[r.value] == c && c !in s[r.value + 1..]
    decreases |s|
  {
    if s == [] then None
    else if s[|s| - 1] == c then Some(|s| - 1)
    else LastIndex(s[..|s| - 1], c)
  }

  /** A `c` preceded by none is found first. */
  lemma FirstIndexAt(a: string, c: char, b: string)
    requires c !in a
    ensures FirstIndex(a + [c] + b, c) == Some(|a|)
  {
    var s := a + [c] + b;
    assert s[|a|] == c;
    assert s[..|a|] == a;
    assert forall j :: 0 <= j < |a| ==> s[j] == a[j];
  }

  /** A `c` followed by none is found last. */
  lemma LastIndexAt(a: string, c: char, b: string)
    requires c !in b
    ensures LastIndex(a + [c] + b, c) == Some(|a|)
  {
    var s := a + [c] + b;
    assert s[|a|] == c;
    assert s[|a| + 1..] == b;
    assert forall j :: |a| < j < |s| ==> s[j] == b[j - |a| - 1];
  }
}
