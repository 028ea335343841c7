/** The two string operations the panel relies on: JavaScript's `String.prototype.trim`
    (used to guard and build the submitted prompt) and `String.prototype.includes`
    (used to recognise a reply that is a whole HTML document). */
module Text {

  /** WhiteSpace and LineTerminator code points as ECMAScript defines them (sections
      12.2 and 12.3 of ECMA-262): these are the characters `trim` removes. */
  predicate IsWhitespace(c: char) {
    || c == '\t' || c == '\n' || c == '\U{000B}' || c == '\U{000C}' || c == '\r' || c == ' '
    || c == '\U{00A0}' || c == '\U{1680}' || ('\U{2000}' <= c <= '\U{200A}')
    || c == '\U{2028}' || c == '\U{2029}' || c == '\U{202F}' || c == '\U{205F}'
    || c == '\U{3000}' || c == '\U{FEFF}'
  }

  predicate AllWhitespace(s: string) {
    forall i :: 0 <= i < |s| ==> IsWhitespace(s[i])
  }

  lemma WhitespaceExtends(a: string, b: string)
    requires AllWhitespace(a) && AllWhitespace(b)
    ensures AllWhitespace(a + b)
  {
  }

  /** Drops the leading whitespace: the result is a suffix of `s`, everything cut off is
      whitespace and the result does not start with whitespace. */
  function TrimStart(s: string): (r: string)
    ensures |r| <= |s| && r == s[|s| - |r|..]
    ensures AllWhitespace(s[..|s| - |r|])
    ensures r != [] ==> !IsWhitespace(r[0])
  {
    if s != [] && IsWhitespace(s[0]) then
      var r := TrimStart(s[1..]);
      WhitespaceExtends([s[0]], s[1..][..|s| - 1 - |r|]);
      assert s[..|s| - |r|] == [s[0]] + s[1..][..|s| - 1 - |r|];
      r
    else s
  }

  /** Drops the trailing whitespace: the result is a prefix of `s`, everything cut off is
      whitespace and the result does not end with whitespace. */
  function TrimEnd(s: string): (r: string)
    ensures |r| <= |s| && r == s[..|r|]
    ensures AllWhitespace(s[|r|..])
    ensures r != [] ==> !IsWhitespace(r[|r| - 1])
  {
    if s != [] && IsWhitespace(s[|s| - 1]) then
      var r := TrimEnd(s[..|s| - 1]);
      WhitespaceExtends(s[..|s| - 1][|r|..], [s[|s| - 1]]);
      assert s[|r|..] == s[..|s| - 1][|r|..] + [s[|s| - 1]];
      r
    else s
  }

  /** `r` is the part of `s` that starts at `k`, with only whitespace around it. */
  ghost predicate TrimmedAt(s: string, r: string, k: int) {
    && 0 <= k && k + |r| <= |s|
    && s[k..k + |r|] == r
    && AllWhitespace(s[..k]) && AllWhitespace(s[k + |r|..])
  }

  lemma TrimmedBothEnds(s: string, t: string, r: string)
    requires |t| <= |s| && t == s[|s| - |t|..] && AllWhitespace(s[..|s| - |t|])
    requires |r| <= |t| && r == t[..|r|] && AllWhitespace(t[|r|..])
    ensures TrimmedAt(s, r, |s| - |t|)
  {
    var k := |s| - |t|;
    assert s[k..k + |r|] == r;
    assert s[k + |r|..] == t[|r|..];
  }

  /** `s.trim()`: the slice of `s` left once whitespace is removed at both ends. */
  function Trim(s: string): (r: string)
    ensures exists k :: TrimmedAt(s, r, k)
    ensures r != [] ==> !IsWhitespace(r[0]) && !IsWhitespace(r[|r| - 1])
  {
    var t := TrimStart(s);
    var r := TrimEnd(t);
    TrimmedBothEnds(s, t, r);
    r
  }

  /** The guard `!prompt.trim()`: trimming leaves nothing exactly when the prompt is
      whitespace only. */
  lemma TrimEmptyIff(s: string)
    ensures Trim(s) == "" <==> AllWhitespace(s)
  {
  }

  /** `pat` occurs in `s` starting at index `i`. */
  predicate OccursAt(s: string, pat: string, i: int) {
    0 <= i && i + |pat| <= |s| && s[i..i + |pat|] == pat
  }

  lemma ShiftOccurrence(s: string, pat: string)
    requires s != [] && !OccursAt(s, pat, 0)
    ensures (exists i :: OccursAt(s, pat, i)) <==> (exists i :: OccursAt(s[1..], pat, i))
  {
    if i :| OccursAt(s, pat, i) {
      assert s[1..][i - 1..i - 1 + |pat|] == s[i..i + |pat|];
      assert OccursAt(s[1..], pat, i - 1);
    }
    if i :| OccursAt(s[1..], pat, i) {
      assert s[1..][i..i + |pat|] == s[i + 1..i + 1 + |pat|];
      assert OccursAt(s, pat, i + 1);
    }
  }

  /** `s.includes(pat)`: true exactly when `pat` occurs somewhere in `s` (the empty
      pattern occurs in every string). */
  function Contains(s: string, pat: string): (r: bool)
    ensures r <==> exists i :: OccursAt(s, pat, i)
    decreases |s|
  {
    if OccursAt(s, pat, 0) then true
    else if |pat| > |s| then false
    else ShiftOccurrence(s, pat); Contains(s[1..], pat)
  }

  const Doctype: string := "<!DOCTYPE html>"
  const HtmlTagStart: string := "<html"

  /** The test `content.includes('<!DOCTYPE html>') || content.includes('<html')` that
      decides whether a reply replaces the HTML buffer and is shown as generated HTML. */
  predicate LooksLikeHtml(s: string): (r: bool)
    ensures r <==> (exists i :: OccursAt(s, Doctype, i)) || (exists i :: OccursAt(s, HtmlTagStart, i))
  {
    Contains(s, Doctype) || Contains(s, HtmlTagStart)
  }

  /** A reply that contains a recognised marker still does so whatever surrounds it. */
  lemma {:induction false} LooksLikeHtmlInContext(before: string, s: string, after: string)
    requires LooksLikeHtml(s)
    ensures LooksLikeHtml(before + s + after)
  {
    var w := before + s + after;
    var pat := if Contains(s, Doctype) then Doctype else HtmlTagStart;
    var i :| OccursAt(s, pat, i);
    assert w[|before| + i..|before| + i + |pat|] == s[i..i + |pat|];
    assert OccursAt(w, pat, |before| + i);
  }

  /** Any text that starts with `<html` or with the doctype is recognised. */
  lemma HtmlPrefixRecognised(s: string)
    requires (|Doctype| <= |s| && s[..|Doctype|] == Doctype)
          || (|HtmlTagStart| <= |s| && s[..|HtmlTagStart|] == HtmlTagStart)
    ensures LooksLikeHtml(s)
  {
  }

  /** The test is case-sensitive: a lower-case doctype alone is not recognised. */
  lemma LowerCaseDoctypeNotRecognised()
    ensures !LooksLikeHtml("<!doctype html>")
  {
    var s := "<!doctype html>";
    assert s[2] != Doctype[2];
    assert !OccursAt(s, Doctype, 0);
    forall i | 0 <= i && i + |HtmlTagStart| <= |s| ensures !OccursAt(s, HtmlTagStart, i) {
      if i == 0 {
        assert s[..5][1] != HtmlTagStart[1];
      } else {
        assert s[i..i + 5][0] != HtmlTagStart[0];
      }
    }
  }
}
