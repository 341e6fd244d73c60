/**
 * The JavaScript string operations the generator relies on: `String.prototype.trim`,
 * stated over a fixed whitespace predicate, and predicates for talking about the lines
 * of a generated text document.
 */
module JsString {

  /**
   * The characters `trim` removes: the ECMAScript WhiteSpace and LineTerminator
   * code points (tab, line feed, vertical tab, form feed, carriage return, space,
   * no-break space, the Unicode space separators, line and paragraph separator,
   * and the byte order mark).
   */
  predicate IsJsWhitespace(c: char) {
    || c == '\t' || c == '\n' || c == '\U{000B}' || c == '\U{000C}' || c == '\r'
    || c == ' ' || c == '\U{00A0}' || c == '\U{1680}'
    || ('\U{2000}' <= c <= '\U{200A}')
    || c == '\U{2028}' || c == '\U{2029}' || c == '\U{202F}' || c == '\U{205F}'
    || c == '\U{3000}' || c == '\U{FEFF}'
  }

  predicate AllWhitespace(s: string) {
    forall i :: 0 <= i < |s| ==> IsJsWhitespace(s[i])
  }

  /** Neither the first nor the last character is whitespace. */
  predicate IsTrimmed(s: string) {
    s == [] || (!IsJsWhitespace(s[0]) && !IsJsWhitespace(s[|s| - 1]))
  }

  /** The length of the longest all-whitespace prefix. */
  function LeadingWhitespace(s: string): (k: nat)
    ensures k <= |s|
    ensures forall i :: 0 <= i < k ==> IsJsWhitespace(s[i])
    ensures k == |s| || !IsJsWhitespace(s[k])
  {
    if s != [] && IsJsWhitespace(s[0]) then
      var k := LeadingWhitespace(s[1..]);
      assert forall i :: 1 <= i < k + 1 ==> s[i] == s[1..][i - 1];
      k + 1
    else
      0
  }

  /** The length of the longest all-whitespace suffix. */
  function TrailingWhitespace(s: string): (k: nat)
    ensures k <= |s|
    ensures forall i :: |s| - k <= i < |s| ==> IsJsWhitespace(s[i])
    ensures k == |s| || !IsJsWhitespace(s[|s| - k - 1])
  {
    if s != [] && IsJsWhitespace(s[|s| - 1]) then
      var k := TrailingWhitespace(s[..|s| - 1]);
      assert forall i :: |s| - 1 - k <= i < |s| - 1 ==> s[i] == s[..|s| - 1][i];
      k + 1
    else
      0
  }

  /**
   * `s.trim()`: what is left of `s` once the whitespace at both ends is removed.
   * The result neither begins nor ends with whitespace, and it is empty exactly
   * when `s` is all whitespace. TrimDecompose shows that it is the middle of `s`
   * with only whitespace cut off, and TrimPadding that it is the only such middle.
   */
  function Trim(s: string): (r: string)
    ensures IsTrimmed(r)
    ensures r == [] <==> AllWhitespace(s)
  {
    var a := LeadingWhitespace(s);
    if a == |s| then
      []
    else
      var e := |s| - TrailingWhitespace(s);
      assert a < e;
      s[a..e]
  }

  /** Whitespace in front of a text that does not start with whitespace is exactly what is cut. */
  lemma {:induction false} LeadingPadded(w: string, x: string)
    requires AllWhitespace(w)
    requires x == [] || !IsJsWhitespace(x[0])
    ensures LeadingWhitespace(w + x) == |w|
  {
    if w == [] {
      assert w + x == x;
    } else {
      assert (w + x)[0] == w[0];
      assert (w + x)[1..] == w[1..] + x;
      LeadingPadded(w[1..], x);
    }
  }

  lemma {:induction false} TrailingPadded(x: string, w: string)
    requires AllWhitespace(w)
    requires x == [] || !IsJsWhitespace(x[|x| - 1])
    ensures TrailingWhitespace(x + w) == |w|
  {
    if w == [] {
      assert x + w == x;
    } else {
      var s := x + w;
      assert s[|s| - 1] == w[|w| - 1];
      assert s[..|s| - 1] == x + w[..|w| - 1];
      TrailingPadded(x, w[..|w| - 1]);
    }
  }

  /** A trimmed text surrounded by whitespace trims back to itself. */
  lemma TrimPadding(w1: string, x: string, w2: string)
    requires AllWhitespace(w1) && AllWhitespace(w2) && IsTrimmed(x)
    ensures Trim(w1 + x + w2) == x
  {
    var s := w1 + x + w2;
    if x == [] {
      AllWhitespaceAppend(w1, w2);
      assert s == w1 + w2;
    } else {
      assert s == w1 + (x + w2);
      LeadingPadded(w1, x + w2);
      assert s[|w1|..] == x + w2;
      TrailingPadded(x, w2);
    }
  }

  /** Every text is its trimmed form with whitespace on either side. */
  lemma TrimDecompose(s: string) returns (v1: string, v2: string)
    ensures s == v1 + Trim(s) + v2
    ensures AllWhitespace(v1) && AllWhitespace(v2)
  {
    var a := LeadingWhitespace(s);
    if a == |s| {
      v1, v2 := s, [];
    } else {
      var e := |s| - TrailingWhitespace(s);
      v1, v2 := s[..a], s[e..];
      assert s == v1 + s[a..e] + v2;
    }
  }

  /** Whitespace added around any text does not change what trimming it yields. */
  lemma TrimAbsorbsWhitespace(w1: string, s: string, w2: string)
    requires AllWhitespace(w1) && AllWhitespace(w2)
    ensures Trim(w1 + s + w2) == Trim(s)
  {
    var v1, v2 := TrimDecompose(s);
    var r := Trim(s);
    var u1, u2 := w1 + v1, v2 + w2;
    Regroup(w1, v1, r, v2, w2);
    AllWhitespaceAppend(w1, v1);
    AllWhitespaceAppend(v2, w2);
    TrimPadding(u1, r, u2);
  }

  lemma Regroup(w1: string, v1: string, r: string, v2: string, w2: string)
    ensures w1 + (v1 + r + v2) + w2 == (w1 + v1) + r + (v2 + w2)
  {
  }

  lemma AllWhitespaceAppend(a: string, b: string)
    requires AllWhitespace(a) && AllWhitespace(b)
    ensures AllWhitespace(a + b)
  {
    forall i | 0 <= i < |a + b| ensures IsJsWhitespace((a + b)[i]) {
      if i >= |a| { assert (a + b)[i] == b[i - |a|]; }
    }
  }

  /** Trimming twice is trimming once. */
  lemma TrimIdempotent(s: string)
    ensures Trim(Trim(s)) == Trim(s)
  {
    TrimPadding([], Trim(s), []);
    assert [] + Trim(s) + [] == Trim(s);
  }

  /** The text before a position that starts a line: empty, or ending in a line feed. */
  predicate EndsLine(before: string) {
    before == [] || before[|before| - 1] == '\n'
  }

  /**
   * `line` occupies whole lines of `doc`: it begins at the start of a line and is
   * followed by a line feed. A `line` that itself holds line feeds stands for that
   * many consecutive lines.
   */
  ghost predicate HasLine(doc: string, line: string) {
    exists before, after :: doc == before + line + "\n" + after && EndsLine(before)
  }

  /** Every line of a block of consecutive lines is a line of the document. */
  lemma HasLineSplit(doc: string, a: string, b: string)
    requires HasLine(doc, a + "\n" + b)
    ensures HasLine(doc, a) && HasLine(doc, b)
  {
    var before, after :| doc == before + (a + "\n" + b) + "\n" + after && EndsLine(before);
    assert doc == before + a + "\n" + (b + "\n" + after);
    var before' := before + a + "\n";
    assert doc == before' + b + "\n" + after;
    assert EndsLine(before');
  }

  /** Every line of a block of three consecutive lines is a line of the document. */
  lemma HasLineSplit3(doc: string, a: string, b: string, c: string)
    requires HasLine(doc, a + "\n" + b + "\n" + c)
    ensures HasLine(doc, a) && HasLine(doc, b) && HasLine(doc, c)
  {
    assert a + "\n" + b + "\n" + c == a + "\n" + (b + "\n" + c);
    HasLineSplit(doc, a, b + "\n" + c);
    HasLineSplit(doc, b, c);
  }

  /** Helper for exhibiting a line: a text placed after a line break is a line. */
  lemma LineAt(before: string, line: string, after: string)
    requires EndsLine(before)
    ensures HasLine(before + line + "\n" + after, line)
  {
  }

  /** Three texts placed after line breaks in a document are lines of it. */
  lemma ThreeLines(p0: string, l1: string, p1: string, l2: string, p2: string, l3: string, p3: string)
    requires EndsLine(p0) && p1 != [] && EndsLine(p1) && p2 != [] && EndsLine(p2)
    ensures HasLine(p0 + l1 + "\n" + p1 + l2 + "\n" + p2 + l3 + "\n" + p3, l1)
    ensures HasLine(p0 + l1 + "\n" + p1 + l2 + "\n" + p2 + l3 + "\n" + p3, l2)
    ensures HasLine(p0 + l1 + "\n" + p1 + l2 + "\n" + p2 + l3 + "\n" + p3, l3)
  {
    var doc := p0 + l1 + "\n" + p1 + l2 + "\n" + p2 + l3 + "\n" + p3;
    var b2 := p0 + l1 + "\n" + p1;
    var b3 := b2 + l2 + "\n" + p2;
    assert doc == p0 + l1 + "\n" + (p1 + l2 + "\n" + p2 + l3 + "\n" + p3);
    assert doc == b2 + l2 + "\n" + (p2 + l3 + "\n" + p3);
    assert doc == b3 + l3 + "\n" + p3;
    assert b2[|b2| - 1] == p1[|p1| - 1];
    assert b3[|b3| - 1] == p2[|p2| - 1];
  }

  /** `doc` begins with `head`. */
  predicate StartsWith(doc: string, head: string) {
    head <= doc
  }

  /** The first of several concatenated texts begins the whole. */
  lemma FirstIsPrefix(a0: string, a1: string, a2: string, a3: string, a4: string, a5: string,
                      a6: string, a7: string, a8: string, a9: string, a10: string, a11: string,
                      a12: string, a13: string)
    ensures StartsWith(a0 + a1 + a2 + a3 + a4 + a5 + a6 + a7 + a8 + a9 + a10 + a11 + a12 + a13, a0)
  {
    assert a0 + a1 + a2 + a3 + a4 + a5 + a6 + a7 + a8 + a9 + a10 + a11 + a12 + a13
        == a0 + (a1 + a2 + a3 + a4 + a5 + a6 + a7 + a8 + a9 + a10 + a11 + a12 + a13);
  }

  /** `doc` ends with `tail`. */
  predicate EndsWith(doc: string, tail: string) {
    |tail| <= |doc| && doc[|doc| - |tail|..] == tail
  }

  lemma EndsWithAppend(front: string, tail: string)
    ensures EndsWith(front + tail, tail)
  {
    assert (front + tail)[|front|..] == tail;
  }

}
