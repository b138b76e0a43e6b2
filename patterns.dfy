/**
 * The two regular expressions the validator applies, stated as predicates on
 * strings: `/\S+@\S+\.\S+/` (an email "shape") and `/^\d+$/` (digits only),
 * with JavaScript's meaning of `\s` and `\d`.
 */
module Patterns {

  /**
   * The characters `\s` matches in an ECMAScript regular expression: WhiteSpace
   * (tab, vertical tab, form feed, the byte order mark and every space separator
   * of Unicode category Zs) and LineTerminator (LF, CR, LS, PS).
   */
  predicate IsWhitespace(c: char) {
    c == '\t' || c == '\U{000B}' || c == '\U{000C}' || c == '\U{FEFF}'
    || c == ' ' || c == '\U{00A0}' || c == '\U{1680}'
    || ('\U{2000}' <= c <= '\U{200A}')
    || c == '\U{202F}' || c == '\U{205F}' || c == '\U{3000}'
    || c == '\n' || c == '\r' || c == '\U{2028}' || c == '\U{2029}'
  }

  /** `\d` without the `u` flag: an ASCII decimal digit. */
  predicate IsDigit(c: char) {
    '0' <= c <= '9'
  }

  /** `/^\d+$/.test(s)`: s is non-empty and every character is a digit. */
  predicate IsDigits(s: string) {
    |s| > 0 && forall i :: 0 <= i < |s| ==> IsDigit(s[i])
  }

  /** The decimal value of a string of digits (0 for the empty string). */
  function DigitsValue(s: string): nat
    requires forall i :: 0 <= i < |s| ==> IsDigit(s[i])
  {
    if s == [] then 0
    else
      assert IsDigit(s[|s| - 1]);
      10 * DigitsValue(s[..|s| - 1]) + (s[|s| - 1] as int - '0' as int)
  }

  /** A digit string denotes zero exactly when all its digits are '0'. */
  lemma {:induction false} DigitsValueZero(s: string)
    requires forall i :: 0 <= i < |s| ==> IsDigit(s[i])
    ensures DigitsValue(s) == 0 <==> forall i :: 0 <= i < |s| ==> s[i] == '0'
  {
    if s != [] {
      var init := s[..|s| - 1];
      DigitsValueZero(init);
      assert forall i :: 0 <= i < |init| ==> init[i] == s[i];
    }
  }

  /** A non-empty run of characters none of which is whitespace: what `\S+` matches. */
  predicate NonSpaceRun(t: string) {
    |t| > 0 && forall i :: 0 <= i < |t| ==> !IsWhitespace(t[i])
  }

  /**
   * The meaning of the unanchored `/\S+@\S+\.\S+/.test(s)`: some substring of s
   * reads X@Y.Z where X, Y and Z are non-empty runs of non-whitespace.
   */
  ghost predicate MatchesEmailRegex(s: string) {
    exists i, j, x, y, z ::
      0 <= i <= j <= |s| && NonSpaceRun(x) && NonSpaceRun(y) && NonSpaceRun(z)
      && s[i..j] == x + "@" + y + "." + z
  }

  /**
   * A decision procedure for the email regex: an '@' with a non-space character
   * before it, a '.' at least two positions later with a non-space character
   * after it, and only non-space characters in between.
   */
  predicate HasEmailShape(s: string) {
    exists p, q | 1 <= p < |s| && p + 2 <= q < |s| - 1 :: ShapeAt(s, p, q)
  }

  /** The X@Y.Z shape with the '@' at index p and the '.' at index q. */
  predicate ShapeAt(s: string, p: int, q: int)
    requires 1 <= p && p + 2 <= q && q + 2 <= |s|
  {
    s[p] == '@' && s[q] == '.' && !IsWhitespace(s[p - 1]) && !IsWhitespace(s[q + 1])
    && NonSpaceRun(s[p + 1..q])
  }

  /** The shape HasEmailShape looks for occurs exactly when the regex matches. */
  lemma EmailShapeIff(s: string)
    ensures HasEmailShape(s) <==> MatchesEmailRegex(s)
  {
    if HasEmailShape(s) {
      EmailShapeSound(s);
    }
    if MatchesEmailRegex(s) {
      EmailShapeComplete(s);
    }
  }

  /** Where the parts of X@Y.Z sit. */
  lemma EmailPieces(x: string, y: string, z: string)
    requires |x| > 0 && |z| > 0
    ensures var m := x + "@" + y + "." + z;
      && |m| == |x| + |y| + |z| + 2
      && m[|x| - 1] == x[|x| - 1] && m[|x|] == '@'
      && m[|x| + 1..|x| + 1 + |y|] == y
      && m[|x| + 1 + |y|] == '.' && m[|x| + 2 + |y|] == z[0]
  {
    var m := x + "@" + y + "." + z;
    assert m == (x + "@") + (y + "." + z);
    assert (y + "." + z)[..|y|] == y;
  }

  /** A slice of a slice is a slice of the whole. */
  lemma SliceOfSlice(s: string, i: int, j: int, a: int, b: int)
    requires 0 <= i <= j <= |s| && 0 <= a <= b <= j - i
    ensures s[i..j][a..b] == s[i + a..i + b]
  {
    assert forall k | 0 <= k < b - a :: s[i..j][a..b][k] == s[i + a + k];
  }

  /** An occurrence of X@Y.Z at index i puts the '@' and the '.' where ShapeAt looks. */
  lemma OccurrenceShape(s: string, i: int, j: int, x: string, y: string, z: string)
    requires 0 <= i <= j <= |s| && NonSpaceRun(x) && NonSpaceRun(y) && NonSpaceRun(z)
    requires s[i..j] == x + "@" + y + "." + z
    ensures i + |x| + |y| + 3 <= |s| && ShapeAt(s, i + |x|, i + |x| + 1 + |y|)
  {
    var m := s[i..j];
    EmailPieces(x, y, z);
    var p, q := i + |x|, i + |x| + 1 + |y|;
    assert s[p] == m[|x|] && s[p - 1] == m[|x| - 1];
    assert s[q] == m[|x| + 1 + |y|] && s[q + 1] == m[|x| + 2 + |y|];
    SliceOfSlice(s, i, j, |x| + 1, |x| + 1 + |y|);
    assert !IsWhitespace(x[|x| - 1]) && !IsWhitespace(z[0]);
    assert s[p + 1..q] == y;
  }

  /** Every match of the regex is found by HasEmailShape. */
  lemma EmailShapeComplete(s: string)
    requires MatchesEmailRegex(s)
    ensures HasEmailShape(s)
  {
    var i, j, x, y, z :| 0 <= i <= j <= |s| && NonSpaceRun(x) && NonSpaceRun(y) && NonSpaceRun(z)
      && s[i..j] == x + "@" + y + "." + z;
    OccurrenceShape(s, i, j, x, y, z);
    var p, q := i + |x|, i + |x| + 1 + |y|;
    assert 1 <= p < |s| && p + 2 <= q < |s| - 1 && ShapeAt(s, p, q);
  }

  /** Every occurrence of the shape ShapeAt looks for is a match of the regex. */
  lemma EmailShapeSound(s: string)
    requires HasEmailShape(s)
    ensures MatchesEmailRegex(s)
  {
    var p, q :| 1 <= p < |s| && p + 2 <= q < |s| - 1 && ShapeAt(s, p, q);
    var x, y, z := s[p - 1..p], s[p + 1..q], s[q + 1..q + 2];
    assert s[p - 1..q + 2] == x + "@" + y + "." + z;
    assert NonSpaceRun(x) && NonSpaceRun(z);
  }
}
