/** Character classes and string helpers shared by the filters. Strings are
    sequences of characters; JavaScript's UTF-16 code units are not modelled. */
module Text {

  /** The characters that end a line for a JavaScript regular expression: the
      wildcard `.` never matches them, and in multiline mode `^` and `$` match
      right after and right before them. */
  predicate IsLineTerminator(c: char)
  {
    c == '\n' || c == '\r' || c == '\U{2028}' || c == '\U{2029}'
  }

  /** No line terminator anywhere in `s`. */
  predicate OnOneLine(s: string)
  {
    forall i :: 0 <= i < |s| ==> !IsLineTerminator(s[i])
  }

  /** The class `[0-9]`. */
  predicate IsDigit(c: char)
  {
    '0' <= c <= '9'
  }

  predicate AllDigits(s: string)
  {
    forall i :: 0 <= i < |s| ==> IsDigit(s[i])
  }

  /** The index of the first line terminator in `s`, or `|s|` when there is none. */
  function FirstTerminator(s: string): (t: nat)
    ensures t <= |s|
    ensures OnOneLine(s[..t])
    ensures t < |s| ==> IsLineTerminator(s[t])
  {
    if s == [] then 0
    else if IsLineTerminator(s[0]) then 0
    else
      var t' := FirstTerminator(s[1..]);
      assert s[..t' + 1] == [s[0]] + s[1..][..t'];
      t' + 1
  }

  lemma OnOneLineConcat(a: string, b: string)
    requires OnOneLine(a) && OnOneLine(b)
    ensures OnOneLine(a + b)
  {
  }

  /** Upper-casing of one character. Only the ASCII letters a-z are mapped. */
  function UpperChar(c: char): (u: char)
    ensures 'a' <= c <= 'z' ==> u as int == c as int - 32
    ensures !('a' <= c <= 'z') ==> u == c
  {
    if 'a' <= c <= 'z' then (c as int - 32) as char else c
  }

  /** `String.prototype.toUpperCase`, restricted to ASCII letters. */
  function Upper(s: string): (u: string)
    ensures |u| == |s|
    ensures forall i :: 0 <= i < |s| ==> u[i] == UpperChar(s[i])
  {
    seq(|s|, i requires 0 <= i < |s| => UpperChar(s[i]))
  }

  /** `x` and `y` are the same character, or the lower- and upper-case forms
      of one ASCII letter (in either order). */
  predicate SameLetter(x: char, y: char)
  {
    || x == y
    || ('a' <= x <= 'z' && y as int == x as int - 32)
    || ('a' <= y <= 'z' && x as int == y as int - 32)
  }

  /** `a` and `b` differ at most in the case of their ASCII letters. */
  predicate DifferOnlyInCase(a: string, b: string)
  {
    |a| == |b| && forall i :: 0 <= i < |a| ==> SameLetter(a[i], b[i])
  }

  /** Comparing upper-cased forms is exactly case-insensitive equality. */
  lemma UpperEqualIff(a: string, b: string)
    ensures Upper(a) == Upper(b) <==> DifferOnlyInCase(a, b)
  {
    if Upper(a) == Upper(b) {
      forall i | 0 <= i < |a|
        ensures SameLetter(a[i], b[i])
      {
        assert Upper(a)[i] == Upper(b)[i];
      }
    }
    if DifferOnlyInCase(a, b) {
      forall i | 0 <= i < |a|
        ensures Upper(a)[i] == Upper(b)[i]
      {
        assert SameLetter(a[i], b[i]);
      }
    }
  }
}
