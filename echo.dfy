/** The echo-loop pattern `^.+?#[0-9]+? \[Discord\]:.+?$` with the global and
    multiline flags: a group message that the bridge itself relayed from the
    chat side carries a line of the form `name#digits [Discord]:text`. */
module Echo {
  import opened Text

  /** The literal between the digits and the trailing text. */
  const Marker: string := " [Discord]:"

  /** `line` splits as `line[..k] + "#" + line[k+1..m] + Marker + line[m+|Marker|..]`
      with the name part and the trailing text non-empty and the middle part a
      non-empty run of digits. */
  predicate EchoSplit(line: string, k: int, m: int)
  {
    && 1 <= k
    && k + 1 < m
    && m + |Marker| < |line|
    && line[k] == '#'
    && AllDigits(line[k + 1..m])
    && line[m..m + |Marker|] == Marker
  }

  /** A whole line the pattern matches: `.` never crosses a line terminator,
      and the lazy quantifiers do not change whether some split exists. */
  predicate EchoLine(line: string)
  {
    OnOneLine(line) && exists k, m | 0 <= k < m <= |line| :: EchoSplit(line, k, m)
  }

  /** `^` in multiline mode: the start of the input or just after a terminator. */
  predicate LineStart(s: string, i: int)
    requires 0 <= i <= |s|
  {
    i == 0 || IsLineTerminator(s[i - 1])
  }

  /** `$` in multiline mode: the end of the input or just before a terminator. */
  predicate LineEnd(s: string, j: int)
    requires 0 <= j <= |s|
  {
    j == |s| || IsLineTerminator(s[j])
  }

  /** `s.match(pattern)` is truthy: some line of `s` has the echo shape. The
      shortest such line, `a#0 [Discord]:b`, has 15 characters. */
  predicate MatchesEcho(s: string): (r: bool)
    ensures r ==> |s| >= 4 + |Marker|
    ensures r ==> exists h :: 0 <= h < |s| && s[h] == '#'
  {
    exists i, j | 0 <= i <= j <= |s| :: LineStart(s, i) && LineEnd(s, j) && EchoLine(s[i..j])
  }

  /** The parts of the pattern in string form. */
  predicate EchoParts(a: string, d: string, b: string)
  {
    && a != [] && OnOneLine(a)
    && d != [] && AllDigits(d)
    && b != [] && OnOneLine(b)
  }

  /** Every string built from well-formed parts is an echo line. */
  lemma EchoLineOfParts(a: string, d: string, b: string)
    requires EchoParts(a, d, b)
    ensures EchoLine(a + "#" + d + Marker + b)
  {
    var line := a + "#" + d + Marker + b;
    var k, m := |a|, |a| + 1 + |d|;
    assert line[k + 1..m] == d;
    assert line[m..m + |Marker|] == Marker;
    assert EchoSplit(line, k, m);
    assert OnOneLine(Marker);
    forall i | 0 <= i < |line|
      ensures !IsLineTerminator(line[i])
    {
      if i < k {
        assert line[i] == a[i];
      } else if i == k {
      } else if i < m {
        assert line[i] == d[i - k - 1];
      } else if i < m + |Marker| {
        assert line[i] == Marker[i - m];
      } else {
        assert line[i] == b[i - m - |Marker|];
      }
    }
  }

  /** Conversely, every echo line is built from well-formed parts. */
  lemma PartsOfEchoLine(line: string, k: int, m: int)
    requires OnOneLine(line) && EchoSplit(line, k, m)
    ensures EchoParts(line[..k], line[k + 1..m], line[m + |Marker|..])
    ensures line == line[..k] + "#" + line[k + 1..m] + Marker + line[m + |Marker|..]
  {
    var a, d, b := line[..k], line[k + 1..m], line[m + |Marker|..];
    assert forall i :: 0 <= i < |a| ==> a[i] == line[i];
    assert forall i :: 0 <= i < |b| ==> b[i] == line[m + |Marker| + i];
    assert line == line[..k] + [line[k]] + line[k + 1..m] + line[m..m + |Marker|] + line[m + |Marker|..];
  }

  /** On a message without line terminators the pattern must cover the whole message. */
  lemma {:induction false} SingleLineMatch(s: string)
    requires OnOneLine(s)
    ensures MatchesEcho(s) <==> EchoLine(s)
  {
    if EchoLine(s) {
      assert s[0..|s|] == s;
      assert LineStart(s, 0) && LineEnd(s, |s|);
    }
    if MatchesEcho(s) {
      var i, j :| 0 <= i <= j <= |s| && LineStart(s, i) && LineEnd(s, j) && EchoLine(s[i..j]);
      assert i == 0 && j == |s|;
      assert s[i..j] == s;
    }
  }

  /** A message without any `#` never matches, so ordinary group chat passes. */
  lemma NoHashNoMatch(s: string)
    requires forall i :: 0 <= i < |s| ==> s[i] != '#'
    ensures !MatchesEcho(s)
  {
    forall i, j | 0 <= i <= j <= |s|
      ensures !EchoLine(s[i..j])
    {
      forall k, m | 0 <= k < m <= j - i
        ensures !EchoSplit(s[i..j], k, m)
      {
        assert s[i..j][k] == s[i + k];
      }
    }
  }

  /** Any line of the shape `a#d [Discord]:b`, wherever it stands in the
      message, makes the whole message match. */
  lemma LineMatches(pre: string, a: string, d: string, b: string, post: string)
    requires EchoParts(a, d, b)
    requires pre == [] || IsLineTerminator(pre[|pre| - 1])
    requires post == [] || IsLineTerminator(post[0])
    ensures MatchesEcho(pre + (a + "#" + d + Marker + b) + post)
  {
    var line := a + "#" + d + Marker + b;
    var s := pre + line + post;
    EchoLineOfParts(a, d, b);
    var i, j := |pre|, |pre| + |line|;
    assert s[i..j] == line;
    assert LineStart(s, i);
    assert LineEnd(s, j);
  }
}
