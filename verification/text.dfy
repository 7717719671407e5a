/** The string primitives the forms use: JavaScript's white-space class
    (what `\s` matches and what `String.prototype.trim` strips), `trim`
    itself, and the e-mail pattern `^[^\s@]+@[^\s@]+\.[^\s@]+$`. */
module Text {

  /** ECMAScript WhiteSpace and LineTerminator code points. */
  predicate IsSpace(c: char) {
    || c == ' ' || c == '\t' || c == '\n' || c == '\U{000B}' || c == '\U{000C}' || c == '\r'
    || c == '\U{00A0}' || c == '\U{1680}' || ('\U{2000}' <= c <= '\U{200A}')
    || c == '\U{2028}' || c == '\U{2029}' || c == '\U{202F}' || c == '\U{205F}'
    || c == '\U{3000}' || c == '\U{FEFF}'
  }

  /** Neither end of `t` is white space. */
  predicate Trimmed(t: string) {
    t == [] || (!IsSpace(t[0]) && !IsSpace(t[|t| - 1]))
  }

  /** `s` with its leading white space removed. */
  function TrimStart(s: string): (r: string)
    ensures |r| <= |s| && r == s[|s| - |r|..]
    ensures forall k :: 0 <= k < |s| - |r| ==> IsSpace(s[k])
    ensures r != [] ==> !IsSpace(r[0])
  {
    if s != [] && IsSpace(s[0]) then TrimStart(s[1..]) else s
  }

  /** `s` with its trailing white space removed. */
  function TrimEnd(s: string): (r: string)
    ensures |r| <= |s| && r == s[..|r|]
    ensures forall k :: |r| <= k < |s| ==> IsSpace(s[k])
    ensures r != [] ==> !IsSpace(r[|r| - 1])
  {
    if s != [] && IsSpace(s[|s| - 1]) then TrimEnd(s[..|s| - 1]) else s
  }

  /** `s.trim()`: the result is the slice of `s` left once the white space at
      both ends is cut off, and it has none at either end. */
  function Trim(s: string): (r: string)
    ensures Trimmed(r) && |r| <= |s|
  {
    TrimEnd(TrimStart(s))
  }

  /** What `trim` keeps is a slice of `s` whose surroundings are all white
      space. */
  lemma TrimIsCut(s: string)
    ensures exists i :: CutAt(s, i, Trim(s))
  {
    var front := TrimStart(s);
    var r := TrimEnd(front);
    var i := |s| - |front|;
    assert r == s[i..i + |r|] by {
      assert front == s[i..] && r == front[..|r|];
    }
    forall k | i + |r| <= k < |s| ensures IsSpace(s[k]) {
      assert s[k] == front[k - i];
    }
    assert r == Trim(s);
    assert CutAt(s, i, r);
  }

  /** `r` is `s` with `i` characters cut from its front and the rest of what
      follows `r` cut from its back, every character cut being white space. */
  predicate CutAt(s: string, i: int, r: string) {
    && 0 <= i <= |s| - |r|
    && r == s[i..i + |r|]
    && (forall k :: 0 <= k < i ==> IsSpace(s[k]))
    && (forall k :: i + |r| <= k < |s| ==> IsSpace(s[k]))
  }

  /** A string with no white space at either end is its own trim. */
  lemma TrimOfTrimmed(t: string)
    requires Trimmed(t)
    ensures Trim(t) == t
  {
  }

  lemma TrimIdempotent(s: string)
    ensures Trim(Trim(s)) == Trim(s)
  {
    TrimOfTrimmed(Trim(s));
  }

  /** `t` is a non-empty run of `[^\s@]`. */
  predicate Atom(t: string) {
    t != [] && forall k :: 0 <= k < |t| ==> !IsSpace(t[k]) && t[k] != '@'
  }

  /** `s` matches `^[^\s@]+@[^\s@]+\.[^\s@]+$`: it splits, at an `@` at
      position `i` and a `.` at position `j`, into three non-empty runs free of
      white space and `@`. */
  predicate MatchesEmailPattern(s: string) {
    exists i, j | 0 < i < |s| && i + 1 < j < |s| - 1 ::
      s[i] == '@' && s[j] == '.' && Atom(s[..i]) && Atom(s[i + 1..j]) && Atom(s[j + 1..])
  }

  /** The e-mail check both forms apply: the pattern, and a length of 5 to 254. */
  predicate AcceptableEmail(s: string) {
    MatchesEmailPattern(s) && 5 <= |s| <= 254
  }

  /** The shortest string the pattern accepts has five characters, so the
      forms' lower length bound never rejects anything the pattern accepted. */
  lemma PatternImpliesMinimumLength(s: string)
    requires MatchesEmailPattern(s)
    ensures |s| >= 5
    ensures AcceptableEmail(s) <==> |s| <= 254
  {
  }

  /** An address the pattern accepts holds exactly one `@`. */
  lemma PatternHasSingleAt(s: string)
    requires MatchesEmailPattern(s)
    ensures exists i :: 0 <= i < |s| && s[i] == '@'
    ensures forall k, l :: 0 <= k < l < |s| ==> !(s[k] == '@' && s[l] == '@')
  {
    var i, j :| 0 < i < |s| && i + 1 < j < |s| - 1 &&
      s[i] == '@' && s[j] == '.' && Atom(s[..i]) && Atom(s[i + 1..j]) && Atom(s[j + 1..]);
    forall k | 0 <= k < |s| && k != i ensures s[k] != '@' {
      if k < i {
        assert s[k] == s[..i][k];
      } else if k < j {
        assert s[k] == s[i + 1..j][k - i - 1];
      } else if k > j {
        assert s[k] == s[j + 1..][k - j - 1];
      }
    }
  }
}
