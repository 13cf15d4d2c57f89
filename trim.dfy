/** `String.prototype.trim`: removal of leading and trailing white space. */
module Trim {

  /** The characters that ECMAScript counts as white space or line terminators. */
  predicate IsWhitespace(c: char) {
    c == ' ' || c == '\t' || c == '\n' || c == '\U{000B}' || c == '\U{000C}' || c == '\r'
    || c == '\U{00A0}' || c == '\U{1680}' || ('\U{2000}' <= c <= '\U{200A}')
    || c == '\U{2028}' || c == '\U{2029}' || c == '\U{202F}' || c == '\U{205F}'
    || c == '\U{3000}' || c == '\U{FEFF}'
  }

  ghost predicate AllWhitespace(s: string) {
    forall i :: 0 <= i < |s| ==> IsWhitespace(s[i])
  }

  /** Drops the white space at the front of `s`. */
  function TrimStart(s: string): (r: string)
    ensures |r| <= |s| && r == s[|s| - |r|..]
    ensures AllWhitespace(s[..|s| - |r|])
    ensures r == [] || !IsWhitespace(r[0])
  {
    if s != [] && IsWhitespace(s[0]) then
      var r := TrimStart(s[1..]);
      assert s[..|s| - |r|] == [s[0]] + s[1..][..|s| - 1 - |r|];
      r
    else s
  }

  /** Drops the white space at the back of `s`. */
  function TrimEnd(s: string): (r: string)
    ensures |r| <= |s| && r == s[..|r|]
    ensures AllWhitespace(s[|r|..])
    ensures r == [] || !IsWhitespace(r[|r| - 1])
  {
    if s != [] && IsWhitespace(s[|s| - 1]) then
      var r := TrimEnd(s[..|s| - 1]);
      assert s[|r|..] == s[..|s| - 1][|r|..] + [s[|s| - 1]];
      r
    else s
  }

  /** `s.trim()`: the longest slice of `s` that starts and ends with a non-white-space character. */
  function TrimString(s: string): (r: string)
    ensures exists i, j :: 0 <= i <= j <= |s| && r == s[i..j]
                          && AllWhitespace(s[..i]) && AllWhitespace(s[j..])
    ensures r == [] || (!IsWhitespace(r[0]) && !IsWhitespace(r[|r| - 1]))
  {
    var front := TrimStart(s);
    var r := TrimEnd(front);
    var i := |s| - |front|;
    var j := i + |r|;
    assert r == s[i..j];
    assert s[j..] == front[|r|..];
    r
  }

  /** The trimmed text is empty exactly when the input is nothing but white space. */
  lemma TrimEmptyIff(s: string)
    ensures TrimString(s) == [] <==> AllWhitespace(s)
  {
    if TrimString(s) == [] {
      var i, j :| 0 <= i <= j <= |s| && TrimString(s) == s[i..j]
                  && AllWhitespace(s[..i]) && AllWhitespace(s[j..]);
      forall k | 0 <= k < |s| ensures IsWhitespace(s[k]) {
        if k < i { assert s[k] == s[..i][k]; } else { assert s[k] == s[j..][k - j]; }
      }
    }
  }

  /** A text that neither starts nor ends with white space is its own trim. */
  lemma TrimOfTrimmed(s: string)
    requires s == [] || (!IsWhitespace(s[0]) && !IsWhitespace(s[|s| - 1]))
    ensures TrimString(s) == s
  {
    var i, j :| 0 <= i <= j <= |s| && TrimString(s) == s[i..j]
                && AllWhitespace(s[..i]) && AllWhitespace(s[j..]);
    if i > 0 { assert s[..i][0] == s[0]; }
    if j < |s| { assert s[j..][|s| - 1 - j] == s[|s| - 1]; }
  }

  /** Trimming twice is trimming once. */
  lemma TrimIdempotent(s: string)
    ensures TrimString(TrimString(s)) == TrimString(s)
  {
    TrimOfTrimmed(TrimString(s));
  }
}
