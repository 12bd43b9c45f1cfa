/** JavaScript's String.prototype.trim, which both widgets apply to names typed by the user. */
module Text {

  /** The code points trim strips: the ECMAScript WhiteSpace and LineTerminator characters. */
  predicate IsWhitespace(c: char)
  {
    c == ' ' || c == '\t' || c == '\n' || c == '\r' || c == '\U{B}' || c == '\U{C}'
    || c == '\U{A0}' || c == '\U{1680}' || ('\U{2000}' <= c <= '\U{200A}')
    || c == '\U{2028}' || c == '\U{2029}' || c == '\U{202F}' || c == '\U{205F}'
    || c == '\U{3000}' || c == '\U{FEFF}'
  }

  /** Every character of s at a position from lo up to hi is whitespace. */
  predicate WhitespaceIn(s: string, lo: int, hi: int)
  {
    forall i :: lo <= i < hi && 0 <= i < |s| ==> IsWhitespace(s[i])
  }

  /** Every character of s is whitespace (true of the empty string). */
  predicate AllWhitespace(s: string)
  {
    WhitespaceIn(s, 0, |s|)
  }

  /** s without its leading whitespace: a suffix of s, what was dropped is all
      whitespace, and what is kept does not start with whitespace. */
  function TrimStart(s: string): (r: string)
    ensures |r| <= |s| && r == s[|s| - |r|..]
    ensures WhitespaceIn(s, 0, |s| - |r|)
    ensures r != [] ==> !IsWhitespace(r[0])
  {
    if s != [] && IsWhitespace(s[0]) then TrimStart(s[1..]) else s
  }

  /** s without its trailing whitespace: a prefix of s, what was dropped is all
      whitespace, and what is kept does not end with whitespace. */
  function TrimEnd(s: string): (r: string)
    ensures |r| <= |s| && r == s[..|r|]
    ensures WhitespaceIn(s, |r|, |s|)
    ensures r != [] ==> !IsWhitespace(r[|r| - 1])
  {
    if s != [] && IsWhitespace(s[|s| - 1]) then TrimEnd(s[..|s| - 1]) else s
  }

  /** s with whitespace removed from both ends. It is empty exactly when s is
      blank, and otherwise starts and ends with a visible character. */
  function Trim(s: string): (r: string)
    ensures |r| <= |s|
    ensures r == [] <==> AllWhitespace(s)
    ensures r != [] ==> !IsWhitespace(r[0]) && !IsWhitespace(r[|r| - 1])
  {
    TrimEnd(TrimStart(s))
  }

  /** Trim keeps a contiguous run of s and drops only whitespace on either side. */
  lemma {:induction false} TrimIsSlice(s: string)
    ensures var k := |s| - |TrimStart(s)|;
            k + |Trim(s)| <= |s| && Trim(s) == s[k..k + |Trim(s)|]
            && WhitespaceIn(s, 0, k) && WhitespaceIn(s, k + |Trim(s)|, |s|)
  {
    var t := TrimStart(s);
    var r := TrimEnd(t);
    var k := |s| - |t|;
    assert Trim(s) == r;
    SliceOfSuffix(s, t, r);
  }

  /** A prefix r of the suffix t of s, with whitespace after r in t, sits in s
      at the position where t starts, with whitespace after it in s. */
  lemma SliceOfSuffix(s: string, t: string, r: string)
    requires |t| <= |s| && t == s[|s| - |t|..]
    requires |r| <= |t| && r == t[..|r|] && WhitespaceIn(t, |r|, |t|)
    ensures r == s[|s| - |t|..|s| - |t| + |r|]
    ensures WhitespaceIn(s, |s| - |t| + |r|, |s|)
  {
    var k := |s| - |t|;
    forall i | k + |r| <= i < |s| ensures IsWhitespace(s[i]) {
      assert s[i] == t[i - k];
    }
  }

  /** A string that starts and ends with a visible character is left as it is. */
  lemma TrimKeepsVisibleEnds(s: string)
    requires s != [] && !IsWhitespace(s[0]) && !IsWhitespace(s[|s| - 1])
    ensures Trim(s) == s
  {
    assert TrimStart(s) == s;
  }

  /** Trimming twice is trimming once. */
  lemma {:induction false} TrimIdempotent(s: string)
    ensures Trim(Trim(s)) == Trim(s)
  {
    var r := Trim(s);
    if r != [] {
      TrimKeepsVisibleEnds(r);
    }
  }
}
