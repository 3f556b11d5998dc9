/** JavaScript's `String.prototype.trim`, which `startGame` applies to both pending names. */
module Text {

  /** The characters `trim` removes: ECMAScript WhiteSpace (tab, vertical tab,
      form feed, the byte order mark and every Unicode space separator) and
      LineTerminator (line feed, carriage return, line and paragraph separator). */
  predicate IsSpace(c: char) {
    c == '\t' || c == '\n' || c == '\U{000B}' || c == '\U{000C}' || c == '\r' ||
    c == ' ' || c == '\U{00A0}' || c == '\U{1680}' ||
    ('\U{2000}' <= c <= '\U{200A}') ||
    c == '\U{2028}' || c == '\U{2029}' || c == '\U{202F}' || c == '\U{205F}' ||
    c == '\U{3000}' || c == '\U{FEFF}'
  }

  /** Drops the leading white space: what is left is a suffix of `s` that is empty
      or starts with a non-space, and everything dropped was white space. */
  function TrimStart(s: string): (r: string)
    ensures |r| <= |s| && r == s[|s| - |r|..]
    ensures forall j :: 0 <= j < |s| - |r| ==> IsSpace(s[j])
    ensures r != [] ==> !IsSpace(r[0])
  {
    if s != [] && IsSpace(s[0]) then TrimStart(s[1..]) else s
  }

  /** Drops the trailing white space: what is left is a prefix of `s` that is empty
      or ends with a non-space, and everything dropped was white space. */
  function TrimEnd(s: string): (r: string)
    ensures |r| <= |s| && r == s[..|r|]
    ensures forall j :: |r| <= j < |s| ==> IsSpace(s[j])
    ensures r != [] ==> !IsSpace(r[|r| - 1])
  {
    if s != [] && IsSpace(s[|s| - 1]) then TrimEnd(s[..|s| - 1]) else s
  }

  /** `s.trim()`: neither end of the result is white space. Which characters are kept,
      the slice of `s` between its leading and trailing white space, is stated by
      `TrimIsInnerSlice`. */
  function Trim(s: string): (r: string)
    ensures |r| <= |s|
    ensures r != [] ==> !IsSpace(r[0]) && !IsSpace(r[|r| - 1])
  {
    TrimEnd(TrimStart(s))
  }

  /** Nothing but white space. */
  predicate Blank(s: string) {
    forall j :: 0 <= j < |s| ==> IsSpace(s[j])
  }

  /** `s.trim()` is empty (falsy) exactly when `s` is all white space. */
  lemma TrimEmptyIffBlank(s: string)
    ensures Trim(s) == [] <==> Blank(s)
  {
  }

  /** A string that neither starts nor ends with white space is left as it is. */
  lemma TrimKeepsUnpadded(s: string)
    requires s != [] && !IsSpace(s[0]) && !IsSpace(s[|s| - 1])
    ensures Trim(s) == s
  {
    assert TrimStart(s) == s;
  }

  /** Trimming twice is trimming once; so a trimmed name stays as it is. */
  lemma TrimIdempotent(s: string)
    ensures Trim(Trim(s)) == Trim(s)
  {
    var r := Trim(s);
    if r != [] {
      assert TrimStart(r) == r;
      assert TrimEnd(r) == r;
    }
  }

  /** Trimming removes only white space: the result is the slice of `s` between
      its leading and its trailing white space. */
  lemma TrimIsInnerSlice(s: string)
    ensures var lo := |s| - |TrimStart(s)|;
      lo + |Trim(s)| <= |s| && Trim(s) == s[lo..lo + |Trim(s)|] &&
      (forall j :: 0 <= j < lo ==> IsSpace(s[j])) &&
      (forall j :: lo + |Trim(s)| <= j < |s| ==> IsSpace(s[j]))
  {
    var t := TrimStart(s);
    var lo := |s| - |t|;
    var r := TrimEnd(t);
    assert t == s[lo..];
    assert r == t[..|r|];
    assert r == s[lo..lo + |r|];
    forall j | lo + |r| <= j < |s| ensures IsSpace(s[j]) {
      assert s[j] == t[j - lo];
      assert IsSpace(t[j - lo]);
    }
  }
}
