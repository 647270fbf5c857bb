/** `String.prototype.trim`, which `handleSend` applies to the input box
    (src/App.jsx:81-82): it removes leading and trailing ECMAScript white space
    and line terminators, and nothing else. */
module JsString {

  /** The code points of ECMAScript's WhiteSpace (TAB, VT, FF, SP, NBSP,
      ZWNBSP and the Space_Separator category) and LineTerminator (LF, CR, LS,
      PS) productions. */
  predicate IsWhitespace(c: char)
  {
    || c == '\U{0009}' || c == '\U{000A}' || c == '\U{000B}' || c == '\U{000C}'
    || c == '\U{000D}' || c == '\U{0020}' || c == '\U{00A0}' || c == '\U{1680}'
    || ('\U{2000}' <= c <= '\U{200A}')
    || c == '\U{2028}' || c == '\U{2029}' || c == '\U{202F}' || c == '\U{205F}'
    || c == '\U{3000}' || c == '\U{FEFF}'
  }

  /** `s` without its leading white space: a suffix of `s`, everything cut off
      is white space, and it does not start with white space. */
  function TrimStart(s: string): (r: string)
    ensures |r| <= |s| && r == s[|s| - |r|..]
    ensures forall i :: 0 <= i < |s| - |r| ==> IsWhitespace(s[i])
    ensures r == [] || !IsWhitespace(r[0])
  {
    if s != [] && IsWhitespace(s[0]) then TrimStart(s[1..]) else s
  }

  /** `s` without its trailing white space: a prefix of `s`, everything cut
      off is white space, and it does not end with white space. */
  function TrimEnd(s: string): (r: string)
    ensures |r| <= |s| && r == s[..|r|]
    ensures forall i :: |r| <= i < |s| ==> IsWhitespace(s[i])
    ensures r == [] || !IsWhitespace(r[|r| - 1])
  {
    if s != [] && IsWhitespace(s[|s| - 1]) then TrimEnd(s[..|s| - 1]) else s
  }

  /** `s.trim()`. */
  function Trim(s: string): (r: string)
    ensures r == [] || (!IsWhitespace(r[0]) && !IsWhitespace(r[|r| - 1]))
  {
    TrimEnd(TrimStart(s))
  }

  /** `trim` removes only white space, and only at the two ends: the result is
      the slice of `s` between a white-space prefix and a white-space suffix. */
  lemma TrimIsInfix(s: string)
    ensures |s| - |TrimStart(s)| + |Trim(s)| <= |s|
    ensures Trim(s) == s[|s| - |TrimStart(s)|..|s| - |TrimStart(s)| + |Trim(s)|]
    ensures forall i :: 0 <= i < |s| - |TrimStart(s)| ==> IsWhitespace(s[i])
    ensures forall i :: |s| - |TrimStart(s)| + |Trim(s)| <= i < |s| ==> IsWhitespace(s[i])
  {
    var u := TrimStart(s);
    var k, r := |s| - |u|, TrimEnd(u);
    assert u == s[k..] && r == u[..|r|];
    assert r == s[k..k + |r|];
    TrailingWhitespace(s, u, r, k);
  }

  lemma TrailingWhitespace(s: string, u: string, r: string, k: nat)
    requires k + |u| == |s| && u == s[k..] && |r| <= |u|
    requires forall i :: |r| <= i < |u| ==> IsWhitespace(u[i])
    ensures forall i :: k + |r| <= i < |s| ==> IsWhitespace(s[i])
  {
    forall i | k + |r| <= i < |s|
      ensures IsWhitespace(s[i])
    {
      assert s[i] == u[i - k];
    }
  }

  /** `!input.trim()` holds exactly when the input is all white space
      (the empty string included). */
  lemma TrimEmptyIff(s: string)
    ensures Trim(s) == [] <==> forall i :: 0 <= i < |s| ==> IsWhitespace(s[i])
  {
    TrimIsInfix(s);
    if Trim(s) != [] {
      var k := |s| - |TrimStart(s)|;
      assert s[k] == Trim(s)[0];
    }
  }

  /** `trim` leaves a string unchanged exactly when it neither starts nor ends
      with white space. */
  lemma TrimFixedIff(s: string)
    ensures Trim(s) == s <==> s == [] || (!IsWhitespace(s[0]) && !IsWhitespace(s[|s| - 1]))
  {
    if s != [] && !IsWhitespace(s[0]) && !IsWhitespace(s[|s| - 1]) {
      assert TrimStart(s) == s;
    }
  }

  /** Trimming twice is trimming once. */
  lemma TrimIdempotent(s: string)
    ensures Trim(Trim(s)) == Trim(s)
  {
    var r := Trim(s);
    if r != [] {
      assert TrimStart(r) == r;
      assert TrimEnd(r) == r;
    }
  }
}
