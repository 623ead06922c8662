/** The part of JavaScript's String.prototype.trim that the chat widget relies
    on: `!input.trim()` is true exactly when the draft is empty or made only of
    white space. Characters are Unicode scalar values; the white-space set is
    ECMAScript's WhiteSpace and LineTerminator productions. */
module JsString {

  /** ECMAScript WhiteSpace (TAB, VT, FF, SP, NBSP, ZWNBSP and the Zs category)
      and LineTerminator (LF, CR, LS, PS): exactly the characters trim removes. */
  const JS_WHITESPACE: set<char> := {
    '\t', '\U{000B}', '\U{000C}', ' ', '\U{00A0}', '\U{FEFF}',
    '\U{1680}', '\U{2000}', '\U{2001}', '\U{2002}', '\U{2003}', '\U{2004}',
    '\U{2005}', '\U{2006}', '\U{2007}', '\U{2008}', '\U{2009}', '\U{200A}',
    '\U{202F}', '\U{205F}', '\U{3000}',
    '\n', '\r', '\U{2028}', '\U{2029}'
  }

  predicate IsJsWhitespace(c: char) {
    c in JS_WHITESPACE
  }

  /** A string that `trim()` turns into the empty (falsy) string. */
  predicate IsBlank(s: string) {
    forall i | 0 <= i < |s| :: IsJsWhitespace(s[i])
  }

  /** Drops leading white space. */
  function TrimStart(s: string): string {
    if s != [] && IsJsWhitespace(s[0]) then TrimStart(s[1..]) else s
  }

  /** Drops trailing white space. */
  function TrimEnd(s: string): string {
    if s != [] && IsJsWhitespace(s[|s| - 1]) then TrimEnd(s[..|s| - 1]) else s
  }

  /** TrimStart keeps a suffix of its input that is empty or starts with a
      non-white-space character, and everything it drops is white space. */
  lemma {:induction false} TrimStartSpec(s: string)
    ensures var r := TrimStart(s);
      |r| <= |s| && r == s[|s| - |r|..] &&
      (r == [] || !IsJsWhitespace(r[0])) &&
      IsBlank(s[..|s| - |r|])
  {
    if s != [] && IsJsWhitespace(s[0]) {
      TrimStartSpec(s[1..]);
      var r := TrimStart(s[1..]);
      var dropped := s[..|s| - |r|];
      assert dropped == [s[0]] + s[1..][..|s[1..]| - |r|];
      assert forall i | 1 <= i < |dropped| :: dropped[i] == s[1..][..|s[1..]| - |r|][i - 1];
    }
  }

  /** TrimEnd keeps a prefix of its input that is empty or ends with a
      non-white-space character, and everything it drops is white space. */
  lemma {:induction false} TrimEndSpec(s: string)
    ensures var r := TrimEnd(s);
      |r| <= |s| && r == s[..|r|] &&
      (r == [] || !IsJsWhitespace(r[|r| - 1])) &&
      IsBlank(s[|r|..])
  {
    if s != [] && IsJsWhitespace(s[|s| - 1]) {
      var init := s[..|s| - 1];
      TrimEndSpec(init);
      var r := TrimEnd(init);
      var dropped := s[|r|..];
      assert init[..|r|] == s[..|r|];
      assert dropped == init[|r|..] + [s[|s| - 1]];
      assert forall i | 0 <= i < |dropped| - 1 :: dropped[i] == init[|r|..][i];
    }
  }

  /** String.prototype.trim: white space removed from both ends. */
  function Trim(s: string): string {
    TrimEnd(TrimStart(s))
  }

  /** `trim()` yields the empty string exactly when the input is blank. */
  lemma TrimEmptyIffBlank(s: string)
    ensures Trim(s) == [] <==> IsBlank(s)
  {
    var t := TrimStart(s);
    var r := TrimEnd(t);
    TrimStartSpec(s);
    TrimEndSpec(t);
    assert t == s[|s| - |t|..];
    assert r == t[..|r|];
  }
}
