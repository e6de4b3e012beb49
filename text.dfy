/**
 * The string trimming that the editor applies to the user's prompt before
 * deciding whether it is empty (`prompt?.trim().length > 0`).
 * `String.prototype.trim` removes, from both ends, every character that
 * ECMAScript classifies as WhiteSpace or LineTerminator.
 */
module Text {

  /** ECMAScript WhiteSpace (TAB, VT, FF, ZWNBSP and the Zs category) or LineTerminator (LF, CR, LS, PS). */
  predicate IsSpace(c: char) {
    // WhiteSpace
    c == '\t' || c == '\U{000B}' || c == '\U{000C}' || c == '\U{FEFF}'
    // Zs: space separators
    || c == ' ' || c == '\U{00A0}' || c == '\U{1680}' || ('\U{2000}' <= c <= '\U{200A}')
    || c == '\U{202F}' || c == '\U{205F}' || c == '\U{3000}'
    // LineTerminator
    || c == '\n' || c == '\r' || c == '\U{2028}' || c == '\U{2029}'
  }

  /** Every character of `s` is whitespace (so the empty string is blank). */
  predicate Blank(s: string) {
    forall i :: 0 <= i < |s| ==> IsSpace(s[i])
  }

  /** Leading whitespace removed: a suffix of `s` that does not start with whitespace. */
  function TrimStart(s: string): (r: string)
    ensures |r| <= |s| && r == s[|s| - |r|..]
    ensures r == [] || !IsSpace(r[0])
  {
    if s != [] && IsSpace(s[0]) then TrimStart(s[1..]) else s
  }

  /** What `TrimStart` removes is whitespace. */
  lemma {:induction false} TrimStartRemovesBlank(s: string)
    ensures Blank(s[..|s| - |TrimStart(s)|])
  {
    if s != [] && IsSpace(s[0]) {
      var k := |s| - |TrimStart(s)|;
      TrimStartRemovesBlank(s[1..]);
      assert s[..k][1..] == s[1..][..k - 1];
    } else {
      assert s[..|s| - |TrimStart(s)|] == [];
    }
  }

  /** Trailing whitespace removed: a prefix of `s` that does not end with whitespace. */
  function TrimEnd(s: string): (r: string)
    ensures |r| <= |s| && r == s[..|r|]
    ensures r == [] || !IsSpace(r[|r| - 1])
  {
    if s != [] && IsSpace(s[|s| - 1]) then TrimEnd(s[..|s| - 1]) else s
  }

  /** What `TrimEnd` removes is whitespace. */
  lemma {:induction false} TrimEndRemovesBlank(s: string)
    ensures Blank(s[|TrimEnd(s)|..])
  {
    if s != [] && IsSpace(s[|s| - 1]) {
      var p := s[..|s| - 1];
      var n := |TrimEnd(s)|;
      TrimEndRemovesBlank(p);
      assert s[n..] == p[n..] + [s[|s| - 1]];
    } else {
      assert s[|TrimEnd(s)|..] == [];
    }
  }

  /** `String.prototype.trim`: whitespace removed from both ends. */
  function Trim(s: string): (r: string)
    ensures |r| <= |s|
    ensures r != [] ==> !IsSpace(r[0]) && !IsSpace(r[|r| - 1])
  {
    TrimEnd(TrimStart(s))
  }

  /** The trimmed string is empty exactly when the string consists of whitespace only. */
  lemma {:induction false} TrimEmptyIffBlank(s: string)
    ensures Trim(s) == [] <==> Blank(s)
  {
    var t := TrimStart(s);
    var k := |s| - |t|;
    TrimStartRemovesBlank(s);
    TrimEndRemovesBlank(t);
    assert s == s[..k] + t;
    if Trim(s) == [] {
      assert t == t[0..];
    }
  }

  /** A prefix `r` of a suffix `t` of `s` splits `s` in three. */
  lemma {:induction false} SplitAround(s: string, t: string, r: string)
    requires |t| <= |s| && t == s[|s| - |t|..]
    requires |r| <= |t| && r == t[..|r|]
    ensures s == s[..|s| - |t|] + r + t[|r|..]
  {
    assert t == r + t[|r|..];
    assert s == s[..|s| - |t|] + t;
  }

  /**
   * Trimming removes exactly the leading and trailing whitespace: `s` is
   * some whitespace, then the trimmed string, then some whitespace.
   */
  lemma {:induction false} TrimIsInfix(s: string) returns (leading: string, trailing: string)
    ensures s == leading + Trim(s) + trailing
    ensures Blank(leading) && Blank(trailing)
  {
    var t := TrimStart(s);
    var r := TrimEnd(t);
    assert r == Trim(s);
    TrimStartRemovesBlank(s);
    TrimEndRemovesBlank(t);
    SplitAround(s, t, r);
    leading, trailing := s[..|s| - |t|], t[|r|..];
  }
}
