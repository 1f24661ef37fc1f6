/**
 * The string primitives the pages rely on: `String.prototype.trim`,
 * `toLowerCase` (on ASCII letters) and `includes`.
 */
module Strings {

  /**
   * The code points `trim` strips: ECMAScript WhiteSpace (TAB, VT, FF,
   * ZWNBSP and the Unicode space separators) and LineTerminator (LF, CR,
   * LS, PS).
   */
  predicate IsTrimmable(c: char) {
    c == '\t' || c == '\n' || c == '\U{000B}' || c == '\U{000C}' || c == '\r' ||
    c == ' ' || c == '\U{00A0}' || c == '\U{1680}' ||
    ('\U{2000}' <= c <= '\U{200A}') ||
    c == '\U{2028}' || c == '\U{2029}' || c == '\U{202F}' || c == '\U{205F}' ||
    c == '\U{3000}' || c == '\U{FEFF}'
  }

  function TrimStart(s: string): (r: string)
    ensures |r| <= |s| && r == s[|s| - |r|..]
    ensures r == [] || !IsTrimmable(r[0])
    ensures forall i :: 0 <= i < |s| - |r| ==> IsTrimmable(s[i])
    decreases |s|
  {
    if s != [] && IsTrimmable(s[0]) then TrimStart(s[1..]) else s
  }

  function TrimEnd(s: string): (r: string)
    ensures |r| <= |s| && r == s[..|r|]
    ensures r == [] || !IsTrimmable(r[|r| - 1])
    ensures forall i :: |r| <= i < |s| ==> IsTrimmable(s[i])
    decreases |s|
  {
    if s != [] && IsTrimmable(s[|s| - 1]) then TrimEnd(s[..|s| - 1]) else s
  }

  /** `s.trim()`. */
  function Trim(s: string): string {
    TrimEnd(TrimStart(s))
  }

  /** An input is blank when `trim` leaves nothing of it. */
  predicate IsBlank(s: string) {
    Trim(s) == ""
  }

  lemma {:induction false} TrimStartAllTrimmable(s: string)
    ensures TrimStart(s) == [] <==> forall k :: 0 <= k < |s| ==> IsTrimmable(s[k])
    decreases |s|
  {
    if s != [] && IsTrimmable(s[0]) {
      TrimStartAllTrimmable(s[1..]);
      assert forall k :: 1 <= k < |s| ==> s[k] == s[1..][k - 1];
    }
  }

  lemma TrimEndEmpty(s: string)
    ensures TrimEnd(s) == [] <==> (s == [] || (forall k :: 0 <= k < |s| ==> IsTrimmable(s[k])))
    decreases |s|
  {
    if s != [] && IsTrimmable(s[|s| - 1]) {
      TrimEndEmpty(s[..|s| - 1]);
    }
  }

  /** The trimmed text has no trimmable character at either end, and came out of the middle of `s`. */
  lemma TrimShape(s: string)
    ensures var t := Trim(s);
      (t == [] || (!IsTrimmable(t[0]) && !IsTrimmable(t[|t| - 1]))) &&
      exists i :: 0 <= i <= |s| && OccursAt(s, t, i)
  {
    var u := TrimStart(s);
    var t := TrimEnd(u);
    PrefixOfSuffixOccurs(s, u, t);
    assert OccursAt(s, t, |s| - |u|);
  }

  /** A leading part of a trailing part of `s` occurs in `s` where that trailing part starts. */
  lemma PrefixOfSuffixOccurs(s: string, u: string, t: string)
    requires |u| <= |s| && u == s[|s| - |u|..]
    requires |t| <= |u| && t == u[..|t|]
    ensures OccursAt(s, t, |s| - |u|)
  {
    var i := |s| - |u|;
    assert s[i..i + |t|] == u[..|t|];
  }

  /** A blank input is one made only of trimmable characters. */
  lemma BlankIffAllTrimmable(s: string)
    ensures IsBlank(s) <==> forall k :: 0 <= k < |s| ==> IsTrimmable(s[k])
  {
    var u := TrimStart(s);
    TrimStartAllTrimmable(s);
    TrimEndEmpty(u);
  }

  lemma TrimEndFixed(s: string)
    requires s == [] || !IsTrimmable(s[|s| - 1])
    ensures TrimEnd(s) == s
  {
  }

  lemma TrimStartOfTrimEnd(s: string)
    requires s == [] || !IsTrimmable(s[0])
    ensures TrimStart(TrimEnd(s)) == TrimEnd(s)
  {
    var t := TrimEnd(s);
    assert t == [] || t[0] == s[0];
  }

  /** `trim` is idempotent: trimmed text is its own trim. */
  lemma TrimIdempotent(s: string)
    ensures Trim(Trim(s)) == Trim(s)
  {
    var u := TrimStart(s);
    var t := TrimEnd(u);
    TrimStartOfTrimEnd(u);
    TrimEndFixed(t);
  }

  /**
   * The step components' write rule: `value.trim() ? value.trim() : ''`
   * (truthiness of a string is non-emptiness).
   */
  function TrimmedOrEmpty(value: string): (r: string)
    ensures r == Trim(value)
    ensures Trim(r) == r
  {
    TrimIdempotent(value);
    if Trim(value) != "" then Trim(value) else ""
  }

  /** `toLowerCase` on one character, restricted to ASCII letters. */
  function LowerChar(c: char): (d: char)
    ensures 'A' <= c <= 'Z' ==> 'a' <= d <= 'z'
    ensures !('A' <= c <= 'Z') ==> d == c
  {
    if 'A' <= c <= 'Z' then (c as int - 'A' as int + 'a' as int) as char else c
  }

  function ToLower(s: string): (r: string)
    ensures |r| == |s|
    ensures forall k :: 0 <= k < |s| ==> r[k] == LowerChar(s[k])
  {
    if s == [] then [] else [LowerChar(s[0])] + ToLower(s[1..])
  }

  /** `p` occurs in `s` starting at offset `i`. */
  predicate OccursAt(s: string, p: string, i: nat) {
    i + |p| <= |s| && s[i..i + |p|] == p
  }

  /** `s.includes(p)`: `p` occurs in `s` at some offset. */
  predicate Contains(s: string, p: string) {
    exists i: nat :: i <= |s| && OccursAt(s, p, i)
  }

  /** Every string includes the empty string. */
  lemma ContainsEmpty(s: string)
    ensures Contains(s, "")
  {
    assert OccursAt(s, "", 0);
  }
}
