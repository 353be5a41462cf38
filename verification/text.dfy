/** The string primitives the ledger relies on: `String.prototype.trim`, `toLowerCase` restricted to
    ASCII letters, and `includes`. */
module Text {

  /** The ECMAScript WhiteSpace and LineTerminator code points, which `trim` strips from both ends. */
  predicate IsWhitespace(c: char) {
    || c == '\t' || c == '\n' || c == '\U{000B}' || c == '\U{000C}' || c == '\r' || c == ' '
    || c == '\U{00A0}' || c == '\U{1680}' || ('\U{2000}' <= c <= '\U{200A}')
    || c == '\U{2028}' || c == '\U{2029}' || c == '\U{202F}' || c == '\U{205F}'
    || c == '\U{3000}' || c == '\U{FEFF}'
  }

  /** Neither the first nor the last character of `s` is whitespace. */
  predicate NoOuterWhitespace(s: string) {
    |s| == 0 || (!IsWhitespace(s[0]) && !IsWhitespace(s[|s| - 1]))
  }

  /** `r` is the slice of `s` starting at `i`, and everything of `s` around it is whitespace. */
  ghost predicate TrimmedAt(s: string, r: string, i: int) {
    && 0 <= i <= |s| - |r|
    && s[i..i + |r|] == r
    && (forall k :: 0 <= k < i ==> IsWhitespace(s[k]))
    && (forall k :: i + |r| <= k < |s| ==> IsWhitespace(s[k]))
  }

  function TrimStart(s: string): (r: string)
    ensures |r| <= |s| && r == s[|s| - |r|..]
    ensures forall k :: 0 <= k < |s| - |r| ==> IsWhitespace(s[k])
    ensures |r| > 0 ==> !IsWhitespace(r[0])
  {
    if |s| > 0 && IsWhitespace(s[0]) then TrimStart(s[1..]) else s
  }

  function TrimEnd(s: string): (r: string)
    ensures |r| <= |s| && r == s[..|r|]
    ensures forall k :: |r| <= k < |s| ==> IsWhitespace(s[k])
    ensures |r| > 0 ==> !IsWhitespace(r[|r| - 1])
  {
    if |s| > 0 && IsWhitespace(s[|s| - 1]) then TrimEnd(s[..|s| - 1]) else s
  }

  /** `String.prototype.trim`: the part of `s` left after removing whitespace from both ends. */
  function Trim(s: string): (r: string)
    ensures NoOuterWhitespace(r)
    ensures exists i :: TrimmedAt(s, r, i)
  {
    var a := TrimStart(s);
    var r := TrimEnd(a);
    assert r[0..] == r;
    assert TrimmedAt(s, r, |s| - |a|) by {
      assert s[|s| - |a|..][..|r|] == s[|s| - |a|..|s| - |a| + |r|];
    }
    r
  }

  /** A string with no whitespace at either end is its own trimmed form. */
  lemma TrimKeepsTrimmed(s: string)
    requires NoOuterWhitespace(s)
    ensures Trim(s) == s
  {
    assert TrimStart(s) == s;
  }

  lemma TrimIdempotent(s: string)
    ensures Trim(Trim(s)) == Trim(s)
  {
    TrimKeepsTrimmed(Trim(s));
  }

  /** `toLowerCase` on one character, restricted to the ASCII letters. */
  function LowerChar(c: char): (d: char)
    ensures 'A' <= c <= 'Z' ==> 'a' <= d <= 'z' && d as int - c as int == 32
    ensures !('A' <= c <= 'Z') ==> d == c
  {
    if 'A' <= c <= 'Z' then (c as int + 32) as char else c
  }

  function Lower(s: string): (r: string)
    ensures |r| == |s|
    ensures forall k :: 0 <= k < |s| ==> r[k] == LowerChar(s[k])
  {
    if s == [] then [] else [LowerChar(s[0])] + Lower(s[1..])
  }

  /** `a.toLowerCase() === b.toLowerCase()`. */
  predicate EqualsIgnoringCase(a: string, b: string) {
    Lower(a) == Lower(b)
  }

  /** `k` occurs in `s` starting at position `i`. */
  predicate OccursAt(s: string, k: string, i: int) {
    0 <= i && i + |k| <= |s| && s[i..i + |k|] == k
  }

  /** `s.includes(k)`: some position of `s` starts an occurrence of `k` (the empty string occurs everywhere). */
  function Includes(s: string, k: string): (b: bool)
    ensures b <==> exists i :: OccursAt(s, k, i)
    decreases |s|
  {
    if |k| > |s| then
      assert forall i :: !OccursAt(s, k, i);
      false
    else if s[..|k|] == k then
      assert OccursAt(s, k, 0);
      true
    else
      var b := Includes(s[1..], k);
      assert forall i {:trigger OccursAt(s, k, i)} :: 1 <= i ==> (OccursAt(s, k, i) <==> OccursAt(s[1..], k, i - 1)) by {
        forall i | 1 <= i
          ensures OccursAt(s, k, i) <==> OccursAt(s[1..], k, i - 1)
        {
          OccursInTail(s, k, i);
        }
      }
      assert !OccursAt(s, k, 0);
      assert b ==> OccursAt(s, k, (var j :| OccursAt(s[1..], k, j); j) + 1);
      b
  }

  lemma OccursInTail(s: string, k: string, i: int)
    requires 1 <= i && |s| > 0
    ensures OccursAt(s, k, i) <==> OccursAt(s[1..], k, i - 1)
  {
    if i + |k| <= |s| {
      assert s[i..i + |k|] == s[1..][i - 1..i - 1 + |k|];
    }
  }
}
