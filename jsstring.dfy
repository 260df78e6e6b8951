/**
 * The JavaScript string operations the components rely on: `trim`, `toLowerCase`
 * (ASCII letters only) and `includes`.
 */
module JsString {

  /** The characters `String.prototype.trim` removes: white space and line terminators. */
  predicate IsWhite(c: char) {
    c == ' ' || c == '\t' || c == '\n' || c == '\r' || c == '\U{0B}' || c == '\U{0C}'
    || c == '\U{A0}' || c == '\U{1680}' || ('\U{2000}' <= c <= '\U{200A}')
    || c == '\U{2028}' || c == '\U{2029}' || c == '\U{202F}' || c == '\U{205F}'
    || c == '\U{3000}' || c == '\U{FEFF}'
  }

  /** Drops leading white space; what is kept is a suffix that does not start with it. */
  function TrimStart(s: string): (r: string)
    ensures |r| <= |s| && r == s[|s| - |r|..]
    ensures r == [] || !IsWhite(r[0])
  {
    if s != [] && IsWhite(s[0]) then TrimStart(s[1..]) else s
  }

  /** What `TrimStart` drops is all white space. */
  lemma {:induction false} TrimStartDropsWhite(s: string)
    ensures forall k :: 0 <= k < |s| - |TrimStart(s)| ==> IsWhite(s[k])
  {
    if s != [] && IsWhite(s[0]) {
      TrimStartDropsWhite(s[1..]);
      assert forall k :: 1 <= k < |s| - |TrimStart(s)| ==> s[k] == s[1..][k - 1];
    }
  }

  /** Drops trailing white space; what is kept is a prefix that does not end with it. */
  function TrimEnd(s: string): (r: string)
    ensures |r| <= |s| && r == s[..|r|]
    ensures r == [] || !IsWhite(r[|r| - 1])
  {
    if s != [] && IsWhite(s[|s| - 1]) then TrimEnd(s[..|s| - 1]) else s
  }

  /** What `TrimEnd` drops is all white space. */
  lemma {:induction false} TrimEndDropsWhite(s: string)
    ensures forall k :: |TrimEnd(s)| <= k < |s| ==> IsWhite(s[k])
  {
    if s != [] && IsWhite(s[|s| - 1]) {
      TrimEndDropsWhite(s[..|s| - 1]);
    }
  }

  /** `s.trim()`: a contiguous piece of `s` that neither starts nor ends with white space. */
  function Trim(s: string): (r: string)
    ensures r == [] || (!IsWhite(r[0]) && !IsWhite(r[|r| - 1]))
    ensures Contains(s, r)
  {
    var t := TrimStart(s);
    var r := TrimEnd(t);
    assert OccursAt(s, r, |s| - |t|);
    r
  }

  /**
   * `trim` removes the leading and the trailing white space and nothing else: the result
   * is the piece of `s` between a white prefix and a white suffix.
   */
  lemma TrimDropsOnlyEnds(s: string)
    ensures exists i, j :: 0 <= i <= j <= |s| && Trim(s) == s[i..j] && IsBlank(s[..i]) && IsBlank(s[j..])
  {
    var t := TrimStart(s);
    var i := |s| - |t|;
    var j := i + |TrimEnd(t)|;
    TrimIsSlice(s, t, i, j);
    WhiteHeadAndTail(s, t, i, j);
    assert 0 <= i <= j <= |s| && Trim(s) == s[i..j] && IsBlank(s[..i]) && IsBlank(s[j..]);
  }

  /** What `TrimEnd` keeps of `TrimStart(s)` is the slice between what the two drop. */
  lemma TrimIsSlice(s: string, t: string, i: nat, j: nat)
    requires t == TrimStart(s) && i == |s| - |t| && j == i + |TrimEnd(t)|
    ensures j <= |s| && TrimEnd(t) == s[i..j]
  {
    assert OccursAt(s, TrimEnd(t), i);
  }

  /** What `TrimStart` and then `TrimEnd` drop from `s` are white prefix and suffix. */
  lemma WhiteHeadAndTail(s: string, t: string, i: nat, j: nat)
    requires t == TrimStart(s) && i == |s| - |t| && j == i + |TrimEnd(t)|
    ensures IsBlank(s[..i]) && IsBlank(s[j..])
  {
    TrimStartDropsWhite(s);
    TrimEndDropsWhite(t);
    forall k | j <= k < |s|
      ensures IsWhite(s[k])
    {
      assert s[k] == t[k - i];
    }
    assert forall k :: 0 <= k < |s| - j ==> s[j..][k] == s[j + k];
  }

  /**
   * `!s.trim()`, the test for a blank input: every character is white space, which is
   * exactly when trimming leaves nothing (`BlankIffTrimEmpty`).
   */
  predicate IsBlank(s: string) {
    forall k :: 0 <= k < |s| ==> IsWhite(s[k])
  }

  /** A string is blank exactly when it is empty once trimmed. */
  lemma BlankIffTrimEmpty(s: string)
    ensures IsBlank(s) <==> Trim(s) == []
  {
    if IsBlank(s) {
      BlankTrimsAway(s);
    } else {
      var k :| 0 <= k < |s| && !IsWhite(s[k]);
      NonWhiteSurvivesTrim(s, k);
    }
  }

  /** Trimming a blank string leaves nothing. */
  lemma BlankTrimsAway(s: string)
    requires IsBlank(s)
    ensures Trim(s) == []
  {
    var t := TrimStart(s);
    assert IsBlank(t);
  }

  /** A character that is not white space outlives trimming, so the trimmed string is not empty. */
  lemma NonWhiteSurvivesTrim(s: string, k: nat)
    requires k < |s| && !IsWhite(s[k])
    ensures Trim(s) != []
  {
    var t := TrimStart(s);
    TrimStartDropsWhite(s);
    assert |s| - |t| <= k;
    var j := k - (|s| - |t|);
    assert t[j] == s[k];
    TrimEndDropsWhite(t);
    assert |TrimEnd(t)| > j;
  }

  /** Trimming an already trimmed string changes nothing. */
  lemma {:induction false} TrimIdempotent(s: string)
    ensures Trim(Trim(s)) == Trim(s)
  {
    var r := Trim(s);
    assert TrimStart(r) == r;
    assert TrimEnd(r) == r;
  }

  /** ASCII `toLowerCase` on one character. */
  function LowerChar(c: char): (d: char)
    ensures 'A' <= c <= 'Z' ==> 'a' <= d <= 'z' && d as int == c as int + 32
    ensures !('A' <= c <= 'Z') ==> d == c
  {
    if 'A' <= c <= 'Z' then (c as int - 'A' as int + 'a' as int) as char else c
  }

  /** `s.toLowerCase()`, folding ASCII letters only. */
  function Lower(s: string): (r: string)
    ensures |r| == |s|
    ensures forall k :: 0 <= k < |s| ==> r[k] == LowerChar(s[k])
  {
    seq(|s|, k requires 0 <= k < |s| => LowerChar(s[k]))
  }

  /** The needle occurs in the hay starting at position `i`. */
  predicate OccursAt(hay: string, needle: string, i: int) {
    0 <= i <= |hay| - |needle| && hay[i..i + |needle|] == needle
  }

  /** `hay.includes(needle)`: the needle occurs at some position of the hay. */
  predicate Contains(hay: string, needle: string) {
    exists i :: 0 <= i <= |hay| - |needle| && OccursAt(hay, needle, i)
  }
}
