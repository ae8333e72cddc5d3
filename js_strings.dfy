/**
 * The JavaScript `String` operations the installer applies to package
 * metadata: `indexOf`, one-argument `substring`, `replace` with a string
 * pattern (first occurrence only) and `split(sep)[0]`.
 */
module JsStrings {

  /** `pat` occurs in `s` starting at index `i`. */
  predicate OccursAt(s: string, pat: string, i: int) {
    0 <= i && i + |pat| <= |s| && s[i..i + |pat|] == pat
  }

  /** `s.indexOf(pat, from)`: the first occurrence at or after `from`, or -1. */
  function IndexFrom(s: string, pat: string, from: nat): (r: int)
    requires from <= |s|
    ensures r == -1 || (from <= r && OccursAt(s, pat, r))
    ensures forall i :: from <= i && (r == -1 || i < r) ==> !OccursAt(s, pat, i)
    decreases |s| - from
  {
    if OccursAt(s, pat, from) then from
    else if from + |pat| >= |s| then -1
    else IndexFrom(s, pat, from + 1)
  }

  /** `s.indexOf(pat)`: the index of the first occurrence of `pat`, or -1 when there is none. */
  function IndexOf(s: string, pat: string): (r: int)
    ensures r == -1 <==> forall i :: !OccursAt(s, pat, i)
    ensures r != -1 ==> OccursAt(s, pat, r) && forall i :: 0 <= i < r ==> !OccursAt(s, pat, i)
  {
    IndexFrom(s, pat, 0)
  }

  /** `s.substring(start)`: a negative start counts as 0 and a start past the end as the end. */
  function Substring(s: string, start: int): (r: string)
    ensures start <= 0 ==> r == s
    ensures 0 <= start <= |s| ==> r == s[start..]
    ensures |s| < start ==> r == ""
  {
    if start <= 0 then s else if start <= |s| then s[start..] else ""
  }

  /**
   * `s.replace(pat, rep)` with a string pattern and a replacement without '$'
   * (no `$&`, `$1` or `$$` expansion): only the first occurrence is replaced.
   */
  function ReplaceFirst(s: string, pat: string, rep: string): (r: string)
    ensures IndexOf(s, pat) == -1 ==> r == s
    ensures IndexOf(s, pat) != -1 ==>
      var i := IndexOf(s, pat);
      |r| == |s| - |pat| + |rep| &&
      r[..i] == s[..i] && r[i..i + |rep|] == rep && r[i + |rep|..] == s[i + |pat|..]
  {
    var i := IndexOf(s, pat);
    if i == -1 then s else s[..i] + rep + s[i + |pat|..]
  }

  /** `s.split([sep])[0]`: the part of `s` before the first `sep`, the whole of `s` when there is none. */
  function FirstField(s: string, sep: char): (r: string)
    ensures sep !in r
    ensures r <= s
    ensures |r| < |s| ==> s[|r|] == sep
  {
    if s == [] || s[0] == sep then "" else [s[0]] + FirstField(s[1..], sep)
  }

  /** An occurrence found in a prefix is still the first one once more text is appended. */
  lemma {:induction false} IndexOfExtend(a: string, b: string, pat: string)
    requires IndexOf(a, pat) != -1
    ensures IndexOf(a + b, pat) == IndexOf(a, pat)
  {
    var i := IndexOf(a, pat);
    var s := a + b;
    assert s[i..i + |pat|] == a[i..i + |pat|];
    assert OccursAt(s, pat, i);
    forall j | 0 <= j < i
      ensures !OccursAt(s, pat, j)
    {
      if OccursAt(s, pat, j) {
        assert j + |pat| <= i + |pat| <= |a|;
        assert a[j..j + |pat|] == s[j..j + |pat|];
        assert OccursAt(a, pat, j);
      }
    }
  }

  /** Cutting at the first occurrence commutes with appending text after it. */
  lemma SubstringAtFirstExtend(a: string, b: string, pat: string)
    requires IndexOf(a, pat) != -1
    ensures Substring(a + b, IndexOf(a + b, pat)) == Substring(a, IndexOf(a, pat)) + b
  {
    IndexOfExtend(a, b, pat);
    var i := IndexOf(a, pat);
    assert (a + b)[i..] == a[i..] + b;
  }
}
