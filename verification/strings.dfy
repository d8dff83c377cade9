/** The few JavaScript string operations the rewriter relies on, over `seq<char>`. */
module Strings {

  /** `pat` occurs in `s` starting at index `k`. */
  predicate OccursAt(s: string, pat: string, k: int) {
    0 <= k && k + |pat| <= |s| && s[k..k + |pat|] == pat
  }

  /** `String.prototype.indexOf(pat)`: the first index where `pat` occurs, or -1. */
  function IndexOf(s: string, pat: string): (r: int)
    ensures -1 <= r
    ensures r >= 0 ==> OccursAt(s, pat, r)
    ensures forall k :: 0 <= k && (r < 0 || k < r) ==> !OccursAt(s, pat, k)
  {
    IndexFrom(s, pat, 0)
  }

  /** The first occurrence of `pat` at index `i` or later, or -1. */
  function IndexFrom(s: string, pat: string, i: nat): (r: int)
    decreases |s| + 1 - i
    ensures r == -1 || (i <= r && OccursAt(s, pat, r))
    ensures forall k :: i <= k && (r < 0 || k < r) ==> !OccursAt(s, pat, k)
  {
    if i + |pat| > |s| then -1
    else if s[i..i + |pat|] == pat then i
    else IndexFrom(s, pat, i + 1)
  }

  /** A one-character pattern occurs at `k` exactly when that character sits at `k`. */
  lemma OccursAtChar(s: string, c: char, k: int)
    ensures OccursAt(s, [c], k) <==> 0 <= k < |s| && s[k] == c
  {
  }

  /** `indexOf` of a single character is the position of its first appearance. */
  lemma {:induction false} IndexOfChar(s: string, c: char)
    ensures IndexOf(s, [c]) < 0 <==> c !in s
    ensures IndexOf(s, [c]) >= 0 ==> IndexOf(s, [c]) < |s| && s[IndexOf(s, [c])] == c
    ensures IndexOf(s, [c]) >= 0 ==> c !in s[..IndexOf(s, [c])]
  {
    var r := IndexOf(s, [c]);
    if r >= 0 {
      OccursAtChar(s, c, r);
      forall k | 0 <= k < r ensures s[k] != c {
        OccursAtChar(s, c, k);
      }
    } else {
      forall k | 0 <= k < |s| ensures s[k] != c {
        OccursAtChar(s, c, k);
      }
    }
  }

  /**
   * `s.replace(pat, rep)` with a string pattern: only the first occurrence of `pat`
   * is replaced; without an occurrence `s` is returned as it is.
   */
  function ReplaceFirst(s: string, pat: string, rep: string): (r: string)
    ensures (forall k :: !OccursAt(s, pat, k)) ==> r == s
    ensures forall k {:trigger OccursAt(s, pat, k)} ::
              OccursAt(s, pat, k) && (forall j :: 0 <= j < k ==> !OccursAt(s, pat, j)) ==>
                r == s[..k] + rep + s[k + |pat|..]
  {
    var k := IndexOf(s, pat);
    if k < 0 then s else s[..k] + rep + s[k + |pat|..]
  }

  /** Replacing a pattern with itself changes nothing, whether or not it occurs. */
  lemma ReplaceFirstSelf(s: string, pat: string)
    ensures ReplaceFirst(s, pat, pat) == s
  {
    var k := IndexOf(s, pat);
    if k >= 0 {
      assert s == s[..k] + s[k..k + |pat|] + s[k + |pat|..];
    }
  }

  /** A string that starts with `pat` has exactly that leading copy replaced. */
  lemma ReplaceFirstLeading(s: string, pat: string, rep: string)
    requires |pat| <= |s| && s[..|pat|] == pat
    ensures ReplaceFirst(s, pat, rep) == rep + s[|pat|..]
  {
  }

  /** `path.split('/')[0]`: everything before the first `/`, or all of `path`. */
  function FirstSegment(path: string): (seg: string)
    ensures seg <= path
    ensures '/' !in seg
    ensures |seg| == |path| || path[|seg|] == '/'
  {
    IndexOfChar(path, '/');
    var i := IndexOf(path, "/");
    if i < 0 then path else path[..i]
  }

  /** The three properties of `FirstSegment` single it out: no other prefix has them. */
  lemma FirstSegmentUnique(path: string, seg: string)
    requires seg <= path && '/' !in seg
    requires |seg| == |path| || path[|seg|] == '/'
    ensures seg == FirstSegment(path)
  {
  }
}
