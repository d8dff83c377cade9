/**
 * The unanchored regular expression `/\d+\.\d+\.\d+/` that `getProviderUrl`
 * uses to recognise a release version inside a token: a reference definition
 * (some span of the token is digits, a dot, digits, a dot, digits) and a
 * linear scanner proved to agree with it.
 */
module SemverPattern {

  /** `\d` in a JavaScript regular expression without the `u` flag: an ASCII digit. */
  predicate IsDigit(c: char) {
    '0' <= c <= '9'
  }

  /** Every character of `s` in `[lo, hi)` is a digit. */
  predicate DigitsIn(s: string, lo: int, hi: int)
    requires 0 <= lo <= hi <= |s|
  {
    forall k :: lo <= k < hi ==> IsDigit(s[k])
  }

  /**
   * `s[lo..hi]` is matched by `\d+\.\d+\.\d+`, with the two dots at `p` and `q`:
   * digits `[lo, p)`, `.`, digits `(p, q)`, `.`, digits `(q, hi)`, each run non-empty.
   */
  ghost predicate SemverSpan(s: string, lo: int, p: int, q: int, hi: int) {
    && 0 <= lo < p && p + 1 < q && q + 1 < hi <= |s|
    && DigitsIn(s, lo, p) && s[p] == '.'
    && DigitsIn(s, p + 1, q) && s[q] == '.'
    && DigitsIn(s, q + 1, hi)
  }

  /** `/\d+\.\d+\.\d+/.test(s)`: the pattern matches somewhere in `s`. */
  ghost predicate HasSemver(s: string) {
    exists lo, p, q, hi :: SemverSpan(s, lo, p, q, hi)
  }

  /** The end of the run of digits that starts at `k`: the first non-digit at or after `k`. */
  function DigitRunEnd(s: string, k: nat): (e: nat)
    requires k <= |s|
    decreases |s| - k
    ensures k <= e <= |s|
    ensures DigitsIn(s, k, e)
    ensures e == |s| || !IsDigit(s[e])
  {
    if k < |s| && IsDigit(s[k]) then DigitRunEnd(s, k + 1) else k
  }

  /** A digit, a dot, the longest digit run after it, a dot and a digit, starting at `i`. */
  predicate MatchesAt(s: string, i: nat) {
    && i + 2 < |s| && IsDigit(s[i]) && s[i + 1] == '.' && IsDigit(s[i + 2])
    && var j := DigitRunEnd(s, i + 2);
       j + 1 < |s| && s[j] == '.' && IsDigit(s[j + 1])
  }

  /** Whether `MatchesAt` holds at some index `i` or later. */
  function MatchesFrom(s: string, i: nat): (b: bool)
    requires i <= |s|
    decreases |s| - i
    ensures b <==> exists k :: i <= k < |s| && MatchesAt(s, k)
  {
    i < |s| && (MatchesAt(s, i) || MatchesFrom(s, i + 1))
  }

  /** The scanner used by the resolver. */
  function TestSemver(s: string): (b: bool)
    ensures b <==> exists k :: 0 <= k < |s| && MatchesAt(s, k)
  {
    MatchesFrom(s, 0)
  }

  /** A run of digits ending at a non-digit (or the end) ends where `DigitRunEnd` says. */
  lemma {:induction false} DigitRunEndExact(s: string, k: nat, e: nat)
    requires k <= e <= |s| && DigitsIn(s, k, e)
    requires e == |s| || !IsDigit(s[e])
    ensures DigitRunEnd(s, k) == e
    decreases e - k
  {
    if k < e {
      DigitRunEndExact(s, k + 1, e);
    }
  }

  /** The scanner accepts exactly the tokens the regular expression matches. */
  lemma TestSemverIsRegex(s: string)
    ensures TestSemver(s) <==> HasSemver(s)
  {
    if TestSemver(s) {
      var i :| 0 <= i < |s| && MatchesAt(s, i);
      var j := DigitRunEnd(s, i + 2);
      assert SemverSpan(s, i, i + 1, j, j + 2);
    }
    if HasSemver(s) {
      var lo, p, q, hi :| SemverSpan(s, lo, p, q, hi);
      assert IsDigit(s[p - 1]);
      DigitRunEndExact(s, p + 1, q);
      assert MatchesAt(s, p - 1);
    }
  }
}
