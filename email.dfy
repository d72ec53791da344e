/**
 * The email shape check `/\S+@\S+\.\S+/.test(email)` used by the contact and
 * qualification forms. The pattern is not anchored: it succeeds when SOME
 * substring has the shape.
 */
module Email {
  import opened Text

  /** s[i..j] is one or more characters, none of them whitespace (`\S+`). */
  predicate NonSpaceRun(s: string, i: int, j: int)
    requires 0 <= i <= j <= |s|
  {
    i < j && forall k :: i <= k < j ==> !IsWhitespace(s[k])
  }

  /** s[i..k] matches `\S+@\S+\.\S+` with the '@' at p and the '.' at q. */
  ghost predicate MatchAt(s: string, i: int, p: int, q: int, k: int) {
    && 0 <= i < p < q < k <= |s|
    && NonSpaceRun(s, i, p) && s[p] == '@'
    && NonSpaceRun(s, p + 1, q) && s[q] == '.'
    && NonSpaceRun(s, q + 1, k)
  }

  /** The regular expression's meaning: some substring matches. */
  ghost predicate PatternMatches(s: string) {
    exists i, p, q, k :: MatchAt(s, i, p, q, k)
  }

  /** The shortest possible match around an '@' at p and a '.' at q: one
      non-space character before the '@', a non-space run up to the '.',
      one non-space character after it. */
  predicate ShortMatchAt(s: string, p: int, q: int)
    requires 0 < p && p + 1 < q && q + 1 < |s|
  {
    !IsWhitespace(s[p - 1]) && s[p] == '@' && NonSpaceRun(s, p + 1, q)
    && s[q] == '.' && !IsWhitespace(s[q + 1])
  }

  /** The check the forms run. */
  predicate LooksLikeEmail(s: string) {
    exists p, q | 0 < p < |s| && p + 1 < q < |s| - 1 :: ShortMatchAt(s, p, q)
  }

  /** The check accepts exactly the strings the regular expression matches. */
  lemma LooksLikeEmailIffPattern(s: string)
    ensures LooksLikeEmail(s) <==> PatternMatches(s)
  {
    if LooksLikeEmail(s) {
      var p, q :| 0 < p < |s| && p + 1 < q < |s| - 1 && ShortMatchAt(s, p, q);
      assert MatchAt(s, p - 1, p, q, q + 2);
    }
    if PatternMatches(s) {
      var i, p, q, k :| MatchAt(s, i, p, q, k);
      assert ShortMatchAt(s, p, q);
    }
  }

  /** Unanchored: text around a matching string does not spoil the match. */
  lemma SurroundedStillMatches(before: string, s: string, after: string)
    requires LooksLikeEmail(s)
    ensures LooksLikeEmail(before + s + after)
  {
    var t := before + s + after;
    var p, q :| 0 < p < |s| && p + 1 < q < |s| - 1 && ShortMatchAt(s, p, q);
    var n := |before|;
    assert forall j :: 0 <= j < |s| ==> t[n + j] == s[j];
    assert ShortMatchAt(t, n + p, n + q);
  }

  /** Example values, beside the general `LooksLikeEmailIffPattern`:
      "a@b.co" passes; "abc", "a@b" and "" do not. */
  lemma Examples()
    ensures LooksLikeEmail("a@b.co")
    ensures !LooksLikeEmail("abc") && !LooksLikeEmail("a@b") && !LooksLikeEmail("")
  {
    assert ShortMatchAt("a@b.co", 1, 3);
  }
}
