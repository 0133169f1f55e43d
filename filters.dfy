/** The pure tests the page view's listeners apply to event data. */
module Filters {

  /** `Math.abs` on an integer error code. */
  function Abs(x: int): (r: nat)
    ensures r == x || r == -x
  {
    if x < 0 then -x else x
  }

  /** `pat` occurs in `s` starting at position `i`. */
  ghost predicate OccursAt(s: string, pat: string, i: nat)
  {
    i + |pat| <= |s| && s[i..i + |pat|] == pat
  }

  /** Unanchored search for a literal pattern: what `/CERT/.test(s)` does for
      a regular expression without metacharacters. */
  function Contains(s: string, pat: string): (b: bool)
    ensures b <==> exists i: nat :: OccursAt(s, pat, i)
    decreases |s|
  {
    if |pat| > |s| then false
    else if s[..|pat|] == pat then
      assert OccursAt(s, pat, 0);
      true
    else
      assert !OccursAt(s, pat, 0);
      assert forall j: nat :: OccursAt(s[1..], pat, j) <==> OccursAt(s, pat, j + 1) by {
        forall j: nat ensures OccursAt(s[1..], pat, j) <==> OccursAt(s, pat, j + 1) {
          if j + 1 + |pat| <= |s| {
            assert s[1..][j..j + |pat|] == s[j + 1..j + 1 + |pat|];
          }
        }
      }
      assert (exists i: nat :: OccursAt(s, pat, i)) ==> exists j: nat :: OccursAt(s[1..], pat, j) by {
        if i: nat :| OccursAt(s, pat, i) {
          assert i != 0;
          assert OccursAt(s[1..], pat, i - 1);
        }
      }
      Contains(s[1..], pat)
  }

  /** `url.startsWith(protocol)`. */
  function IsTofino(url: string, protocol: string): (b: bool)
    ensures b <==> |protocol| <= |url| && url[..|protocol|] == protocol
  {
    protocol <= url
  }

  /** A load failure the page view ignores: one reported for a sub-frame, or
      an abort (error code 3 or -3, ERR_ABORTED). */
  predicate IsIgnoredFailure(isMainFrame: bool, errorCode: int): (ignored: bool)
    ensures ignored <==> !isMainFrame || errorCode == 3 || errorCode == -3
  {
    !isMainFrame || Abs(errorCode) == 3
  }

  /** The rough certificate-error test: code 501 or -501, or "CERT" anywhere
      in the description. */
  predicate LooksLikeCertError(errorCode: int, errorDescription: string): (cert: bool)
    ensures cert <==> errorCode == 501 || errorCode == -501 ||
                      exists i: nat :: OccursAt(errorDescription, "CERT", i)
  {
    Abs(errorCode) == 501 || Contains(errorDescription, "CERT")
  }
}
