/** Path helpers of the routing layer (src/routing/util.rs). */
module RoutingUtil {

  /** Whether `s` ends with the character `c`. */
  predicate EndsWith(s: string, c: char) {
    |s| > 0 && s[|s| - 1] == c
  }

  /** `stripTrailingSlash`: drop one '/' at the end of the string, if there is
      one. The source indexes the last character unconditionally and panics on
      the empty string, hence the precondition. */
  function StripTrailingSlash(s: string): (r: string)
    requires |s| > 0
    ensures r <= s
    ensures |r| < |s| <==> EndsWith(s, '/')
    ensures EndsWith(s, '/') ==> r + "/" == s
    ensures !EndsWith(s, '/') ==> r == s
  {
    if s[|s| - 1] == '/' then s[..|s| - 1] else s
  }

  /** Only one slash is removed: stripping again changes the string exactly
      when it ended in two slashes. */
  lemma StripOnce(s: string)
    requires |s| > 0
    ensures var r := StripTrailingSlash(s);
      |r| > 0 ==> (StripTrailingSlash(r) == r <==> !(|s| >= 2 && s[|s| - 2..] == "//"))
  {
    var r := StripTrailingSlash(s);
    if |r| > 0 && EndsWith(s, '/') {
      assert r[|r| - 1] == s[|s| - 2];
      if s[|s| - 2] == '/' {
        assert s[|s| - 2..] == "//";
      } else {
        assert s[|s| - 2..][0] == s[|s| - 2];
      }
    } else if |r| > 0 && |s| >= 2 {
      assert s[|s| - 2..][1] == s[|s| - 1];
    }
  }
}
