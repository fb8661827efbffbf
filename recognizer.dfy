/** Path patterns as the route recognizer behind `Router` reads them: a
    pattern and a path both lose one leading '/' and are split on '/'; a
    segment `:name` matches any non-empty segment and captures it under
    `name`, every other segment matches only itself, and the segment counts
    must agree. */
module Recognizer {
  import opened Wrappers

  /** Split on every '/'; the result always has at least one segment. */
  function Split(s: string): (r: seq<string>)
    ensures |r| >= 1
    ensures forall i :: 0 <= i < |r| ==> '/' !in r[i]
    decreases |s|
  {
    if s == [] then [[]]
    else if s[0] == '/' then [[]] + Split(s[1..])
    else
      var t := Split(s[1..]);
      [[s[0]] + t[0]] + t[1..]
  }

  /** Put the segments back together with '/' between them. */
  function Join(segs: seq<string>): string
    requires |segs| >= 1
    decreases |segs|
  {
    if |segs| == 1 then segs[0] else segs[0] + "/" + Join(segs[1..])
  }

  /** Splitting loses nothing: joining the segments gives the string back. */
  lemma {:induction false} JoinSplit(s: string)
    ensures Join(Split(s)) == s
    decreases |s|
  {
    if s == [] {
    } else if s[0] == '/' {
      JoinSplit(s[1..]);
      assert Split(s)[1..] == Split(s[1..]);
      assert s == "" + "/" + s[1..];
    } else {
      JoinSplit(s[1..]);
      var t := Split(s[1..]);
      if |t| == 1 {
        assert s == [s[0]] + t[0];
      } else {
        assert Split(s)[1..] == t[1..];
        assert Join(t) == t[0] + "/" + Join(t[1..]);
        assert s == [s[0]] + s[1..];
      }
    }
  }

  /** Segments free of '/' are recovered by splitting their join. */
  lemma {:induction false} SplitJoin(segs: seq<string>)
    requires |segs| >= 1
    requires forall i :: 0 <= i < |segs| ==> '/' !in segs[i]
    ensures Split(Join(segs)) == segs
    decreases |segs|, |segs[0]|
  {
    if |segs| == 1 {
      SplitNoSlash(segs[0]);
    } else if segs[0] == [] {
      SplitJoin(segs[1..]);
      assert Join(segs) == "/" + Join(segs[1..]);
      assert Join(segs)[1..] == Join(segs[1..]);
      assert segs == [[]] + segs[1..];
    } else {
      var tail := [segs[0][1..]] + segs[1..];
      assert tail[1..] == segs[1..];
      forall i | 0 <= i < |tail| ensures '/' !in tail[i] {
        if i == 0 {
          assert forall c :: c in segs[0][1..] ==> c in segs[0];
        } else {
          assert tail[i] == segs[i];
        }
      }
      SplitJoin(tail);
      assert Join(tail) == segs[0][1..] + "/" + Join(segs[1..]);
      assert Join(segs) == [segs[0][0]] + Join(tail);
      assert Join(segs)[0] == segs[0][0] && Join(segs)[1..] == Join(tail);
      assert segs[0][0] != '/' by { assert segs[0][0] in segs[0]; }
      assert [segs[0][0]] + segs[0][1..] == segs[0];
      assert segs == [segs[0]] + segs[1..];
    }
  }

  /** A string without '/' is a single segment. */
  lemma {:induction false} SplitNoSlash(s: string)
    requires '/' !in s
    ensures Split(s) == [s]
    decreases |s|
  {
    if s != [] {
      assert s[0] in s;
      assert forall c :: c in s[1..] ==> c in s;
      SplitNoSlash(s[1..]);
      assert [s[0]] + s[1..] == s;
    }
  }

  /** Drop one leading '/', then split. */
  function Segments(p: string): (r: seq<string>)
    ensures |r| >= 1
  {
    if |p| > 0 && p[0] == '/' then Split(p[1..]) else Split(p)
  }

  /** A `:name` segment. */
  predicate IsDynamic(seg: string) {
    |seg| > 0 && seg[0] == ':'
  }

  /** One pattern segment against one path segment. */
  predicate SegmentMatches(pat: string, seg: string) {
    if IsDynamic(pat) then |seg| > 0 else pat == seg
  }

  /** A pattern's segments against a path's segments. */
  predicate SegmentsMatch(pats: seq<string>, segs: seq<string>) {
    |pats| == |segs| && forall i :: 0 <= i < |pats| ==> SegmentMatches(pats[i], segs[i])
  }

  /** Whether `pattern` recognizes `path`. */
  predicate Matches(pattern: string, path: string) {
    SegmentsMatch(Segments(pattern), Segments(path))
  }

  /** The parameters captured by matching segments: each `:name` bound to its
      segment, a later segment winning over an earlier one of the same name. */
  function Captures(pats: seq<string>, segs: seq<string>): (r: map<string, string>)
    requires |pats| == |segs|
    ensures forall i :: 0 <= i < |pats| && IsDynamic(pats[i]) ==> pats[i][1..] in r
    ensures forall k :: k in r ==> exists i :: 0 <= i < |pats| && IsDynamic(pats[i]) && pats[i][1..] == k && segs[i] == r[k]
    decreases |pats|
  {
    if pats == [] then map[]
    else
      var n := |pats| - 1;
      var c := Captures(pats[..n], segs[..n]);
      if IsDynamic(pats[n]) then c[pats[n][1..] := segs[n]] else c
  }

  /** A successful recognition: the handler found and the captured parameters. */
  datatype Match<H> = Match(handler: H, params: map<string, string>)

  /** What recognizing `path` against `pattern` captures. */
  function Params(pattern: string, path: string): map<string, string>
    requires Matches(pattern, path)
  {
    Captures(Segments(pattern), Segments(path))
  }

  /** `Router::recognize` over a table of patterns: some pattern that matches
      the path, with its handler and parameters, or nothing when none does. */
  method Recognize<H>(table: map<string, H>, path: string) returns (m: Option<Match<H>>)
    ensures m.Some? ==> exists pat :: pat in table && Matches(pat, path) && m.value == Match(table[pat], Params(pat, path))
    ensures m.None? <==> forall pat :: pat in table ==> !Matches(pat, path)
  {
    var todo := table.Keys;
    while todo != {}
      invariant todo <= table.Keys
      invariant forall pat :: pat in table.Keys - todo ==> !Matches(pat, path)
      decreases todo
    {
      var pat :| pat in todo;
      if Matches(pat, path) {
        return Some(Match(table[pat], Params(pat, path)));
      }
      todo := todo - {pat};
    }
    return None;
  }

  /** Every plain pattern (no `:name` segment) recognizes itself, and captures nothing. */
  lemma {:induction false} PlainMatchesItself(pats: seq<string>)
    requires forall i :: 0 <= i < |pats| ==> !IsDynamic(pats[i])
    ensures SegmentsMatch(pats, pats)
    ensures Captures(pats, pats) == map[]
    decreases |pats|
  {
    if pats != [] {
      PlainMatchesItself(pats[..|pats| - 1]);
    }
  }

  /** Splitting introduces no character that was not in the string. */
  lemma {:induction false} SplitAvoids(s: string, c: char)
    requires c !in s
    ensures forall i :: 0 <= i < |Split(s)| ==> c !in Split(s)[i]
    decreases |s|
  {
    if s != [] {
      assert forall d :: d in s[1..] ==> d in s;
      SplitAvoids(s[1..], c);
      if s[0] != '/' {
        var t := Split(s[1..]);
        assert s[0] in s;
        assert c !in [s[0]] + t[0];
        assert Split(s)[1..] == t[1..];
      }
    }
  }

  /** A path without any `:` is a pattern without parameters, and it
      recognizes itself. */
  lemma PlainPatternMatchesItself(p: string)
    requires ':' !in p
    ensures Matches(p, p)
    ensures Params(p, p) == map[]
  {
    if |p| > 0 && p[0] == '/' {
      assert forall d :: d in p[1..] ==> d in p;
      SplitAvoids(p[1..], ':');
    } else {
      SplitAvoids(p, ':');
    }
    var segs := Segments(p);
    forall i | 0 <= i < |segs| ensures !IsDynamic(segs[i]) {
      if |segs[i]| > 0 {
        assert segs[i][0] in segs[i];
      }
    }
    PlainMatchesItself(segs);
  }

  /** Segments of a rooted path built from '/'-free segments are those segments. */
  lemma SegmentsOfRooted(segs: seq<string>)
    requires |segs| >= 1
    requires forall i :: 0 <= i < |segs| ==> '/' !in segs[i]
    ensures Segments("/" + Join(segs)) == segs
  {
    assert ("/" + Join(segs))[1..] == Join(segs);
    SplitJoin(segs);
  }

  lemma HelloSegments()
    ensures Segments("/hello/:name") == ["hello", ":name"]
    ensures Segments("/hello/seun") == ["hello", "seun"]
  {
    SegmentsOfRooted(["hello", ":name"]);
    assert "/hello/:name" == "/" + Join(["hello", ":name"]);
    SegmentsOfRooted(["hello", "seun"]);
    assert "/hello/seun" == "/" + Join(["hello", "seun"]);
  }

  lemma WorldSegments()
    ensures Segments("/world/seun/lanlege") == ["world", "seun", "lanlege"]
    ensures Segments("/hello") == ["hello"]
  {
    SegmentsOfRooted(["world", "seun", "lanlege"]);
    assert "/world/seun/lanlege" == "/" + Join(["world", "seun", "lanlege"]);
    SegmentsOfRooted(["hello"]);
    assert "/hello" == "/" + Join(["hello"]);
  }

  /** A pattern with `:name` recognizes a path with a value in that position and
      captures the value: `/hello/:name` on `/hello/seun`. */
  lemma HelloName()
    ensures Matches("/hello/:name", "/hello/seun")
    ensures Params("/hello/:name", "/hello/seun") == map["name" := "seun"]
  {
    HelloSegments();
    var pats, segs := ["hello", ":name"], ["hello", "seun"];
    assert SegmentMatches(pats[0], segs[0]);
    assert SegmentMatches(pats[1], segs[1]);
    assert pats[..1] == ["hello"] && segs[..1] == ["hello"];
    assert Captures(["hello"], ["hello"]) == map[] by {
      assert ["hello"][..0] == [];
    }
    assert pats[1][1..] == "name";
  }

  /** Paths of another shape are not recognized by `/hello/:name`. */
  lemma HelloNameRejects()
    ensures !Matches("/hello/:name", "/world/seun/lanlege")
    ensures !Matches("/hello/:name", "/hello")
  {
    HelloSegments();
    WorldSegments();
  }
}
