/** The two path rewrites the handler performs on the request URI before
    classifying and forwarding it, and the string operations they are
    built from, with Rust's `str::starts_with` and `str::replace` semantics. */
module Rewrite {

  /** The version prefix tested and removed before classification. */
  const VersionPrefix: string := "/api/v6"

  /** The pattern removed from the forwarded path-and-query: the prefix
      together with the slash after it. */
  const ForwardPattern: string := "/api/v6/"

  predicate StartsWith(s: string, prefix: string)
  {
    |prefix| <= |s| && s[..|prefix|] == prefix
  }

  /** `pat` occurs in `s` starting at index `i`. */
  predicate OccursAt(s: string, pat: string, i: int)
  {
    0 <= i && i + |pat| <= |s| && s[i..i + |pat|] == pat
  }

  ghost predicate Contains(s: string, pat: string)
  {
    exists i :: OccursAt(s, pat, i)
  }

  /** `str::replace(from, to)` for a non-empty `from`: scanning left to
      right, every non-overlapping occurrence of `from` is replaced by `to`;
      after a match the scan resumes just past it. */
  function Replace(s: string, from: string, to: string): string
    requires |from| > 0
    decreases |s|
  {
    if s == [] then []
    else if StartsWith(s, from) then to + Replace(s[|from|..], from, to)
    else [s[0]] + Replace(s[1..], from, to)
  }

  /** An occurrence in a tail is an occurrence in the whole string. */
  lemma ContainsInTail(s: string, pat: string, k: nat)
    requires k <= |s| && Contains(s[k..], pat)
    ensures Contains(s, pat)
  {
    var i :| OccursAt(s[k..], pat, i);
    assert s[k..][i..i + |pat|] == s[k + i..k + i + |pat|];
    assert OccursAt(s, pat, k + i);
  }

  /** An occurrence of a pattern contains an occurrence of each of its prefixes. */
  lemma ContainsPrefixOfPattern(s: string, pat: string, p: string)
    requires Contains(s, pat) && StartsWith(pat, p)
    ensures Contains(s, p)
  {
    var i :| OccursAt(s, pat, i);
    assert s[i..i + |p|] == s[i..i + |pat|][..|p|];
    assert OccursAt(s, p, i);
  }

  /** A string in which `from` does not occur is left unchanged. */
  lemma {:induction false} ReplaceAbsent(s: string, from: string, to: string)
    requires |from| > 0 && !Contains(s, from)
    ensures Replace(s, from, to) == s
  {
    if s != [] {
      if StartsWith(s, from) {
        assert OccursAt(s, from, 0);
      }
      if Contains(s[1..], from) {
        ContainsInTail(s, from, 1);
      }
      ReplaceAbsent(s[1..], from, to);
      assert s == [s[0]] + s[1..];
    }
  }

  /** Replacing by something shorter never lengthens the string, and
      shortens it exactly when the pattern occurs: the scan cannot step
      over an occurrence without matching. */
  lemma {:induction false} ReplaceShrinks(s: string, from: string, to: string)
    requires |to| < |from|
    ensures |Replace(s, from, to)| <= |s|
    ensures |Replace(s, from, to)| < |s| <==> Contains(s, from)
  {
    if s == [] {
      assert forall i :: !OccursAt(s, from, i);
    } else if StartsWith(s, from) {
      ReplaceShrinks(s[|from|..], from, to);
      assert OccursAt(s, from, 0);
    } else {
      ReplaceShrinks(s[1..], from, to);
      if Contains(s[1..], from) {
        ContainsInTail(s, from, 1);
      }
      if Contains(s, from) {
        var i :| OccursAt(s, from, i);
        assert i != 0;
        assert s[1..][i - 1..i - 1 + |from|] == s[i..i + |from|];
        assert OccursAt(s[1..], from, i - 1);
      }
    }
  }

  /** Removing a pattern changes a string exactly when the pattern occurs in it. */
  lemma RemoveChangesIffContains(s: string, pat: string)
    requires |pat| > 0
    ensures |Replace(s, pat, "")| <= |s|
    ensures Replace(s, pat, "") == s <==> !Contains(s, pat)
  {
    ReplaceShrinks(s, pat, "");
    if !Contains(s, pat) {
      ReplaceAbsent(s, pat, "");
    }
  }

  /** A string that begins with the pattern loses that occurrence first. */
  lemma ReplaceAfterMatch(s: string, from: string, to: string)
    requires |from| > 0
    ensures Replace(from + s, from, to) == to + Replace(s, from, to)
  {
    assert (from + s)[..|from|] == from;
    assert (from + s)[|from|..] == s;
  }

  /** A string that differs from the pattern at some position does not start with it. */
  lemma DiffersAt(s: string, pat: string, k: nat)
    requires k < |pat| && (|s| < |pat| || (k < |s| && s[k] != pat[k]))
    ensures !StartsWith(s, pat)
  {
    if |pat| <= |s| {
      assert s[..|pat|][k] != pat[k];
    }
  }

  /** A stretch in which no occurrence of the pattern starts is copied as it is. */
  lemma {:induction false} ReplaceKeepsUnmatched(a: string, b: string, from: string, to: string)
    requires |from| > 0
    requires forall i :: 0 <= i < |a| ==> !StartsWith((a + b)[i..], from)
    ensures Replace(a + b, from, to) == a + Replace(b, from, to)
  {
    if a != [] {
      assert !StartsWith((a + b)[0..], from);
      assert (a + b)[0..] == a + b;
      assert (a + b)[1..] == a[1..] + b;
      forall i | 0 <= i < |a[1..]|
        ensures !StartsWith((a[1..] + b)[i..], from)
      {
        assert (a[1..] + b)[i..] == (a + b)[i + 1..];
      }
      ReplaceKeepsUnmatched(a[1..], b, from, to);
      assert a == [a[0]] + a[1..];
    }
  }

  /** The path used for classification (lines 159-163): when the URI path
      starts with the version prefix, every occurrence of the prefix is
      removed from it; otherwise the path is used as it is. */
  function ClassificationPath(path: string): (r: string)
    ensures !StartsWith(path, VersionPrefix) ==> r == path
    ensures StartsWith(path, VersionPrefix) ==> |r| <= |path| - |VersionPrefix|
  {
    if StartsWith(path, VersionPrefix) then
      assert path == VersionPrefix + path[|VersionPrefix|..];
      ReplaceAfterMatch(path[|VersionPrefix|..], VersionPrefix, "");
      ReplaceShrinks(path[|VersionPrefix|..], VersionPrefix, "");
      Replace(path, VersionPrefix, "")
    else
      path
  }

  /** The path-and-query handed to the outbound client (line 177): every
      occurrence of the prefix-and-slash is removed, whatever the path
      starts with. */
  function ForwardedPath(pathAndQuery: string): (r: string)
    ensures |r| <= |pathAndQuery|
    ensures r == pathAndQuery <==> !Contains(pathAndQuery, ForwardPattern)
  {
    RemoveChangesIffContains(pathAndQuery, ForwardPattern);
    Replace(pathAndQuery, ForwardPattern, "")
  }

  /** Prefixing a path with the version prefix changes its classification
      path to the path with every occurrence of the prefix removed. */
  lemma ClassificationOfPrefixed(p: string)
    ensures ClassificationPath(VersionPrefix + p) == Replace(p, VersionPrefix, "")
  {
    assert StartsWith(VersionPrefix + p, VersionPrefix);
    ReplaceAfterMatch(p, VersionPrefix, "");
  }

  /** A path that never mentions the prefix classifies the same with and
      without the prefix in front of it, namely as itself. */
  lemma PrefixedAndBareClassifyAlike(p: string)
    requires !Contains(p, VersionPrefix)
    ensures ClassificationPath(VersionPrefix + p) == ClassificationPath(p) == p
  {
    ClassificationOfPrefixed(p);
    ReplaceAbsent(p, VersionPrefix, "");
    if StartsWith(p, VersionPrefix) {
      assert OccursAt(p, VersionPrefix, 0);
    }
  }

  /** For `"/api/v6/" + s`, classification keeps the slash after the prefix
      while the forwarded path drops it. */
  lemma ForwardedLosesLeadingSlash(s: string)
    requires !Contains("/" + s, VersionPrefix)
    ensures ClassificationPath(ForwardPattern + s) == "/" + s
    ensures ForwardedPath(ForwardPattern + s) == s
  {
    assert ForwardPattern + s == VersionPrefix + ("/" + s);
    PrefixedAndBareClassifyAlike("/" + s);
    ReplaceAfterMatch(s, ForwardPattern, "");
    if Contains(s, ForwardPattern) {
      ContainsPrefixOfPattern(s, ForwardPattern, VersionPrefix);
      assert ("/" + s)[1..] == s;
      ContainsInTail("/" + s, VersionPrefix, 1);
    }
    ReplaceAbsent(s, ForwardPattern, "");
  }

  /** Classification is not idempotent: removing occurrences can join the
      pieces around them into a new occurrence of the prefix. */
  lemma ClassificationNotIdempotent()
    ensures var path := VersionPrefix + "/api" + VersionPrefix + "/v6";
      ClassificationPath(path) == VersionPrefix && ClassificationPath(ClassificationPath(path)) == ""
  {
    var rest := "/api" + (VersionPrefix + "/v6");
    assert ClassificationPath(VersionPrefix + rest) == VersionPrefix by {
      assert Replace(rest, VersionPrefix, "") == "/api" + Replace(VersionPrefix + "/v6", VersionPrefix, "") by {
        forall i | 0 <= i < 4 ensures !StartsWith(rest[i..], VersionPrefix) {
          DiffersAt(rest[i..], VersionPrefix, if i == 0 then 5 else 0);
        }
        ReplaceKeepsUnmatched("/api", VersionPrefix + "/v6", VersionPrefix, "");
      }
      assert Replace(VersionPrefix + "/v6", VersionPrefix, "") == "/v6" by {
        ReplaceAfterMatch("/v6", VersionPrefix, "");
        forall i | 0 <= i < 3 ensures !StartsWith(("/v6" + "")[i..], VersionPrefix) {
          DiffersAt(("/v6" + "")[i..], VersionPrefix, 0);
        }
        ReplaceKeepsUnmatched("/v6", "", VersionPrefix, "");
      }
      ClassificationOfPrefixed(rest);
      assert "/api" + "/v6" == VersionPrefix;
    }
    assert ClassificationPath(VersionPrefix) == "" by {
      ClassificationOfPrefixed("");
      assert VersionPrefix + "" == VersionPrefix;
    }
    assert VersionPrefix + "/api" + VersionPrefix + "/v6" == VersionPrefix + rest;
  }

  /** A match of a pattern free of `c` at the front of `a + [c] + b` lies
      wholly inside `a`, and a match at the front of `a` is one of the
      whole. */
  lemma StartsWithBeforeSeparator(a: string, c: char, b: string, from: string)
    requires c !in from
    ensures StartsWith(a + [c] + b, from) <==> StartsWith(a, from)
  {
    var s := a + [c] + b;
    if StartsWith(s, from) {
      assert s[|a|] == c;
      assert forall k :: 0 <= k < |from| ==> s[k] == from[k] && from[k] != c;
      assert a[..|from|] == s[..|from|];
    }
    if StartsWith(a, from) {
      assert a[..|from|] == s[..|from|];
    }
  }

  /** Removal splits at any character that the pattern does not contain:
      no occurrence can straddle it. */
  lemma {:induction false} ReplaceSplitsAt(a: string, c: char, b: string, from: string, to: string)
    requires |from| > 0 && c !in from
    ensures Replace(a + [c] + b, from, to) == Replace(a, from, to) + [c] + Replace(b, from, to)
  {
    var s := a + [c] + b;
    StartsWithBeforeSeparator(a, c, b, from);
    if a == [] {
      assert s == [c] + b;
      DiffersAt(s, from, 0);
      assert s[1..] == b;
    } else if StartsWith(a, from) {
      var rest := a[|from|..];
      ReplaceSplitsAt(rest, c, b, from, to);
      assert s[|from|..] == rest + [c] + b;
      calc {
        Replace(s, from, to);
        to + Replace(rest + [c] + b, from, to);
        to + (Replace(rest, from, to) + [c] + Replace(b, from, to));
        (to + Replace(rest, from, to)) + [c] + Replace(b, from, to);
        Replace(a, from, to) + [c] + Replace(b, from, to);
      }
    } else {
      var rest := a[1..];
      ReplaceSplitsAt(rest, c, b, from, to);
      assert s[1..] == rest + [c] + b;
      assert s[0] == a[0];
      calc {
        Replace(s, from, to);
        [a[0]] + Replace(rest + [c] + b, from, to);
        [a[0]] + (Replace(rest, from, to) + [c] + Replace(b, from, to));
        ([a[0]] + Replace(rest, from, to)) + [c] + Replace(b, from, to);
        Replace(a, from, to) + [c] + Replace(b, from, to);
      }
    }
  }

  /** A path whose first segment is followed by `/api/v6/` does not start
      with the version prefix, whatever that segment is. */
  lemma SegmentBeforeMatchNotPrefixed(a: string, rest: string)
    requires forall i :: 0 <= i < |a| ==> a[i] != '/'
    requires StartsWith(rest, ForwardPattern)
    ensures !StartsWith("/" + a + rest, VersionPrefix)
    ensures !StartsWith("/" + a + rest, ForwardPattern)
  {
    var w := "/" + a + rest;
    assert rest[..|ForwardPattern|] == ForwardPattern;
    if |a| >= 4 {
      assert w[4] == a[3];
      DiffersAt(w, VersionPrefix, 4);
    } else if |a| == 3 {
      assert w[5] == rest[1] == ForwardPattern[1];
      DiffersAt(w, VersionPrefix, 5);
    } else {
      assert w[1 + |a|] == rest[0] == ForwardPattern[0];
      DiffersAt(w, VersionPrefix, 1 + |a|);
    }
    assert ForwardPattern[..|VersionPrefix|] == VersionPrefix;
  }

  /** A head in which no match starts is kept as it is, and the match
      right after it is replaced. */
  lemma ReplaceAfterHead(head: string, s: string, from: string, to: string)
    requires |from| > 0
    requires forall i :: 0 <= i < |head| ==> !StartsWith((head + (from + s))[i..], from)
    ensures Replace(head + (from + s), from, to) == head + (to + Replace(s, from, to))
  {
    ReplaceKeepsUnmatched(head, from + s, from, to);
    ReplaceAfterMatch(s, from, to);
  }

  /** When the text does not start with a match and the rest of the head
      never holds the pattern's first character, no match starts in the
      head. */
  lemma NoMatchInHead(head: string, rest: string, from: string)
    requires |from| > 0
    requires !StartsWith(head + rest, from)
    requires forall i :: 1 <= i < |head| ==> head[i] != from[0]
    ensures forall i :: 0 <= i < |head| ==> !StartsWith((head + rest)[i..], from)
  {
    forall i | 0 <= i < |head| ensures !StartsWith((head + rest)[i..], from) {
      if i > 0 {
        assert (head + rest)[i..][0] == head[i];
        DiffersAt((head + rest)[i..], from, 0);
      }
    }
  }

  /** A path that does not start with the prefix is classified as it is,
      yet when forwarded it still loses every prefix-and-slash inside it:
      `/channels/api/v6/x` is forwarded as `/channelsx`. */
  lemma ForwardedRewritesMidPath(a: string, s: string)
    requires forall i :: 0 <= i < |a| ==> a[i] != '/'
    ensures ClassificationPath("/" + a + ForwardPattern + s) == "/" + a + ForwardPattern + s
    ensures ForwardedPath("/" + a + ForwardPattern + s) == "/" + a + ForwardedPath(s)
  {
    var head := "/" + a;
    var whole := head + (ForwardPattern + s);
    assert "/" + a + ForwardPattern + s == whole;
    SegmentBeforeMatchNotPrefixed(a, ForwardPattern + s);
    assert ForwardedPath(whole) == "/" + a + ForwardedPath(s) by {
      assert forall i :: 1 <= i < |head| ==> head[i] == a[i - 1];
      NoMatchInHead(head, ForwardPattern + s, ForwardPattern);
      ReplaceAfterHead(head, s, ForwardPattern, "");
      assert head + ("" + ForwardedPath(s)) == "/" + a + ForwardedPath(s);
    }
  }

  /** The forwarded path-and-query rewrites the query exactly as it
      rewrites the path. */
  lemma ForwardedRewritesQuery(path: string, query: string)
    ensures ForwardedPath(path + "?" + query) == ForwardedPath(path) + "?" + ForwardedPath(query)
  {
    ReplaceSplitsAt(path, '?', query, ForwardPattern, "");
  }
}
