/** The backtracking glob matcher of the trust allowlist: `*` stands for any run, `?` for one character. */
module Glob {
  import opened Prelude

  /** The run of characters one pattern character may stand for. */
  predicate StandsFor(c: char, part: string) {
    if c == '*' then true else if c == '?' then |part| == 1 else part == [c]
  }

  /** The language of a pattern: the paths that fall into one fitting part per pattern character. */
  ghost predicate Matches(pattern: string, path: string) {
    exists parts: seq<string> :: Fits(pattern, path, parts)
  }

  ghost predicate Fits(pattern: string, path: string, parts: seq<string>) {
    && |parts| == |pattern|
    && Flatten(parts) == path
    && forall i :: 0 <= i < |pattern| ==> StandsFor(pattern[i], parts[i])
  }

  lemma FitsCons(c: char, pattern: string, part: string, path: string, parts: seq<string>)
    requires StandsFor(c, part) && Fits(pattern, path, parts)
    ensures Fits([c] + pattern, part + path, [part] + parts)
  {
    assert ([part] + parts)[1..] == parts;
  }

  lemma FitsTail(pattern: string, path: string, parts: seq<string>)
    requires Fits(pattern, path, parts) && pattern != ""
    ensures StandsFor(pattern[0], parts[0]) && parts[0] <= path
    ensures Fits(pattern[1..], path[|parts[0]|..], parts[1..])
  {
    assert path == parts[0] + Flatten(parts[1..]);
  }

  lemma EmptyPattern(path: string)
    ensures Matches("", path) <==> path == ""
  {
    if path == "" {
      assert Fits("", "", []);
    }
  }

  /** Reading one pattern character off the front. */
  lemma FirstCharacter(pattern: string, path: string)
    requires pattern != ""
    ensures Matches(pattern, path) <==>
            exists n :: 0 <= n <= |path| && StandsFor(pattern[0], path[..n]) && Matches(pattern[1..], path[n..])
  {
    hide Fits, StandsFor;
    if Matches(pattern, path) {
      var parts :| Fits(pattern, path, parts);
      FitsTail(pattern, path, parts);
      FitsCount(pattern, path, parts);
      var n := |parts[0]|;
      assert path[..n] == parts[0];
    }
    if n :| 0 <= n <= |path| && StandsFor(pattern[0], path[..n]) && Matches(pattern[1..], path[n..]) {
      var parts :| Fits(pattern[1..], path[n..], parts);
      FitsCons(pattern[0], pattern[1..], path[..n], path[n..], parts);
      assert [pattern[0]] + pattern[1..] == pattern && path[..n] + path[n..] == path;
    }
  }

  lemma FitsCount(pattern: string, path: string, parts: seq<string>)
    requires Fits(pattern, path, parts)
    ensures |parts| == |pattern|
  {
  }

  lemma Star(pattern: string, path: string)
    requires pattern != "" && pattern[0] == '*'
    ensures Matches(pattern, path) <==> exists n :: 0 <= n <= |path| && Matches(pattern[1..], path[n..])
  {
    hide Matches;
    FirstCharacter(pattern, path);
    assert forall n :: 0 <= n <= |path| ==> StandsFor(pattern[0], path[..n]);
  }

  lemma TrailingStar(path: string)
    ensures Matches("*", path)
  {
    Star("*", path);
    EmptyPattern(path[|path|..]);
    assert "*"[1..] == "";
  }

  /** `?` and plain characters take exactly one character. */
  lemma OneCharacter(pattern: string, path: string)
    requires pattern != "" && pattern[0] != '*'
    ensures Matches(pattern, path) <==>
            path != "" && (pattern[0] == '?' || pattern[0] == path[0]) && Matches(pattern[1..], path[1..])
  {
    hide Matches;
    FirstCharacter(pattern, path);
    assert forall n :: 0 <= n <= |path| && StandsFor(pattern[0], path[..n]) ==> n == 1;
    if path != "" {
      assert path[..1] == [path[0]];
    }
  }

  /** True iff the path from `s` is in the language of the pattern from `p`; each recursive call has a larger `p`. */
  method GlobMatchRecursive(pattern: string, path: string, p: nat, s: nat) returns (matched: bool)
    requires p <= |pattern| && s <= |path|
    ensures matched <==> Matches(pattern[p..], path[s..])
    decreases |pattern| - p
  {
    hide Matches;
    var pp, ss := p, s;
    while pp < |pattern|
      invariant p <= pp <= |pattern| && s <= ss <= |path|
      invariant Matches(pattern[p..], path[s..]) <==> Matches(pattern[pp..], path[ss..])
      decreases |pattern| - pp
    {
      var ch := pattern[pp];
      assert pattern[pp..][1..] == pattern[pp + 1..];
      if ch == '*' {
        pp := pp + 1;
        if pp >= |pattern| {
          assert pattern[pp - 1..] == "*";
          TrailingStar(path[ss..]);
          return true;
        }
        Star(pattern[pp - 1..], path[ss..]);
        for skip := 0 to |path| - ss + 1
          invariant forall n :: 0 <= n < skip ==> !Matches(pattern[pp..], path[ss..][n..])
        {
          var found := GlobMatchRecursive(pattern, path, pp, ss + skip);
          assert path[ss..][skip..] == path[ss + skip..];
          if found {
            return true;
          }
        }
        return false;
      }
      OneCharacter(pattern[pp..], path[ss..]);
      if ss >= |path| || (ch != '?' && path[ss] != ch) {
        return false;
      }
      assert path[ss..][1..] == path[ss + 1..];
      pp, ss := pp + 1, ss + 1;
    }
    assert pattern[pp..] == "";
    EmptyPattern(path[ss..]);
    return ss >= |path|;
  }

  method GlobMatches(pattern: string, path: string) returns (matched: bool)
    ensures matched <==> Matches(pattern, path)
  {
    assert pattern[0..] == pattern && path[0..] == path;
    matched := GlobMatchRecursive(pattern, path, 0, 0);
  }
}
