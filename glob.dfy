/** The glob side of `S3Filesystem.ls`: `fnmatch.fnmatchcase` restricted to
    the two wildcards the method documents (`?` matches one character and `*`
    any run of characters, both including `/`), the cut at the first wildcard
    that `GLOB_RE` performs, and the "directory" glob that makes
    `ls('s3://b/dir')` list everything under `dir/`. */
module Glob {

  predicate IsWildcard(c: char) {
    c == '*' || c == '?'
  }

  predicate NoWildcard(p: string) {
    forall i :: 0 <= i < |p| ==> !IsWildcard(p[i])
  }

  /** Case-sensitive match of the whole of `name` against `pattern`. */
  function Matches(name: string, pattern: string): bool
    decreases |pattern|, |name|
  {
    if pattern == [] then name == []
    else if pattern[0] == '*' then
      Matches(name, pattern[1..]) || (name != [] && Matches(name[1..], pattern))
    else
      name != [] && (pattern[0] == '?' || pattern[0] == name[0]) && Matches(name[1..], pattern[1..])
  }

  /** The pattern cut off at its first wildcard (all of it when it has none):
      the longest wildcard-free prefix. */
  function CutAtWildcard(pattern: string): (prefix: string)
    ensures prefix <= pattern && NoWildcard(prefix)
    ensures prefix == pattern || IsWildcard(pattern[|prefix|])
  {
    if pattern == [] || IsWildcard(pattern[0]) then []
    else [pattern[0]] + CutAtWildcard(pattern[1..])
  }

  /** The glob `ls` also accepts, so that a path lists what lies under it. */
  function DirGlob(pattern: string): string {
    if pattern != [] && pattern[|pattern| - 1] != '/' then pattern + "/*" else pattern + "*"
  }

  /** What a wildcard-free path lists under it: `path/`, or `path` itself when
      it is empty or already ends in `/`. */
  function DirPrefix(path: string): string {
    if path != [] && path[|path| - 1] != '/' then path + "/" else path
  }

  /** Without wildcards a pattern matches only itself. */
  lemma {:induction false} MatchesLiteral(name: string, pattern: string)
    requires NoWildcard(pattern)
    ensures Matches(name, pattern) <==> name == pattern
    decreases |pattern|
  {
    if pattern != [] && name != [] {
      MatchesLiteral(name[1..], pattern[1..]);
      assert name == pattern <==> name[0] == pattern[0] && name[1..] == pattern[1..];
    }
  }

  /** A lone `*` matches every name, `/` included. */
  lemma {:induction false} StarMatchesAll(name: string)
    ensures Matches(name, "*")
    decreases |name|
  {
    if name != [] {
      StarMatchesAll(name[1..]);
    }
  }

  /** A literal followed by `*` matches exactly the names that extend the literal. */
  lemma {:induction false} MatchesLiteralThenStar(name: string, literal: string)
    requires NoWildcard(literal)
    ensures Matches(name, literal + "*") <==> literal <= name
    decreases |literal|
  {
    if literal == [] {
      assert literal + "*" == "*";
      StarMatchesAll(name);
    } else {
      assert (literal + "*")[1..] == literal[1..] + "*";
      if name != [] {
        MatchesLiteralThenStar(name[1..], literal[1..]);
        assert literal <= name <==> literal[0] == name[0] && literal[1..] <= name[1..];
      }
    }
  }

  /** Without `*`, a pattern matches exactly the names of its length that
      agree with it wherever it does not have `?`: each `?` matches one
      character, `/` included. */
  lemma {:induction false} MatchesWithoutStar(name: string, pattern: string)
    requires '*' !in pattern
    ensures Matches(name, pattern) <==>
      |name| == |pattern| && forall i :: 0 <= i < |pattern| ==> pattern[i] == '?' || pattern[i] == name[i]
    decreases |pattern|
  {
    if pattern != [] && name != [] {
      assert '*' !in pattern[1..] by {
        assert forall i :: 0 <= i < |pattern[1..]| ==> pattern[1..][i] == pattern[i + 1];
      }
      MatchesWithoutStar(name[1..], pattern[1..]);
      if |name| == |pattern| {
        assert forall i :: 0 < i < |pattern| ==> pattern[i] == pattern[1..][i - 1] && name[i] == name[1..][i - 1];
      }
    }
  }

  /** A `*` followed by more pattern matches a name exactly when the rest of
      the pattern matches some suffix of it: the `*` takes any run of
      characters, empty or not, `/` included. */
  lemma {:induction false} StarSplits(name: string, rest: string)
    ensures Matches(name, "*" + rest) <==> exists i :: 0 <= i <= |name| && Matches(name[i..], rest)
    decreases |name|
  {
    var pattern := "*" + rest;
    assert pattern[0] == '*' && pattern[1..] == rest;
    assert name[0..] == name;
    if name != [] {
      StarSplits(name[1..], rest);
      if Matches(name[1..], pattern) {
        var j :| 0 <= j <= |name[1..]| && Matches(name[1..][j..], rest);
        assert name[1..][j..] == name[j + 1..];
      }
      if exists i :: 0 <= i <= |name| && Matches(name[i..], rest) {
        var i :| 0 <= i <= |name| && Matches(name[i..], rest);
        if i > 0 {
          assert name[1..][i - 1..] == name[i..];
        }
      }
    }
  }

  /** A pattern whose head holds no `*` matches a name exactly when the head
      matches the name's first `|head|` characters and the rest matches what
      follows. Split at its first `*`, every pattern is covered by this lemma,
      `MatchesWithoutStar` and `StarSplits`. */
  lemma {:induction false} StarFreeHead(name: string, head: string, rest: string)
    requires '*' !in head
    ensures Matches(name, head + rest) <==>
      |head| <= |name| && Matches(name[..|head|], head) && Matches(name[|head|..], rest)
    decreases |head|
  {
    if head == [] {
      assert head + rest == rest && name[..0] == [] && name[0..] == name;
    } else {
      assert (head + rest)[0] == head[0] && (head + rest)[1..] == head[1..] + rest;
      assert '*' !in head[1..] by {
        assert forall i :: 0 <= i < |head[1..]| ==> head[1..][i] == head[i + 1];
      }
      if name != [] {
        StarFreeHead(name[1..], head[1..], rest);
        if |head| <= |name| {
          assert name[..|head|][0] == name[0];
          assert name[..|head|][1..] == name[1..][..|head| - 1];
          assert name[1..][|head| - 1..] == name[|head|..];
        }
      }
    }
  }

  /** Every name a pattern matches starts with the pattern's cut. */
  lemma {:induction false} MatchExtendsCut(name: string, pattern: string)
    requires Matches(name, pattern)
    ensures CutAtWildcard(pattern) <= name
    decreases |pattern|
  {
    if pattern != [] && !IsWildcard(pattern[0]) {
      MatchExtendsCut(name[1..], pattern[1..]);
    }
  }

  /** Extending a pattern can only lengthen its cut. */
  lemma {:induction false} CutOfExtension(pattern: string, suffix: string)
    ensures CutAtWildcard(pattern) <= CutAtWildcard(pattern + suffix)
    decreases |pattern|
  {
    if pattern != [] && !IsWildcard(pattern[0]) {
      assert (pattern + suffix)[1..] == pattern[1..] + suffix;
      CutOfExtension(pattern[1..], suffix);
    }
  }

  /** A glob without wildcards is its own cut. */
  lemma CutOfLiteral(pattern: string)
    requires NoWildcard(pattern)
    ensures CutAtWildcard(pattern) == pattern
  {
  }

  /** A name matching the glob or its directory glob starts with the glob's
      cut, so a key-prefix scan from the cut misses none of them. */
  lemma AcceptedNameExtendsCut(name: string, pattern: string)
    requires Matches(name, pattern) || Matches(name, DirGlob(pattern))
    ensures CutAtWildcard(pattern) <= name
  {
    if Matches(name, pattern) {
      MatchExtendsCut(name, pattern);
    } else {
      var suffix := if pattern != [] && pattern[|pattern| - 1] != '/' then "/*" else "*";
      assert DirGlob(pattern) == pattern + suffix;
      MatchExtendsCut(name, DirGlob(pattern));
      CutOfExtension(pattern, suffix);
    }
  }

  /** For a wildcard-free path the directory glob accepts exactly the names
      under `DirPrefix(path)`. */
  lemma DirGlobOfLiteral(name: string, path: string)
    requires NoWildcard(path)
    ensures Matches(name, DirGlob(path)) <==> DirPrefix(path) <= name
  {
    var prefix := DirPrefix(path);
    assert DirGlob(path) == prefix + "*";
    assert NoWildcard(prefix);
    MatchesLiteralThenStar(name, prefix);
  }
}
