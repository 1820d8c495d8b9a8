// The ignore-file rules of test_template.py: which lines of
// `.cookiecutterignore` are patterns, when a path matches a pattern (a
// single `**` splits a pattern into a prefix and a suffix; everything else is
// left to shell-style `fnmatch`, a parameter here), and whether a path is kept.
module IgnorePatterns {
  import opened Wrappers
  import opened Text
  import ConfigFile

  /** A stripped line that is a pattern: not empty and not a comment. */
  predicate IsPattern(line: string)
  {
    line != "" && !StartsWith(line, "#")
  }

  /** The patterns of `read_ignore_patterns`, from the file's lines, in order. */
  function Patterns(lines: seq<string>): (r: seq<string>)
    ensures |r| <= |lines|
    ensures forall i :: 0 <= i < |r| ==> IsPattern(r[i])
  {
    if |lines| == 0 then [] else Patterns(lines[..|lines| - 1]) + Kept(lines[|lines| - 1])
  }

  /** What one line adds to the patterns: the line stripped, when that is a pattern. */
  function Kept(line: string): seq<string>
  {
    var stripped := Strip(line);
    if IsPattern(stripped) then [stripped] else []
  }

  /** Patterns of a file with one more line. */
  lemma PatternsSnoc(lines: seq<string>, line: string)
    ensures Patterns(lines + [line]) == Patterns(lines) + Kept(line)
  {
    var all := lines + [line];
    assert all[..|all| - 1] == lines;
    assert all[|all| - 1] == line;
  }

  /** A pattern is exactly a stripped line that is neither empty nor a comment. */
  lemma {:induction false} PatternsAreKeptLines(lines: seq<string>, p: string)
    ensures p in Patterns(lines) <==> exists i :: 0 <= i < |lines| && Strip(lines[i]) == p && IsPattern(p)
  {
    if |lines| > 0 {
      var n := |lines| - 1;
      var init := lines[..n];
      assert lines == init + [lines[n]];
      PatternsSnoc(init, lines[n]);
      PatternsAreKeptLines(init, p);
      if p in Patterns(lines) && p !in Patterns(init) {
        assert p in Kept(lines[n]);
      }
      if exists i :: 0 <= i < |lines| && Strip(lines[i]) == p && IsPattern(p) {
        var i :| 0 <= i < |lines| && Strip(lines[i]) == p && IsPattern(p);
        if i < n {
          assert init[i] == lines[i];
          assert p in Patterns(init);
        } else {
          assert p in Kept(lines[n]);
        }
      }
    }
  }

  /** Patterns keep the file's order: those of a longer file extend those of its first lines. */
  lemma {:induction false} PatternsKeepOrder(lines: seq<string>, more: seq<string>)
    ensures Patterns(lines + more) == Patterns(lines) + Patterns(more)
    decreases |more|
  {
    if |more| == 0 {
      assert lines + more == lines;
    } else {
      var n := |more| - 1;
      var init, last := more[..n], more[n];
      assert more == init + [last];
      assert lines + more == (lines + init) + [last];
      calc {
        Patterns(lines + more);
        { PatternsSnoc(lines + init, last); }
        Patterns(lines + init) + Kept(last);
        { PatternsKeepOrder(lines, init); }
        Patterns(lines) + Patterns(init) + Kept(last);
        { PatternsSnoc(init, last); }
        Patterns(lines) + Patterns(more);
      }
    }
  }

  /** `read_ignore_patterns`: a missing file gives no patterns; otherwise its lines are read and filtered in a loop. */
  method ReadIgnorePatterns(file: Option<string>) returns (patterns: seq<string>)
    ensures file.None? ==> patterns == []
    ensures file.Some? ==> patterns == Patterns(ConfigFile.ReadLines(file.value))
  {
    patterns := [];
    if file.Some? {
      var lines := ConfigFile.ReadLines(file.value);
      var i := 0;
      while i < |lines|
        invariant 0 <= i <= |lines|
        invariant patterns == Patterns(lines[..i])
      {
        assert lines[..i + 1] == lines[..i] + [lines[i]];
        PatternsSnoc(lines[..i], lines[i]);
        var line := Strip(lines[i]);
        if line != "" && !StartsWith(line, "#") {
          patterns := patterns + [line];
        }
        i := i + 1;
      }
      assert lines[..i] == lines;
    }
  }

  /**
   * `matches_pattern`: a pattern that splits into exactly two pieces around
   * `**` matches a path starting with the first or ending with the second;
   * otherwise (and when that fails) `fnmatch` decides, on the path or on its
   * last component (`os.path.basename`, the text after the last '/').
   */
  function MatchesPattern(path: string, pattern: string, fnmatch: (string, string) -> bool): (r: bool)
    ensures !Contains(pattern, "**") || |SplitStr(pattern, "**")| != 2 ==>
      (r <==> fnmatch(path, pattern) || fnmatch(AfterLast(path, '/'), pattern))
  {
    var parts := SplitStr(pattern, "**");
    if Contains(pattern, "**") && |parts| == 2 && (StartsWith(path, parts[0]) || EndsWith(path, parts[1])) then true
    else fnmatch(path, pattern) || fnmatch(AfterLast(path, '/'), pattern)
  }

  /**
   * A pattern that `split('**')` cuts into exactly two pieces matches every
   * path that starts with the first piece or ends with the second, whatever
   * `fnmatch` says.
   */
  lemma DoubleStarMatches(pattern: string, path: string, fnmatch: (string, string) -> bool)
    requires |SplitStr(pattern, "**")| == 2
    requires StartsWith(path, SplitStr(pattern, "**")[0]) || EndsWith(path, SplitStr(pattern, "**")[1])
    ensures MatchesPattern(path, pattern, fnmatch)
  {
    var i := FindStr(pattern, "**");
    assert i.Some?;
    assert OccursAt(pattern, "**", i.value);
  }

  /** A text in which `sep` occurs splits into at least two pieces. */
  lemma SplitAtOccurrence(s: string, sep: string, k: nat)
    requires |sep| > 0 && OccursAt(s, sep, k)
    ensures |SplitStr(s, sep)| >= 2
  {
    assert FindStr(s, sep).Some?;
  }

  /** Hence a two-piece pattern that starts with `**` matches every path. */
  lemma LeadingDoubleStarMatchesAll(b: string, path: string, fnmatch: (string, string) -> bool)
    requires |SplitStr("**" + b, "**")| == 2
    ensures MatchesPattern(path, "**" + b, fnmatch)
  {
    var pattern := "**" + b;
    assert pattern[..2] == "**";
    assert FindStr(pattern, "**") == Some(0);
    assert SplitStr(pattern, "**")[0] == "";
    assert StartsWith(path, "");
    DoubleStarMatches(pattern, path, fnmatch);
  }

  /**
   * In `b + "**"`, with `b` not ending in '*', a `**` found before the end
   * leaves the final `**` in the remainder, so the text splits in three or more.
   */
  lemma EarlyDoubleStarSplitsThree(b: string)
    requires |b| == 0 || b[|b| - 1] != '*'
    ensures FindStr(b + "**", "**").Some?
    ensures FindStr(b + "**", "**").value < |b| ==> |SplitStr(b + "**", "**")| >= 3
  {
    var pattern := b + "**";
    assert OccursAt(pattern, "**", |b|) by {
      assert pattern[|b|..|b| + 2] == "**";
    }
    var i := FindStr(pattern, "**").value;
    assert pattern[i] == '*' by {
      assert pattern[i..i + 2][0] == pattern[i];
    }
    if i < |b| {
      assert pattern[i] == b[i];
      assert i + 2 <= |b|;
      var rest := pattern[i + 2..];
      assert OccursAt(rest, "**", |rest| - 2) by {
        assert rest[|rest| - 2..] == pattern[|pattern| - 2..];
      }
      SplitAtOccurrence(rest, "**", |rest| - 2);
    }
  }

  /**
   * And so does a two-piece pattern that ends with `**`, unless the `**` it
   * splits on starts one character earlier (`b` ending in '*', as in "a***",
   * whose second piece is "*").
   */
  lemma TrailingDoubleStarMatchesAll(b: string, path: string, fnmatch: (string, string) -> bool)
    requires |SplitStr(b + "**", "**")| == 2
    requires |b| == 0 || b[|b| - 1] != '*'
    ensures MatchesPattern(path, b + "**", fnmatch)
  {
    var pattern := b + "**";
    assert OccursAt(pattern, "**", |b|) by {
      assert pattern[|b|..|b| + 2] == "**";
    }
    EarlyDoubleStarSplitsThree(b);
    var i := FindStr(pattern, "**").value;
    assert i == |b|;
    assert pattern[i + 2..] == "";
    assert SplitStr(pattern, "**")[1] == "";
    assert EndsWith(path, "") by {
      assert path[|path|..] == "";
    }
    DoubleStarMatches(pattern, path, fnmatch);
  }

  // An ignore file holding the pattern "**/*.pyc" excludes every path.
  lemma PycPatternExcludesAll(path: string, fnmatch: (string, string) -> bool)
    ensures !ShouldInclude(path, ["**/*.pyc"], fnmatch)
  {
    var rest := "/*.pyc";
    forall k: nat | k + 2 <= |rest|
      ensures !OccursAt(rest, "**", k)
    {
      assert rest[k..k + 2][0] == rest[k] && rest[k..k + 2][1] == rest[k + 1];
    }
    assert FindStr(rest, "**").None?;
    assert SplitStr(rest, "**") == [rest];
    assert "**" + rest == "**/*.pyc";
    assert ("**" + rest)[..2] == "**";
    assert FindStr("**" + rest, "**") == Some(0);
    assert ("**" + rest)[2..] == rest;
    LeadingDoubleStarMatchesAll(rest, NormalizePath(path), fnmatch);
    assert Excludes(NormalizePath(path), ["**/*.pyc"][0], fnmatch);
  }

  /** `path.replace('\\', '/')`. */
  function NormalizePath(path: string): (r: string)
    ensures |r| == |path| && '\\' !in r
    ensures forall i :: 0 <= i < |path| ==> r[i] == if path[i] == '\\' then '/' else path[i]
  {
    seq(|path|, i requires 0 <= i < |path| => if path[i] == '\\' then '/' else path[i])
  }

  /** Whether one pattern excludes the (normalised) path, as a file or as a directory. */
  predicate Excludes(path: string, pattern: string, fnmatch: (string, string) -> bool)
  {
    MatchesPattern(path, pattern, fnmatch) || MatchesPattern(path + "/", pattern, fnmatch)
  }

  /** `should_include`: kept unless some pattern excludes the normalised path. */
  predicate ShouldInclude(path: string, patterns: seq<string>, fnmatch: (string, string) -> bool)
  {
    forall i :: 0 <= i < |patterns| ==> !Excludes(NormalizePath(path), patterns[i], fnmatch)
  }

  /** `should_include`, with its early-returning loop. */
  method ShouldIncludeLoop(path: string, patterns: seq<string>, fnmatch: (string, string) -> bool) returns (r: bool)
    ensures r == ShouldInclude(path, patterns, fnmatch)
  {
    var p := seq(|path|, i requires 0 <= i < |path| => if path[i] == '\\' then '/' else path[i]);
    assert p == NormalizePath(path);
    var i := 0;
    while i < |patterns|
      invariant 0 <= i <= |patterns|
      invariant forall j :: 0 <= j < i ==> !Excludes(p, patterns[j], fnmatch)
    {
      if MatchesPattern(p, patterns[i], fnmatch) || MatchesPattern(p + "/", patterns[i], fnmatch) {
        return false;
      }
      i := i + 1;
    }
    return true;
  }

  /** No patterns keep everything, and more patterns can only exclude more. */
  lemma MorePatternsExcludeMore(path: string, patterns: seq<string>, more: seq<string>, fnmatch: (string, string) -> bool)
    ensures ShouldInclude(path, [], fnmatch)
    ensures ShouldInclude(path, patterns + more, fnmatch) ==> ShouldInclude(path, patterns, fnmatch) && ShouldInclude(path, more, fnmatch)
  {
    if ShouldInclude(path, patterns + more, fnmatch) {
      forall i | 0 <= i < |patterns|
        ensures !Excludes(NormalizePath(path), patterns[i], fnmatch)
      {
        assert (patterns + more)[i] == patterns[i];
      }
      forall i | 0 <= i < |more|
        ensures !Excludes(NormalizePath(path), more[i], fnmatch)
      {
        assert (patterns + more)[|patterns| + i] == more[i];
      }
    }
  }

  /** A path and its Windows spelling are kept or dropped alike. */
  lemma BackslashesDoNotMatter(path: string, patterns: seq<string>, fnmatch: (string, string) -> bool)
    ensures ShouldInclude(path, patterns, fnmatch) == ShouldInclude(NormalizePath(path), patterns, fnmatch)
  {
    assert NormalizePath(NormalizePath(path)) == NormalizePath(path);
  }
}
