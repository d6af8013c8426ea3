/**
 * The command line's algorithm name, taken from the path of the algorithm
 * file.
 */
module Cli {
  import opened Strings

  /** The part of `path` after its last `/` (`path.split('/')[-1]`). */
  function LastPart(path: string): (p: string)
    ensures '/' !in p
    ensures |p| <= |path|
  {
    var parts := SplitOn(path, '/');
    JoinSplitOn(path, '/');
    LastPartOfJoin(parts);
    parts[|parts| - 1]
  }

  /** The last of the joined parts ends the joined text. */
  lemma LastPartOfJoin(parts: seq<string>)
    requires |parts| > 0
    ensures var j := Join("/", parts); var l := parts[|parts| - 1];
      |l| <= |j| && j[|j| - |l|..] == l
  {
  }

  /** The path is whatever came before the last part, then a `/`, then the last part. */
  lemma LastPartEndsPath(path: string)
    requires '/' in path
    ensures exists head :: path == head + "/" + LastPart(path)
  {
    var parts := SplitOn(path, '/');
    JoinSplitOn(path, '/');
    if |parts| == 1 {
      assert false;
    }
    var init := parts[..|parts| - 1];
    assert parts == init + [parts[|parts| - 1]];
    JoinSnoc("/", init, parts[|parts| - 1]);
    assert path == Join("/", init) + "/" + LastPart(path);
  }

  /**
   * `extract_filename`: the last part of the path, with its last three
   * characters dropped whenever `.py` occurs anywhere in that part.
   */
  function ExtractFilename(algofile: string): (r: string)
    ensures '/' !in r
  {
    var name := if '/' in algofile then LastPart(algofile) else algofile;
    if Contains(name, ".py") then
      ContainsNeedsRoom(name, ".py");
      name[..|name| - 3]
    else
      name
  }

  /**
   * The result is the path's last part, shortened by three characters
   * exactly when that part contains `.py`, even when `.py` is not its end.
   */
  lemma ExtractFilenameCases(algofile: string)
    ensures Contains(LastPart(algofile), ".py") ==>
      |LastPart(algofile)| >= 3 && ExtractFilename(algofile) == LastPart(algofile)[..|LastPart(algofile)| - 3]
    ensures !Contains(LastPart(algofile), ".py") ==> ExtractFilename(algofile) == LastPart(algofile)
    ensures '/' !in algofile && !Contains(algofile, ".py") ==> ExtractFilename(algofile) == algofile
  {
    if '/' !in algofile {
      SingleLastPart(algofile);
    }
    if Contains(LastPart(algofile), ".py") {
      ContainsNeedsRoom(LastPart(algofile), ".py");
    }
  }

  /** A path without a `/` is its own last part. */
  lemma SingleLastPart(path: string)
    requires '/' !in path
    ensures LastPart(path) == path
  {
    SplitNoSlash(path);
  }

  /** A string that contains `p` is at least as long as `p`. */
  lemma {:induction false} ContainsNeedsRoom(s: string, p: string)
    requires Contains(s, p)
    ensures |p| <= |s|
    decreases |s|
  {
    if !StartsWith(s, p) {
      ContainsNeedsRoom(s[1..], p);
    }
  }

  /** The usual case: `algo.py` names the algorithm `algo`, wherever the file lives. */
  lemma ExtractFilenameOfScript(dir: string, stem: string)
    requires '/' !in stem && '/' !in dir
    ensures ExtractFilename(dir + "/" + stem + ".py") == stem
  {
    var path := dir + "/" + stem + ".py";
    var name := stem + ".py";
    assert path == dir + "/" + name;
    assert SplitOn(path, '/') == [dir, name] by {
      SplitAround(dir, name);
    }
    assert StartsWith(".py", ".py");
    ContainsConcat(stem, ".py", ".py");
    assert name[..|name| - 3] == stem;
  }

  /** Splitting `a/b` on `/`, where neither part holds a `/`, gives the two parts. */
  lemma SplitAround(a: string, b: string)
    requires '/' !in a && '/' !in b
    ensures SplitOn(a + "/" + b, '/') == [a, b]
  {
    SplitNoSlash(a);
    assert (a + "/")[..|a|] == a;
    assert SplitOn(a + "/", '/') == [a, ""];
    SplitAppend(a + "/", b, [a]);
  }

  /** Text without the separator splits into one part. */
  lemma {:induction false} SplitNoSlash(s: string)
    requires '/' !in s
    ensures SplitOn(s, '/') == [s]
    decreases |s|
  {
    if |s| > 0 {
      var pre := s[..|s| - 1];
      SplitNoSlash(pre);
      assert s[|s| - 1] != '/';
      assert pre + [s[|s| - 1]] == s;
      assert [pre][..0] + [[pre][0] + [s[|s| - 1]]] == [s];
    }
  }

  /** Growing the last of the parts `init + [p]` by `x`. */
  lemma GrowLastPart(init: seq<string>, p: string, x: char)
    ensures var parts := init + [p];
      parts[..|parts| - 1] + [parts[|parts| - 1] + [x]] == init + [p + [x]]
  {
    assert (init + [p])[..|init|] == init;
  }

  /** Appending separator-free text extends the last part. */
  lemma {:induction false} SplitAppend(s: string, b: string, init: seq<string>)
    requires '/' !in b
    requires SplitOn(s, '/') == init + [""]
    ensures SplitOn(s + b, '/') == init + [b]
    decreases |b|
  {
    if |b| > 0 {
      var b', last := b[..|b| - 1], b[|b| - 1];
      SplitAppend(s, b', init);
      SplitOnSnoc(s + b', last, '/');
      GrowLastPart(init, b', last);
      assert s + b == (s + b') + [last];
      assert b' + [last] == b;
    } else {
      assert s + b == s;
    }
  }
}
