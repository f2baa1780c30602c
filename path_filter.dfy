/** `should_ignore`: which filesystem paths the watcher ignores. */
module PathFilter {
  import opened Wrappers
  import opened Text

  /** The patterns used when the caller passes none: matched literally,
      so `*.pyc` and `*.log` are character strings, not globs. */
  const DefaultIgnorePatterns: seq<string> := [
    ".git",
    "__pycache__",
    "*.pyc",
    ".env",
    "chroma_db",
    "chat_history",
    "node_modules",
    ".DS_Store",
    "*.log"
  ]

  /** `ignore_patterns or [...]`: a missing or empty list falls back to the
      defaults, any other list is used as given. */
  function PatternsOrDefault(given: Option<seq<string>>): (r: seq<string>)
    ensures r != []
    ensures given.Some? && given.value != [] ==> r == given.value
    ensures given.None? || given.value == [] ==> r == DefaultIgnorePatterns
  {
    match given
    case None => DefaultIgnorePatterns
    case Some(ps) => if ps == [] then DefaultIgnorePatterns else ps
  }

  /** A path is ignored when some pattern occurs in it as a substring. */
  function ShouldIgnore(patterns: seq<string>, path: string): (r: bool)
    ensures r <==> exists i :: 0 <= i < |patterns| && Contains(patterns[i], path)
  {
    if patterns == [] then false
    else if Contains(patterns[0], path) then true
    else
      var rest := ShouldIgnore(patterns[1..], path);
      assert forall i :: 1 <= i < |patterns| ==> patterns[i] == patterns[1..][i - 1];
      rest
  }

  /** The first pattern that matches decides; later patterns cannot undo it,
      and a pattern list that grows can only ignore more. */
  lemma {:induction false} IgnoreMonotone(patterns: seq<string>, more: seq<string>, path: string)
    requires ShouldIgnore(patterns, path)
    ensures ShouldIgnore(patterns + more, path)
  {
    var i :| 0 <= i < |patterns| && Contains(patterns[i], path);
    assert (patterns + more)[i] == patterns[i];
  }

  /** Glob characters have no special meaning: a path without `*` is never
      ignored because of `*.pyc` or `*.log`, whatever its extension, and is
      ignored by the defaults exactly when one of the other seven occurs. */
  lemma GlobPatternsAreLiteral(path: string)
    requires '*' !in path
    ensures ShouldIgnore(DefaultIgnorePatterns, path) <==>
      exists i :: 0 <= i < |DefaultIgnorePatterns| && i != 2 && i != 8 &&
        Contains(DefaultIgnorePatterns[i], path)
  {
    MissingCharNotContained("*.pyc", path, '*');
    MissingCharNotContained("*.log", path, '*');
  }

  /** Each default pattern holds one of the characters `g`, `v`, `D`, `_`
      or `*`, so a path with none of them is not ignored by the defaults,
      whatever its extension. */
  lemma DefaultsNeedPatternChars(path: string)
    requires 'g' !in path && 'v' !in path && 'D' !in path && '_' !in path && '*' !in path
    ensures !ShouldIgnore(DefaultIgnorePatterns, path)
  {
    var ps := DefaultIgnorePatterns;
    forall i | 0 <= i < |ps| ensures !Contains(ps[i], path) {
      var c := if i == 0 then 'g' else if i == 3 then 'v' else if i == 7 then 'D'
               else if i == 2 || i == 8 then '*' else '_';
      assert c in ps[i];
      MissingCharNotContained(ps[i], path, c);
    }
  }

  /** A compiled Python file is not ignored by the defaults: `*.pyc` is not
      a glob. */
  lemma CompiledFileNotIgnored()
    ensures !ShouldIgnore(DefaultIgnorePatterns, "/repo/a.pyc")
  {
    DefaultsNeedPatternChars("/repo/a.pyc");
  }

  /** Substring matching also blocks whole subtrees: any path under a
      `node_modules` directory is ignored, as is any path merely containing
      one of the patterns. */
  lemma NodeModulesSubtreeIgnored(patterns: seq<string>, root: string, rest: string)
    requires "node_modules" in patterns
    ensures ShouldIgnore(patterns, root + "/node_modules/" + rest)
  {
    var path := root + "/node_modules/" + rest;
    var i :| 0 <= i < |patterns| && patterns[i] == "node_modules";
    assert path[|root| + 1..|root| + 13] == "node_modules";
    SliceContained(path, |root| + 1, |root| + 13);
  }
}
