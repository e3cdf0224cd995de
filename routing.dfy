/**
 * Where a driver puts the documentation of one source file: the configured
 * documentation path whose key is the longest prefix of the file's directory,
 * and the directories derived from it.
 */
module Routing {
  import opened Text
  import opened Wrappers
  import opened Paths
  import opened Records

  /**
   * The longest string in `keys` that is a prefix of `s` among the prefixes of
   * length at most `n`; the empty string when there is none.
   */
  function MatchUpTo(keys: set<string>, s: string, n: nat): (m: string)
    requires n <= |s|
  {
    if n == 0 then ""
    else if s[..n] in keys then s[..n]
    else MatchUpTo(keys, s, n - 1)
  }

  /** The key the drivers route by: the longest non-empty key that is a prefix of `s`, or "". */
  function LongestMatch(keys: set<string>, s: string): string
  {
    MatchUpTo(keys, s, |s|)
  }

  /** What the routing loop promises of its choice. */
  predicate IsLongestMatch(keys: set<string>, s: string, m: string)
  {
    && (m == "" || m in keys)
    && HasPrefix(s, m)
    && forall k :: k in keys && HasPrefix(s, k) ==> |k| <= |m|
  }

  lemma {:induction false} MatchUpToIsLongest(keys: set<string>, s: string, n: nat)
    requires n <= |s|
    ensures var m := MatchUpTo(keys, s, n);
      && (m == "" || m in keys)
      && HasPrefix(s, m) && |m| <= n
      && forall k :: k in keys && HasPrefix(s, k) && |k| <= n ==> |k| <= |m|
  {
    if n > 0 && s[..n] !in keys {
      MatchUpToIsLongest(keys, s, n - 1);
      forall k | k in keys && HasPrefix(s, k) && |k| <= n
        ensures |k| <= n - 1
      {
        assert k == s[..|k|];
      }
    }
  }

  /**
   * The longest match meets the promise, and it is the only string that does:
   * two prefixes of one string with the same length are equal, so the choice
   * does not depend on the order in which the keys are visited.
   */
  lemma LongestMatchUnique(keys: set<string>, s: string, m: string)
    ensures IsLongestMatch(keys, s, LongestMatch(keys, s))
    ensures IsLongestMatch(keys, s, m) ==> m == LongestMatch(keys, s)
  {
    MatchUpToIsLongest(keys, s, |s|);
    var l := LongestMatch(keys, s);
    if IsLongestMatch(keys, s, m) {
      assert |m| <= |l| && |l| <= |m| by {
        if m != "" { assert m in keys; }
        if l != "" { assert l in keys; }
      }
      assert m == s[..|m|] && l == s[..|l|];
    }
  }

  /**
   * The routing loop over the configured documentation paths: a key replaces the
   * current match when it is a prefix of `rel` and strictly longer.
   */
  method LongestPrefix(docPaths: map<string, string>, rel: string) returns (key: string)
    ensures key == LongestMatch(docPaths.Keys, rel)
    ensures key == "" || key in docPaths
  {
    key := "";
    var todo := docPaths.Keys;
    while todo != {}
      invariant todo <= docPaths.Keys
      invariant key == "" || key in docPaths
      invariant HasPrefix(rel, key)
      invariant forall k :: k in docPaths && k !in todo && HasPrefix(rel, k) ==> |k| <= |key|
      decreases todo
    {
      var k :| k in todo;
      if HasPrefix(rel, k) && |k| > |key| {
        key := k;
      }
      todo := todo - {k};
    }
    LongestMatchUnique(docPaths.Keys, rel, key);
  }

  /** Where one source file's documentation goes. */
  datatype Location = Location(
    configName: string,  // the file's directory relative to the matched key
    docsRoot: string,    // the root path joined with the matched documentation path
    mdDir: string)       // the directory that receives the documentation

  /** `m.c.DocPaths[match]`: the configured path, or "" for a key that is not configured. */
  function DocPath(docPaths: map<string, string>, key: string): string
  {
    if key in docPaths then docPaths[key] else ""
  }

  /**
   * The routing shared by the drivers: the file's directory relative to the root,
   * the longest matching key, the name relative to that key, and the directories
   * joined from them.
   */
  function Route(docPaths: map<string, string>, filePath: string, rootPath: string): (r: Result<Location, Error>)
    ensures r.Ok? ==> r.value.mdDir == JoinPath(r.value.docsRoot, r.value.configName)
  {
    match Rel(rootPath, Dir(filePath))
    case None => Err(PathNotRelative)
    case Some(suffix) =>
      var key := LongestMatch(docPaths.Keys, suffix);
      match Rel(key, suffix)
      case None => Err(PathNotRelative)
      case Some(configName) =>
        var docsRoot := JoinPath(rootPath, DocPath(docPaths, key));
        Ok(Location(configName, docsRoot, JoinPath(docsRoot, configName)))
  }

  /**
   * The documentation directory lies below the documentation root, so the walk
   * from it starts inside the root; and a documentation root below a walkable
   * root path is walkable itself.
   */
  lemma RouteBelow(docPaths: map<string, string>, filePath: string, rootPath: string)
    requires Route(docPaths, filePath, rootPath).Ok?
    requires WalkableRoot(TrimSlashes(rootPath))
    ensures var loc := Route(docPaths, filePath, rootPath).value;
      WalkableRoot(loc.docsRoot) && HasPrefix(loc.mdDir, loc.docsRoot)
  {
    var loc := Route(docPaths, filePath, rootPath).value;
    var key := LongestMatch(docPaths.Keys, Rel(rootPath, Dir(filePath)).value);
    JoinWalkable(rootPath, DocPath(docPaths, key));
    JoinBelow(loc.docsRoot, loc.configName);
  }
}
