/**
 * Slash-separated paths as Go's `path` and `path/filepath` packages treat them,
 * simplified to trailing and leading slashes: paths are taken to hold no `.`
 * or `..` elements and no doubled slashes inside them.
 */
module Paths {
  import opened Text
  import opened Wrappers

  /** Drops trailing slashes, keeping a lone root `/`. */
  function TrimSlashes(p: string): (r: string)
    ensures HasPrefix(p, r)
    ensures Trimmed(r)
    ensures p != [] ==> r != []
  {
    if |p| > 1 && p[|p| - 1] == '/' then TrimSlashes(p[..|p| - 1]) else p
  }

  /** Drops leading slashes. */
  function DropLeadingSlashes(p: string): (r: string)
    ensures |r| <= |p|
    ensures r == [] || r[0] != '/'
  {
    if p != [] && p[0] == '/' then DropLeadingSlashes(p[1..]) else p
  }

  /** A path without a trailing slash, unless it is the root itself. */
  predicate Trimmed(p: string)
  {
    !(|p| > 1 && p[|p| - 1] == '/')
  }

  /** `path.Join(a, b)` */
  function JoinPath(a: string, b: string): (r: string)
    ensures Trimmed(r)
  {
    var a' := TrimSlashes(a);
    var b' := TrimSlashes(DropLeadingSlashes(b));
    if a' == "" then
      (if b == "" then "" else if b[0] != '/' then b' else if b' == "" then "/" else "/" + b')
    else if b' == "" || b' == "." then a'
    else if a' == "." then b'
    else if a' == "/" then "/" + b'
    else a' + "/" + b'
  }

  /** Joining below a directory keeps the directory as a string prefix. */
  lemma JoinBelow(d: string, b: string)
    requires Trimmed(d) && d != "" && d != "."
    ensures HasPrefix(JoinPath(d, b), d)
  {
    assert TrimSlashes(d) == d;
  }

  /** A base directory from which an upward walk ends: neither empty nor one of `Dir`'s fixed points. */
  predicate WalkableRoot(p: string)
  {
    p != "" && p != "." && p != "/"
  }

  /** Joining anything below a walkable directory stays below it, and walkable. */
  lemma JoinWalkable(a: string, b: string)
    requires WalkableRoot(TrimSlashes(a))
    ensures WalkableRoot(JoinPath(a, b)) && HasPrefix(JoinPath(a, b), TrimSlashes(a))
  {
  }

  /** Joining a plain file name below a directory. */
  lemma JoinName(d: string, name: string)
    requires Trimmed(d) && d != "" && d != "." && d != "/"
    requires name != "" && name != "." && name[0] != '/' && name[|name| - 1] != '/'
    ensures JoinPath(d, name) == d + "/" + name
  {
    assert TrimSlashes(d) == d;
    assert DropLeadingSlashes(name) == name;
    assert TrimSlashes(name) == name;
  }

  /** The index of the last slash in `p`, if any. */
  function LastSlash(p: string): (r: Option<nat>)
    ensures r.Some? ==> r.value < |p| && p[r.value] == '/' && '/' !in p[r.value + 1..]
    ensures r.None? ==> '/' !in p
  {
    if p == [] then None
    else if p[|p| - 1] == '/' then Some(|p| - 1)
    else
      var r := LastSlash(p[..|p| - 1]);
      assert p == p[..|p| - 1] + [p[|p| - 1]];
      r
  }

  /** `path.Dir`: everything before the last slash, cleaned. */
  function Dir(p: string): (r: string)
    ensures r != []
    ensures Trimmed(r)
  {
    match LastSlash(p)
    case None => "."
    case Some(i) => var d := TrimSlashes(p[..i]); if d == "" then "/" else d
  }

  /** `path.Base`: the last element, trailing slashes dropped. */
  function Base(p: string): string
  {
    if p == "" then "."
    else
      var t := TrimSlashes(p);
      if t == "/" then "/"
      else match LastSlash(t)
        case None => t
        case Some(i) => t[i + 1..]
  }

  /** A measure that `Dir` decreases on every path except its fixed points `.` and `/`. */
  function Height(p: string): nat
  {
    2 * |p| + (if p == "." then 0 else 1)
  }

  /** `Dir` moves strictly upwards from every path other than `.` and `/`. */
  lemma DirClimbs(p: string)
    requires p != "" && p != "." && p != "/"
    ensures Height(Dir(p)) < Height(p)
  {
    match LastSlash(p)
    case None =>
    case Some(i) =>
      assert |TrimSlashes(p[..i])| <= i;
      if i == 0 { assert |p| > 1; }
  }

  /** The two paths where `Dir` stays put. */
  lemma DirFixedPoints()
    ensures Dir(".") == "." && Dir("/") == "/"
  {
    assert LastSlash(".") == None;
    assert LastSlash("/") == Some(0);
  }

  /** `filepath.Clean` as far as this model needs it: no trailing slash, `.` for the empty path. */
  function Clean(p: string): (r: string)
    ensures r != [] && Trimmed(r)
  {
    if p == "" then "." else TrimSlashes(p)
  }

  /**
   * `filepath.Rel(base, target)` for a target at or below the base: the part of the
   * target after the base. A target elsewhere, for which Go would return a path
   * climbing with `..`, is an error here.
   */
  function Rel(base: string, target: string): (r: Option<string>)
    ensures r.Some? ==> r.value != []
  {
    var b := Clean(base);
    var t := Clean(target);
    if b == t then Some(".")
    else if b == "." then (if t[0] == '/' then None else Some(t))
    else if b == "/" && t[0] == '/' then Some(t[1..])
    else if HasPrefix(t, b + "/") then Some(t[|b| + 1..])
    else None
  }

  /** No two slashes in a row. */
  predicate SingleSlashes(p: string)
  {
    forall i :: 0 <= i < |p| - 1 ==> !(p[i] == '/' && p[i + 1] == '/')
  }

  /** Whatever lies below a base is found again by joining the relative part to it. */
  lemma RelJoin(base: string, target: string)
    requires Rel(base, target).Some?
    requires Trimmed(target) && SingleSlashes(target) && target != "" && target[0] != '.'
    requires !HasSuffix(target, "/.")
    requires Clean(base) != "."
    ensures JoinPath(Clean(base), Rel(base, target).value) == target
  {
    var b := Clean(base);
    var t := Clean(target);
    assert t == target;
    var r := Rel(base, target).value;
    assert TrimSlashes(b) == b;
    if b != t {
      var k := if b == "/" then 1 else |b| + 1;
      assert t[k - 1] == '/' && r == t[k..];
      assert r[0] != '/' by { assert t[k] == r[0]; }
      assert DropLeadingSlashes(r) == r;
      assert TrimSlashes(r) == r by { assert r[|r| - 1] == t[|t| - 1]; }
      assert r != ".";
    }
  }
}
