/**
 * The section index files (`_index.md`) of a Hugo documentation tree, as both
 * snapshots of the hierarchical driver keep them: the front matter written into
 * a new index file, the scan that keeps an existing file's front matter, and the
 * walk that gives every ancestor section an index file.
 */
module HugoIndex {
  import opened Text
  import opened TextFile
  import opened Paths
  import opened FileSystem
  import opened Wrappers
  import opened Records
  import opened Sections

  /** The name of a section's index file. */
  const IndexFile := "_index.md"

  /**
   * The front matter written into a new index file for the section `name`
   * (`headerTemplate`): these seven lines joined by newlines, with no newline
   * after the closing delimiter.
   */
  function HeaderLines(name: string): seq<string>
  {
    [ "---",
      "title: \"" + name + "\"",
      "linkTitle: \"" + name + "\"",
      "weight: 10",
      "description: >",
      "  Configuration for the " + name + " service",
      "---" ]
  }

  function Header(name: string): string
  {
    Join(HeaderLines(name), "\n")
  }

  /** A front matter delimiter: a line that reads `---` once white space is trimmed. */
  predicate IsDelimiter(line: string)
  {
    TrimSpace(line) == "---"
  }

  /** A line holding a character other than white space and `-` is no delimiter. */
  lemma NotDelimiter(line: string, c: char)
    requires c in line && c != '-' && !IsSpace(c)
    ensures !IsDelimiter(line)
  {
    TrimSpaceKeeps(line, c);
  }

  /** How many delimiter lines `lines` holds. */
  function DelimiterCount(lines: seq<string>): nat
  {
    if lines == [] then 0 else (if IsDelimiter(lines[0]) then 1 else 0) + DelimiterCount(lines[1..])
  }

  lemma {:induction false} DelimiterCountAppend(a: seq<string>, b: seq<string>)
    ensures DelimiterCount(a + b) == DelimiterCount(a) + DelimiterCount(b)
  {
    if a == [] {
      assert a + b == b;
    } else {
      assert (a + b)[1..] == a[1..] + b;
      DelimiterCountAppend(a[1..], b);
    }
  }

  /** The lines kept from `lines` when `seen` delimiters have already been read. */
  function FrontMatterFrom(lines: seq<string>, seen: nat): seq<string>
    requires seen < 2
  {
    if lines == [] then []
    else
      var seen' := seen + (if IsDelimiter(lines[0]) then 1 else 0);
      if seen' == 2 then [lines[0]] else [lines[0]] + FrontMatterFrom(lines[1..], seen')
  }

  /** The lines of an existing index file that a merge keeps. */
  function FrontMatter(lines: seq<string>): seq<string>
  {
    FrontMatterFrom(lines, 0)
  }

  /**
   * The scan over an existing index file (reva.go, the loop filling `lines`):
   * reads lines until the second delimiter has been read.
   */
  method KeepFrontMatter(lines: seq<string>) returns (kept: seq<string>)
    ensures kept == FrontMatter(lines)
  {
    var count := 0;
    kept := [];
    var i := 0;
    assert lines[i..] == lines;
    while i < |lines|
      invariant 0 <= i <= |lines| && count < 2
      invariant kept == lines[..i]
      invariant FrontMatter(lines) == kept + FrontMatterFrom(lines[i..], count)
    {
      var currLine := lines[i];
      KeepStep(lines, i, count);
      kept := kept + [currLine];
      if IsDelimiter(currLine) {
        count := count + 1;
      }
      if count == 2 {
        return;
      }
      i := i + 1;
    }
    assert lines[i..] == [];
  }

  /** One step of the scan: line `i` is kept, and the scan stops after it when it is the second delimiter. */
  lemma KeepStep(lines: seq<string>, i: nat, seen: nat)
    requires i < |lines| && seen < 2
    requires FrontMatter(lines) == lines[..i] + FrontMatterFrom(lines[i..], seen)
    ensures lines[..i + 1] == lines[..i] + [lines[i]]
    ensures var seen' := seen + (if IsDelimiter(lines[i]) then 1 else 0);
      && (seen' == 2 ==> FrontMatter(lines) == lines[..i + 1])
      && (seen' < 2 ==> FrontMatter(lines) == lines[..i + 1] + FrontMatterFrom(lines[i + 1..], seen'))
  {
    assert lines[i..][0] == lines[i] && lines[i..][1..] == lines[i + 1..];
    assert lines[..i + 1] == lines[..i] + [lines[i]];
  }

  /**
   * What the merge keeps: a prefix of the file's lines holding at most two
   * delimiters, ending with the second delimiter when there is one, and all of
   * the file when it has fewer than two.
   */
  lemma FrontMatterShape(lines: seq<string>)
    ensures |FrontMatter(lines)| <= |lines| && FrontMatter(lines) == lines[..|FrontMatter(lines)|]
    ensures DelimiterCount(FrontMatter(lines)) <= 2
    ensures DelimiterCount(FrontMatter(lines)) == 2 ==> IsDelimiter(FrontMatter(lines)[|FrontMatter(lines)| - 1])
    ensures FrontMatter(lines) != lines ==> DelimiterCount(FrontMatter(lines)) == 2
  {
    FrontMatterFromShape(lines, 0);
  }

  lemma FrontMatterFromShape(lines: seq<string>, seen: nat)
    requires seen < 2
    ensures var k := FrontMatterFrom(lines, seen);
      && |k| <= |lines| && k == lines[..|k|]
      && seen + DelimiterCount(k) <= 2
      && (seen + DelimiterCount(k) == 2 ==> IsDelimiter(k[|k| - 1]))
      && (k != lines ==> seen + DelimiterCount(k) == 2)
  {
    FrontMatterFromPrefix(lines, seen);
    FrontMatterFromCount(lines, seen);
  }

  lemma {:induction false} FrontMatterFromPrefix(lines: seq<string>, seen: nat)
    requires seen < 2
    ensures |FrontMatterFrom(lines, seen)| <= |lines|
    ensures FrontMatterFrom(lines, seen) == lines[..|FrontMatterFrom(lines, seen)|]
  {
    if lines != [] {
      var seen' := seen + (if IsDelimiter(lines[0]) then 1 else 0);
      if seen' < 2 {
        FrontMatterFromPrefix(lines[1..], seen');
        var k' := FrontMatterFrom(lines[1..], seen');
        assert lines[..|k'| + 1] == [lines[0]] + lines[1..][..|k'|];
      }
    }
  }

  lemma {:induction false} FrontMatterFromCount(lines: seq<string>, seen: nat)
    requires seen < 2
    ensures var k := FrontMatterFrom(lines, seen);
      && seen + DelimiterCount(k) <= 2
      && (seen + DelimiterCount(k) == 2 ==> IsDelimiter(k[|k| - 1]))
      && (seen + DelimiterCount(k) < 2 ==> k == lines)
  {
    if lines != [] {
      var seen' := seen + (if IsDelimiter(lines[0]) then 1 else 0);
      var k := FrontMatterFrom(lines, seen);
      if seen' < 2 {
        FrontMatterFromCount(lines[1..], seen');
        var k' := FrontMatterFrom(lines[1..], seen');
        assert k == [lines[0]] + k';
        assert k[1..] == k';
        assert DelimiterCount(k) == (if IsDelimiter(lines[0]) then 1 else 0) + DelimiterCount(k');
        if k' != [] { assert k[|k| - 1] == k'[|k'| - 1]; }
        if seen + DelimiterCount(k) < 2 { assert lines == [lines[0]] + lines[1..]; }
      } else {
        assert k == [lines[0]];
        assert DelimiterCount(k) == (if IsDelimiter(lines[0]) then 1 else 0) + DelimiterCount([]);
      }
    }
  }

  /** Once the kept lines hold both delimiters, whatever follows them is dropped again. */
  lemma {:induction false} FrontMatterStable(lines: seq<string>, seen: nat, more: seq<string>)
    requires seen < 2
    requires seen + DelimiterCount(FrontMatterFrom(lines, seen)) == 2
    ensures FrontMatterFrom(FrontMatterFrom(lines, seen) + more, seen) == FrontMatterFrom(lines, seen)
  {
    var k := FrontMatterFrom(lines, seen);
    var seen' := seen + (if IsDelimiter(lines[0]) then 1 else 0);
    assert (k + more)[0] == lines[0];
    if seen' < 2 {
      var k' := FrontMatterFrom(lines[1..], seen');
      assert DelimiterCount(k) == (if IsDelimiter(lines[0]) then 1 else 0) + DelimiterCount(k');
      FrontMatterStable(lines[1..], seen', more);
      assert (k + more)[1..] == k' + more;
    }
  }

  /** The lines written back by a merge: the kept front matter, one empty line, the new sections. */
  function Merged(existing: seq<string>, sections: seq<string>): seq<string>
  {
    FrontMatter(existing) + [""] + sections
  }

  /**
   * A file a merge wrote keeps the front matter it was merged into, so a later
   * merge into it depends only on that front matter and its own sections: what
   * the earlier merge wrote after the front matter is gone. With the same
   * sections twice, repeated runs are idempotent.
   */
  lemma MergeReplaces(content: string, s1: seq<string>, s2: seq<string>)
    requires DelimiterCount(FrontMatter(Lines(content))) == 2
    ensures FrontMatter(Lines(Unlines(Merged(Lines(content), s1)))) == FrontMatter(Lines(content))
    ensures Merged(Lines(Unlines(Merged(Lines(content), s1))), s2) == Merged(Lines(content), s2)
  {
    var lines := Lines(content);
    var kept := FrontMatter(lines);
    FrontMatterShape(lines);
    LinesAreSingle(content);
    assert SingleLines(kept) by {
      forall k | 0 <= k < |kept| ensures '\n' !in kept[k] { assert kept[k] == lines[k]; }
    }
    var rest := [""] + s1;
    assert Merged(lines, s1) == kept + rest;
    UnlinesAppend(kept, rest);
    LinesOfUnlines(kept, Unlines(rest));
    FrontMatterStable(lines, 0, Lines(Unlines(rest)));
  }

  /** A new index file reads back as the seven lines of its front matter. */
  lemma HeaderReadBack(name: string)
    requires '\n' !in name
    ensures Lines(Header(name)) == HeaderLines(name)
  {
    LinesOfJoin(HeaderLines(name));
  }

  /** Lines that open with one delimiter and close with the next are front matter complete. */
  lemma FrontMatterBlock(ls: seq<string>)
    requires |ls| >= 2 && IsDelimiter(ls[0]) && IsDelimiter(ls[|ls| - 1])
    requires forall i :: 0 < i < |ls| - 1 ==> !IsDelimiter(ls[i])
    ensures FrontMatter(ls) == ls && DelimiterCount(ls) == 2
  {
    FrontMatterBody(ls, 1);
    FrontMatterOpening(ls);
    assert [ls[0]] + ls[1..] == ls;
  }

  /** Reading an opening delimiter: the rest is read with one delimiter seen. */
  lemma FrontMatterOpening(ls: seq<string>)
    requires |ls| >= 1 && IsDelimiter(ls[0])
    ensures FrontMatter(ls) == [ls[0]] + FrontMatterFrom(ls[1..], 1)
    ensures DelimiterCount(ls) == 1 + DelimiterCount(ls[1..])
  {
  }

  /** After the opening delimiter, the lines up to the closing one are all kept. */
  lemma {:induction false} FrontMatterBody(ls: seq<string>, j: nat)
    requires 1 <= j < |ls| && IsDelimiter(ls[|ls| - 1])
    requires forall i :: 0 < i < |ls| - 1 ==> !IsDelimiter(ls[i])
    ensures FrontMatterFrom(ls[j..], 1) == ls[j..] && DelimiterCount(ls[j..]) == 1
    decreases |ls| - j
  {
    var rest := ls[j..];
    assert rest[0] == ls[j];
    if j < |ls| - 1 {
      FrontMatterBody(ls, j + 1);
      assert rest[1..] == ls[j + 1..];
      assert !IsDelimiter(rest[0]);
      assert rest == [rest[0]] + rest[1..];
    } else {
      assert rest[1..] == [];
    }
  }

  /** Only the first and the last line of a new index file are delimiters. */
  lemma HeaderDelimiters(name: string)
    ensures var hl := HeaderLines(name);
      IsDelimiter(hl[0]) && IsDelimiter(hl[6]) && forall i :: 0 < i < 6 ==> !IsDelimiter(hl[i])
  {
    var hl := HeaderLines(name);
    assert TrimLeft("---") == "---";
    NotDelimiterAt(hl[1], 0, 't');
    NotDelimiterAt(hl[2], 0, 'l');
    NotDelimiterAt(hl[3], 0, 'w');
    NotDelimiterAt(hl[4], 0, 'd');
    NotDelimiterAt(hl[5], 2, 'C');
  }

  lemma NotDelimiterAt(line: string, k: nat, c: char)
    requires k < |line| && line[k] == c && c != '-' && !IsSpace(c)
    ensures !IsDelimiter(line)
  {
    NotDelimiter(line, c);
  }

  /** The front matter of a new index file is kept whole by a merge, with both its delimiters. */
  lemma HeaderFrontMatter(name: string)
    requires '\n' !in name
    ensures FrontMatter(Lines(Header(name))) == HeaderLines(name)
    ensures DelimiterCount(HeaderLines(name)) == 2
  {
    HeaderReadBack(name);
    HeaderDelimiters(name);
    FrontMatterBlock(HeaderLines(name));
  }

  /** The index file of section directory `dir`. */
  function IndexPath(dir: string): string
  {
    JoinPath(dir, IndexFile)
  }

  /**
   * A directory `path.Dir` never climbs out of: `.` and `/` are its own parents,
   * and the parent of the empty path is `.`.
   */
  predicate Stuck(dir: string)
  {
    dir == "" || dir == "." || dir == "/"
  }

  /**
   * The directories the walk visits: `dir`, then each parent in turn, for as
   * long as the path still starts with `root`. A stuck directory that still
   * starts with `root` is the last one listed: the walk would visit it forever.
   */
  function Ancestors(root: string, dir: string): seq<string>
    decreases Height(dir)
  {
    if !HasPrefix(dir, root) then []
    else if Stuck(dir) then [dir]
    else
      DirClimbs(dir);
      [dir] + Ancestors(root, Dir(dir))
  }

  /** The walk ends: it has left `root` after the last directory it lists. */
  predicate WalkEnds(root: string, dir: string)
  {
    var visited := Ancestors(root, dir);
    visited == [] || !Stuck(visited[|visited| - 1])
  }

  /**
   * The walk starts at `dir` when `dir` lies under `root` and climbs one parent a
   * step through directories under `root`. After its last directory it stops
   * exactly when the parent is outside `root`; otherwise that directory is stuck
   * and the walk never ends.
   */
  lemma AncestorsShape(root: string, dir: string)
    ensures var visited := Ancestors(root, dir);
      && (visited != [] <==> HasPrefix(dir, root))
      && (visited != [] ==> visited[0] == dir)
      && (forall i :: 0 <= i < |visited| ==> HasPrefix(visited[i], root))
      && (forall i :: 0 <= i < |visited| - 1 ==> !Stuck(visited[i]) && visited[i + 1] == Dir(visited[i]))
      && (visited != [] ==> (WalkEnds(root, dir) <==> !HasPrefix(Dir(visited[|visited| - 1]), root)))
  {
    AncestorsSteps(root, dir);
    AncestorsLast(root, dir);
  }

  /** The steps of the walk: each directory listed is under `root` and the next is its parent. */
  lemma {:induction false} AncestorsSteps(root: string, dir: string)
    ensures var visited := Ancestors(root, dir);
      && (visited != [] <==> HasPrefix(dir, root))
      && (visited != [] ==> visited[0] == dir)
      && (forall i :: 0 <= i < |visited| ==> HasPrefix(visited[i], root))
      && (forall i :: 0 <= i < |visited| - 1 ==> !Stuck(visited[i]) && visited[i + 1] == Dir(visited[i]))
    decreases Height(dir)
  {
    var visited := Ancestors(root, dir);
    if HasPrefix(dir, root) && !Stuck(dir) {
      DirClimbs(dir);
      AncestorsSteps(root, Dir(dir));
      var rest := Ancestors(root, Dir(dir));
      assert visited == [dir] + rest;
      forall i | 0 <= i < |visited| - 1 ensures !Stuck(visited[i]) && visited[i + 1] == Dir(visited[i]) {
        if i > 0 { assert visited[i] == rest[i - 1] && visited[i + 1] == rest[i]; }
      }
    }
  }

  /** The end of the walk: it ends exactly when the last directory's parent is outside `root`. */
  lemma {:induction false} AncestorsLast(root: string, dir: string)
    ensures var visited := Ancestors(root, dir);
      visited != [] ==> (WalkEnds(root, dir) <==> !HasPrefix(Dir(visited[|visited| - 1]), root))
    decreases Height(dir)
  {
    var visited := Ancestors(root, dir);
    if HasPrefix(dir, root) {
      if Stuck(dir) {
        assert visited == [dir];
        StuckParent(root, dir);
      } else {
        DirClimbs(dir);
        AncestorsLast(root, Dir(dir));
        var rest := Ancestors(root, Dir(dir));
        assert visited == [dir] + rest;
        if rest != [] {
          assert visited[|visited| - 1] == rest[|rest| - 1];
        }
      }
    }
  }

  /** A stuck directory under `root` has its parent under `root` as well. */
  lemma StuckParent(root: string, dir: string)
    requires Stuck(dir) && HasPrefix(dir, root)
    ensures HasPrefix(Dir(dir), root)
  {
    DirFixedPoints();
    assert LastSlash("") == None;
    if root != [] {
      assert |root| <= |dir| <= 1;
      assert root == dir[..|root|] == dir;
    }
  }

  /** Below a root other than "", `.` and `/`, every walk ends. */
  lemma WalkableEnds(root: string, dir: string)
    requires WalkableRoot(root)
    ensures WalkEnds(root, dir)
  {
    AncestorsShape(root, dir);
    var visited := Ancestors(root, dir);
    if visited != [] {
      NotStuckBelow(root, visited[|visited| - 1]);
    }
  }

  /** A directory under a root other than "", `.` and `/` is not stuck. */
  lemma NotStuckBelow(root: string, dir: string)
    requires WalkableRoot(root) && HasPrefix(dir, root)
    ensures !Stuck(dir)
  {
    if |dir| <= 1 {
      assert root == dir[..|root|] == dir;
    }
  }

  /** The files after giving every directory of `dirs` that lacks one an index file. */
  function WithHeaders(files: map<string, string>, dirs: seq<string>): map<string, string>
    decreases |dirs|
  {
    if dirs == [] then files
    else
      var p := IndexPath(dirs[0]);
      WithHeaders(if p in files then files else files[p := Header(Base(dirs[0]))], dirs[1..])
  }

  /**
   * The walk keeps every existing file as it was, leaves an index file in every
   * visited directory, and writes a new one only as the front matter named
   * after its directory.
   */
  lemma WithHeadersEffect(files: map<string, string>, dirs: seq<string>)
    ensures var r := WithHeaders(files, dirs);
      && (forall p :: p in files ==> p in r && r[p] == files[p])
      && (forall i :: 0 <= i < |dirs| ==> IndexPath(dirs[i]) in r)
      && (forall p :: p in r && p !in files ==>
            exists i :: 0 <= i < |dirs| && IndexPath(dirs[i]) == p && r[p] == Header(Base(dirs[i])))
  {
    WithHeadersKeeps(files, dirs);
    WithHeadersCovers(files, dirs);
    WithHeadersNew(files, dirs);
  }

  lemma {:induction false} WithHeadersKeeps(files: map<string, string>, dirs: seq<string>)
    ensures var r := WithHeaders(files, dirs);
      forall p :: p in files ==> p in r && r[p] == files[p]
    decreases |dirs|
  {
    if dirs != [] {
      var p := IndexPath(dirs[0]);
      var f1 := if p in files then files else files[p := Header(Base(dirs[0]))];
      WithHeadersKeeps(f1, dirs[1..]);
      assert WithHeaders(files, dirs) == WithHeaders(f1, dirs[1..]);
      assert forall q :: q in files ==> q in f1 && f1[q] == files[q];
    }
  }

  lemma {:induction false} WithHeadersCovers(files: map<string, string>, dirs: seq<string>)
    ensures var r := WithHeaders(files, dirs);
      forall i :: 0 <= i < |dirs| ==> IndexPath(dirs[i]) in r
    decreases |dirs|
  {
    if dirs != [] {
      var p := IndexPath(dirs[0]);
      var f1 := if p in files then files else files[p := Header(Base(dirs[0]))];
      WithHeadersCovers(f1, dirs[1..]);
      WithHeadersKeeps(f1, dirs[1..]);
      var r := WithHeaders(files, dirs);
      forall i | 0 <= i < |dirs| ensures IndexPath(dirs[i]) in r {
        if i > 0 { assert dirs[i] == dirs[1..][i - 1]; } else { assert p in f1; }
      }
    }
  }

  lemma {:induction false} WithHeadersNew(files: map<string, string>, dirs: seq<string>)
    ensures var r := WithHeaders(files, dirs);
      forall p :: p in r && p !in files ==>
        exists i :: 0 <= i < |dirs| && IndexPath(dirs[i]) == p && r[p] == Header(Base(dirs[i]))
    decreases |dirs|
  {
    if dirs != [] {
      var p := IndexPath(dirs[0]);
      var f1 := if p in files then files else files[p := Header(Base(dirs[0]))];
      WithHeadersNew(f1, dirs[1..]);
      WithHeadersKeeps(f1, dirs[1..]);
      var r := WithHeaders(files, dirs);
      assert r == WithHeaders(f1, dirs[1..]);
      forall q | q in r && q !in files
        ensures exists i :: 0 <= i < |dirs| && IndexPath(dirs[i]) == q && r[q] == Header(Base(dirs[i]))
      {
        if q in f1 {
          assert q == p && r[q] == f1[q];
          assert IndexPath(dirs[0]) == q && r[q] == Header(Base(dirs[0]));
        } else {
          var i :| 0 <= i < |dirs[1..]| && IndexPath(dirs[1..][i]) == q && r[q] == Header(Base(dirs[1..][i]));
          assert dirs[i + 1] == dirs[1..][i];
        }
      }
    }
  }

  /** Where every directory already has its index file, the walk writes nothing. */
  lemma {:induction false} WithHeadersPresent(files: map<string, string>, dirs: seq<string>)
    requires forall i :: 0 <= i < |dirs| ==> IndexPath(dirs[i]) in files
    ensures WithHeaders(files, dirs) == files
  {
    if dirs != [] {
      assert IndexPath(dirs[0]) in files;
      WithHeadersPresent(files, dirs[1..]);
    }
  }

  /** A second walk over the same directories changes nothing. */
  lemma WithHeadersIdempotent(files: map<string, string>, dirs: seq<string>)
    ensures WithHeaders(WithHeaders(files, dirs), dirs) == WithHeaders(files, dirs)
  {
    WithHeadersEffect(files, dirs);
    WithHeadersPresent(WithHeaders(files, dirs), dirs);
  }

  /**
   * `createMDFiles`: walks from `mdDir` up through the directories under `root`,
   * creating the index file of each one that lacks it. The walk reports whether
   * it ends: at a stuck directory under `root` the source's loop would go on
   * forever, and the model stops there with `false`.
   */
  method CreateMDFiles(root: string, mdDir: string, disk: Disk) returns (ends: bool)
    modifies disk
    ensures disk.files == WithHeaders(old(disk.files), Ancestors(root, mdDir))
    ensures ends == WalkEnds(root, mdDir)
  {
    var dir := mdDir;
    while HasPrefix(dir, root)
      invariant WithHeaders(old(disk.files), Ancestors(root, mdDir)) == WithHeaders(disk.files, Ancestors(root, dir))
      invariant WalkEnds(root, mdDir) == WalkEnds(root, dir)
      decreases Height(dir)
    {
      var docFile := JoinPath(dir, IndexFile);
      if docFile !in disk.files {
        disk.files := disk.files[docFile := Header(Base(dir))];
      }
      if Stuck(dir) {
        assert Ancestors(root, dir) == [dir];
        return false;
      }
      DirClimbs(dir);
      WalkEndsStep(root, dir);
      dir := Dir(dir);
    }
    return true;
  }

  /** From a directory under `root` that is not stuck, the walk ends exactly when it ends from the parent. */
  lemma WalkEndsStep(root: string, dir: string)
    requires HasPrefix(dir, root) && !Stuck(dir)
    ensures Ancestors(root, dir) == [dir] + Ancestors(root, Dir(dir))
    ensures WalkEnds(root, dir) == WalkEnds(root, Dir(dir))
  {
    var rest := Ancestors(root, Dir(dir));
    var visited := Ancestors(root, dir);
    if rest != [] {
      assert visited[|visited| - 1] == rest[|rest| - 1];
    }
  }

  /**
   * The index file of the walk's first directory after the walk: there exactly
   * when it existed or the walk visits its directory; kept when it existed, new
   * otherwise.
   */
  lemma IndexAfterWalk(root: string, mdDir: string, files: map<string, string>)
    ensures var walked := WithHeaders(files, Ancestors(root, mdDir));
      && (IndexPath(mdDir) in walked <==> IndexPath(mdDir) in files || HasPrefix(mdDir, root))
      && (IndexPath(mdDir) in files ==> walked[IndexPath(mdDir)] == files[IndexPath(mdDir)])
      && (IndexPath(mdDir) !in files && HasPrefix(mdDir, root) ==> walked[IndexPath(mdDir)] == Header(Base(mdDir)))
  {
    var dirs := Ancestors(root, mdDir);
    AncestorsShape(root, mdDir);
    if HasPrefix(mdDir, root) {
      var p := IndexPath(mdDir);
      var f1 := if p in files then files else files[p := Header(Base(mdDir))];
      assert WithHeaders(files, dirs) == WithHeaders(f1, dirs[1..]);
      WithHeadersEffect(f1, dirs[1..]);
    } else {
      assert dirs == [];
    }
  }

  /**
   * The effect of merging rendered sections into the index file of `mdDir`: the
   * walk's files; an error when the walk never ends or the index file is not
   * there to be opened; and otherwise, on success, the index file rewritten as
   * its kept front matter, an empty line and the sections, one `Fprintln` per line.
   */
  function MergeOutcome(root: string, mdDir: string, files: map<string, string>, sections: Result<Output, Error>): Outcome
  {
    var walked := WithHeaders(files, Ancestors(root, mdDir));
    var doc := IndexPath(mdDir);
    if !WalkEnds(root, mdDir) then Outcome(walked, Err(WalkDoesNotEnd))
    else if doc !in walked then Outcome(walked, Err(FileNotFound(doc)))
    else match sections
      case Err(e) => Outcome(walked, Err(e))
      case Ok(o) => Outcome(walked[doc := Unlines(Merged(Lines(walked[doc]), o.lines))], Ok(o.groups))
  }

  /**
   * A merge leaves every file other than the index files of the walked
   * directories as it was, and an existing index file other than the merged one
   * as well.
   */
  lemma MergeOutcomeFrame(root: string, mdDir: string, files: map<string, string>, sections: Result<Output, Error>)
    ensures var out := MergeOutcome(root, mdDir, files, sections).files;
      && files.Keys <= out.Keys
      && forall p :: p in files && p != IndexPath(mdDir) ==> out[p] == files[p]
  {
    WithHeadersEffect(files, Ancestors(root, mdDir));
  }

  /**
   * A merge does not depend on what an earlier merge wrote after the front
   * matter: once the index file's front matter is complete, merging `s2` into
   * the files a merge of `s1` left gives what merging `s2` alone gives, unless
   * `s1` rendered and `s2` failed. With `s1 == s2` this is idempotence.
   */
  lemma MergeOutcomeReplaces(root: string, mdDir: string, files: map<string, string>,
                             s1: Result<Output, Error>, s2: Result<Output, Error>)
    requires var walked := WithHeaders(files, Ancestors(root, mdDir));
      IndexPath(mdDir) in walked ==> DelimiterCount(FrontMatter(Lines(walked[IndexPath(mdDir)]))) == 2
    requires s1.Err? || s2.Ok?
    ensures var first := MergeOutcome(root, mdDir, files, s1);
      MergeOutcome(root, mdDir, first.files, s2) == MergeOutcome(root, mdDir, files, s2)
  {
    var dirs := Ancestors(root, mdDir);
    var walked := WithHeaders(files, dirs);
    var first := MergeOutcome(root, mdDir, files, s1);
    WalkAgain(files, dirs, first.files);
    if WalkEnds(root, mdDir) && IndexPath(mdDir) in walked && s1.Ok? {
      MergeTwice(root, mdDir, files, s1.value, s2.value);
    } else {
      assert first.files == walked;
      SameWalk(root, mdDir, files, first.files, s2);
    }
  }

  /** Files on which the walk leaves the same result give the same merge. */
  lemma SameWalk(root: string, mdDir: string, files: map<string, string>, later: map<string, string>, s: Result<Output, Error>)
    requires WithHeaders(later, Ancestors(root, mdDir)) == WithHeaders(files, Ancestors(root, mdDir))
    ensures MergeOutcome(root, mdDir, later, s) == MergeOutcome(root, mdDir, files, s)
  {
  }

  /** Two merges that both render, the second into the file the first wrote. */
  lemma MergeTwice(root: string, mdDir: string, files: map<string, string>, o1: Output, o2: Output)
    requires WalkEnds(root, mdDir)
    requires var walked := WithHeaders(files, Ancestors(root, mdDir));
      IndexPath(mdDir) in walked && DelimiterCount(FrontMatter(Lines(walked[IndexPath(mdDir)]))) == 2
    requires var first := MergeOutcome(root, mdDir, files, Ok(o1));
      WithHeaders(first.files, Ancestors(root, mdDir)) == first.files
    ensures var first := MergeOutcome(root, mdDir, files, Ok(o1));
      MergeOutcome(root, mdDir, first.files, Ok(o2)) == MergeOutcome(root, mdDir, files, Ok(o2))
  {
    var walked := WithHeaders(files, Ancestors(root, mdDir));
    var doc := IndexPath(mdDir);
    var content := walked[doc];
    var c1 := Unlines(Merged(Lines(content), o1.lines));
    MergeOutcomeOk(root, mdDir, files, o1);
    var later := walked[doc := c1];
    assert MergeOutcome(root, mdDir, files, Ok(o1)).files == later;
    MergeOutcomeOk(root, mdDir, later, o2);
    MergeOutcomeOk(root, mdDir, files, o2);
    RewriteIndex(walked, doc, o1.lines, o2.lines);
  }

  /** Rewriting an index file twice leaves what rewriting it once with the later sections leaves. */
  lemma RewriteIndex(walked: map<string, string>, doc: string, s1: seq<string>, s2: seq<string>)
    requires doc in walked && DelimiterCount(FrontMatter(Lines(walked[doc]))) == 2
    ensures var c1 := Unlines(Merged(Lines(walked[doc]), s1));
      walked[doc := c1][doc := Unlines(Merged(Lines(c1), s2))] == walked[doc := Unlines(Merged(Lines(walked[doc]), s2))]
  {
    MergeReplaces(walked[doc], s1, s2);
  }

  /** A merge whose walk ends at an index file and whose sections render. */
  lemma MergeOutcomeOk(root: string, mdDir: string, files: map<string, string>, o: Output)
    requires WalkEnds(root, mdDir) && IndexPath(mdDir) in WithHeaders(files, Ancestors(root, mdDir))
    ensures var walked := WithHeaders(files, Ancestors(root, mdDir));
      var doc := IndexPath(mdDir);
      MergeOutcome(root, mdDir, files, Ok(o)) == Outcome(walked[doc := Unlines(Merged(Lines(walked[doc]), o.lines))], Ok(o.groups))
  {
  }

  /** Files holding at least what a walk wrote make the walk write nothing more. */
  lemma WalkAgain(files: map<string, string>, dirs: seq<string>, later: map<string, string>)
    requires WithHeaders(files, dirs).Keys <= later.Keys
    ensures WithHeaders(later, dirs) == later
  {
    WithHeadersEffect(files, dirs);
    WithHeadersPresent(later, dirs);
  }

  /**
   * After the walk, the index file of `mdDir`, if there is one, has complete
   * front matter: it had it before, or the walk creates it with a header whose
   * name holds no newline.
   */
  lemma CompleteAfterWalk(root: string, mdDir: string, files: map<string, string>)
    requires if IndexPath(mdDir) in files then DelimiterCount(FrontMatter(Lines(files[IndexPath(mdDir)]))) == 2
             else '\n' !in Base(mdDir)
    ensures var walked := WithHeaders(files, Ancestors(root, mdDir));
      IndexPath(mdDir) in walked ==> DelimiterCount(FrontMatter(Lines(walked[IndexPath(mdDir)]))) == 2
  {
    IndexAfterWalk(root, mdDir, files);
    if IndexPath(mdDir) !in files && HasPrefix(mdDir, root) {
      HeaderFrontMatter(Base(mdDir));
    }
  }

  /**
   * The merge of `ExportConfigs`/`WriteConfigs` after the routing: creates the
   * missing index files, keeps the index file's front matter and an empty line,
   * appends the rendered sections and writes the lines back.
   */
  method MergeIndex(root: string, mdDir: string, header: string -> string,
                    render: FieldInfo -> Result<Rendered, Error>, groups: seq<Group>, disk: Disk)
    returns (r: Result<seq<Group>, Error>)
    modifies disk
    ensures var out := MergeOutcome(root, mdDir, old(disk.files), RenderGroups(header, render, groups));
      disk.files == out.files && r == out.result
  {
    var ends := CreateMDFiles(root, mdDir, disk);
    if !ends {
      return Err(WalkDoesNotEnd);
    }
    var docFile := IndexPath(mdDir);
    if docFile !in disk.files {
      return Err(FileNotFound(docFile));
    }
    var lines := KeepFrontMatter(Lines(disk.files[docFile]));
    lines := lines + [""];
    var sections := RenderSections(header, render, groups);
    if sections.Err? {
      return Err(sections.error);
    }
    lines := lines + sections.value.lines;
    disk.files := disk.files[docFile := Unlines(lines)];
    r := Ok(sections.value.groups);
  }
}
