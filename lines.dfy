/**
 * Files as text and as lines: what a `bufio.Scanner` with line splitting reads
 * from a file, and what writing each line with `fmt.Fprintln` produces.
 */
module TextFile {
  import opened Text

  /** The index of the first `c` in `s`, or `|s|` when there is none. */
  function IndexOf(s: string, c: char): (i: nat)
    ensures i <= |s|
    ensures c !in s[..i]
    ensures i < |s| ==> s[i] == c
  {
    if s == [] then 0 else if s[0] == c then 0 else 1 + IndexOf(s[1..], c)
  }

  /**
   * The lines a scanner yields: the text between newlines, where a final
   * newline ends the last line rather than starting an empty one.
   */
  function Lines(s: string): (ls: seq<string>)
    decreases |s|
  {
    if s == [] then []
    else
      var i := IndexOf(s, '\n');
      if i == |s| then [s] else [s[..i]] + Lines(s[i + 1..])
  }

  /** The text written by printing every line followed by a newline. */
  function Unlines(ls: seq<string>): (s: string)
    ensures |s| >= |ls|
  {
    if ls == [] then [] else ls[0] + "\n" + Unlines(ls[1..])
  }

  /** Scanned lines never hold a newline. */
  lemma {:induction false} LinesAreSingle(s: string)
    ensures SingleLines(Lines(s))
    decreases |s|
  {
    if s != [] {
      var i := IndexOf(s, '\n');
      if i < |s| {
        LinesAreSingle(s[i + 1..]);
      }
    }
  }

  /** No line holds a newline of its own. */
  predicate SingleLines(ls: seq<string>)
  {
    forall k :: 0 <= k < |ls| ==> '\n' !in ls[k]
  }

  /** Reading a line of its own, then the rest. */
  lemma LinesOfLine(l: string, rest: string)
    requires '\n' !in l
    ensures Lines(l + "\n" + rest) == [l] + Lines(rest)
  {
    var s := l + "\n" + rest;
    assert s[..|l|] == l;
    IndexOfAt(s, |l|);
    assert s[|l| + 1..] == rest;
  }

  lemma {:induction false} IndexOfAt(s: string, i: nat)
    requires i < |s| && s[i] == '\n' && '\n' !in s[..i]
    ensures IndexOf(s, '\n') == i
  {
    if i > 0 {
      assert s[..i][0] == s[0];
      assert s[1..][..i - 1] == s[1..i];
      assert forall k :: 1 <= k < i ==> s[k] == s[..i][k];
      IndexOfAt(s[1..], i - 1);
    }
  }

  lemma {:induction false} UnlinesAppend(a: seq<string>, b: seq<string>)
    ensures Unlines(a + b) == Unlines(a) + Unlines(b)
  {
    if a == [] {
      assert a + b == b;
    } else {
      assert (a + b)[0] == a[0];
      assert (a + b)[1..] == a[1..] + b;
      UnlinesAppend(a[1..], b);
    }
  }

  /** Lines written out and read back in come back unchanged, whatever follows them. */
  lemma {:induction false} LinesOfUnlines(ls: seq<string>, rest: string)
    requires SingleLines(ls)
    ensures Lines(Unlines(ls) + rest) == ls + Lines(rest)
  {
    if ls == [] {
      assert Unlines(ls) + rest == rest;
    } else {
      var tail := ls[1..];
      assert SingleLines(tail) by {
        forall k | 0 <= k < |tail| ensures '\n' !in tail[k] { assert tail[k] == ls[k + 1]; }
      }
      LinesOfUnlines(tail, rest);
      UnlinesStep(ls, rest);
      ConsAppend(Lines(Unlines(ls) + rest), Lines(Unlines(tail) + rest), ls, Lines(rest));
    }
  }

  /** `l` is `ls[0]` before `a`, and `a` is the rest of `ls` before `r`: then `l` is `ls` before `r`. */
  lemma ConsAppend(l: seq<string>, a: seq<string>, ls: seq<string>, r: seq<string>)
    requires ls != [] && l == [ls[0]] + a && a == ls[1..] + r
    ensures l == ls + r
  {
    assert ls == [ls[0]] + ls[1..];
  }

  lemma UnlinesStep(ls: seq<string>, rest: string)
    requires ls != [] && '\n' !in ls[0]
    ensures Lines(Unlines(ls) + rest) == [ls[0]] + Lines(Unlines(ls[1..]) + rest)
  {
    var tail := Unlines(ls[1..]) + rest;
    assert Unlines(ls) + rest == ls[0] + "\n" + tail;
    LinesOfLine(ls[0], tail);
  }

  /** Lines joined by newlines read back as those lines, when the last one is not empty. */
  lemma {:induction false} LinesOfJoin(ls: seq<string>)
    requires |ls| > 0 && SingleLines(ls) && ls[|ls| - 1] != []
    ensures Lines(Join(ls, "\n")) == ls
  {
    if |ls| == 1 {
      assert IndexOf(ls[0], '\n') == |ls[0]|;
    } else {
      LinesOfJoin(ls[1..]);
      LinesOfLine(ls[0], Join(ls[1..], "\n"));
    }
  }

  /** Writing lines and scanning the file yields exactly those lines. */
  lemma RoundTrip(ls: seq<string>)
    requires SingleLines(ls)
    ensures Lines(Unlines(ls)) == ls
  {
    LinesOfUnlines(ls, []);
    assert Unlines(ls) + [] == Unlines(ls);
  }
}
