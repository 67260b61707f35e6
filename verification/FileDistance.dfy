/** `getFileDistance` of core/aws-lsp-core/src/util/filesystem.ts: the distance of two files in the tree
    of directories. */
module FileDistance {
  import Paths

  type Dir = seq<string>

  /** The components of the directory a file is in. */
  function ParentDir(file: string, nodeNormalize: string -> string): Dir {
    var components := Paths.Split(Paths.Normalize(file, nodeNormalize));
    components[..|components| - 1]
  }

  predicate Agrees(a: Dir, b: Dir, n: nat) {
    n <= |a| && n <= |b| && forall i | 0 <= i < n :: a[i] == b[i]
  }

  /** The length of the longest common prefix. */
  function Common(a: Dir, b: Dir): (n: nat)
    ensures Agrees(a, b, n)
    ensures n < |a| && n < |b| ==> a[n] != b[n]
  {
    if a == [] || b == [] || a[0] != b[0] then 0 else 1 + Common(a[1..], b[1..])
  }

  function Distance(a: Dir, b: Dir): nat {
    |a| + |b| - 2 * Common(a, b)
  }

  method GetFileDistance(fileA: string, fileB: string, nodeNormalize: string -> string) returns (d: nat)
    ensures d == Distance(ParentDir(fileA, nodeNormalize), ParentDir(fileB, nodeNormalize))
  {
    hide Paths.Normalize, Paths.Split;
    var filePathA := Paths.Split(Paths.Normalize(fileA, nodeNormalize));
    filePathA := filePathA[..|filePathA| - 1];
    var filePathB := Paths.Split(Paths.Normalize(fileB, nodeNormalize));
    filePathB := filePathB[..|filePathB| - 1];
    var i := 0;
    while i < |filePathA| && i < |filePathB|
      invariant Agrees(filePathA, filePathB, i)
    {
      if filePathA[i] != filePathB[i] {
        break;
      }
      i := i + 1;
    }
    CommonUnique(filePathA, filePathB, i);
    d := |filePathA[i..]| + |filePathB[i..]|;
  }

  /** A common prefix that cannot be extended is the longest one. */
  lemma CommonUnique(a: Dir, b: Dir, n: nat)
    requires Agrees(a, b, n) && (n < |a| && n < |b| ==> a[n] != b[n])
    ensures n == Common(a, b)
  {
    var m := Common(a, b);
  }

  lemma CommonAtLeast(a: Dir, b: Dir, n: nat)
    requires Agrees(a, b, n)
    ensures Common(a, b) >= n
  {
    var m := Common(a, b);
  }

  /** A pseudo-metric on files, and a metric on directories: zero exactly for equal directories,
      symmetric, and subject to the triangle inequality. */
  lemma DistanceIsMetric(a: Dir, b: Dir, c: Dir)
    ensures Distance(a, b) == 0 <==> a == b
    ensures Distance(a, b) == Distance(b, a)
    ensures Distance(a, c) <= Distance(a, b) + Distance(b, c)
  {
    CommonUnique(b, a, Common(a, b));
    if a == b {
      CommonUnique(a, b, |a|);
    }
    var m := if Common(a, b) < Common(b, c) then Common(a, b) else Common(b, c);
    CommonAtLeast(a, c, m);
  }

  /** Below their last common directory, every directory on either side counts one. */
  lemma DistanceCounts(common: Dir, x: Dir, y: Dir)
    requires x == [] || y == [] || x[0] != y[0]
    ensures Distance(common + x, common + y) == |x| + |y|
  {
    CommonUnique(common + x, common + y, |common|);
  }

  /** The directory of a file is all before its last slash, and a file without one is in no directory. */
  lemma ParentDirIs(file: string, nodeNormalize: string -> string, dir: string, name: string)
    requires '/' !in name
    ensures Paths.Normalize(file, nodeNormalize) == dir + "/" + name ==>
      ParentDir(file, nodeNormalize) == Paths.Split(dir)
    ensures Paths.Normalize(file, nodeNormalize) == name ==> ParentDir(file, nodeNormalize) == []
  {
    Paths.SplitConcat(dir, name);
    Paths.SplitWhole(name);
    hide Paths.Normalize, Paths.Split;
  }

  /** Files of one directory have distance 0, and one directory further down adds 1. */
  lemma SameAndDeeperDirectory(
      fileA: string, fileB: string, nodeNormalize: string -> string, dir: string, sub: string, a: string, b: string)
    requires '/' !in a && '/' !in b && '/' !in sub
    requires Paths.Normalize(fileA, nodeNormalize) == dir + "/" + a
    ensures Paths.Normalize(fileB, nodeNormalize) == dir + "/" + b ==>
      Distance(ParentDir(fileA, nodeNormalize), ParentDir(fileB, nodeNormalize)) == 0
    ensures Paths.Normalize(fileB, nodeNormalize) == dir + "/" + sub + "/" + b ==>
      Distance(ParentDir(fileA, nodeNormalize), ParentDir(fileB, nodeNormalize)) == 1
  {
    ParentDirIs(fileA, nodeNormalize, dir, a);
    ParentDirIs(fileB, nodeNormalize, dir, b);
    ParentDirIs(fileB, nodeNormalize, dir + "/" + sub, b);
    Paths.SplitConcat(dir, sub);
    Paths.SplitWhole(sub);
    var c := Paths.Split(dir);
    hide Paths.Normalize, Paths.Split, ParentDir, Distance;
    DistanceCounts(c, [], []);
    DistanceCounts(c, [], [sub]);
    assert c + [] == c;
  }

  // ---------------------------------------------------------------- as a walk

  /** One step in the tree: into a child directory or back to the parent. */
  predicate Adjacent(a: Dir, b: Dir) {
    (b != [] && a == b[..|b| - 1]) || (a != [] && b == a[..|a| - 1])
  }

  predicate IsWalk(walk: seq<Dir>, a: Dir, b: Dir) {
    && walk != [] && walk[0] == a && walk[|walk| - 1] == b
    && forall i | 0 <= i < |walk| - 1 :: Adjacent(walk[i], walk[i + 1])
  }

  lemma AdjacentIsOne(a: Dir, b: Dir)
    requires Adjacent(a, b)
    ensures Distance(a, b) == 1
  {
    CommonUnique(a, b, if |a| < |b| then |a| else |b|);
  }

  /** No walk between the two directories is shorter than the distance ... */
  lemma {:induction false} NoShorterWalk(walk: seq<Dir>, a: Dir, b: Dir)
    requires IsWalk(walk, a, b)
    ensures Distance(a, b) <= |walk| - 1
  {
    if |walk| == 1 {
      DistanceIsMetric(a, b, b);
    } else {
      var rest, next := walk[1..], walk[1];
      assert forall i | 0 <= i < |rest| - 1 :: Adjacent(rest[i], rest[i + 1]) by {
        forall i | 0 <= i < |rest| - 1 ensures Adjacent(rest[i], rest[i + 1]) {
          assert Adjacent(walk[i + 1], walk[i + 2]);
        }
      }
      NoShorterWalk(rest, next, b);
      AdjacentIsOne(a, next);
      DistanceIsMetric(a, next, b);
    }
  }

  /** ... and there is one of that length. */
  lemma {:induction false} ShortestWalk(a: Dir, b: Dir) returns (walk: seq<Dir>)
    ensures IsWalk(walk, a, b) && |walk| - 1 == Distance(a, b)
    decreases Distance(a, b)
  {
    if a == b {
      DistanceIsMetric(a, b, b);
      walk := [a];
    } else {
      var n := Common(a, b);
      var next := if n < |a| then a[..|a| - 1] else b[..|a| + 1];
      assert Adjacent(a, next);
      CommonUnique(next, b, if n < |a| then n else n + 1);
      var rest := ShortestWalk(next, b);
      walk := [a] + rest;
      forall i | 0 <= i < |walk| - 1 ensures Adjacent(walk[i], walk[i + 1]) {
        if i > 0 {
          assert Adjacent(rest[i - 1], rest[i]);
        }
      }
    }
  }
}
