/**
  `normalizeSeparator`, `isUncPath`, `normalize` and `isInDirectory` of core/aws-lsp-core/src/util/path.ts.
 */
module Paths {
  import Text

  predicate IsSep(c: char) {
    c == '/' || c == '\\'
  }

  /** `p.replace(/[\/\\]+/g, '/')` */
  function Collapse(s: string): string {
    if s == "" then ""
    else if !IsSep(s[0]) then [s[0]] + Collapse(s[1..])
    else if |s| > 1 && IsSep(s[1]) then Collapse(s[1..])
    else "/" + Collapse(s[1..])
  }

  /** `/^\s*[\/\\]{2}[^\/\\]+/` */
  predicate IsUncPath(p: string) {
    var t := Text.TrimStart(p);
    |t| >= 3 && IsSep(t[0]) && IsSep(t[1]) && !IsSep(t[2])
  }

  function NormalizeSeparator(p: string): string {
    if IsUncPath(p) then "/" + Collapse(p) else Collapse(p)
  }

  predicate IsLetter(c: char) {
    'a' <= c <= 'z' || 'A' <= c <= 'Z'
  }

  function ToUpper(c: char): char {
    if 'a' <= c <= 'z' then (c as int - 'a' as int + 'A' as int) as char else c
  }

  /** `normalize`; Node's `path.normalize` is the parameter. */
  function Normalize(p: string, nodeNormalize: string -> string): string {
    if p == "" then p
    else if |p| >= 2 && IsLetter(p[0]) && p[1] == ':' then
      NormalizeSeparator(nodeNormalize([ToUpper(p[0])] + p[1..]))
    else if IsUncPath(p) then NormalizeSeparator(p)
    else NormalizeSeparator(nodeNormalize(p))
  }

  /** `s.split('/')` */
  function Split(s: string): (pieces: seq<string>)
    ensures |pieces| >= 1
  {
    if s == "" then [""]
    else
      var rest := Split(s[1..]);
      if s[0] == '/' then [""] + rest else [[s[0]] + rest[0]] + rest[1..]
  }

  function StripTrailing(pieces: seq<string>): (r: seq<string>)
    ensures r <= pieces
    ensures r != [] ==> r[|r| - 1] != ""
    ensures forall i | |r| <= i < |pieces| :: pieces[i] == ""
  {
    if pieces != [] && pieces[|pieces| - 1] == "" then StripTrailing(pieces[..|pieces| - 1]) else pieces
  }

  /** Each piece of the directory matches the piece of the path at its place.  `fold` is `toLowerCase`
      where file names are case-insensitive, and the identity elsewhere. */
  predicate Matches(dir: seq<string>, path: seq<string>, fold: string -> string) {
    |dir| <= |path| && forall i | 0 <= i < |dir| :: fold(dir[i]) == fold(path[i])
  }

  predicate In(d: string, p: string, fold: string -> string) {
    d == "" || p == "" ||
    var dir, path := Split(NormalizeSeparator(d)), Split(NormalizeSeparator(p));
    |dir| <= |path| && Matches(StripTrailing(dir), path, fold)
  }

  method IsInDirectory(d: string, p: string, fold: string -> string) returns (r: bool)
    ensures r == In(d, p, fold)
    ensures d == "" || p == "" ==> r
    ensures (forall s :: fold(s) == s) && d != "" && p != "" && !IsSep(d[|d| - 1]) ==>
      var dir, path := NormalizeSeparator(d), NormalizeSeparator(p);
      r <==> path == dir || dir + "/" <= path
  {
    if d == "" || p == "" {
      return true;
    }
    if (forall s :: fold(s) == s) && !IsSep(d[|d| - 1]) {
      InMeansBelow(d, p, fold);
    }
    var dir, path := Split(NormalizeSeparator(d)), Split(NormalizeSeparator(p));
    if |dir| > |path| {
      return false;
    }
    ghost var all := dir;
    while |dir| > 0 && dir[|dir| - 1] == ""
      invariant |dir| <= |path|
      invariant StripTrailing(dir) == StripTrailing(all)
    {
      dir := dir[..|dir| - 1];
    }
    r := forall i | 0 <= i < |dir| :: fold(dir[i]) == fold(path[i]);
  }

  // ---------------------------------------------------------------- normalisation

  /** No backslash and no two separators in a row. */
  predicate Collapsed(s: string) {
    && (forall i | 0 <= i < |s| :: s[i] != '\\')
    && (forall i | 0 <= i < |s| - 1 :: s[i] == '/' ==> s[i + 1] != '/')
  }

  lemma {:induction false} CollapseCollapses(s: string)
    ensures Collapsed(Collapse(s))
    ensures s != "" ==> Collapse(s) != "" && Collapse(s)[0] == (if IsSep(s[0]) then '/' else s[0])
    ensures s == "" ==> Collapse(s) == ""
  {
    if s != "" {
      CollapseCollapses(s[1..]);
      var c := Collapse(s[1..]);
      if !IsSep(s[0]) || !(|s| > 1 && IsSep(s[1])) {
        assert Collapse(s)[1..] == c;
        assert forall i | 1 <= i < |Collapse(s)| :: Collapse(s)[i] == c[i - 1];
      }
    }
  }

  lemma {:induction false} CollapsedIsFixed(s: string)
    requires Collapsed(s)
    ensures Collapse(s) == s
  {
    if s != "" {
      assert forall i | 0 <= i < |s| - 1 :: s[1..][i] == s[i + 1];
      CollapsedIsFixed(s[1..]);
    }
  }

  lemma {:induction false} TrimStartIsSuffix(s: string) returns (k: nat)
    ensures k <= |s| && Text.TrimStart(s) == s[k..]
  {
    if s != "" && Text.IsSpace(s[0]) {
      var j := TrimStartIsSuffix(s[1..]);
      k := j + 1;
    } else {
      k := 0;
    }
  }

  lemma CollapsedIsNotUnc(s: string)
    requires Collapsed(s)
    ensures !IsUncPath(s)
  {
    var k := TrimStartIsSuffix(s);
  }

  /** Normalising twice is normalising once, also for UNC paths and behind leading white space. */
  lemma NormalizeSeparatorIdempotent(p: string)
    ensures NormalizeSeparator(NormalizeSeparator(p)) == NormalizeSeparator(p)
  {
    var c := Collapse(p);
    CollapseCollapses(p);
    CollapsedIsFixed(c);
    if !IsUncPath(p) {
      CollapsedIsNotUnc(c);
    } else {
      var n := "/" + c;
      assert n[1..] == c;
      if Text.IsSpace(p[0]) {
        assert Collapsed(n);
        CollapsedIsFixed(n);
        CollapsedIsNotUnc(n);
      } else {
        UncCollapse(p);
        assert Text.TrimStart(n) == n;
      }
    }
  }

  lemma UncCollapse(p: string)
    requires |p| >= 3 && IsSep(p[0]) && IsSep(p[1]) && !IsSep(p[2])
    ensures |Collapse(p)| >= 2 && Collapse(p)[0] == '/' && !IsSep(Collapse(p)[1])
  {
    assert p[1..][1..] == p[2..];
    CollapseCollapses(p[2..]);
    assert Collapse(p) == Collapse(p[1..]) == "/" + Collapse(p[2..]);
  }

  /** The initial double slash of a UNC path survives normalising exactly when no white space is in
      front of it: otherwise the extra slash lands before the white space. */
  lemma UncSurvivesIff(p: string)
    ensures IsUncPath(NormalizeSeparator(p)) <==> IsUncPath(p) && !Text.IsSpace(p[0])
  {
    var c := Collapse(p);
    CollapseCollapses(p);
    if !IsUncPath(p) {
      CollapsedIsNotUnc(c);
    } else {
      var n := "/" + c;
      assert n[1..] == c;
      if Text.IsSpace(p[0]) {
        assert Collapsed(n);
        CollapsedIsNotUnc(n);
      } else {
        UncCollapse(p);
        assert Text.TrimStart(n) == n;
      }
    }
  }

  /** Two separators, of either kind, then something else, behind any white space. */
  lemma UncPathIff(p: string)
    ensures IsUncPath(p) <==>
      exists k | 0 <= k < |p| - 2 ::
        && (forall i | 0 <= i < k :: Text.IsSpace(p[i]))
        && p[k] in "/\\" && p[k + 1] in "/\\" && p[k + 2] !in "/\\"
  {
    var k := Text.TrimStartCuts(p);
    assert !Text.IsSpace('/') && !Text.IsSpace('\\');
    var t := Text.TrimStart(p);
    assert forall i | 0 <= i < |t| :: t[i] == p[k + i];
    hide Text.IsSpace;
  }

  /** What the first character contributes. */
  function CollapseHead(s: string): string
    requires s != ""
  {
    if !IsSep(s[0]) then [s[0]] else if |s| > 1 && IsSep(s[1]) then "" else "/"
  }

  lemma CollapseStep(s: string)
    requires s != ""
    ensures Collapse(s) == CollapseHead(s) + Collapse(s[1..])
  {
  }

  lemma HeadOfConcat(a: string, b: string)
    requires a != "" && (b == "" || !IsSep(a[|a| - 1]) || !IsSep(b[0]))
    ensures CollapseHead(a + b) == CollapseHead(a)
  {
    assert (a + b)[0] == a[0];
    if |a| > 1 {
      assert (a + b)[1] == a[1];
    }
  }

  lemma ConcatStep(a: string, b: string)
    requires a != "" && (b == "" || !IsSep(a[|a| - 1]) || !IsSep(b[0]))
    ensures Collapse(a + b) == CollapseHead(a) + Collapse(a[1..] + b)
  {
    CollapseStep(a + b);
    HeadOfConcat(a, b);
    hide Collapse, CollapseHead, IsSep;
    assert (a + b)[1..] == a[1..] + b;
  }

  lemma ConcatAssoc(x: string, y: string, z: string)
    ensures x + (y + z) == (x + y) + z
  {
  }

  /** Collapsing works piece by piece: a run of separators becomes one slash, and everything between two
      runs is kept. */
  lemma {:induction false} CollapseConcat(a: string, b: string)
    requires a == "" || b == "" || !IsSep(a[|a| - 1]) || !IsSep(b[0])
    ensures Collapse(a + b) == Collapse(a) + Collapse(b)
  {
    if a == "" {
      assert a + b == b && Collapse(a) == "";
      hide Collapse;
    } else {
      hide Collapse, CollapseHead, IsSep;
      var rest := a[1..];
      ConcatStep(a, b);
      CollapseStep(a);
      CollapseConcat(rest, b);
      ConcatAssoc(CollapseHead(a), Collapse(rest), Collapse(b));
    }
  }

  lemma {:induction false} CollapseParts(s: string)
    ensures (forall i | 0 <= i < |s| :: s[i] !in "/\\") ==> Collapse(s) == s
    ensures s != "" && (forall i | 0 <= i < |s| :: s[i] in "/\\") ==> Collapse(s) == "/"
  {
    if s != "" {
      CollapseParts(s[1..]);
      if |s| == 1 {
        assert s[1..] == "";
      }
    }
  }

  /** A UNC path gets one slash back in front; no other path does. */
  lemma NormalizeSeparatorAddsSlash(p: string)
    ensures NormalizeSeparator(p) == if IsUncPath(p) then "/" + Collapse(p) else Collapse(p)
    ensures |NormalizeSeparator(p)| == |Collapse(p)| + (if IsUncPath(p) then 1 else 0)
  {
  }

  lemma DriveLetterUpper(c: char)
    ensures IsLetter(c) <==> 65 <= c as int <= 90 || 97 <= c as int <= 122
    ensures 97 <= c as int <= 122 ==> ToUpper(c) as int == c as int - 32
    ensures !(97 <= c as int <= 122) ==> ToUpper(c) == c
  {
  }

  /** Whatever Node's normalisation does, the result has normal separators, and the case of a drive
      letter does not matter.  Node's normalisation is applied to every path but the empty and UNC ones,
      and to a drive path with its letter in upper case. */
  lemma NormalizeFacts(p: string, nodeNormalize: string -> string)
    ensures NormalizeSeparator(Normalize(p, nodeNormalize)) == Normalize(p, nodeNormalize)
    ensures |p| >= 2 && IsLetter(p[0]) && p[1] == ':' ==>
      && Normalize([ToUpper(p[0])] + p[1..], nodeNormalize) == Normalize(p, nodeNormalize)
      && Normalize(p, nodeNormalize) == NormalizeSeparator(nodeNormalize([ToUpper(p[0])] + p[1..]))
    ensures !(|p| >= 2 && IsLetter(p[0]) && p[1] == ':') ==>
      Normalize(p, nodeNormalize) ==
        if p == "" then "" else NormalizeSeparator(if IsUncPath(p) then p else nodeNormalize(p))
  {
    if p == "" {
      assert Text.TrimStart(p) == "";
    } else if |p| >= 2 && IsLetter(p[0]) && p[1] == ':' {
      var q := [ToUpper(p[0])] + p[1..];
      assert [ToUpper(q[0])] + q[1..] == q;
      NormalizeSeparatorIdempotent(nodeNormalize(q));
    } else if IsUncPath(p) {
      NormalizeSeparatorIdempotent(p);
    } else {
      NormalizeSeparatorIdempotent(nodeNormalize(p));
    }
  }

  // ---------------------------------------------------------------- pieces

  /** A string without a slash is its own only piece ... */
  lemma {:induction false} SplitWhole(s: string)
    requires '/' !in s
    ensures Split(s) == [s]
  {
    if s != "" {
      SplitWhole(s[1..]);
      assert [s[0]] + s[1..] == s;
    }
  }

  /** ... and the pieces on the two sides of any slash are put side by side.  No piece has a slash. */
  lemma {:induction false} SplitConcat(a: string, b: string)
    ensures Split(a + "/" + b) == Split(a) + Split(b)
  {
    var s := a + "/" + b;
    if a == "" {
      assert s[0] == '/' && s[1..] == b;
    } else {
      assert s[0] == a[0] && s[1..] == a[1..] + "/" + b;
      SplitConcat(a[1..], b);
    }
  }

  lemma {:induction false} PiecesHaveNoSlash(s: string)
    ensures forall i | 0 <= i < |Split(s)| :: '/' !in Split(s)[i]
  {
    if s != "" {
      PiecesHaveNoSlash(s[1..]);
    }
  }

  /** `pieces.join('/')` */
  function JoinPieces(pieces: seq<string>): string
    requires pieces != []
  {
    if |pieces| == 1 then pieces[0] else pieces[0] + "/" + JoinPieces(pieces[1..])
  }

  lemma {:induction false} JoinConcat(a: seq<string>, b: seq<string>)
    requires a != [] && b != []
    ensures JoinPieces(a + b) == JoinPieces(a) + "/" + JoinPieces(b)
  {
    assert (a + b)[1..] == a[1..] + b;
    if |a| > 1 {
      JoinConcat(a[1..], b);
      var x, y := JoinPieces(a[1..]), JoinPieces(b);
      assert a[0] + "/" + (x + "/" + y) == a[0] + "/" + x + "/" + y;
    } else {
      assert a[1..] + b == b;
    }
  }

  lemma JoinFront(c: char, pieces: seq<string>)
    requires pieces != []
    ensures JoinPieces([[c] + pieces[0]] + pieces[1..]) == [c] + JoinPieces(pieces)
  {
    var with := [[c] + pieces[0]] + pieces[1..];
    assert with[1..] == pieces[1..];
    if |pieces| > 1 {
      assert [c] + pieces[0] + "/" + JoinPieces(pieces[1..]) == [c] + (pieces[0] + "/" + JoinPieces(pieces[1..]));
    }
  }

  /** Splitting loses nothing: the pieces joined by slashes are the string again. */
  lemma {:induction false} SplitThenJoin(s: string)
    ensures JoinPieces(Split(s)) == s
  {
    if s != "" {
      var rest := Split(s[1..]);
      SplitThenJoin(s[1..]);
      if s[0] == '/' {
        assert ([""] + rest)[1..] == rest;
        assert "" + "/" + JoinPieces(rest) == s;
      } else {
        JoinFront(s[0], rest);
        assert [s[0]] + s[1..] == s;
      }
    }
  }

  lemma PrefixMeansBelow(d: string, p: string)
    requires Split(d) <= Split(p)
    ensures p == d || d + "/" <= p
  {
    SplitThenJoin(d);
    SplitThenJoin(p);
    hide Split, JoinPieces;
    var a, b := Split(d), Split(p);
    var rest := b[|a|..];
    assert b == a + rest;
    if rest == [] {
      assert a + rest == a;
    } else {
      JoinConcat(a, rest);
      assert d + "/" <= p;
    }
  }

  lemma BelowMeansPrefix(d: string, p: string)
    requires d + "/" <= p
    ensures Split(d) <= Split(p)
  {
    hide Split;
    var q := p[|d| + 1..];
    assert p == d + "/" + q;
    SplitConcat(d, q);
  }

  /** The pieces of d come first among those of p exactly if p is d or goes on behind a slash. */
  lemma PiecesPrefixIff(d: string, p: string)
    ensures Split(d) <= Split(p) <==> p == d || d + "/" <= p
  {
    hide Split;
    if Split(d) <= Split(p) {
      PrefixMeansBelow(d, p);
    }
    if d + "/" <= p {
      BelowMeansPrefix(d, p);
    }
  }

  lemma {:induction false} LastPiece(s: string)
    requires s != "" && s[|s| - 1] != '/'
    ensures Split(s)[|Split(s)| - 1] != ""
  {
    if |s| > 1 {
      LastPiece(s[1..]);
    } else {
      assert s[1..] == "";
    }
  }

  lemma {:induction false} CollapseKeepsLast(s: string)
    requires s != "" && !IsSep(s[|s| - 1])
    ensures Collapse(s) != "" && Collapse(s)[|Collapse(s)| - 1] == s[|s| - 1]
  {
    if |s| > 1 {
      CollapseKeepsLast(s[1..]);
    } else {
      assert s[1..] == "";
    }
  }

  /** What containment means where case matters: below a directory that does not end in a separator is
      exactly what, after normalising both, equals it or continues it behind a slash. */
  lemma InMeansBelow(d: string, p: string, fold: string -> string)
    requires (forall s :: fold(s) == s) && d != "" && p != "" && !IsSep(d[|d| - 1])
    ensures var dir, path := NormalizeSeparator(d), NormalizeSeparator(p);
      In(d, p, fold) <==> path == dir || dir + "/" <= path
  {
    var dir, path := NormalizeSeparator(d), NormalizeSeparator(p);
    CollapseKeepsLast(d);
    LastPiece(dir);
    PiecesPrefixIff(dir, path);
    var a, b := Split(dir), Split(path);
    assert StripTrailing(a) == a;
    hide Split, NormalizeSeparator, StripTrailing;
    assert Matches(a, b, fold) <==> a <= b;
  }

  // ---------------------------------------------------------------- containment

  /** Only the empty name folds to the empty name, and folding does not make all names equal. */
  ghost predicate KeepsNames(fold: string -> string) {
    (forall s :: fold(s) == "" <==> s == "") && fold("x") != fold("y")
  }

  lemma InReflexive(p: string, fold: string -> string)
    ensures In(p, p, fold)
  {
  }

  lemma MatchesTransitive(a: seq<string>, b: seq<string>, c: seq<string>, fold: string -> string)
    requires KeepsNames(fold)
    requires |a| <= |b| && Matches(StripTrailing(a), b, fold)
    requires |b| <= |c| && Matches(StripTrailing(b), c, fold)
    ensures Matches(StripTrailing(a), c, fold)
  {
    var x, y := StripTrailing(a), StripTrailing(b);
    if |x| > |y| {
      assert false;
    }
  }

  lemma InTransitive(a: string, b: string, c: string, fold: string -> string)
    requires KeepsNames(fold) && b != ""
    requires In(a, b, fold) && In(b, c, fold)
    ensures In(a, c, fold)
  {
    if a != "" && c != "" {
      hide NormalizeSeparator, Split, StripTrailing, Matches, KeepsNames;
      MatchesTransitive(Split(NormalizeSeparator(a)), Split(NormalizeSeparator(b)), Split(NormalizeSeparator(c)), fold);
    }
  }

  lemma SplitOne(c: char)
    requires c != '/'
    ensures Split([c]) == [[c]]
  {
    var s := [c];
    assert s[1..] == "";
    var rest := Split("");
    assert rest == [""];
    assert [c] + rest[0] == [c];
    assert Split(s) == [[c] + rest[0]] + rest[1..];
  }

  /** Containment can be chained through b exactly when b is not the empty path: the empty path is in
      everything and everything is in it. */
  lemma ChainsThroughIff(b: string, fold: string -> string)
    requires KeepsNames(fold)
    ensures (forall a, c | In(a, b, fold) && In(b, c, fold) :: In(a, c, fold)) <==> b != ""
  {
    if b != "" {
      forall a, c | In(a, b, fold) && In(b, c, fold) ensures In(a, c, fold) {
        InTransitive(a, b, c, fold);
      }
    } else {
      SplitOne('x');
      SplitOne('y');
      assert Text.TrimStart("x") == "x" && Text.TrimStart("y") == "y";
      assert NormalizeSeparator("x") == "x" && NormalizeSeparator("y") == "y";
      assert StripTrailing(["x"]) == ["x"];
      assert !In("x", "y", fold);
    }
  }

  /** Containment does not depend on how separators are written. */
  lemma InUnchangedByNormalizing(d: string, p: string, fold: string -> string)
    ensures In(NormalizeSeparator(d), NormalizeSeparator(p), fold) == In(d, p, fold)
  {
    NormalizeSeparatorIdempotent(d);
    NormalizeSeparatorIdempotent(p);
    CollapseCollapses(d);
    CollapseCollapses(p);
    assert !IsUncPath("");
    hide Split, StripTrailing, Collapse, IsUncPath;
    assert NormalizeSeparator(d) == "" <==> d == "";
    assert NormalizeSeparator(p) == "" <==> p == "";
  }

  lemma {:induction false} CollapseSlash(s: string)
    requires s == "" || !IsSep(s[|s| - 1])
    ensures Collapse(s + "/") == Collapse(s) + "/"
  {
    if s == "" {
      assert Collapse("/") == "/" + Collapse("/"[1..]);
    } else {
      assert (s + "/")[1..] == s[1..] + "/";
      CollapseSlash(s[1..]);
    }
  }

  lemma {:induction false} SplitSlash(s: string)
    ensures Split(s + "/") == Split(s) + [""]
  {
    if s == "" {
      assert (s + "/")[1..] == "";
    } else {
      assert (s + "/")[1..] == s[1..] + "/";
      SplitSlash(s[1..]);
    }
  }

  lemma {:induction false} TrimStartSlash(s: string)
    ensures Text.TrimStart(s + "/") == Text.TrimStart(s) + "/"
  {
    if s != "" && Text.IsSpace(s[0]) {
      assert (s + "/")[1..] == s[1..] + "/";
      TrimStartSlash(s[1..]);
    } else if s == "" {
      assert s + "/" == "/";
    }
  }

  lemma UncSlash(d: string)
    requires d != "" && !IsSep(d[|d| - 1])
    ensures IsUncPath(d + "/") == IsUncPath(d)
  {
    TrimStartSlash(d);
    var k := TrimStartIsSuffix(d);
  }

  lemma StripSlash(pieces: seq<string>)
    ensures StripTrailing(pieces + [""]) == StripTrailing(pieces)
  {
    assert (pieces + [""])[..|pieces + [""]| - 1] == pieces;
  }

  /** A trailing slash is not harmless, as the length test comes before the slashes are removed: with
      one, the directory contains what it contained before except paths of its own length. */
  lemma TrailingSlashExcludesSelf(d: string, p: string, fold: string -> string)
    requires d != "" && !IsSep(d[|d| - 1]) && p != ""
    ensures var dir, path := Split(NormalizeSeparator(d)), Split(NormalizeSeparator(p));
      In(d + "/", p, fold) <==> In(d, p, fold) && |dir| != |path|
    ensures !In(d + "/", d, fold)
  {
    UncSlash(d);
    CollapseSlash(d);
    var n := NormalizeSeparator(d);
    assert NormalizeSeparator(d + "/") == n + "/";
    SplitSlash(n);
    StripSlash(Split(n));
    hide NormalizeSeparator, Split, StripTrailing, Matches;
  }

  predicate AllSeparators(d: string) {
    d != "" && forall i | 0 <= i < |d| :: IsSep(d[i])
  }

  lemma {:induction false} SeparatorsCollapse(d: string)
    requires AllSeparators(d)
    ensures Collapse(d) == "/" && !IsUncPath(d)
  {
    assert Text.TrimStart(d) == d;
    if |d| > 1 {
      SeparatorsCollapse(d[1..]);
    } else {
      assert d[1..] == "";
    }
  }

  lemma {:induction false} CollapseKeepsSeparators(s: string)
    ensures '/' in Collapse(s) <==> exists i | 0 <= i < |s| :: IsSep(s[i])
  {
    if s != "" {
      CollapseKeepsSeparators(s[1..]);
      assert forall i | 1 <= i < |s| :: s[i] == s[1..][i - 1];
      if !IsSep(s[0]) {
        assert Collapse(s) == [s[0]] + Collapse(s[1..]);
      }
    }
  }

  lemma {:induction false} SplitsIff(s: string)
    ensures |Split(s)| >= 2 <==> '/' in s
  {
    if s != "" {
      SplitsIff(s[1..]);
      assert '/' in s <==> s[0] == '/' || '/' in s[1..];
    }
  }

  lemma UncHasSeparator(p: string)
    requires IsUncPath(p)
    ensures exists i | 0 <= i < |p| :: IsSep(p[i])
  {
    var k := TrimStartIsSuffix(p);
    assert IsSep(p[k]);
  }

  lemma NormalizedPieces(p: string)
    ensures |Split(NormalizeSeparator(p))| >= 2 <==> exists i | 0 <= i < |p| :: IsSep(p[i])
  {
    SplitsIff(NormalizeSeparator(p));
    CollapseKeepsSeparators(p);
    if IsUncPath(p) {
      UncHasSeparator(p);
      assert NormalizeSeparator(p)[0] == '/';
    }
    hide Split;
  }

  /** The root directory, however it is written, contains every path with a separator anywhere in it,
      relative ones included, and no other path but the empty one. */
  lemma RootContainsIff(d: string, p: string, fold: string -> string)
    requires AllSeparators(d)
    ensures In(d, p, fold) <==> p == "" || exists i | 0 <= i < |p| :: IsSep(p[i])
  {
    SeparatorsCollapse(d);
    NormalizedPieces(p);
    var dir := Split("/");
    assert "/"[1..] == "" && dir == ["", ""];
    assert dir[..1] == [""] && dir[..1][..0] == [];
    assert StripTrailing([""]) == [];
    assert StripTrailing(dir) == [];
    hide Split, StripTrailing, NormalizeSeparator;
    assert NormalizeSeparator(d) == "/" by {
      SeparatorsNormalize(d);
    }
  }

  lemma SeparatorsNormalize(d: string)
    requires AllSeparators(d)
    ensures NormalizeSeparator(d) == "/"
  {
    SeparatorsCollapse(d);
  }
}
