/** The few string operations of JavaScript that the models use.  A `char` stands for one code unit. */
module Text {

  /** The characters matched by `\s` and removed by `trim()`. */
  predicate IsSpace(c: char) {
    || '\U{9}' <= c <= '\U{d}' || c == ' ' || c == '\U{a0}' || c == '\U{1680}'
    || '\U{2000}' <= c <= '\U{200a}' || c == '\U{2028}' || c == '\U{2029}'
    || c == '\U{202f}' || c == '\U{205f}' || c == '\U{3000}' || c == '\U{feff}'
  }

  function TrimStart(s: string): string {
    if s != "" && IsSpace(s[0]) then TrimStart(s[1..]) else s
  }

  function TrimEnd(s: string): string {
    if s != "" && IsSpace(s[|s| - 1]) then TrimEnd(s[..|s| - 1]) else s
  }

  function Trim(s: string): string {
    TrimEnd(TrimStart(s))
  }

  /** `pieces.join('')` */
  function Join(pieces: seq<string>): string {
    if pieces == [] then "" else Join(pieces[..|pieces| - 1]) + pieces[|pieces| - 1]
  }

  lemma {:induction false} JoinAppends(a: seq<string>, b: seq<string>)
    ensures Join(a + b) == Join(a) + Join(b)
  {
    if b == [] {
      assert a + b == a;
    } else {
      var front, last := b[..|b| - 1], b[|b| - 1];
      assert (a + b)[..|a + b| - 1] == a + front;
      assert Join(a + b) == Join(a + front) + last;
      JoinAppends(a, front);
      hide Join;
    }
  }

  lemma JoinOne(x: string)
    ensures Join([]) == "" && Join([x]) == x
  {
    assert [x][..0] == [];
  }

  /** White space and line terminators, by code. */
  lemma SpacesByCode(c: char)
    ensures IsSpace(c) <==>
      c as int in {9, 10, 11, 12, 13, 32, 160, 5760, 8192, 8193, 8194, 8195, 8196, 8197, 8198, 8199, 8200, 8201, 8202,
                   8232, 8233, 8239, 8287, 12288, 65279}
  {
  }

  predicate CutsSpace(s: string, i: int, j: int) {
    && 0 <= i <= j <= |s|
    && (forall k | 0 <= k < i :: IsSpace(s[k])) && (forall k | j <= k < |s| :: IsSpace(s[k]))
    && (i < j ==> !IsSpace(s[i]) && !IsSpace(s[j - 1]))
  }

  /** r is s without the white space at its two ends. */
  ghost predicate Trimmed(s: string, r: string) {
    exists i, j :: CutsSpace(s, i, j) && r == s[i..j]
  }

  lemma {:induction false} TrimStartCuts(s: string) returns (i: nat)
    ensures i <= |s| && TrimStart(s) == s[i..] && (forall k | 0 <= k < i :: IsSpace(s[k]))
    ensures i < |s| ==> !IsSpace(s[i])
  {
    hide IsSpace;
    if s != "" && IsSpace(s[0]) {
      var j := TrimStartCuts(s[1..]);
      i := j + 1;
    } else {
      i := 0;
    }
  }

  lemma {:induction false} TrimEndCuts(s: string) returns (j: nat)
    ensures j <= |s| && TrimEnd(s) == s[..j] && (forall k | j <= k < |s| :: IsSpace(s[k]))
    ensures j > 0 ==> !IsSpace(s[j - 1])
  {
    hide IsSpace;
    if s != "" && IsSpace(s[|s| - 1]) {
      j := TrimEndCuts(s[..|s| - 1]);
    } else {
      j := |s|;
    }
  }

  lemma TrimTrims(s: string)
    ensures Trimmed(s, Trim(s))
  {
    hide IsSpace;
    var i := TrimStartCuts(s);
    var t := s[i..];
    var n := TrimEndCuts(t);
    var j := i + n;
    assert t[..n] == s[i..j];
    assert forall k | i <= k < |s| :: s[k] == t[k - i];
    assert CutsSpace(s, i, j);
  }

  lemma CutsAlike(s: string, i: int, j: int, m: int, n: int)
    requires CutsSpace(s, i, j) && CutsSpace(s, m, n)
    ensures s[i..j] == s[m..n]
  {
    hide IsSpace;
  }

  /** Only one string fits that description. */
  lemma TrimmedIsUnique(s: string, a: string, b: string)
    requires Trimmed(s, a) && Trimmed(s, b)
    ensures a == b
  {
    var i, j :| CutsSpace(s, i, j) && a == s[i..j];
    var m, n :| CutsSpace(s, m, n) && b == s[m..n];
    hide CutsSpace;
    CutsAlike(s, i, j, m, n);
  }
}
