/** The part of Python's `pathlib` (POSIX flavour) that the project code uses:
    `joinpath`, `.name`, `.parent` and `.stem`. A path is a list of components,
    with a flag for a leading '/'. */
module Paths {
  import opened Text

  datatype Path = Path(absolute: bool, parts: seq<string>)

  /** The components a string contributes: the '/'-separated pieces, in order, without
      empty ones or "." (see `ComponentsOfJoin`). */
  function Components(s: string): (cs: seq<string>)
    ensures forall c :: c in cs <==> c in Split(s, '/') && c != "" && c != "."
  {
    Keep(Split(s, '/'))
  }

  /** The pieces other than "" and ".", in their order (see `KeepAppend`). */
  function Keep(pieces: seq<string>): (cs: seq<string>)
    ensures forall c :: c in cs <==> c in pieces && c != "" && c != "."
    ensures |cs| <= |pieces|
    decreases |pieces|
  {
    if |pieces| == 0 then []
    else
      assert forall c :: c in pieces <==> c == pieces[0] || c in pieces[1..] by {
        assert pieces == [pieces[0]] + pieces[1..];
      }
      (if pieces[0] == "" || pieces[0] == "." then [] else [pieces[0]]) + Keep(pieces[1..])
  }

  /** Dropping the empty and "." pieces distributes over concatenation, so the kept pieces
      stay in their order. */
  lemma {:induction false} KeepAppend(a: seq<string>, b: seq<string>)
    ensures Keep(a + b) == Keep(a) + Keep(b)
    decreases |a|
  {
    if |a| == 0 {
      assert a + b == b;
    } else {
      assert (a + b)[0] == a[0];
      assert (a + b)[1..] == a[1..] + b;
      KeepAppend(a[1..], b);
    }
  }

  /** A single piece is kept exactly when it is neither empty nor ".". */
  lemma KeepOne(piece: string)
    ensures Keep([piece]) == if piece == "" || piece == "." then [] else [piece]
  {
    assert [piece][1..] == [];
  }

  /** A string written as pieces joined by '/' contributes exactly those pieces that are
      neither empty nor ".", in their order. */
  lemma ComponentsOfJoin(pieces: seq<string>)
    requires |pieces| >= 1
    requires forall k :: 0 <= k < |pieces| ==> '/' !in pieces[k]
    ensures Components(Join(pieces, '/')) == Keep(pieces)
  {
    SplitJoin(pieces, '/');
  }

  /** A single path component: non-empty, no '/', not ".". */
  predicate IsPlainName(s: string) {
    |s| > 0 && '/' !in s && s != "."
  }

  /** `p.joinpath(s)`: an absolute `s` replaces `p`, a relative one extends it. */
  function JoinPath(p: Path, s: string): Path {
    if |s| > 0 && s[0] == '/' then Path(true, Components(s)) else Path(p.absolute, p.parts + Components(s))
  }

  /** `p.name`: the last component, or "" for a path without components. */
  function Name(p: Path): string {
    if |p.parts| == 0 then "" else p.parts[|p.parts| - 1]
  }

  /** `p.parent`: the path without its last component (a path without components is its own parent). */
  function Parent(p: Path): Path {
    if |p.parts| == 0 then p else Path(p.absolute, p.parts[..|p.parts| - 1])
  }

  /** Index of the last occurrence of `c` in `s`, -1 when there is none (`str.rfind`). */
  function RFind(s: string, c: char): (i: int)
    ensures -1 <= i < |s|
    ensures i >= 0 ==> s[i] == c && forall j :: i < j < |s| ==> s[j] != c
    ensures i == -1 ==> c !in s
    decreases |s|
  {
    if |s| == 0 then -1
    else if s[|s| - 1] == c then |s| - 1
    else RFind(s[..|s| - 1], c)
  }

  /** `p.stem`: the name without its final suffix. The suffix starts at the last '.', and
      only when that dot is neither the first nor the last character of the name. */
  function Stem(p: Path): (stem: string)
    ensures stem <= Name(p)
    ensures |stem| < |Name(p)| ==>
              0 < |stem| < |Name(p)| - 1 && Name(p)[|stem|] == '.'
              && forall j :: |stem| < j < |Name(p)| ==> Name(p)[j] != '.'
    ensures |stem| == |Name(p)| <==>
              (forall j :: 0 < j < |Name(p)| - 1 ==> Name(p)[j] != '.')
              || (|Name(p)| > 0 && Name(p)[|Name(p)| - 1] == '.')
  {
    var name := Name(p);
    var i := RFind(name, '.');
    if 0 < i < |name| - 1 then name[..i] else name
  }

  /** `pathlib` drops the final suffix of "clip.avi" and of "archive.tar.gz". */
  lemma StemDropsSuffix()
    ensures Stem(Path(false, ["clip.avi"])) == "clip"
    ensures Stem(Path(false, ["archive.tar.gz"])) == "archive.tar"
  {
    var archive := "archive.tar.gz";
    assert RFind(archive, '.') == 11 by {
      assert RFind(archive[..12], '.') == 11;
      assert RFind(archive[..13], '.') == 11;
    }
  }

  /** A leading or trailing dot, or no dot at all, leaves the name whole. */
  lemma StemKeepsName()
    ensures Stem(Path(false, [".bashrc"])) == ".bashrc"
    ensures Stem(Path(false, ["notes."])) == "notes."
    ensures Stem(Path(false, ["README"])) == "README"
  {
  }

  /** Joining a plain name appends exactly that component. */
  lemma JoinPlainName(p: Path, n: string)
    requires IsPlainName(n)
    ensures JoinPath(p, n) == Path(p.absolute, p.parts + [n])
    ensures Name(JoinPath(p, n)) == n && Parent(JoinPath(p, n)) == p
  {
    SplitPrefix(n, "", '/');
    assert n + "" == n;
    assert Split(n, '/') == [n];
    assert n[0] != '/' by { assert n[0] in n; }
    assert (p.parts + [n])[..|p.parts|] == p.parts;
  }
}
