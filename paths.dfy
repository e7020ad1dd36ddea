/**
 * Paths as `pathlib` holds them: a sequence of components. `Parse` is what
 * `Path(s)` keeps of a relative path string, `Render` is `str(path)`.
 */
module Paths {
  import opened Strings

  type Path = seq<string>

  /** A component `pathlib` keeps: not empty, not ".", without a separator. */
  predicate ValidName(c: string) {
    c != "" && c != "." && '/' !in c
  }

  predicate ValidPath(p: Path) {
    forall i :: 0 <= i < |p| ==> ValidName(p[i])
  }

  /** Drops the empty and "." pieces of a split path string. */
  function KeepNames(pieces: seq<string>): (p: Path)
    ensures forall i :: 0 <= i < |p| ==> p[i] in pieces && p[i] != "" && p[i] != "."
    decreases |pieces|
  {
    if pieces == [] then []
    else if pieces[0] == "" || pieces[0] == "." then KeepNames(pieces[1..])
    else [pieces[0]] + KeepNames(pieces[1..])
  }

  /** `Path(s)` for a relative path string: "a//b/./c/" becomes a, b, c. */
  function Parse(s: string): (p: Path)
    ensures ValidPath(p)
  {
    KeepNames(SplitOn(s, '/'))
  }

  /** `str(path)`: the components joined by "/", or "." for the empty path. */
  function Render(p: Path): string {
    if p == [] then "." else Join(p, "/")
  }

  /** `path.parent`; the parent of "." is "." itself. */
  function Parent(p: Path): Path {
    if p == [] then [] else p[..|p| - 1]
  }

  lemma {:induction false} KeepValidNames(pieces: seq<string>)
    requires forall i :: 0 <= i < |pieces| ==> ValidName(pieces[i])
    ensures KeepNames(pieces) == pieces
    decreases |pieces|
  {
    if pieces != [] {
      KeepValidNames(pieces[1..]);
    }
  }

  /** Parsing the rendered text of a path gives the path back. */
  lemma ParseRender(p: Path)
    requires ValidPath(p)
    ensures Parse(Render(p)) == p
  {
    if p == [] {
      var dot: string := ".";
      assert dot[0] == '.' && dot[1..] == "";
      assert SplitOn(dot[1..], '/') == [""];
      assert [dot[0]] + "" == dot;
      assert SplitOn(dot, '/') == [dot];
    } else {
      SplitJoin(p, '/');
      KeepValidNames(p);
    }
  }
}
