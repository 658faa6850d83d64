/**
 * The part of `pathlib.PurePosixPath` the scripts use, on a relative path
 * given as its components (`Path.parts`): `name`, `suffix`, `stem`,
 * `parent`, `str()` and the ordering `list.sort()` applies to paths.
 */
module Paths {
  import opened Text
  import opened Order

  /** A relative path, as the sequence of its components. */
  type Path = seq<string>

  /** The path of a file found by a walk: it has at least one component. */
  type FilePath = p: Path | |p| > 0 witness ["a"]

  /** `path.name`: the last component, or "" for the empty path. */
  function Name(p: Path): string
  {
    if |p| == 0 then "" else p[|p| - 1]
  }

  /** `s.rfind(c)`: the index of the last `c` in `s`, or -1. */
  function LastIndexOf(s: string, c: char): (i: int)
    ensures -1 <= i < |s|
    ensures 0 <= i ==> s[i] == c
    ensures forall k :: i < k < |s| ==> s[k] != c
  {
    if |s| == 0 then -1
    else if s[|s| - 1] == c then |s| - 1
    else LastIndexOf(s[..|s| - 1], c)
  }

  /** `path.suffix` of a path whose name is `name`: from the last dot on, unless that dot leads or ends the name. */
  function Suffix(name: string): (r: string)
    ensures r == [] || (|r| >= 2 && r[0] == '.' && '.' !in r[1..])
    ensures r == [] || |r| < |name|
  {
    var i := LastIndexOf(name, '.');
    if 0 < i < |name| - 1 then name[i..] else ""
  }

  /**
   * The suffix is the end of the name from its last dot, when that dot is
   * neither the first nor the last character; otherwise there is none.
   */
  lemma SuffixFromLastDot(name: string)
    ensures Suffix(name) != [] ==> name[|name| - |Suffix(name)|..] == Suffix(name)
    ensures forall i :: 0 < i < |name| - 1 && name[i] == '.' && '.' !in name[i + 1..] ==> Suffix(name) == name[i..]
  {
    var j := LastIndexOf(name, '.');
    forall i | 0 < i < |name| - 1 && name[i] == '.' && '.' !in name[i + 1..]
      ensures j == i
    {
    }
  }

  /** `path.stem`: the name without its suffix. */
  function Stem(name: string): (r: string)
    ensures r + Suffix(name) == name
    ensures |name| > 0 ==> |r| > 0
  {
    var i := LastIndexOf(name, '.');
    if 0 < i < |name| - 1 then name[..i] else name
  }

  /** `path.parent`: every component but the last; the parent of a one-component path is `.`, here []. */
  function Parent(p: Path): Path
  {
    if |p| <= 1 then [] else p[..|p| - 1]
  }

  /** `str(path)`: the components joined by "/", or "." for the empty path. */
  function PathString(p: Path): string
  {
    if |p| == 0 then "." else Join(p, "/")
  }

  /** A file's path is its parent's components followed by its name. */
  lemma ParentThenName(p: Path)
    requires |p| > 0
    ensures Parent(p) + [Name(p)] == p
  {
  }

  /** Adding a component adds "/" and that component to the text of a non-empty path. */
  lemma PathStringSnoc(p: Path, x: string)
    requires |p| > 0
    ensures PathString(p + [x]) == PathString(p) + "/" + x
  {
    JoinSnoc(p, x, "/");
  }

  /** Python's `p < q` on paths: their components compared as lists of strings. */
  function PathLt(p: Path, q: Path): bool
  {
    LexLt(p, q, StrLt)
  }

  /** Path comparison is a strict total order, so sorting paths has one answer. */
  lemma PathLtIsStrictTotal()
    ensures StrictOrder(PathLt) && Trichotomous(PathLt)
  {
    StrLtIsStrictTotal();
    forall p: Path
      ensures !PathLt(p, p)
    {
      LexIrreflexive(p, StrLt);
    }
    forall p: Path, q: Path, r: Path | PathLt(p, q) && PathLt(q, r)
      ensures PathLt(p, r)
    {
      LexTransitive(p, q, r, StrLt);
    }
    forall p: Path, q: Path
      ensures p == q || PathLt(p, q) || PathLt(q, p)
    {
      LexTrichotomous(p, q, StrLt);
    }
  }
}
