/**
 * Lexical file-system paths in the manner of java.nio.file.Path on a Unix file system:
 * parsing (Paths.get), the last name, the parent, relativize and resolve. Nothing here
 * touches a file system; ".." and "." are ordinary names, as in the lexical operations.
 */
module Paths {
  import opened Wrappers
  import opened Strings

  /** A path: whether it starts at the root directory, and its names in order. */
  datatype Path = Path(absolute: bool, names: seq<string>)

  const Separator: char := '/'

  /** The name that steps up one directory. */
  const ParentName: string := ".."

  /** The empty path, Paths.get(""): relative and without names. */
  const Empty: Path := Path(false, [])

  /** Every name is non-empty and free of the separator, as after parsing. */
  predicate WellFormed(p: Path) {
    forall i :: 0 <= i < |p.names| ==> p.names[i] != [] && Separator !in p.names[i]
  }

  /** The non-empty pieces of `parts`, in order. */
  function NonEmptyNames(parts: seq<string>): (names: seq<string>)
    ensures forall i :: 0 <= i < |names| ==> names[i] != [] && names[i] in parts
    ensures (forall i :: 0 <= i < |parts| ==> parts[i] != []) ==> names == parts
  {
    if parts == [] then []
    else
      var rest := NonEmptyNames(parts[1..]);
      assert forall i :: 0 <= i < |rest| ==> rest[i] in parts;
      if parts[0] == [] then rest else [parts[0]] + rest
  }

  /**
   * Paths.get(s): a leading separator makes the path absolute; the names are the non-empty
   * pieces between separators, so repeated and trailing separators contribute no name.
   */
  function Get(s: string): (p: Path)
    ensures WellFormed(p)
    ensures p.absolute <==> StartsWith(s, "/")
  {
    var parts := Split(s, Separator);
    NamesOfPiecesWellFormed(|s| > 0 && s[0] == Separator, parts);
    Path(|s| > 0 && s[0] == Separator, NonEmptyNames(parts))
  }

  /** The non-empty pieces of a split are well-formed names. */
  lemma NamesOfPiecesWellFormed(absolute: bool, parts: seq<string>)
    requires forall i :: 0 <= i < |parts| ==> Separator !in parts[i]
    ensures WellFormed(Path(absolute, NonEmptyNames(parts)))
  {
    var names := NonEmptyNames(parts);
    forall i | 0 <= i < |names| ensures names[i] != [] && Separator !in names[i] {
      var j :| 0 <= j < |parts| && parts[j] == names[i];
    }
  }

  /** The path as text (Path.toString): the names joined by the separator, after "/" if absolute. */
  function Render(p: Path): string {
    (if p.absolute then "/" else "") + Join(p.names, Separator)
  }

  /** A first character of the joined names that is the first of the first name. */
  lemma JoinHead(names: seq<string>, sep: char)
    requires |names| >= 1 && names[0] != []
    ensures Join(names, sep) != [] && Join(names, sep)[0] == names[0][0]
  {
  }

  /** Parsing the text of a well-formed path gives the path back. */
  lemma {:induction false} GetRender(p: Path)
    requires WellFormed(p)
    ensures Get(Render(p)) == p
  {
    var text := Join(p.names, Separator);
    if p.names == [] {
      assert Split([], Separator) == [[]];
      if p.absolute {
        assert Render(p) == [Separator] + [];
        assert [Separator][1..] == [];
        assert Split([Separator], Separator) == [[], []];
        var twoEmpty: seq<string> := [[], []];
        assert twoEmpty[1..] == [[]];
        var oneEmpty: seq<string> := [[]];
        assert oneEmpty[1..] == [];
        assert NonEmptyNames(twoEmpty) == [];
      }
    } else {
      JoinHead(p.names, Separator);
      SplitJoin(p.names, Separator);
      if p.absolute {
        var s := [Separator] + text;
        assert Render(p) == s;
        assert s[0] == Separator && s[1..] == text;
        assert Split(s, Separator) == [[]] + p.names;
        assert NonEmptyNames([[]] + p.names) == NonEmptyNames(p.names) by {
          assert ([[]] + p.names)[1..] == p.names;
        }
      } else {
        assert Render(p) == text;
      }
    }
  }

  /** The last name (Path.getFileName); the root and the empty path have the empty name. */
  function FileName(p: Path): (name: string)
    ensures p.names == [] ==> name == []
    ensures p.names != [] ==> p.names[..|p.names| - 1] + [name] == p.names
  {
    if p.names == [] then [] else p.names[|p.names| - 1]
  }

  /**
   * The parent directory (Path.getParent): every name but the last. None stands for Java's
   * null, returned for the empty path, for the root, and for a relative path of a single name.
   */
  function Parent(p: Path): (r: Option<Path>)
    ensures r.Some? <==> |p.names| >= 2 || (p.absolute && |p.names| == 1)
    ensures r.Some? ==> r.value.absolute == p.absolute && r.value.names + [FileName(p)] == p.names
  {
    if |p.names| >= 2 || (p.absolute && |p.names| == 1) then
      Some(Path(p.absolute, p.names[..|p.names| - 1]))
    else
      None
  }

  /** The number of leading names `a` and `b` share. */
  function CommonPrefixLength(a: seq<string>, b: seq<string>): (n: nat)
    ensures n <= |a| && n <= |b|
    ensures a[..n] == b[..n]
    ensures n < |a| && n < |b| ==> a[n] != b[n]
  {
    if a != [] && b != [] && a[0] == b[0] then
      var n := 1 + CommonPrefixLength(a[1..], b[1..]);
      assert a[..n] == [a[0]] + a[1..][..n - 1];
      assert b[..n] == [b[0]] + b[1..][..n - 1];
      n
    else 0
  }

  /** `n` copies of the name "..". */
  function Ups(n: nat): (r: seq<string>)
    ensures |r| == n && forall i :: 0 <= i < n ==> r[i] == ParentName
  {
    if n == 0 then [] else [ParentName] + Ups(n - 1)
  }

  /**
   * base.relativize(other): the relative path that leads from `base` to `other`, climbing with
   * ".." out of every name of `base` that `other` does not share. None stands for the
   * IllegalArgumentException Java throws when one path is absolute and the other is not.
   */
  function Relativize(base: Path, other: Path): (r: Option<Path>)
    ensures r.Some? <==> base.absolute == other.absolute
    ensures r.Some? ==> !r.value.absolute
  {
    if base.absolute != other.absolute then None
    else
      var shared := CommonPrefixLength(base.names, other.names);
      Some(Path(false, Ups(|base.names| - shared) + other.names[shared..]))
  }

  /** base.resolve(other): an absolute `other` stands alone, a relative one is appended to `base`. */
  function Resolve(base: Path, other: Path): (r: Path) {
    if other.absolute then other else Path(base.absolute, base.names + other.names)
  }

  /** `base` lies lexically at or above `p`: same kind, and its names begin those of `p`. */
  predicate IsAncestor(base: Path, p: Path) {
    base.absolute == p.absolute && base.names <= p.names
  }

  /** Relativizing a descendant strips the base's names, and resolving against the base undoes it. */
  lemma RelativizeDescendant(base: Path, p: Path)
    requires IsAncestor(base, p)
    ensures Relativize(base, p) == Some(Path(false, p.names[|base.names|..]))
    ensures Resolve(base, Relativize(base, p).value) == p
  {
    var shared := CommonPrefixLength(base.names, p.names);
    assert base.names == p.names[..|base.names|];
    assert shared == |base.names|;
    assert Ups(|base.names| - shared) == [];
    assert Ups(|base.names| - shared) + p.names[shared..] == p.names[|base.names|..];
    assert base.names + p.names[|base.names|..] == p.names;
  }

  /**
   * Relativizing a path of the same kind that is not a descendant climbs out with "..":
   * together with RelativizeDescendant, the result starts with ".." exactly when `base` is not an
   * ancestor, provided `p` has no ".." names of its own.
   */
  lemma RelativizeEscapes(base: Path, p: Path)
    requires base.absolute == p.absolute && !IsAncestor(base, p)
    ensures Relativize(base, p).Some?
    ensures var r := Relativize(base, p).value; r.names != [] && r.names[0] == ParentName
  {
  }
}
