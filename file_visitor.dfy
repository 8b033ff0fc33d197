/**
 * The per-file logic of properties2json's FileVisitor: deciding whether a file is a properties
 * file to convert, naming the generated JSON file, and locating a file's directory relative to
 * the source root. JSON rendering lives in module Json.
 */
module FileVisitor {
  import opened Wrappers
  import opened Strings
  import opened Paths

  /**
   * A visitor's configuration, fixed by `new FileVisitor(sourceRoot, destRoot, excludes)`.
   * A root may be null (None). The exclusion regular expression is given by what it decides:
   * `excludes(name)` holds when the pattern matches the whole file name.
   */
  datatype Visitor = Visitor(sourceRoot: Option<Path>, destRoot: Option<Path>, excludes: string -> bool)

  /** The file-name suffix of a properties file. */
  const PropertiesSuffix: string := ".properties"

  /** What a generated file's name is given in front of and behind the original name. */
  const GeneratedPrefix: string := "__"
  const GeneratedSuffix: string := ".json"

  /** A file that cannot be read (missing, or not permitted): Java's IOException. */
  datatype IoError = Unreadable

  /** Why a relative parent cannot be computed: Java's NullPointerException or IllegalArgumentException. */
  datatype ParentError = NoSourceRoot | NoParent | DifferentKind

  /** The characters that, opening the content, mark it as JSON or quoted text already. */
  predicate IsJsonOpener(c: char) {
    c == '{' || c == '[' || c == '"'
  }

  /** The content, trimmed of leading white space, starts with `{`, `[` or `"`. */
  predicate LooksLikeJson(content: string) {
    var t := TrimStart(content);
    t != [] && IsJsonOpener(t[0])
  }

  /** The first character of `content` that is not white space exists and opens JSON. */
  ghost predicate FirstVisibleOpensJson(content: string) {
    exists i :: 0 <= i < |content| && IsJsonOpener(content[i])
      && forall j :: 0 <= j < i ==> IsTrimmable(content[j])
  }

  /** The trimming test decides exactly the first-visible-character condition. */
  lemma LooksLikeJsonIff(content: string)
    ensures LooksLikeJson(content) <==> FirstVisibleOpensJson(content)
  {
    var t := TrimStart(content);
    var k := |content| - |t|;
    if LooksLikeJson(content) {
      assert content[k] == t[0];
    }
    if FirstVisibleOpensJson(content) {
      var i :| 0 <= i < |content| && IsJsonOpener(content[i])
        && forall j :: 0 <= j < i ==> IsTrimmable(content[j]);
      assert t[0] == content[i];
    }
  }

  /**
   * isPropertyFile: the file's name ends with ".properties", the exclusion pattern does not match
   * it, and the content does not look like JSON. `content` is the file's text, or None when it
   * cannot be read. The name is checked first, so a failing name is answered without reading.
   */
  function IsPropertyFile(v: Visitor, path: Path, content: Option<string>): (r: Result<bool, IoError>)
    ensures var name := FileName(path);
      r == Ok(true) <==>
        EndsWith(name, PropertiesSuffix) && !v.excludes(name)
        && content.Some? && !FirstVisibleOpensJson(content.value)
    ensures var name := FileName(path);
      r.Err? <==> EndsWith(name, PropertiesSuffix) && !v.excludes(name) && content.None?
  {
    var name := FileName(path);
    if !EndsWith(name, PropertiesSuffix) || v.excludes(name) then Ok(false)
    else
      match content
      case None => Err(Unreadable)
      case Some(text) =>
        LooksLikeJsonIff(text);
        Ok(!LooksLikeJson(text))
  }

  /** A name that fails the suffix or exclusion test is rejected whatever the file holds, readable or not. */
  lemma NameDecidesWithoutContent(v: Visitor, path: Path, content: Option<string>)
    requires !EndsWith(FileName(path), PropertiesSuffix) || v.excludes(FileName(path))
    ensures IsPropertyFile(v, path, content) == Ok(false)
  {
  }

  /**
   * Only the first visible character counts: once the content has one, whatever follows it
   * (a later bracket or quote included) leaves the answer unchanged.
   */
  lemma OnlyFirstVisibleCounts(v: Visitor, path: Path, content: string, more: string)
    requires exists i :: 0 <= i < |content| && !IsTrimmable(content[i])
    ensures IsPropertyFile(v, path, Some(content + more)) == IsPropertyFile(v, path, Some(content))
  {
    TrimStartAppend(content, more);
  }

  /** computeNewFileName: the file's name with "__" in front and ".json" behind. */
  function ComputeNewFileName(path: Path): (r: string)
    ensures StartsWith(r, GeneratedPrefix) && EndsWith(r, GeneratedSuffix)
    ensures |r| == |GeneratedPrefix| + |FileName(path)| + |GeneratedSuffix|
    ensures r[|GeneratedPrefix|..|r| - |GeneratedSuffix|] == FileName(path)
  {
    GeneratedPrefix + FileName(path) + GeneratedSuffix
  }

  /** The original name of a generated file, or None for a name not made by ComputeNewFileName. */
  function OriginalFileName(generated: string): Option<string> {
    if |generated| >= |GeneratedPrefix| + |GeneratedSuffix|
       && StartsWith(generated, GeneratedPrefix) && EndsWith(generated, GeneratedSuffix)
    then Some(generated[|GeneratedPrefix|..|generated| - |GeneratedSuffix|])
    else None
  }

  /** The generated name determines the original one: no two files are given the same output name. */
  lemma NewFileNameRoundTrip(path: Path)
    ensures OriginalFileName(ComputeNewFileName(path)) == Some(FileName(path))
    ensures ComputeNewFileName(path) != FileName(path)
  {
  }

  /**
   * A generated file is never taken for a properties file: wherever it is placed, whatever the
   * exclusion pattern and whatever it holds, a second run does not convert it again.
   */
  lemma GeneratedFileIsNotReconverted(v: Visitor, source: Path, dir: Path, content: Option<string>)
    ensures IsPropertyFile(v, Path(dir.absolute, dir.names + [ComputeNewFileName(source)]), content) == Ok(false)
  {
    var name := ComputeNewFileName(source);
    assert FileName(Path(dir.absolute, dir.names + [name])) == name;
    assert !EndsWith(name, PropertiesSuffix) by {
      assert name[|name| - 1] == 'n';
    }
  }

  /**
   * computeRelativeSourceParent: the directory holding `path`, relative to the source root
   * (sourceRoot.relativize(path.getParent())). Fails when there is no source root, when the path
   * has no parent, or when one of the two is absolute and the other not.
   */
  function ComputeRelativeSourceParent(v: Visitor, path: Path): (r: Result<Path, ParentError>)
    ensures r.Ok? <==> v.sourceRoot.Some? && Parent(path).Some? && v.sourceRoot.value.absolute == path.absolute
    ensures r.Ok? ==> !r.value.absolute
    ensures r == Err(NoSourceRoot) <==> v.sourceRoot.None?
  {
    match v.sourceRoot
    case None => Err(NoSourceRoot)
    case Some(root) =>
      match Parent(path)
      case None => Err(NoParent)
      case Some(parent) =>
        match Relativize(root, parent)
        case None => Err(DifferentKind)
        case Some(rel) => Ok(rel)
  }

  /**
   * The parent of a name appended to a directory is that directory, unless the directory is the
   * empty path (a single relative name has no parent).
   */
  lemma ParentOfChild(dir: Path, leaf: string)
    requires dir != Empty
    ensures Parent(Path(dir.absolute, dir.names + [leaf])) == Some(dir)
  {
    var names := dir.names + [leaf];
    assert names[..|names| - 1] == dir.names;
  }

  /**
   * For a file below the source root, the relative parent is the directories between the root and
   * the file, and resolving it against the root gives the file's directory back. (Below the empty
   * root a file with no directory between has no parent at all.)
   */
  lemma RelativeSourceParentBelowRoot(v: Visitor, root: Path, between: seq<string>, leaf: string)
    requires v.sourceRoot == Some(root)
    requires root != Empty || between != []
    ensures var path := Path(root.absolute, root.names + between + [leaf]);
      && ComputeRelativeSourceParent(v, path) == Ok(Path(false, between))
      && Resolve(root, Path(false, between)) == Parent(path).value
  {
    var path := Path(root.absolute, root.names + between + [leaf]);
    var parent := Path(root.absolute, root.names + between);
    ParentOfChild(parent, leaf);
    assert IsAncestor(root, parent) by {
      assert parent.names[..|root.names|] == root.names;
    }
    RelativizeDescendant(root, parent);
    assert parent.names[|root.names|..] == between;
  }

  /**
   * For a file whose directory is not below the source root (but of the same kind), the relative
   * parent climbs out of the root: it starts with "..".
   */
  lemma RelativeSourceParentOutsideRoot(v: Visitor, root: Path, path: Path)
    requires v.sourceRoot == Some(root) && Parent(path).Some?
    requires root.absolute == path.absolute && !IsAncestor(root, Parent(path).value)
    ensures var r := ComputeRelativeSourceParent(v, path);
      r.Ok? && r.value.names != [] && r.value.names[0] == ParentName
  {
    RelativizeEscapes(root, Parent(path).value);
  }
}
