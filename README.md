# properties2json: the per-file logic of FileVisitor

properties2json walks a directory tree and turns every Java `.properties` file into a JSON file
named `__<name>.json`, placed beside the original or under a mirrored directory of a destination
root. This project models the per-file logic of its `FileVisitor`, built as
`new FileVisitor(sourceRoot, destRoot, excludes)`:

- `isPropertyFile` decides whether a file is to be converted. The name must end in `.properties`.
  The exclusion pattern must not match the whole name. The content, after leading white space,
  must not start with `{`, `[` or `"`.
- `convertToJson` renders the properties as an indented JSON object, one `"key": "value"` line
  each.
- `computeNewFileName` names the generated file.
- `computeRelativeSourceParent` locates a file's directory relative to the source root.

`FileVisitor.java` is not part of this model. The model follows the expectations of
`FileVisitorTest.java`, and the lemmas of module `FileVisitorTest` restate each JUnit test and
prove it of the model.

Files:

- `wrappers.dfy`: `Option` and `Result`. `None` stands for Java's `null`, `Err` for an exception.
- `strings.dfy`: suffix tests, Java's `trim` rule for leading white space, `Split` and `Join`.
- `paths.dfy`: lexical `java.nio.file.Path` on a Unix file system. It covers `Paths.get`,
  `getFileName`, `getParent`, `relativize` and `resolve`.
- `json.dfy`: `convertToJson`, plus a reader for its layout that shows the rendering loses nothing.
- `file_visitor.dfy`: the visitor's configuration, `isPropertyFile`, `computeNewFileName` and
  `computeRelativeSourceParent`.
- `file_visitor_test.dfy`: the test expectations.

Modelling choices:

- A file's content is an `Option<string>`. `None` means the file cannot be read. The name checks
  come first, so names that fail them get `Ok(false)` without the content being read. That is how
  the tests at lines 74-81 get `false` for paths that were never created.
- The exclusion regular expression is the predicate it decides: full match of the file name. The
  test pattern `^(a.properties)$` is modelled exactly, including its unescaped `.`, which matches
  any one character except a line terminator. `APropertiesAmongPropertiesFiles` shows this makes
  no difference among names ending in `.properties`.
- An empty pattern fully matches only the empty name. It is not "matches nothing", but
  `EmptyPatternExcludesNothing` shows the two decide every file alike.
- `java.util.Properties` is a hash map. The model takes the order in which it enumerates its
  entries as the input sequence. `Enumerates` links that sequence to the map.
- `computeRelativeSourceParent` is `sourceRoot.relativize(path.getParent())`. The other order,
  `sourceRoot.relativize(path).getParent()`, would give `null` for `source_dir/a`, but the test at
  lines 111-117 expects the empty path.

## Model

| member | source | states |
|---|---|---|
| `FileVisitor.IsPropertyFile` | src/test/java/fr/broeglin/tools/properties2json/FileVisitorTest.java:29-41 | true exactly when the name ends in `.properties`, the pattern does not match it, the content can be read and its first non-white-space character is not `{`, `[` or `"`. An I/O error occurs exactly when the name passes and the content cannot be read. |
| `FileVisitor.LooksLikeJsonIff` | src/test/java/fr/broeglin/tools/properties2json/FileVisitorTest.java:83-102 | trimming leading white space and testing the first character is the same as "the first character that is not white space exists and is `{`, `[` or `"`" |
| `FileVisitor.NameDecidesWithoutContent` | src/test/java/fr/broeglin/tools/properties2json/FileVisitorTest.java:73-81 | a name with the wrong suffix, or one the pattern matches, is rejected with `Ok(false)` whatever the content, including a file that does not exist |
| `FileVisitor.OnlyFirstVisibleCounts` | src/test/java/fr/broeglin/tools/properties2json/FileVisitorTest.java:104-109 | once the content has a visible character, appending anything (a later bracket included) does not change the decision |
| `FileVisitor.ComputeNewFileName` | src/test/java/fr/broeglin/tools/properties2json/FileVisitorTest.java:63-71 | the result starts with `__`, ends with `.json` and holds exactly the file name between them |
| `FileVisitor.NewFileNameRoundTrip` | src/test/java/fr/broeglin/tools/properties2json/FileVisitorTest.java:63-71 | the original name can be read back from the generated name, and the generated name differs from the original |
| `FileVisitor.GeneratedFileIsNotReconverted` | src/test/java/fr/broeglin/tools/properties2json/FileVisitorTest.java:36-41 | a generated `__….json` file is never taken for a properties file, wherever it lies and whatever it holds |
| `FileVisitor.ComputeRelativeSourceParent` | src/test/java/fr/broeglin/tools/properties2json/FileVisitorTest.java:111-130 | succeeds exactly when there is a source root, the path has a parent and both are of the same kind (absolute or relative). The result is relative. It fails with `NoSourceRoot` exactly when the root is null. |
| `FileVisitor.RelativeSourceParentBelowRoot` | src/test/java/fr/broeglin/tools/properties2json/FileVisitorTest.java:111-130 | for `root/d1/…/dn/leaf` the result is `d1/…/dn` (empty when n = 0), for absolute and for relative roots, and resolving it against the root gives the file's directory |
| `FileVisitor.RelativeSourceParentOutsideRoot` | src/test/java/fr/broeglin/tools/properties2json/FileVisitorTest.java:111-130 | a directory that is not below the root gives a result starting with `..` |
| `Json.ConvertToJson` | src/test/java/fr/broeglin/tools/properties2json/FileVisitorTest.java:43-46 | the text is `{}` exactly when there are no properties |
| `Json.ConvertToJsonLayout` | src/test/java/fr/broeglin/tools/properties2json/FileVisitorTest.java:48-61 | the text has a `{` line, then one line `  "key": "value"` per property in enumeration order, each but the last followed by a comma, then a `}` line |
| `Json.ConvertToJsonLines` | src/test/java/fr/broeglin/tools/properties2json/FileVisitorTest.java:48-61 | the text of a non-empty list is its lines (`JsonLines`) joined by newlines |
| `Json.ConvertToJsonRoundTrip` | src/test/java/fr/broeglin/tools/properties2json/FileVisitorTest.java:48-61 | keys and values are written verbatim and in order: reading the text back yields exactly the properties |
| `Json.ParseEntryLine` | src/test/java/fr/broeglin/tools/properties2json/FileVisitorTest.java:52 | one property line reads back as its key and value |
| `Paths.Get` | src/test/java/fr/broeglin/tools/properties2json/FileVisitorTest.java:65 | `Paths.get` yields a well-formed path, absolute exactly when the text starts with `/` |
| `Paths.GetRender` | src/test/java/fr/broeglin/tools/properties2json/FileVisitorTest.java:113-128 | parsing the text of a well-formed path gives the path back, so each test's `Paths.get` literal names the path used in its lemma |
| `Paths.Parent` | src/test/java/fr/broeglin/tools/properties2json/FileVisitorTest.java:115 | `getParent` is null exactly for the empty path, the root and a single relative name. Otherwise it has the same kind and the path is the parent plus the file name. |
| `Paths.Relativize` | src/test/java/fr/broeglin/tools/properties2json/FileVisitorTest.java:113-129 | defined exactly when both paths are of the same kind, and then relative |
| `Paths.RelativizeDescendant` | src/test/java/fr/broeglin/tools/properties2json/FileVisitorTest.java:123-129 | relativizing a descendant strips the base's names, and resolving the result against the base gives the descendant |
| `Paths.RelativizeEscapes` | src/test/java/fr/broeglin/tools/properties2json/FileVisitorTest.java:113-129 | relativizing a path that is not a descendant gives a result starting with `..` |
| `Paths.CommonPrefixLength` | src/test/java/fr/broeglin/tools/properties2json/FileVisitorTest.java:113-129 | the length of the longest shared leading run of names |
| `Strings.TrimStart` | src/test/java/fr/broeglin/tools/properties2json/FileVisitorTest.java:97-102 | the result is a suffix of the input, everything removed is white space, and the result is empty or starts with a visible character |
| `Strings.TrimStartAppend` | src/test/java/fr/broeglin/tools/properties2json/FileVisitorTest.java:104-109 | text after the first visible character survives trimming unchanged |
| `Strings.EndsWithIff` | src/test/java/fr/broeglin/tools/properties2json/FileVisitorTest.java:78-81 | ending with a suffix means being some string followed by that suffix |
| `Strings.Split` | src/test/java/fr/broeglin/tools/properties2json/FileVisitorTest.java:115 | the pieces hold no separator and join back to the input |
| `Strings.SplitJoin` | src/test/java/fr/broeglin/tools/properties2json/FileVisitorTest.java:115 | splitting joined separator-free pieces gives the pieces back |
| `Paths.FileName` | src/test/java/fr/broeglin/tools/properties2json/FileVisitorTest.java:63-71 | `getFileName`: empty for a path without names, otherwise the last name, with the path being its other names followed by it |
| `FileVisitorTest.MatchesAProperties` | src/test/java/fr/broeglin/tools/properties2json/FileVisitorTest.java:23 | the full match of `^(a.properties)$`: exactly the names `a`, one character that is not a line terminator, `properties` |
| `FileVisitorTest.MatchesEmptyPattern` | src/test/java/fr/broeglin/tools/properties2json/FileVisitorTest.java:113 | the full match of the empty pattern, which never accepts a name ending in `.properties` |
| `FileVisitorTest.TestVisitor` | src/test/java/fr/broeglin/tools/properties2json/FileVisitorTest.java:23 | the visitor with null roots whose pattern excludes `a.properties` but neither `aa.properties` nor `test.properties` |
| `FileVisitorTest.RootedVisitor` | src/test/java/fr/broeglin/tools/properties2json/FileVisitorTest.java:111-130 | the visitor with the given source root, a null destination root and the empty pattern, which excludes no `.properties` name |
| `FileVisitorTest.TwoProperties` | src/test/java/fr/broeglin/tools/properties2json/FileVisitorTest.java:57-58 | the map holding exactly `a.b.c=1` and `c.d.e=2` |
| `FileVisitorTest.TempPropertiesFile` | src/test/java/fr/broeglin/tools/properties2json/FileVisitorTest.java:138-142 | the `test.properties` file created in the temporary folder: its name is `test.properties` and its parent is the folder |
| `FileVisitorTest.APropertiesAmongPropertiesFiles` | src/test/java/fr/broeglin/tools/properties2json/FileVisitorTest.java:23 | among names ending in `.properties`, the pattern `^(a.properties)$` matches exactly `a.properties` |
| `FileVisitorTest.EmptyPatternExcludesNothing` | src/test/java/fr/broeglin/tools/properties2json/FileVisitorTest.java:113 | the empty pattern decides every file as no pattern at all would |
| `FileVisitorTest.IsPropertyFileMatchesDotProperties` | src/test/java/fr/broeglin/tools/properties2json/FileVisitorTest.java:29-34 | a new empty `test….properties` file in any directory is a properties file |
| `FileVisitorTest.IsPropertyFileRejectsOtherSuffix` | src/test/java/fr/broeglin/tools/properties2json/FileVisitorTest.java:36-41 | a `test….foo` file is not one, whatever it holds |
| `FileVisitorTest.ConvertEmpty` | src/test/java/fr/broeglin/tools/properties2json/FileVisitorTest.java:43-46 | no properties give `{}` |
| `FileVisitorTest.ConvertOneProperty` | src/test/java/fr/broeglin/tools/properties2json/FileVisitorTest.java:48-53 | `a.b.c=1` gives the test's three-line text |
| `FileVisitorTest.ConvertTwo` | src/test/java/fr/broeglin/tools/properties2json/FileVisitorTest.java:55-61 | two properties give two lines, the first followed by a comma |
| `FileVisitorTest.ConvertTwoInTestOrder` | src/test/java/fr/broeglin/tools/properties2json/FileVisitorTest.java:60 | enumerated with `c.d.e` first, the text is the one the test expects |
| `FileVisitorTest.ConvertTwoProperties` | src/test/java/fr/broeglin/tools/properties2json/FileVisitorTest.java:55-61 | whichever order the map enumerates `a.b.c=1` and `c.d.e=2` in, the text is one of the two layouts |
| `FileVisitorTest.SourceFileParses` | src/test/java/fr/broeglin/tools/properties2json/FileVisitorTest.java:123 | `Paths.get("source_dir/a/b.txt")` names `source_dir`, `a`, `b.txt` |
| `FileVisitorTest.RenameEndingWithProperties` | src/test/java/fr/broeglin/tools/properties2json/FileVisitorTest.java:63-66 | `test.properties` is renamed `__test.properties.json` |
| `FileVisitorTest.RenameNotExcluded` | src/test/java/fr/broeglin/tools/properties2json/FileVisitorTest.java:68-71 | `aa.properties` escapes the pattern and is renamed `__aa.properties.json` |
| `FileVisitorTest.ExcludedIsRejected` | src/test/java/fr/broeglin/tools/properties2json/FileVisitorTest.java:73-76 | `a.properties` is rejected without being read |
| `FileVisitorTest.TrailingCharacterIsRejected` | src/test/java/fr/broeglin/tools/properties2json/FileVisitorTest.java:78-81 | `test.properties1` is rejected without being read |
| `FileVisitorTest.CurlyBracketIsRejected` | src/test/java/fr/broeglin/tools/properties2json/FileVisitorTest.java:83-88 | content ` {}` is rejected |
| `FileVisitorTest.SquareBracketIsRejected` | src/test/java/fr/broeglin/tools/properties2json/FileVisitorTest.java:90-95 | content ` []` is rejected |
| `FileVisitorTest.DoubleQuoteIsRejected` | src/test/java/fr/broeglin/tools/properties2json/FileVisitorTest.java:97-102 | content newline, tab, `"` is rejected |
| `FileVisitorTest.LaterBracketIsAccepted` | src/test/java/fr/broeglin/tools/properties2json/FileVisitorTest.java:104-109 | content `a = []` is accepted |
| `FileVisitorTest.RelativeParentIsEmpty` | src/test/java/fr/broeglin/tools/properties2json/FileVisitorTest.java:111-117 | `source_dir/a` under root `source_dir` has the empty relative parent |
| `FileVisitorTest.RelativeParentIsA` | src/test/java/fr/broeglin/tools/properties2json/FileVisitorTest.java:119-130 | `source_dir/a/b.txt` has relative parent `a`, under the relative and under the absolute root |

## Left out

- `FileVisitor.java` is not part of this model. The behaviour is taken from the assertions of
  `FileVisitorTest.java`, and where the tests leave a detail open the model says what it chose.
- File I/O (temporary files, `Files.write`, reading content) is not modelled. Content is given
  as `Some(text)` or as `None` for an unreadable or missing file.
- The `.properties` text format (comments, continuations, `\uXXXX` escapes) is not modelled. It
  is parsed by `java.util.Properties`, so the model takes the parsed key/value list.
- The Java regular-expression engine is not modelled. The exclusion pattern is the full-match
  predicate it decides.
- The hash iteration order of `java.util.Properties` is not modelled. It is whatever order the
  input sequence has.
- JSON escaping is not modelled. Keys and values are written verbatim, as in the tests.
- Json.ConvertToJsonRoundTrip: stated only for keys and values without `"` or newlines, because
  unescaped quotes or newlines make the text ambiguous to read back.
- Json.ConvertToJsonLayout: stated only for keys and values without newlines, because a newline
  inside a key or value splits a property line in two.
- Directory traversal, writing the output files, the use of the destination root and the command
  line wrapper are not modelled. They are the collaborators around the per-file logic.
- White space follows Java's `String.trim`: every character up to U+0020. The whole content is
  examined, not only a first buffer of it.
- `Paths.FileName`: the root path `/` gets the empty name, where Java's `getFileName` returns
  null.
- `Paths.Get`: does not reject names containing NUL, which Java refuses with
  `InvalidPathException`.
- `Paths.Relativize`: treats `.` and `..` as ordinary names. It does not apply the special
  handling of those names that the JDK's `relativize` has.
