/**
 * The expectations of FileVisitorTest, each stated and proved for the model. Temporary files
 * are given as a path under an arbitrary directory, their random name parts as arbitrary text,
 * and a path that was never created as content None.
 */
module FileVisitorTest {
  import opened Wrappers
  import opened Strings
  import opened Paths
  import opened Json
  import opened FileVisitor

  /** Java regular-expression line terminators, which `.` does not match. */
  predicate IsLineTerminator(c: char) {
    c == '\n' || c == '\r' || c == '\U{0085}' || c == '\U{2028}' || c == '\U{2029}'
  }

  /** Full match of the pattern "^(a.properties)$": an `a`, any one character but a line terminator, "properties". */
  predicate MatchesAProperties(name: string): (matched: bool)
    ensures matched <==> exists c :: !IsLineTerminator(c) && name == ['a', c] + "properties"
  {
    var matched := |name| == 12 && name[0] == 'a' && !IsLineTerminator(name[1]) && name[2..] == "properties";
    assert matched ==> name == ['a', name[1]] + "properties";
    matched
  }

  /** Full match of the empty pattern "": only the empty name. */
  predicate MatchesEmptyPattern(name: string): (matched: bool)
    ensures matched ==> !EndsWith(name, PropertiesSuffix)
  {
    name == []
  }

  /** The visitor most tests use: no roots, exclusion pattern "^(a.properties)$". */
  function TestVisitor(): (v: Visitor)
    ensures v.sourceRoot.None? && v.destRoot.None?
    ensures v.excludes("a.properties") && !v.excludes("aa.properties") && !v.excludes("test.properties")
  {
    Visitor(None, None, MatchesAProperties)
  }

  /**
   * The unescaped `.` in "^(a.properties)$" matches any character, but among names ending in
   * ".properties" the pattern picks out exactly "a.properties".
   */
  lemma {:induction false} APropertiesAmongPropertiesFiles(name: string)
    requires EndsWith(name, PropertiesSuffix)
    ensures MatchesAProperties(name) <==> name == "a.properties"
  {
    if MatchesAProperties(name) {
      assert name[1] == name[|name| - |PropertiesSuffix|..][0] == '.';
      assert name == [name[0], name[1]] + name[2..];
    }
  }

  /**
   * The empty pattern changes no decision: no name ending in ".properties" is empty, so
   * excluding with it is the same as excluding nothing.
   */
  lemma EmptyPatternExcludesNothing(root: Option<Path>, dest: Option<Path>, path: Path, content: Option<string>)
    ensures IsPropertyFile(Visitor(root, dest, MatchesEmptyPattern), path, content)
         == IsPropertyFile(Visitor(root, dest, _ => false), path, content)
  {
  }

  /** isPropertyFile_should_return_match_dot_properties: a new empty "test….properties" file is a properties file. */
  lemma IsPropertyFileMatchesDotProperties(tempDir: seq<string>, random: string)
    ensures IsPropertyFile(TestVisitor(), Path(true, tempDir + ["test" + random + ".properties"]), Some("")) == Ok(true)
  {
    var name := "test" + random + ".properties";
    assert FileName(Path(true, tempDir + [name])) == name;
    assert name[|name| - 11..] == ".properties";
    assert name[0] == 't';
  }

  /** isPropertyFile_should_not_match_if_not_dot_properties: a "test….foo" file is not, whatever it holds. */
  lemma IsPropertyFileRejectsOtherSuffix(tempDir: seq<string>, random: string, content: Option<string>)
    ensures IsPropertyFile(TestVisitor(), Path(true, tempDir + ["test" + random + ".foo"]), content) == Ok(false)
  {
    var name := "test" + random + ".foo";
    assert FileName(Path(true, tempDir + [name])) == name;
    assert name[|name| - 1] == 'o';
  }

  /** should_convert_empty_to_json. */
  lemma ConvertEmpty()
    ensures ConvertToJson([]) == "{}"
  {
  }

  /** should_convert_one_property_to_json. */
  lemma ConvertOneProperty()
    ensures ConvertToJson([("a.b.c", "1")]) == "{\n  \"a.b.c\": \"1\"\n}"
  {
  }

  /** The properties of the two-property test, as the map java.util.Properties holds. */
  function TwoProperties(): (m: map<string, string>)
    ensures m.Keys == {"a.b.c", "c.d.e"} && m["a.b.c"] == "1" && m["c.d.e"] == "2"
  {
    map["a.b.c" := "1", "c.d.e" := "2"]
  }

  /** Two properties make two lines, the first followed by a comma. */
  lemma ConvertTwo(first: Property, second: Property)
    ensures ConvertToJson([first, second]) == "{\n" + EntryLine(first) + ",\n" + EntryLine(second) + "\n}"
  {
    var props := [first, second];
    assert props[1..] == [second];
    assert Entries(props) == EntryLine(first) + ",\n" + EntryLine(second);
    assert ConvertToJson(props) == "{\n" + (EntryLine(first) + ",\n" + EntryLine(second)) + "\n}";
  }

  /** The text the two-property test expects, where "c.d.e" comes first. */
  lemma ConvertTwoInTestOrder()
    ensures ConvertToJson([("c.d.e", "2"), ("a.b.c", "1")]) == "{\n  \"c.d.e\": \"2\",\n  \"a.b.c\": \"1\"\n}"
  {
    ConvertTwo(("c.d.e", "2"), ("a.b.c", "1"));
  }

  /** The text for the other enumeration order. */
  lemma ConvertTwoInOtherOrder()
    ensures ConvertToJson([("a.b.c", "1"), ("c.d.e", "2")]) == "{\n  \"a.b.c\": \"1\",\n  \"c.d.e\": \"2\"\n}"
  {
    ConvertTwo(("a.b.c", "1"), ("c.d.e", "2"));
  }

  /**
   * should_convert_two_property_to_json: whichever order the map enumerates its two properties
   * in, the text is one of the two layouts, the test's expected text being the one where
   * "c.d.e" comes first.
   */
  lemma ConvertTwoProperties(props: seq<Property>)
    requires Enumerates(props, TwoProperties())
    ensures || ConvertToJson(props) == "{\n  \"c.d.e\": \"2\",\n  \"a.b.c\": \"1\"\n}"
            || ConvertToJson(props) == "{\n  \"a.b.c\": \"1\",\n  \"c.d.e\": \"2\"\n}"
  {
    var m := TwoProperties();
    assert props[0].0 in m && props[1].0 in m;
    if props[0].0 == "a.b.c" {
      assert props == [("a.b.c", "1"), ("c.d.e", "2")];
      ConvertTwoInOtherOrder();
    } else {
      assert props == [("c.d.e", "2"), ("a.b.c", "1")];
      ConvertTwoInTestOrder();
    }
  }

  /** Paths.get of the text of a well-formed path is that path. */
  lemma GetText(p: Path, text: string)
    requires WellFormed(p) && text == Render(p)
    ensures Get(text) == p
  {
    GetRender(p);
  }

  /** Paths.get("source_dir/a/b.txt") names source_dir, a and b.txt; the other test paths parse alike. */
  lemma SourceFileParses()
    ensures Get("source_dir/a/b.txt") == Path(false, ["source_dir", "a", "b.txt"])
  {
    GetText(Path(false, ["source_dir", "a", "b.txt"]), "source_dir/a/b.txt");
  }

  /** should_rename_ending_with_properties (Paths.get("test.properties") is this path, by GetText). */
  lemma RenameEndingWithProperties()
    ensures ComputeNewFileName(Path(false, ["test.properties"])) == "__test.properties.json"
  {
  }

  /** should_rename_ending_with_properties_and_does_not_match_excludes: the renaming ignores the pattern. */
  lemma RenameNotExcluded()
    ensures !MatchesAProperties("aa.properties")
    ensures ComputeNewFileName(Path(false, ["aa.properties"])) == "__aa.properties.json"
  {
    assert |"aa.properties"| == 13;
  }

  /** should_not_rename_excluded: the excluded name is rejected although the file does not exist. */
  lemma ExcludedIsRejected()
    ensures IsPropertyFile(TestVisitor(), Path(false, ["a.properties"]), None) == Ok(false)
  {
    assert "a.properties"[2..] == "properties";
  }

  /** should_not_rename_if_not_ending_with_properties: ".properties1" is no ".properties" suffix. */
  lemma TrailingCharacterIsRejected()
    ensures IsPropertyFile(TestVisitor(), Path(false, ["test.properties1"]), None) == Ok(false)
  {
  }

  /** The test.properties file the content tests create in the temporary folder. */
  function TempPropertiesFile(tempDir: seq<string>): (p: Path)
    ensures FileName(p) == "test.properties"
    ensures Parent(p) == Some(Path(true, tempDir))
  {
    assert (tempDir + ["test.properties"])[..|tempDir|] == tempDir;
    Path(true, tempDir + ["test.properties"])
  }

  /** should_not_rename_file_starting_with_curly_bracket. */
  lemma CurlyBracketIsRejected(tempDir: seq<string>)
    ensures IsPropertyFile(TestVisitor(), TempPropertiesFile(tempDir), Some(" {}")) == Ok(false)
  {
    assert " {}"[1..] == "{}";
  }

  /** should_not_rename_file_starting_with_square_bracket. */
  lemma SquareBracketIsRejected(tempDir: seq<string>)
    ensures IsPropertyFile(TestVisitor(), TempPropertiesFile(tempDir), Some(" []")) == Ok(false)
  {
    assert " []"[1..] == "[]";
  }

  /** should_not_rename_file_starting_with_double_quote: newline and tab before the quote are skipped. */
  lemma DoubleQuoteIsRejected(tempDir: seq<string>)
    ensures IsPropertyFile(TestVisitor(), TempPropertiesFile(tempDir), Some("\n\t\"")) == Ok(false)
  {
    assert "\n\t\""[1..] == "\t\"" && "\t\""[1..] == "\"";
  }

  /** should_rename_file_not_starting_with_square_bracket: a later bracket does not count. */
  lemma LaterBracketIsAccepted(tempDir: seq<string>)
    ensures IsPropertyFile(TestVisitor(), TempPropertiesFile(tempDir), Some("a = []")) == Ok(true)
  {
    assert "test.properties"[4..] == PropertiesSuffix;
    assert !LooksLikeJson("a = []");
  }

  /** The visitor of the relative-parent tests with root Paths.get(root), given as the parsed `root`. */
  function RootedVisitor(root: Path): (v: Visitor)
    ensures v.sourceRoot == Some(root) && v.destRoot.None?
    ensures forall name :: EndsWith(name, PropertiesSuffix) ==> !v.excludes(name)
  {
    Visitor(Some(root), None, MatchesEmptyPattern)
  }

  /** should_compute_relative_parent_as_empty: source_dir/a lies directly in the root source_dir. */
  lemma RelativeParentIsEmpty()
    ensures ComputeRelativeSourceParent(RootedVisitor(Path(false, ["source_dir"])), Path(false, ["source_dir", "a"]))
         == Ok(Empty)
  {
    assert ["source_dir"] + [] + ["a"] == ["source_dir", "a"];
    RelativeSourceParentBelowRoot(RootedVisitor(Path(false, ["source_dir"])), Path(false, ["source_dir"]), [], "a");
  }

  /** should_compute_relative_parent_as_a, for the relative and for the absolute root. */
  lemma RelativeParentIsA()
    ensures ComputeRelativeSourceParent(RootedVisitor(Path(false, ["source_dir"])), Path(false, ["source_dir", "a", "b.txt"]))
         == Ok(Path(false, ["a"]))
    ensures ComputeRelativeSourceParent(RootedVisitor(Path(true, ["source_dir"])), Path(true, ["source_dir", "a", "b.txt"]))
         == Ok(Path(false, ["a"]))
  {
    assert ["source_dir"] + ["a"] + ["b.txt"] == ["source_dir", "a", "b.txt"];
    RelativeSourceParentBelowRoot(RootedVisitor(Path(false, ["source_dir"])), Path(false, ["source_dir"]), ["a"], "b.txt");
    RelativeSourceParentBelowRoot(RootedVisitor(Path(true, ["source_dir"])), Path(true, ["source_dir"]), ["a"], "b.txt");
  }
}
