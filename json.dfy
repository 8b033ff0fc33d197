/**
 * FileVisitor.convertToJson: a flat list of properties rendered as an indented JSON object,
 * one `"key": "value"` line per property in the order the list gives, keys and values written
 * verbatim. The list is the property map's enumeration; its order is the map's own.
 */
module Json {
  import opened Wrappers
  import opened Strings

  /** One property: its key and its value. */
  type Property = (string, string)

  const Newline: char := '\n'
  const Quote: char := '"'

  /** The line of one property: two spaces, the quoted key, a colon, a space, the quoted value. */
  function EntryLine(p: Property): string {
    "  \"" + p.0 + "\": \"" + p.1 + "\""
  }

  /** The property lines, separated by a comma and a newline. */
  function Entries(props: seq<Property>): string {
    if |props| == 0 then ""
    else if |props| == 1 then EntryLine(props[0])
    else EntryLine(props[0]) + ",\n" + Entries(props[1..])
  }

  /** The JSON text of `props`: "{}" when empty, otherwise the property lines between "{" and "}" lines. */
  function ConvertToJson(props: seq<Property>): (json: string)
    ensures props == [] <==> json == "{}"
  {
    if props == [] then "{}" else "{\n" + Entries(props) + "\n}"
  }

  /** The i-th property line as it appears in the text: every line but the last ends with a comma. */
  function LineAt(props: seq<Property>, i: nat): string
    requires i < |props|
  {
    EntryLine(props[i]) + (if i + 1 < |props| then "," else "")
  }

  /** The property lines of the text, in order. */
  function PropertyLines(props: seq<Property>): (lines: seq<string>)
    ensures |lines| == |props| && forall i :: 0 <= i < |props| ==> lines[i] == LineAt(props, i)
  {
    seq(|props|, i requires 0 <= i < |props| => LineAt(props, i))
  }

  /** Past the first property, the lines are those of the remaining properties. */
  lemma PropertyLinesTail(props: seq<Property>)
    requires |props| > 1
    ensures PropertyLines(props)[0] == EntryLine(props[0]) + ","
    ensures PropertyLines(props)[1..] == PropertyLines(props[1..])
  {
    var lines, rest := PropertyLines(props), props[1..];
    forall i | 0 <= i < |rest| ensures lines[1..][i] == PropertyLines(rest)[i] {
      assert rest[i] == props[i + 1];
    }
  }

  /** The lines of the JSON text of non-empty `props`, as an independent description of the format. */
  function JsonLines(props: seq<Property>): (lines: seq<string>)
    ensures |lines| == |props| + 2
  {
    ["{"] + PropertyLines(props) + ["}"]
  }

  /**
   * `props` lists the entries of the map `m`, each once, in some order: what enumerating a
   * java.util.Properties yields.
   */
  predicate Enumerates(props: seq<Property>, m: map<string, string>) {
    && |props| == |m|
    && (forall i :: 0 <= i < |props| ==> props[i].0 in m && m[props[i].0] == props[i].1)
    && (forall i, j :: 0 <= i < j < |props| ==> props[i].0 != props[j].0)
  }

  /** No key or value holds a newline. */
  predicate NoNewlines(props: seq<Property>) {
    forall i :: 0 <= i < |props| ==> Newline !in props[i].0 && Newline !in props[i].1
  }

  /** Neither newlines nor double quotes occur in any key or value. */
  predicate Plain(props: seq<Property>) {
    forall i :: 0 <= i < |props| ==>
      Newline !in props[i].0 && Newline !in props[i].1 && Quote !in props[i].0 && Quote !in props[i].1
  }

  /** The property lines joined by newlines are the entries Entries renders. */
  lemma {:induction false} EntriesAreJoinedLines(props: seq<Property>)
    requires props != []
    ensures Entries(props) == Join(PropertyLines(props), Newline)
  {
    var lines := PropertyLines(props);
    if |props| > 1 {
      PropertyLinesTail(props);
      EntriesAreJoinedLines(props[1..]);
      assert EntryLine(props[0]) + ",\n" + Entries(props[1..])
          == lines[0] + [Newline] + Join(lines[1..], Newline);
    }
  }

  /** Adding a last piece adds the separator and the piece at the end. */
  lemma {:induction false} JoinSnoc(parts: seq<string>, last: string, sep: char)
    requires parts != []
    ensures Join(parts + [last], sep) == Join(parts, sep) + [sep] + last
  {
    if |parts| > 1 {
      assert (parts + [last])[1..] == parts[1..] + [last];
      JoinSnoc(parts[1..], last, sep);
    } else {
      assert (parts + [last])[1..] == [last];
    }
  }

  /** The JSON text of non-empty `props` is its lines joined by newlines. */
  lemma ConvertToJsonLines(props: seq<Property>)
    requires props != []
    ensures ConvertToJson(props) == Join(JsonLines(props), Newline)
  {
    var middle := PropertyLines(props);
    EntriesAreJoinedLines(props);
    JoinSnoc(["{"] + middle, "}", Newline);
    assert (["{"] + middle)[1..] == middle;
    assert JsonLines(props) == (["{"] + middle) + ["}"];
  }

  /** For keys and values without newlines no line of the text holds a newline. */
  lemma JsonLinesPlain(props: seq<Property>)
    requires NoNewlines(props)
    ensures forall i :: 0 <= i < |JsonLines(props)| ==> Newline !in JsonLines(props)[i]
  {
    var lines := JsonLines(props);
    forall i | 0 <= i < |lines| ensures Newline !in lines[i] {
      if 0 < i < |lines| - 1 {
        var p := props[i - 1];
        assert lines[i] == "  \"" + p.0 + "\": \"" + p.1 + "\"" + (if i < |props| then "," else "");
      }
    }
  }

  /**
   * The layout of convertToJson: for keys and values without newlines the text splits into a "{" line, one
   * line per property in order, each `  "key": "value"` and all but the last followed by a comma,
   * and a "}" line.
   */
  lemma ConvertToJsonLayout(props: seq<Property>)
    requires props != [] && NoNewlines(props)
    ensures var lines := Split(ConvertToJson(props), Newline);
      && |lines| == |props| + 2
      && lines[0] == "{" && lines[|props| + 1] == "}"
      && forall i :: 0 <= i < |props| ==>
           lines[i + 1] == EntryLine(props[i]) + (if i + 1 < |props| then "," else "")
  {
    ConvertToJsonLines(props);
    JsonLinesPlain(props);
    SplitJoin(JsonLines(props), Newline);
  }

  // ---------------------------------------------------------------------------------------
  // Reading the text back: a decoder for the layout above, used to show nothing is lost.

  /** The longest prefix of `s` without `c`. */
  function Until(s: string, c: char): (t: string)
    ensures t <= s && c !in t
    ensures |t| < |s| ==> s[|t|] == c
  {
    if s == [] || s[0] == c then [] else [s[0]] + Until(s[1..], c)
  }

  /** Reading up to `c` stops at its first occurrence. */
  lemma {:induction false} UntilFirst(a: string, c: char, rest: string)
    requires c !in a
    ensures Until(a + [c] + rest, c) == a
  {
    if a != [] {
      assert (a + [c] + rest)[1..] == a[1..] + [c] + rest;
      UntilFirst(a[1..], c, rest);
    }
  }

  /** One property line `  "key": "value"` read back, or None if the line has another shape. */
  function ParseEntry(line: string): Option<Property> {
    if !StartsWith(line, "  \"") then None
    else
      var afterOpen := line[3..];
      var key := Until(afterOpen, Quote);
      var afterKey := afterOpen[|key|..];
      if !StartsWith(afterKey, "\": \"") then None
      else
        var afterColon := afterKey[4..];
        var value := Until(afterColon, Quote);
        if afterColon[|value|..] == "\"" then Some((key, value)) else None
  }

  /** Reading a property line gives the property back when neither part holds a double quote. */
  lemma ParseEntryLine(p: Property)
    requires Quote !in p.0 && Quote !in p.1
    ensures ParseEntry(EntryLine(p)) == Some(p)
  {
    var line := EntryLine(p);
    assert line[..3] == "  \"";
    var afterOpen := line[3..];
    assert afterOpen == p.0 + [Quote] + (": \"" + p.1 + "\"");
    UntilFirst(p.0, Quote, ": \"" + p.1 + "\"");
    var afterKey := afterOpen[|p.0|..];
    assert afterKey == "\": \"" + p.1 + "\"";
    var afterColon := afterKey[4..];
    assert afterColon == p.1 + [Quote] + [];
    UntilFirst(p.1, Quote, []);
    assert afterColon[|p.1|..] == "\"";
  }

  /** The property lines read back; every line but the last must end with a comma. */
  function ParseEntries(lines: seq<string>): Option<seq<Property>>
    requires lines != []
  {
    if |lines| == 1 then
      match ParseEntry(lines[0])
      case Some(p) => Some([p])
      case None => None
    else if lines[0] == [] || lines[0][|lines[0]| - 1] != ',' then None
    else
      match (ParseEntry(lines[0][..|lines[0]| - 1]), ParseEntries(lines[1..]))
      case (Some(p), Some(ps)) => Some([p] + ps)
      case _ => None
  }

  /** The text of a JSON object in the layout of ConvertToJson read back as its properties. */
  function ParseJson(text: string): Option<seq<Property>> {
    if text == "{}" then Some([])
    else
      var lines := Split(text, Newline);
      if |lines| < 3 || lines[0] != "{" || lines[|lines| - 1] != "}" then None
      else ParseEntries(lines[1..|lines| - 1])
  }

  /** A comma-terminated first line that reads back, before lines that read back, reads back in front. */
  lemma ParseEntriesStep(lines: seq<string>, p: Property, ps: seq<Property>)
    requires |lines| > 1 && lines[0] != [] && lines[0][|lines[0]| - 1] == ','
    requires ParseEntry(lines[0][..|lines[0]| - 1]) == Some(p) && ParseEntries(lines[1..]) == Some(ps)
    ensures ParseEntries(lines) == Some([p] + ps)
  {
  }

  /** Plain properties stay plain without their first. */
  lemma PlainTail(props: seq<Property>)
    requires props != [] && Plain(props)
    ensures Plain(props[1..])
  {
    forall i | 0 <= i < |props| - 1 ensures props[1..][i] == props[i + 1] { }
  }

  /** If the lines after the first read back, so do all lines. */
  lemma ParseEntriesLinesCons(props: seq<Property>)
    requires |props| > 1 && Plain(props)
    requires ParseEntries(PropertyLines(props[1..])) == Some(props[1..])
    ensures ParseEntries(PropertyLines(props)) == Some(props)
  {
    var lines, first := PropertyLines(props), EntryLine(props[0]);
    PropertyLinesTail(props);
    assert lines[0] == first + ",";
    assert lines[0][..|lines[0]| - 1] == first;
    ParseEntryLine(props[0]);
    ParseEntriesStep(lines, props[0], props[1..]);
    assert props == [props[0]] + props[1..];
  }

  /** Reading back the property lines of `props` gives `props`. */
  lemma {:induction false} ParseEntriesLines(props: seq<Property>)
    requires props != [] && Plain(props)
    ensures ParseEntries(PropertyLines(props)) == Some(props)
  {
    if |props| > 1 {
      PlainTail(props);
      ParseEntriesLines(props[1..]);
      ParseEntriesLinesCons(props);
    } else {
      var lines, first := PropertyLines(props), EntryLine(props[0]);
      ParseEntryLine(props[0]);
      assert lines[0] == first + "" == first;
      assert props == [props[0]];
    }
  }

  /**
   * convertToJson loses nothing: for keys and values without newlines or double quotes the
   * text reads back as exactly the properties it was made from, in their order.
   */
  lemma ConvertToJsonRoundTrip(props: seq<Property>)
    requires Plain(props)
    ensures ParseJson(ConvertToJson(props)) == Some(props)
  {
    if props != [] {
      var lines := JsonLines(props);
      ConvertToJsonLines(props);
      JsonLinesPlain(props);
      SplitJoin(lines, Newline);
      assert lines[1..|lines| - 1] == PropertyLines(props);
      ParseEntriesLines(props);
    }
  }
}
