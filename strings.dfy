/** The string operations the file visitor relies on, with their characterisations. */
module Strings {

  /** `s` begins with `prefix` (Java's String.startsWith). */
  predicate StartsWith(s: string, prefix: string) {
    |prefix| <= |s| && s[..|prefix|] == prefix
  }

  /** `s` ends with `suffix` (Java's String.endsWith). */
  predicate EndsWith(s: string, suffix: string) {
    |suffix| <= |s| && s[|s| - |suffix|..] == suffix
  }

  /** Ending with `suffix` means being some string followed by `suffix`. */
  lemma EndsWithIff(s: string, suffix: string)
    ensures EndsWith(s, suffix) <==> exists front :: front + suffix == s
  {
    if EndsWith(s, suffix) {
      var front := s[..|s| - |suffix|];
      assert front + suffix == s;
    }
    if exists front :: front + suffix == s {
      var front :| front + suffix == s;
      assert s[|s| - |suffix|..] == suffix;
    }
  }

  /** The characters Java's String.trim removes: every code point up to and including U+0020. */
  predicate IsTrimmable(c: char) {
    c <= ' '
  }

  /** `s` without its leading trimmable characters (the front half of Java's String.trim). */
  function TrimStart(s: string): (t: string)
    ensures |t| <= |s| && t == s[|s| - |t|..]
    ensures forall i :: 0 <= i < |s| - |t| ==> IsTrimmable(s[i])
    ensures t == [] || !IsTrimmable(t[0])
  {
    if s != [] && IsTrimmable(s[0]) then TrimStart(s[1..]) else s
  }

  /** Text after the first non-trimmable character does not change what trimming leaves in front. */
  lemma {:induction false} TrimStartAppend(s: string, rest: string)
    requires exists i :: 0 <= i < |s| && !IsTrimmable(s[i])
    ensures TrimStart(s + rest) == TrimStart(s) + rest
  {
    if IsTrimmable(s[0]) {
      assert (s + rest)[1..] == s[1..] + rest;
      var i :| 0 <= i < |s| && !IsTrimmable(s[i]);
      assert !IsTrimmable(s[1..][i - 1]);
      TrimStartAppend(s[1..], rest);
    }
  }

  /** The pieces of `parts` glued together with `sep` between neighbours. */
  function Join(parts: seq<string>, sep: char): string {
    if |parts| == 0 then []
    else if |parts| == 1 then parts[0]
    else parts[0] + [sep] + Join(parts[1..], sep)
  }

  /** `s` cut at every occurrence of `sep`; empty pieces are kept, so there is always one piece. */
  function Split(s: string, sep: char): (parts: seq<string>)
    ensures |parts| >= 1
    ensures forall i :: 0 <= i < |parts| ==> sep !in parts[i]
    ensures Join(parts, sep) == s
  {
    if s == [] then [[]]
    else
      var rest := Split(s[1..], sep);
      if s[0] == sep then
        assert Join([[]] + rest, sep) == [sep] + Join(rest, sep);
        [[]] + rest
      else
        JoinConsFirst(s[0], rest, sep);
        [[s[0]] + rest[0]] + rest[1..]
  }

  /** Putting a character in front of the first piece puts it in front of the joined text. */
  lemma JoinConsFirst(c: char, parts: seq<string>, sep: char)
    requires |parts| >= 1
    ensures Join([[c] + parts[0]] + parts[1..], sep) == [c] + Join(parts, sep)
  {
    var ps := [[c] + parts[0]] + parts[1..];
    assert ps[1..] == parts[1..];
  }

  /** Splitting text that starts with a separator-free piece yields that piece glued to the first one. */
  lemma {:induction false} SplitFront(a: string, rest: string, sep: char)
    requires sep !in a
    ensures Split(a + rest, sep) == [a + Split(rest, sep)[0]] + Split(rest, sep)[1..]
  {
    var tail := Split(rest, sep);
    if a == [] {
      assert a + rest == rest;
      assert a + tail[0] == tail[0];
      assert tail == [tail[0]] + tail[1..];
    } else {
      assert (a + rest)[0] == a[0] && (a + rest)[1..] == a[1..] + rest;
      SplitFront(a[1..], rest, sep);
      var r := Split(a[1..] + rest, sep);
      assert r == [a[1..] + tail[0]] + tail[1..];
      assert Split(a + rest, sep) == [[a[0]] + r[0]] + r[1..];
      assert [a[0]] + (a[1..] + tail[0]) == a + tail[0];
    }
  }

  /** Split undoes Join when no piece holds the separator. */
  lemma {:induction false} SplitJoin(parts: seq<string>, sep: char)
    requires |parts| >= 1
    requires forall i :: 0 <= i < |parts| ==> sep !in parts[i]
    ensures Split(Join(parts, sep), sep) == parts
  {
    if |parts| == 1 {
      SplitFront(parts[0], [], sep);
      assert parts[0] + [] == parts[0];
    } else {
      var tail := Join(parts[1..], sep);
      SplitJoin(parts[1..], sep);
      SplitFront(parts[0], [sep] + tail, sep);
      assert parts[0] + [sep] + tail == parts[0] + ([sep] + tail);
      assert ([sep] + tail)[0] == sep && ([sep] + tail)[1..] == tail;
      assert Split([sep] + tail, sep) == [[]] + parts[1..];
      assert parts[0] + [] == parts[0];
      assert ([[]] + parts[1..])[1..] == parts[1..];
      assert parts == [parts[0]] + parts[1..];
    }
  }
}
