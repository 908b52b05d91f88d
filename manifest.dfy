/** The concatenation manifest handed to the transcoding engine's concat
    mode: one line `file '<path>'` per segment, in playback order. The
    parser below is the reading the format is written for (a quoted path
    ends at the next single quote, each entry ends with a newline); it is the
    partner the serialiser is proved against. */
module Manifest {
  import opened Base

  const EntryPrefix: string := "file '"

  /** One manifest line for `path`. */
  function Entry(path: Path): (line: string)
    ensures |line| == |path| + 8
    ensures line[..6] == EntryPrefix && line[|line| - 2..] == "'\n"
  {
    EntryPrefix + path + "'\n"
  }

  /** The manifest listing `paths` in order. */
  function Serialize(paths: seq<Path>): (text: string)
    ensures |paths| == 0 <==> text == []
  {
    if paths == [] then [] else Entry(paths[0]) + Serialize(paths[1..])
  }

  /** A two-entry manifest is the first entry, then the second. */
  lemma SerializeTwo(first: Path, second: Path)
    ensures Serialize([first, second]) == Entry(first) + Entry(second)
  {
    assert [first, second][1..] == [second];
    assert [second][1..] == [];
    assert Serialize([second]) == Entry(second) + [];
  }

  /** `concat_videos(video1, video2, ...)`: the absolute path of the first
      video, then that of the second. `abspath` is the operating system's
      path resolution, which the model leaves uninterpreted. */
  function ConcatManifest(abspath: Path -> Path, video1: Path, video2: Path): (text: string)
    ensures text == Entry(abspath(video1)) + Entry(abspath(video2))
  {
    SerializeTwo(abspath(video1), abspath(video2));
    Serialize([abspath(video1), abspath(video2)])
  }

  /** A path that survives single quoting: no quote and no line break. */
  predicate Quotable(path: Path)
  {
    '\'' !in path && '\n' !in path
  }

  /** The index of the first `c` in `s`, or `|s|` when there is none. */
  function IndexOf(s: string, c: char): (i: nat)
    ensures i <= |s|
    ensures i < |s| ==> s[i] == c
    ensures forall j :: 0 <= j < i ==> s[j] != c
  {
    if s == [] then 0
    else if s[0] == c then 0
    else 1 + IndexOf(s[1..], c)
  }

  /** The path of one manifest line (without its newline). */
  function ParseEntry(line: string): (r: Option<Path>)
    ensures r.Some? ==> Quotable(r.value) && line == EntryPrefix + r.value + "'"
  {
    if |line| >= |EntryPrefix| + 1 && line[..|EntryPrefix|] == EntryPrefix && line[|line| - 1] == '\''
       && Quotable(line[|EntryPrefix|..|line| - 1])
    then
      var path := line[|EntryPrefix|..|line| - 1];
      assert line == line[..|EntryPrefix|] + path + [line[|line| - 1]];
      Some(path)
    else None
  }

  /** The paths a manifest lists, in order; `None` for text that is not a
      sequence of newline-terminated entries. */
  function Parse(text: string): (r: Option<seq<Path>>)
    ensures r.Some? ==> forall k :: 0 <= k < |r.value| ==> Quotable(r.value[k])
    decreases |text|
  {
    if text == [] then Some([])
    else
      var i := IndexOf(text, '\n');
      if i == |text| then None
      else
        match ParseEntry(text[..i])
        case None => None
        case Some(path) =>
          match Parse(text[i + 1..])
          case None => None
          case Some(rest) => Some([path] + rest)
  }

  lemma EntryThenRest(path: Path, rest: string)
    requires Quotable(path)
    ensures var text := Entry(path) + rest;
      IndexOf(text, '\n') == |path| + 7 &&
      text[..|path| + 7] == EntryPrefix + path + "'" &&
      text[|path| + 8..] == rest
  {
    var text := Entry(path) + rest;
    var i := IndexOf(text, '\n');
    assert text[|path| + 7] == '\n';
    assert text[..|path| + 7] == EntryPrefix + path + "'";
  }

  lemma ParseEntryOf(path: Path)
    requires Quotable(path)
    ensures ParseEntry(EntryPrefix + path + "'") == Some(path)
  {
    var line := EntryPrefix + path + "'";
    assert line[..|EntryPrefix|] == EntryPrefix;
    assert line[|EntryPrefix|..|line| - 1] == path;
  }

  /** Reading a manifest back gives exactly the paths it was written from,
      in the same order, for every list of quotable paths. */
  lemma {:induction false} ParseSerialize(paths: seq<Path>)
    requires forall k :: 0 <= k < |paths| ==> Quotable(paths[k])
    ensures Parse(Serialize(paths)) == Some(paths)
  {
    if paths != [] {
      var path, tail := paths[0], paths[1..];
      var rest := Serialize(tail);
      var text := Serialize(paths);
      assert text == Entry(path) + rest;
      EntryThenRest(path, rest);
      ParseEntryOf(path);
      assert forall k :: 0 <= k < |tail| ==> tail[k] == paths[k + 1];
      ParseSerialize(tail);
      assert Parse(text) == Some([path] + tail);
      assert [path] + tail == paths;
    }
  }

  lemma SplitAt(s: string, i: nat)
    requires i < |s|
    ensures s == s[..i] + [s[i]] + s[i + 1..]
  {
    assert forall k :: 0 <= k < |s| ==> s[k] == (s[..i] + [s[i]] + s[i + 1..])[k];
  }

  /** Serialising the paths a manifest lists gives back the manifest: the
      format has one spelling per list of paths. */
  lemma {:induction false} SerializeParse(text: string)
    requires Parse(text).Some?
    ensures Serialize(Parse(text).value) == text
    decreases |text|
  {
    if text != [] {
      var i := IndexOf(text, '\n');
      var line, tail := text[..i], text[i + 1..];
      var path := ParseEntry(line).value;
      var rest := Parse(tail).value;
      assert Parse(text) == Some([path] + rest);
      SerializeParse(tail);
      var paths := [path] + rest;
      assert paths[0] == path && paths[1..] == rest;
      assert Serialize(paths) == Entry(path) + tail;
      assert line == EntryPrefix + path + "'";
      assert Entry(path) == line + "\n";
      assert text[i] == '\n' && [text[i]] == "\n";
      SplitAt(text, i);
    }
  }

  /** The manifest of `concat_videos` lists exactly two segments: the first
      video, then the second. */
  lemma ConcatManifestOrder(abspath: Path -> Path, video1: Path, video2: Path)
    requires Quotable(abspath(video1)) && Quotable(abspath(video2))
    ensures Parse(ConcatManifest(abspath, video1, video2)) == Some([abspath(video1), abspath(video2)])
  {
    ParseSerialize([abspath(video1), abspath(video2)]);
  }

  /** A path containing a single quote ends its quoted string early: the
      manifest no longer lists it. */
  lemma QuoteBreaksEntry(path: Path)
    requires '\n' !in path && '\'' in path
    ensures Parse(Entry(path)) == None
  {
    var text := Entry(path);
    var i := IndexOf(text, '\n');
    assert text[|path| + 7] == '\n';
    assert text[..i] == EntryPrefix + path + "'";
    assert text[..i][|EntryPrefix|..|text[..i]| - 1] == path;
  }
}
