/** What the parser reads back from the envelope the printer writes, for any list of entries. */
module FrontMatter {
  import opened Wrappers
  import opened Packets
  import opened Validate
  import opened Markdown
  import Text

  // ---------------------------------------------------------------- entries the printer can write

  /** Keys as the envelope uses them: lower-case letters, digits and underscores. */
  predicate PlainKey(key: string) {
    key != "" && forall i :: 0 <= i < |key| ==> 'a' <= key[i] <= 'z' || '0' <= key[i] <= '9' || key[i] == '_'
  }

  ghost predicate PlainEntries(entries: seq<Entry>) {
    forall e <- entries :: PlainKey(e.key) && Text.BreakFree(e.text)
  }

  predicate Kept(text: string) {
    CleanValue(text) !in EMPTY_VALUES
  }

  /** The mapping a list of entries reads back as. */
  function Gather(m: map<string, string>, entries: seq<Entry>): map<string, string>
    decreases entries
  {
    if entries == [] then m
    else
      var e := entries[0];
      Gather(if Kept(e.text) then m[e.key := CleanValue(e.text)] else m, entries[1..])
  }

  // ---------------------------------------------------------------- one line

  lemma PlainIsNoSpace(key: string, i: nat)
    requires PlainKey(key) && i < |key|
    ensures !Text.IsSpace(key[i]) && !Text.IsLineBreak(key[i]) && key[i] != ':' && key[i] != '#'
    ensures key[i] != '@' && key[i] != '-'
  {
  }

  lemma LineIsBreakFree(e: Entry)
    requires PlainKey(e.key) && Text.BreakFree(e.text)
    ensures Text.BreakFree(Line(e))
  {
    forall i | 0 <= i < |e.key| ensures !Text.IsLineBreak(e.key[i]) { PlainIsNoSpace(e.key, i); }
  }

  /** What strip leaves after the colon of an envelope line. */
  function ValuePart(e: Entry): string {
    Text.TrimRight(" " + e.text, Text.Whitespace)
  }

  lemma StripOfValue(e: Entry)
    ensures Text.Strip(ValuePart(e)) == Text.Strip(e.text)
  {
    var tail := " " + e.text;
    StripOfTrimmedRight(tail);
    Text.TrimIgnoresMargins(" ", e.text, "", Text.Whitespace);
    assert " " + e.text + "" == tail;
  }

  lemma StripOfTrimmedRight(s: string)
    ensures Text.Strip(Text.TrimRight(s, Text.Whitespace)) == Text.Strip(s)
  {
    var n := Text.TrimRightIsPrefix(s, Text.Whitespace);
    Text.TrimIgnoresMargins("", s[..n], s[n..], Text.Whitespace);
    assert "" + s[..n] + s[n..] == s;
  }

  lemma LineInParts(e: Entry, value: string, margin: string)
    requires " " + e.text == value + margin
    ensures Line(e) == "  " + (e.key + ":" + value) + margin
  {
    assert Line(e) == "  " + e.key + ":" + (" " + e.text);
    assert Line(e) == "  " + e.key + ":" + (value + margin);
  }

  lemma StripOfLine(e: Entry)
    requires PlainKey(e.key)
    ensures Text.Strip(Line(e)) == e.key + ":" + ValuePart(e)
  {
    var tail := " " + e.text;
    var n := Text.TrimRightIsPrefix(tail, Text.Whitespace);
    var value, margin := tail[..n], tail[n..];
    CoreIsStripped(e.key, value);
    LineInParts(e, value, margin);
    StripOfParts(e.key + ":" + value, margin);
  }

  lemma StripOfParts(core: string, margin: string)
    requires Text.Stripped(core, Text.Whitespace)
    requires forall i :: 0 <= i < |margin| ==> Text.Strips(Text.Whitespace, margin[i])
    ensures Text.Strip("  " + core + margin) == core
  {
    Text.TrimOfMargins("  ", core, margin, Text.Whitespace);
  }

  lemma CoreIsStripped(key: string, value: string)
    requires PlainKey(key) && (value == "" || !Text.IsSpace(value[|value| - 1]))
    ensures Text.Stripped(key + ":" + value, Text.Whitespace)
  {
    var core := key + ":" + value;
    PlainIsNoSpace(key, 0);
    assert core[0] == key[0];
    assert core[|key|] == ':';
  }

  lemma IndentOfLine(e: Entry)
    requires PlainKey(e.key)
    ensures Indent(Line(e)) == 2 && !("#" <= Text.TrimLeft(Line(e), Text.Whitespace))
  {
    var line := Line(e);
    var n := Text.TrimLeftIsSuffix(line, Text.Whitespace);
    PlainIsNoSpace(e.key, 0);
    assert line[0] == ' ' && line[1] == ' ' && line[2] == e.key[0];
  }

  lemma IndexAfterKey(key: string, rest: string)
    requires PlainKey(key)
    ensures Text.IndexOf(key + ":" + rest, ':') == |key|
  {
    var s := key + ":" + rest;
    assert s[|key|] == ':';
    forall i | 0 <= i < |key| ensures s[i] != ':' { PlainIsNoSpace(key, i); assert s[i] == key[i]; }
  }

  lemma WithLineOfEntry(m: map<string, string>, e: Entry)
    requires PlainKey(e.key)
    ensures WithLine(m, Text.Strip(Line(e))) == if Kept(e.text) then m[e.key := CleanValue(e.text)] else m
  {
    var value := ValuePart(e);
    StripOfLine(e);
    StripOfValue(e);
    var s := e.key + ":" + value;
    IndexAfterKey(e.key, value);
    assert s[|e.key| + 1..] == value && s[..|e.key|] == e.key;
    PlainIsNoSpace(e.key, 0);
    PlainIsNoSpace(e.key, |e.key| - 1);
    Text.TrimOfStripped(e.key, Text.Whitespace);
    assert s[|e.key|] == ':';
  }

  lemma ScanOfEntry(m: map<string, string>, e: Entry)
    requires PlainKey(e.key)
    ensures ScanLine(Inside(0, m), Line(e)) == Inside(0, if Kept(e.text) then m[e.key := CleanValue(e.text)] else m)
    ensures Text.Strip(Line(e)) != "" && Text.Strip(Line(e)) != FENCE && Text.Strip(Line(e)) != MARK
  {
    StripOfLine(e);
    IndentOfLine(e);
    PlainIsNoSpace(e.key, 0);
    assert Text.Strip(Line(e))[0] == e.key[0];
    WithLineOfEntry(m, e);
  }

  lemma {:induction false} ScanOfEntries(m: map<string, string>, entries: seq<Entry>)
    requires PlainEntries(entries)
    ensures ScanLines(Inside(0, m), Lines(entries)) == Inside(0, Gather(m, entries))
    decreases entries
  {
    if entries != [] {
      var e := entries[0];
      ScanOfEntry(m, e);
      var m' := if Kept(e.text) then m[e.key := CleanValue(e.text)] else m;
      assert Lines(entries)[1..] == Lines(entries[1..]);
      ScanOfEntries(m', entries[1..]);
    }
  }

  // ---------------------------------------------------------------- the block

  lemma LinesAreBreakFree(entries: seq<Entry>)
    requires PlainEntries(entries)
    ensures forall line <- Lines(entries) :: Text.BreakFree(line)
  {
    forall line <- Lines(entries) ensures Text.BreakFree(line) {
      var i :| 0 <= i < |entries| && line == Line(entries[i]);
      LineIsBreakFree(entries[i]);
    }
  }

  lemma AwrLine()
    ensures ScanLine(Searching, "awr:") == Inside(0, map[])
    ensures Text.Strip("awr:") == "awr:" && Text.BreakFree("awr:")
  {
    Text.TrimOfStripped("awr:", Text.Whitespace);
    assert Text.TrimLeft("awr:", Text.Whitespace) == "awr:";
  }

  lemma ParseOfBlock(entries: seq<Entry>)
    requires PlainEntries(entries) && entries != []
    ensures ParseBlock(Text.Join(["awr:"] + Lines(entries))) ==
              if Gather(map[], entries) == map[] then Err(Invalid) else Ok(Gather(map[], entries))
  {
    var lines := ["awr:"] + Lines(entries);
    LinesAreBreakFree(entries);
    AwrLine();
    assert lines[|lines| - 1] == Line(entries[|entries| - 1]);
    Text.SplitJoined(lines);
    assert lines[1..] == Lines(entries);
    ScanOfEntries(map[], entries);
  }

  // ---------------------------------------------------------------- the document

  function Front(entries: seq<Entry>): seq<string> {
    [MARK, FENCE, "awr:"] + Lines(entries) + [FENCE, ""]
  }

  function Document(entries: seq<Entry>, body: string): string {
    "@response\n---\nawr:\n" + Text.Join(Lines(entries)) + "\n---\n\n" + body + "\n"
  }

  lemma FrontIsTerminated(entries: seq<Entry>)
    requires entries != []
    ensures Text.Terminated(Front(entries)) == "@response\n---\nawr:\n" + Text.Join(Lines(entries)) + "\n---\n\n"
  {
    var head, lines, tail := [MARK, FENCE, "awr:"], Lines(entries), [FENCE, ""];
    Text.TerminatedIsJoined(lines);
    HeadIsTerminated();
    Text.TerminatedOfConcat(head + lines, tail);
    Text.TerminatedOfConcat(head, lines);
    assert Text.Join(lines) + "\n" + "---\n\n" == Text.Join(lines) + "\n---\n\n";
  }

  lemma HeadIsTerminated()
    ensures Text.Terminated([MARK, FENCE, "awr:"]) == "@response\n---\nawr:\n"
    ensures Text.Terminated([FENCE, ""]) == "---\n\n"
  {
    var head := [MARK, FENCE, "awr:"];
    assert head[1..] == [FENCE, "awr:"];
    assert head[1..][1..] == ["awr:"];
    assert head[1..][1..][1..] == [];
    assert Text.Terminated(["awr:"]) == "awr:\n";
    assert Text.Terminated(head[1..]) == "---\nawr:\n";
    var tail := [FENCE, ""];
    assert tail[1..] == [""];
    assert tail[1..][1..] == [];
    assert Text.Terminated([""]) == "\n";
  }

  lemma DocumentLines(entries: seq<Entry>, body: string)
    requires PlainEntries(entries) && entries != []
    ensures Text.SplitLines(Document(entries, body)) == Front(entries) + Text.SplitLines(body + "\n")
  {
    FrontIsTerminated(entries);
    FrontIsBreakFree(entries);
    Text.SplitTerminated(Front(entries), body + "\n");
    assert Document(entries, body) == Text.Terminated(Front(entries)) + (body + "\n");
  }

  lemma FrontIsBreakFree(entries: seq<Entry>)
    requires PlainEntries(entries)
    ensures forall line <- Front(entries) :: Text.BreakFree(line)
  {
    LinesAreBreakFree(entries);
    AwrLine();
  }

  // ---------------------------------------------------------------- reading it back

  lemma {:induction false} MarksOfConcat(a: seq<string>, b: seq<string>)
    ensures Marks(a + b) == Marks(a) + Marks(b)
  {
    if a == [] {
      assert a + b == b;
    } else {
      MarksOfConcat(a[1..], b);
      assert (a + b)[1..] == a[1..] + b;
    }
  }

  lemma {:induction false} NoMarksInEntries(entries: seq<Entry>)
    requires PlainEntries(entries)
    ensures Marks(Lines(entries)) == 0
  {
    if entries != [] {
      ScanOfEntry(map[], entries[0]);
      NoMarksInEntries(entries[1..]);
      assert Lines(entries)[1..] == Lines(entries[1..]);
    }
  }

  lemma FenceAndMark()
    ensures Text.Strip(MARK) == MARK && Text.Strip(FENCE) == FENCE && Text.Strip("") == ""
  {
    Text.TrimOfStripped(MARK, Text.Whitespace);
    Text.TrimOfStripped(FENCE, Text.Whitespace);
  }

  lemma MarksOfFront(entries: seq<Entry>)
    requires PlainEntries(entries)
    ensures Marks(Front(entries)) == 1
  {
    FenceAndMark();
    AwrLine();
    NoMarksInEntries(entries);
    var head, lines, tail := [MARK, FENCE, "awr:"], Lines(entries), [FENCE, ""];
    MarksOfConcat(head + lines, tail);
    MarksOfConcat(head, lines);
    assert head[1..] == [FENCE, "awr:"] && head[1..][1..] == ["awr:"] && head[1..][1..][1..] == [];
    assert Marks(["awr:"]) == 0;
    assert Marks([FENCE, "awr:"]) == 0;
    assert tail[1..] == [""] && tail[1..][1..] == [];
    assert Marks([""]) == 0;
  }

  lemma {:induction false} FenceAfterEntries(lines: seq<string>, entries: seq<Entry>, i: nat)
    requires PlainEntries(entries) && 3 <= i <= 3 + |entries| < |lines|
    requires forall k :: 0 <= k < |entries| ==> lines[3 + k] == Line(entries[k])
    requires lines[3 + |entries|] == FENCE
    ensures NextFence(lines, i) == 3 + |entries|
    decreases |lines| - i
  {
    FenceAndMark();
    if i < 3 + |entries| {
      ScanOfEntry(map[], entries[i - 3]);
      FenceAfterEntries(lines, entries, i + 1);
    }
  }

  lemma FrontPositions(entries: seq<Entry>, bodyLines: seq<string>)
    requires PlainEntries(entries)
    ensures
      var lines := Front(entries) + bodyLines;
      && NextText(lines, 0) == 0 && NextText(lines, 1) == 1 && NextFence(lines, 2) == 3 + |entries|
      && lines[2..3 + |entries|] == ["awr:"] + Lines(entries)
      && lines[3 + |entries| + 1..] == [""] + bodyLines
  {
    var lines := Front(entries) + bodyLines;
    FenceAndMark();
    AwrLine();
    FrontLines(entries, bodyLines);
    FenceAfterEntries(lines, entries, 3);
    assert NextFence(lines, 2) == NextFence(lines, 3);
  }

  lemma FrontLines(entries: seq<Entry>, bodyLines: seq<string>)
    ensures
      var lines := Front(entries) + bodyLines;
      && lines[0] == MARK && lines[1] == FENCE && lines[2] == "awr:" && lines[3 + |entries|] == FENCE
      && (forall k :: 0 <= k < |entries| ==> lines[3 + k] == Line(entries[k]))
      && lines[2..3 + |entries|] == ["awr:"] + Lines(entries)
      && lines[3 + |entries| + 1..] == [""] + bodyLines
  {
    FrontIsItsLines([MARK, FENCE, "awr:"], Lines(entries), [FENCE, ""], bodyLines);
    assert [FENCE, ""][1..] == [""];
    assert [MARK, FENCE, "awr:"][2..] == ["awr:"];
  }

  lemma FrontIsItsLines(head: seq<string>, middle: seq<string>, tail: seq<string>, rest: seq<string>)
    requires |head| == 3 && |tail| == 2
    ensures
      var lines := head + middle + tail + rest;
      && lines[..3] == head && lines[3 + |middle|] == tail[0]
      && (forall k :: 0 <= k < |middle| ==> lines[3 + k] == middle[k])
      && lines[2..3 + |middle|] == head[2..] + middle
      && lines[3 + |middle| + 1..] == tail[1..] + rest
  {
  }

  /** What the parser makes of the lines after the front matter. */
  function BodyText(bodyLines: seq<string>): string {
    TrimNewlines(Text.Join(bodyLines))
  }

  lemma BlankFirstLine(bodyLines: seq<string>)
    requires bodyLines != []
    ensures TrimNewlines(Text.Join([""] + bodyLines)) == BodyText(bodyLines)
  {
    var joined := Text.Join(bodyLines);
    assert ([""] + bodyLines)[1..] == bodyLines;
    assert Text.Join([""] + bodyLines) == "\n" + joined + "";
    Text.TrimIgnoresMargins("\n", joined, "", Text.Exactly('\n'));
  }

  /** A printed document parses from exactly its own entries and body. */
  lemma ParseOfDocument(codec: Codec, entries: seq<Entry>, body: string)
    requires PlainEntries(entries) && entries != []
    ensures
      var bodyLines := Text.SplitLines(body + "\n");
      var mapping := Gather(map[], entries);
      Parse(codec, Document(entries, body)) ==
      if Marks(bodyLines) != 0 then Err(Unframed)
      else if mapping == map[] then Err(Invalid)
      else FromParts(codec, mapping, BodyText(bodyLines))
  {
    var bodyLines := Text.SplitLines(body + "\n");
    DocumentLines(entries, body);
    FenceAndMark();
    MarksOfFront(entries);
    MarksOfConcat(Front(entries), bodyLines);
    FrontPositions(entries, bodyLines);
    ParseOfBlock(entries);
    BlankFirstLine(bodyLines);
    CutOfFront(entries, bodyLines);
  }

  lemma CutOfFront(entries: seq<Entry>, bodyLines: seq<string>)
    requires PlainEntries(entries) && entries != [] && bodyLines != []
    requires
      var lines := Front(entries) + bodyLines;
      && NextText(lines, 0) == 0 && NextText(lines, 1) == 1 && NextFence(lines, 2) == 3 + |entries|
      && lines[2..3 + |entries|] == ["awr:"] + Lines(entries)
      && lines[3 + |entries| + 1..] == [""] + bodyLines
      && Marks(lines) == 1 + Marks(bodyLines)
    ensures
      CutFront(Front(entries) + bodyLines) ==
      if Marks(bodyLines) != 0 then Err(Unframed)
      else Ok(Parts(Text.Join(["awr:"] + Lines(entries)), TrimNewlines(Text.Join([""] + bodyLines))))
  {
    FenceAndMark();
    FrontLines(entries, bodyLines);
    var lines, close := Front(entries) + bodyLines, 3 + |entries|;
    FencesAt(lines, close);
    if Marks(lines) == 1 {
      CutAtFences(lines, close);
    }
  }

  lemma CutAtFences(lines: seq<string>, close: nat)
    requires 2 <= close < |lines| && FindFences(lines) == Ok(Fences(1, close))
    ensures CutFront(lines) == Ok(Parts(Text.Join(lines[2..close]), TrimNewlines(Text.Join(lines[close + 1..]))))
  {
  }

  lemma FencesAt(lines: seq<string>, close: nat)
    requires 2 <= close < |lines| && NextText(lines, 0) == 0 && NextText(lines, 1) == 1 && NextFence(lines, 2) == close
    requires Text.Strip(lines[0]) == MARK && Text.Strip(lines[1]) == FENCE
    ensures FindFences(lines) == if Marks(lines) == 1 then Ok(Fences(1, close)) else Err(Unframed)
  {
    assert FencesAfter(lines, 0) == Ok(Fences(1, close));
  }
}
