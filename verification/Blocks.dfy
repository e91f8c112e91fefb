/** Where the front matter of a document is and what its awr block says, told from the lines alone. */
module Blocks {
  import opened Wrappers
  import opened Packets
  import opened Validate
  import opened Markdown
  import Text

  // ---------------------------------------------------------------- lines

  /** The line begins the block. */
  predicate Opens(line: string) {
    "awr:" <= Text.TrimLeft(line, Text.Whitespace)
  }

  /** Blank lines and comments neither say anything nor end the block. */
  predicate Skipped(line: string) {
    Text.Strip(line) == "" || "#" <= Text.TrimLeft(line, Text.Whitespace)
  }

  /** How far the text of the line stands to the right. */
  function Margin(line: string): int {
    |line| - |Text.TrimLeft(line, Text.Whitespace)|
  }

  /** The text without the blanks, then the double and then the single quotes around it. */
  function Unquoted(text: string): string {
    Text.Trim(Text.Trim(Text.Trim(text, Text.Whitespace), Text.Exactly('"')), Text.Exactly('\''))
  }

  /** The key before the first colon and the value after it; a value that is empty or opens a YAML block says nothing. */
  predicate Says(line: string, key: string, value: string) {
    var text := Text.Strip(line);
    && (exists n :: 0 <= n < |text| && text[n] == ':' && (forall i :: 0 <= i < n ==> text[i] != ':')
                    && key == Text.Strip(text[..n]) && value == Unquoted(text[n + 1..]))
    && value != "" && value != "|" && value != ">"
  }

  predicate FirstOpen(lines: seq<string>, k: int) {
    0 <= k < |lines| && Opens(lines[k]) && forall i :: 0 <= i < k ==> !Opens(lines[i])
  }

  /** Line `i` does not end the block that line `k` begins. */
  predicate Continues(lines: seq<string>, k: int, i: int)
    requires 0 <= k < |lines| && 0 <= i < |lines|
  {
    Skipped(lines[i]) || Margin(lines[k]) < Margin(lines[i])
  }

  /** Line `j` belongs to the block that line `k` begins. */
  predicate InBlock(lines: seq<string>, k: int, j: int) {
    0 <= k < j < |lines| && !Skipped(lines[j]) && forall i :: k < i <= j ==> Continues(lines, k, i)
  }

  ghost predicate SaysOf(line: string, key: string) {
    exists value :: Says(line, key, value)
  }

  /** A line of the block says this of the key, and no later one says anything of it. */
  ghost predicate LastSays(lines: seq<string>, k: int, j: int, key: string, value: string) {
    && InBlock(lines, k, j) && Says(lines[j], key, value)
    && forall i :: j < i && InBlock(lines, k, i) ==> !SaysOf(lines[i], key)
  }

  /** The last word of the block on the key. */
  ghost predicate LastWord(lines: seq<string>, k: int, key: string, value: string) {
    exists j :: LastSays(lines, k, j, key, value)
  }

  ghost predicate Silent(lines: seq<string>, k: int, key: string) {
    forall j :: InBlock(lines, k, j) ==> !SaysOf(lines[j], key)
  }

  /** The mapping has exactly what the block says. */
  ghost predicate Tells(lines: seq<string>, k: int, m: map<string, string>) {
    && (forall key :: key in m ==> LastWord(lines, k, key, m[key]))
    && (forall key :: key !in m ==> Silent(lines, k, key))
  }

  // ---------------------------------------------------------------- one line more

  lemma SaysOne(line: string, key: string, value: string, key': string, value': string)
    requires Says(line, key, value) && Says(line, key', value')
    ensures key == key' && value == value'
  {
  }

  /** What the parser adds for a line is what the line says. */
  lemma LineIsAdded(m: map<string, string>, line: string, key: string, value: string)
    requires Says(line, key, value)
    ensures WithLine(m, Text.Strip(line)) == m[key := value]
  {
  }

  lemma NothingIsAdded(m: map<string, string>, line: string)
    requires forall key :: !SaysOf(line, key)
    ensures WithLine(m, Text.Strip(line)) == m
  {
    var text := Text.Strip(line);
    if ':' in text {
      var n := Text.IndexOf(text, ':');
      var key, value := Text.Strip(text[..n]), Unquoted(text[n + 1..]);
      if value != "" && value != "|" && value != ">" {
        assert Says(line, key, value);
        assert SaysOf(line, key);
      }
    }
  }

  /** The block is the same as far as the lines go. */
  lemma BlockStays(lines: seq<string>, line: string, k: int, j: int)
    requires j < |lines|
    ensures InBlock(lines + [line], k, j) <==> InBlock(lines, k, j)
    ensures InBlock(lines, k, j) ==> (lines + [line])[j] == lines[j]
  {
    var more := lines + [line];
    if 0 <= k < j {
      forall i | k < i <= j ensures Continues(more, k, i) <==> Continues(lines, k, i) {
        assert more[i] == lines[i] && more[k] == lines[k];
      }
      assert more[j] == lines[j];
    }
  }

  /** A line that is not in the block, or says nothing of the key, leaves the last word as it is. */
  lemma WordStays(lines: seq<string>, line: string, k: int, key: string, value: string)
    requires InBlock(lines + [line], k, |lines|) ==> !SaysOf(line, key)
    ensures LastWord(lines, k, key, value) ==> LastWord(lines + [line], k, key, value)
    ensures Silent(lines, k, key) ==> Silent(lines + [line], k, key)
  {
    var more := lines + [line];
    assert more[|lines|] == line;
    forall i | InBlock(more, k, i) && i < |lines| ensures InBlock(lines, k, i) && more[i] == lines[i] {
      BlockStays(lines, line, k, i);
    }
    if LastWord(lines, k, key, value) {
      var j :| LastSays(lines, k, j, key, value);
      BlockStays(lines, line, k, j);
      assert LastSays(more, k, j, key, value);
    }
  }

  lemma LineOutside(lines: seq<string>, line: string, k: int, m: map<string, string>)
    requires Tells(lines, k, m) && !InBlock(lines + [line], k, |lines|)
    ensures Tells(lines + [line], k, m)
  {
    forall key ensures key in m ==> LastWord(lines + [line], k, key, m[key])
            ensures key !in m ==> Silent(lines + [line], k, key) {
      WordStays(lines, line, k, key, if key in m then m[key] else "");
    }
  }

  /** A line of the block replaces what was said of its key. */
  lemma LineInside(lines: seq<string>, line: string, k: int, m: map<string, string>)
    requires Tells(lines, k, m) && InBlock(lines + [line], k, |lines|)
    ensures Tells(lines + [line], k, WithLine(m, Text.Strip(line)))
  {
    if said, value :| Says(line, said, value) {
      LineIsAdded(m, line, said, value);
      NewWord(lines, line, k, said, value);
      forall key | key != said ensures key in m ==> LastWord(lines + [line], k, key, m[key])
                               ensures key !in m ==> Silent(lines + [line], k, key) {
        OtherKey(line, said, value, key);
        WordStays(lines, line, k, key, if key in m then m[key] else "");
      }
    } else {
      NothingIsAdded(m, line);
      forall key ensures key in m ==> LastWord(lines + [line], k, key, m[key])
              ensures key !in m ==> Silent(lines + [line], k, key) {
        WordStays(lines, line, k, key, if key in m then m[key] else "");
      }
    }
  }

  lemma OtherKey(line: string, said: string, value: string, key: string)
    requires Says(line, said, value) && key != said
    ensures !SaysOf(line, key)
  {
    if other :| Says(line, key, other) {
      SaysOne(line, said, value, key, other);
    }
  }

  lemma NewWord(lines: seq<string>, line: string, k: int, key: string, value: string)
    requires InBlock(lines + [line], k, |lines|) && Says(line, key, value)
    ensures LastWord(lines + [line], k, key, value)
  {
    assert (lines + [line])[|lines|] == line;
    assert LastSays(lines + [line], k, |lines|, key, value);
  }

  // ---------------------------------------------------------------- the scan

  lemma {:induction false} ScanOfAppend(s: Scan, lines: seq<string>, line: string)
    ensures ScanLines(s, lines + [line]) == ScanLine(ScanLines(s, lines), line)
    decreases lines
  {
    if lines == [] {
      assert [line][1..] == [];
      assert ScanLines(ScanLine(s, line), []) == ScanLine(s, line);
    } else {
      assert (lines + [line])[0] == lines[0] && (lines + [line])[1..] == lines[1..] + [line];
      ScanOfAppend(ScanLine(s, lines[0]), lines[1..], line);
    }
  }

  /** Where the scan is, told from the lines it has read. */
  ghost predicate Stands(lines: seq<string>, s: Scan) {
    match s
    case Searching => forall line <- lines :: !Opens(line)
    case Inside(indent, m) =>
      exists k :: FirstOpen(lines, k) && indent == Margin(lines[k])
                  && (forall i :: k < i < |lines| ==> Continues(lines, k, i)) && Tells(lines, k, m)
    case Done(m) =>
      exists k, e :: FirstOpen(lines, k) && k < e < |lines| && !Continues(lines, k, e) && Tells(lines, k, m)
  }

  lemma FirstStays(lines: seq<string>, line: string, k: int)
    requires FirstOpen(lines, k)
    ensures FirstOpen(lines + [line], k) && (lines + [line])[k] == lines[k]
    ensures forall i :: 0 <= i < |lines| ==> (Continues(lines + [line], k, i) <==> Continues(lines, k, i))
    ensures Continues(lines + [line], k, |lines|) <==> Skipped(line) || Margin(lines[k]) < Margin(line)
  {
  }

  lemma SearchStands(lines: seq<string>, line: string)
    requires Stands(lines, Searching)
    ensures Stands(lines + [line], ScanLine(Searching, line))
  {
    var more := lines + [line];
    if Opens(line) {
      var k := |lines|;
      forall i | 0 <= i < k ensures !Opens(more[i]) { assert more[i] == lines[i] && lines[i] in lines; }
      assert FirstOpen(more, k);
      assert Tells(more, k, map[]);
      MarginIsIndent(line);
    }
  }

  lemma MarginIsIndent(line: string)
    ensures Margin(line) == Indent(line)
  {
    LeftIsShorter(line);
  }

  lemma {:induction false} LeftIsShorter(line: string)
    ensures |Text.TrimLeft(line, Text.Whitespace)| <= |line|
  {
    if line != "" && Text.Strips(Text.Whitespace, line[0]) {
      LeftIsShorter(line[1..]);
    }
  }

  lemma InsideStands(lines: seq<string>, line: string, indent: nat, m: map<string, string>)
    requires Stands(lines, Inside(indent, m))
    ensures Stands(lines + [line], ScanLine(Inside(indent, m), line))
  {
    var k :| FirstOpen(lines, k) && indent == Margin(lines[k])
             && (forall i :: k < i < |lines| ==> Continues(lines, k, i)) && Tells(lines, k, m);
    FirstStays(lines, line, k);
    MarginIsIndent(line);
    if InBlock(lines + [line], k, |lines|) {
      LineInside(lines, line, k, m);
    } else {
      LineOutside(lines, line, k, m);
    }
  }

  lemma DoneStands(lines: seq<string>, line: string, m: map<string, string>)
    requires Stands(lines, Done(m))
    ensures Stands(lines + [line], Done(m))
  {
    var k, e :| FirstOpen(lines, k) && k < e < |lines| && !Continues(lines, k, e) && Tells(lines, k, m);
    FirstStays(lines, line, k);
    LineOutside(lines, line, k, m);
  }

  lemma {:induction false} ScanStands(lines: seq<string>)
    ensures Stands(lines, ScanLines(Searching, lines))
  {
    if lines != [] {
      var front, line := lines[..|lines| - 1], lines[|lines| - 1];
      assert lines == front + [line];
      ScanStands(front);
      ScanOfAppend(Searching, front, line);
      match ScanLines(Searching, front)
      case Searching => SearchStands(front, line);
      case Inside(indent, m) => InsideStands(front, line, indent, m);
      case Done(m) => DoneStands(front, line, m);
    }
  }

  // ---------------------------------------------------------------- main result

  /** Some line of the block says something. */
  ghost predicate BlockSpeaks(lines: seq<string>) {
    exists k, j, key :: FirstOpen(lines, k) && InBlock(lines, k, j) && SaysOf(lines[j], key)
  }

  lemma MappingSpeaks(lines: seq<string>, k: int, m: map<string, string>)
    requires FirstOpen(lines, k) && Tells(lines, k, m)
    ensures m != map[] <==> BlockSpeaks(lines)
  {
    if m != map[] {
      var key :| key in m;
      assert LastWord(lines, k, key, m[key]);
      var j :| LastSays(lines, k, j, key, m[key]);
      assert SaysOf(lines[j], key);
    }
    if BlockSpeaks(lines) {
      var k', j, key :| FirstOpen(lines, k') && InBlock(lines, k', j) && SaysOf(lines[j], key);
      assert k' == k;
      assert !Silent(lines, k, key);
    }
  }

  lemma StandsTells(lines: seq<string>, s: Scan)
    requires Stands(lines, s)
    ensures if s.Searching? then forall k :: !FirstOpen(lines, k) else exists k :: FirstOpen(lines, k) && Tells(lines, k, s.mapping)
  {
  }

  /**
   Main result. A block is parsed if and only if some line of it says something, and the mapping has for each key
   exactly the value of the last line of the block with that key.
   */
  lemma BlockIsReadIff(text: string)
    ensures
      var lines, r := Text.SplitLines(text), ParseBlock(text);
      && (r.Ok? <==> BlockSpeaks(lines))
      && (r.Ok? ==> exists k :: FirstOpen(lines, k) && Tells(lines, k, r.value))
  {
    var lines := Text.SplitLines(text);
    ScanStands(lines);
    var s := ScanLines(Searching, lines);
    StandsTells(lines, s);
    if !s.Searching? {
      var k :| FirstOpen(lines, k) && Tells(lines, k, s.mapping);
      MappingSpeaks(lines, k, s.mapping);
    }
  }

  // ---------------------------------------------------------------- where the front matter is

  predicate Blank(line: string) {
    Text.Strip(line) == ""
  }

  /** Line `n` is the first from `i` on that is not blank. */
  predicate FirstText(lines: seq<string>, i: int, n: int) {
    0 <= i <= n < |lines| && !Blank(lines[n]) && forall j :: i <= j < n ==> Blank(lines[j])
  }

  predicate FirstFence(lines: seq<string>, i: int, n: int) {
    0 <= i <= n < |lines| && Text.Strip(lines[n]) == "---" && forall j :: i <= j < n ==> Text.Strip(lines[j]) != "---"
  }

  /** The mark is the first text and the only mark, a fence the next text, and there is another fence. */
  predicate Framed(lines: seq<string>, start: int, open: int, close: int) {
    && FirstText(lines, 0, start) && Text.Strip(lines[start]) == "@response"
    && (forall j :: 0 <= j < |lines| && j != start ==> Text.Strip(lines[j]) != "@response")
    && FirstText(lines, start + 1, open) && Text.Strip(lines[open]) == "---" && FirstFence(lines, open + 1, close)
  }

  lemma {:induction false} NextTextIsFirst(lines: seq<string>, i: nat)
    requires i <= |lines|
    ensures forall j :: i <= j < NextText(lines, i) ==> Blank(lines[j])
    ensures NextText(lines, i) < |lines| ==> !Blank(lines[NextText(lines, i)])
    decreases |lines| - i
  {
    if i < |lines| && Blank(lines[i]) { NextTextIsFirst(lines, i + 1); }
  }

  lemma {:induction false} NextFenceIsFirst(lines: seq<string>, i: nat)
    requires i <= |lines|
    ensures forall j :: i <= j < NextFence(lines, i) ==> Text.Strip(lines[j]) != "---"
    ensures NextFence(lines, i) < |lines| ==> Text.Strip(lines[NextFence(lines, i)]) == "---"
    decreases |lines| - i
  {
    if i < |lines| && Text.Strip(lines[i]) != "---" { NextFenceIsFirst(lines, i + 1); }
  }

  lemma {:induction false} NoMarks(lines: seq<string>)
    ensures Marks(lines) == 0 <==> forall line <- lines :: Text.Strip(line) != "@response"
  {
    if lines != [] {
      NoMarks(lines[1..]);
      assert lines == [lines[0]] + lines[1..];
    }
  }

  lemma {:induction false} OneMark(lines: seq<string>, k: nat)
    requires k < |lines| && Text.Strip(lines[k]) == "@response"
    ensures Marks(lines) == 1 <==> forall j :: 0 <= j < |lines| && j != k ==> Text.Strip(lines[j]) != "@response"
  {
    var rest := lines[1..];
    assert forall j :: 0 < j < |lines| ==> lines[j] == rest[j - 1];
    if k == 0 {
      NoMarks(rest);
      assert forall j :: 0 <= j < |rest| ==> rest[j] in rest;
    } else {
      OneMark(rest, k - 1);
      MarksPositive(rest, k - 1);
    }
  }

  lemma {:induction false} MarksPositive(lines: seq<string>, k: nat)
    requires k < |lines| && Text.Strip(lines[k]) == "@response"
    ensures Marks(lines) >= 1
  {
    if k > 0 { MarksPositive(lines[1..], k - 1); }
  }

  /** There is at most one such place. */
  lemma FirstsAgree(lines: seq<string>, i: nat, n: nat)
    requires i <= |lines|
    ensures FirstText(lines, i, n) ==> NextText(lines, i) == n
    ensures FirstFence(lines, i, n) ==> NextFence(lines, i) == n
  {
    NextTextIsFirst(lines, i);
    NextFenceIsFirst(lines, i);
  }

  lemma FrameIsFound(lines: seq<string>, start: int, open: int, close: int)
    requires Framed(lines, start, open, close)
    ensures FindFences(lines) == Ok(Fences(open, close))
  {
    FirstsAgree(lines, 0, start);
    OneMark(lines, start);
    FencesOfFrame(lines, start, open, close);
  }

  lemma FencesOfFrame(lines: seq<string>, start: nat, open: int, close: int)
    requires start < |lines| && FirstText(lines, start + 1, open) && Text.Strip(lines[open]) == FENCE
    requires FirstFence(lines, open + 1, close)
    ensures FencesAfter(lines, start) == Ok(Fences(open, close))
  {
    FirstsAgree(lines, start + 1, open);
    FirstsAgree(lines, open + 1, close);
  }

  lemma FoundIsFramed(lines: seq<string>)
    requires FindFences(lines).Ok?
    ensures Framed(lines, NextText(lines, 0), FindFences(lines).value.open, FindFences(lines).value.close)
  {
    var start := NextText(lines, 0);
    NextTextIsFirst(lines, 0);
    OneMark(lines, start);
    NextTextIsFirst(lines, start + 1);
    NextFenceIsFirst(lines, NextText(lines, start + 1) + 1);
  }

  /** Main result. The front matter is found if and only if the document is framed, between exactly those fences. */
  lemma FrontIsFoundIff(lines: seq<string>)
    ensures FindFences(lines).Ok? <==> exists start, open, close :: Framed(lines, start, open, close)
    ensures forall start, open, close :: Framed(lines, start, open, close) ==> FindFences(lines) == Ok(Fences(open, close))
  {
    if FindFences(lines).Ok? {
      FoundIsFramed(lines);
    }
    forall start, open, close | Framed(lines, start, open, close) ensures FindFences(lines) == Ok(Fences(open, close)) {
      FrameIsFound(lines, start, open, close);
    }
  }
}
