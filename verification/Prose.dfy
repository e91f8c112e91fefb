/** What the parser reads back from the prose body the printer writes. */
module Prose {
  import opened Wrappers
  import opened Packets
  import opened Validate
  import opened Markdown
  import opened FrontMatter
  import Text

  // ---------------------------------------------------------------- any body

  /** The lines of a body, as they appear in the document. */
  function BodyLines(body: string): seq<string> {
    Text.SplitLines(body + "\n")
  }

  /** Prose that comes back: newline breaks only, and no newline at a margin that is trimmed. */
  predicate ProseClean(s: string, belowHeading: bool) {
    s != "" && Text.UnixBreaks(s) && s[|s| - 1] != '\n' && (belowHeading || s[0] != '\n')
  }

  lemma ProseComesBack(heading: string, s: string)
    requires Text.UnixBreaks(heading) && (heading == "" || heading[0] == '#')
    requires ProseClean(s, heading != "")
    ensures BodyText(BodyLines(heading + s)) == heading + s
  {
    var body := heading + s;
    Text.UnixOfConcat(heading, s);
    Text.JoinSplit(body);
    assert body[|body| - 1] == s[|s| - 1];
    assert body[0] == if heading == "" then s[0] else heading[0];
    Text.TrimOfStripped(body, Text.Exactly('\n'));
  }

  /** Whatever was printed, the text that is read back has no margin and no break but the newline. */
  lemma BodyTextIsClean(body: string)
    ensures Text.UnixBreaks(BodyText(BodyLines(body)))
    ensures Text.Stripped(BodyText(BodyLines(body)), Text.Exactly('\n'))
  {
    var joined := Text.Join(BodyLines(body));
    Text.JoinedIsUnix(BodyLines(body));
    var a, b := Text.TrimIsStretch(joined, Text.Exactly('\n'));
    assert joined == joined[..a] + joined[a..b] + joined[b..];
    Text.UnixOfConcat(joined[..a] + joined[a..b], joined[b..]);
    Text.UnixOfConcat(joined[..a], joined[a..b]);
  }

  /** So is any text cut from its front; uncut it has no newline in front either. */
  lemma SuffixIsClean(text: string, cut: string, s: string)
    requires Text.UnixBreaks(text) && Text.Stripped(text, Text.Exactly('\n'))
    requires s == Text.RemovePrefix(text, cut) && s != ""
    ensures Text.UnixBreaks(s) && s[|s| - 1] != '\n'
    ensures cut == "" ==> s[0] != '\n'
    ensures Text.Stripped(s, Text.Exactly('\n')) || cut != ""
  {
    if cut <= text {
      assert text == text[..|cut|] + s;
      Text.UnixOfConcat(text[..|cut|], s);
      assert s[|s| - 1] == text[|text| - 1];
    }
  }

  // ---------------------------------------------------------------- second decorators

  lemma NoMark(line: string)
    requires line != "" && !Text.IsSpace(line[0]) && line[0] != '@'
    ensures Text.Strip(line) != MARK && Text.Strip(line) != ""
  {
    var n := Text.TrimLeftIsSuffix(line, Text.Whitespace);
    assert n == 0;
    var m := Text.TrimRightIsPrefix(line, Text.Whitespace);
    assert m > 0;
    assert Text.Strip(line)[0] == line[0];
    assert MARK[0] == '@';
  }

  lemma {:induction false} NoMarks(lines: seq<string>)
    requires forall line <- lines :: Text.Strip(line) != MARK
    ensures Marks(lines) == 0
  {
    if lines != [] {
      NoMarks(lines[1..]);
    }
  }

  /** Unmarked lines printed above a text add no marks. */
  lemma MarksBelow(lines: seq<string>, s: string)
    requires forall line <- lines :: Text.BreakFree(line) && Text.Strip(line) != MARK
    ensures Marks(BodyLines(Text.Terminated(lines) + s)) == Marks(BodyLines(s))
  {
    Text.SplitTerminated(lines, s + "\n");
    assert Text.Terminated(lines) + s + "\n" == Text.Terminated(lines) + (s + "\n");
    MarksOfConcat(lines, BodyLines(s));
    NoMarks(lines);
  }

  /** A heading line, a blank line, and the text. */
  lemma MarksBelowHeading(title: string, s: string)
    requires title != "" && Text.BreakFree(title) && !Text.IsSpace(title[0]) && title[0] != '@'
    ensures Marks(BodyLines(title + "\n\n" + s)) == Marks(BodyLines(s))
    ensures Text.UnixBreaks(title + "\n\n")
  {
    NoMark(title);
    FenceAndMark();
    var lines := [title, ""];
    assert lines[1..] == [""] && lines[1..][1..] == [];
    assert Text.Terminated([""]) == "\n";
    assert Text.Terminated(lines) == title + "\n\n";
    MarksBelow(lines, s);
    Text.UnixOfConcat(title, "\n\n");
  }

  lemma OneLineHasNoMark(line: string)
    requires line != "" && Text.BreakFree(line) && !Text.IsSpace(line[0]) && line[0] != '@'
    ensures Marks(BodyLines(line)) == 0
  {
    NoMark(line);
    Text.SplitFirstLine(line, "");
    assert line + "\n" + "" == line + "\n";
    assert BodyLines(line) == [line];
  }

  // ---------------------------------------------------------------- questions

  /** A question that survives being printed on a line of its own. */
  predicate QuestionOk(q: Json) {
    && q.Obj? && q.fields.Keys == {"id", "text"} && q.fields["id"].Str? && q.fields["text"].Str?
    && (var id, text := q.fields["id"].s, q.fields["text"].s;
        && id != "" && text != ""
        && ':' !in id && Text.Strip(id) == id && Text.BreakFree(id)
        && Text.Strip(text) == text && Text.BreakFree(text))
  }

  lemma StripKeeps(s: string)
    requires Text.Strip(s) == s && s != ""
    ensures !Text.IsSpace(s[0]) && !Text.IsSpace(s[|s| - 1])
  {
    var a, b := Text.TrimIsStretch(s, Text.Whitespace);
  }

  lemma LineOfQuestion(id: string, text: string)
    requires text != "" && !Text.IsSpace(text[|text| - 1])
    ensures
      var line := "- " + id + ": " + text;
      && Text.Strip(line) == line && line[2..] == id + ": " + text && ':' in line && Text.Strip(line) != MARK
  {
    var line := "- " + id + ": " + text;
    assert line[0] == '-' && line[|line| - 1] == text[|text| - 1] && line[2 + |id|] == ':';
    Text.TrimOfStripped(line, Text.Whitespace);
    NoMark(line);
  }

  lemma PartsOfQuestion(id: string, text: string)
    requires ':' !in id
    ensures
      var rest := id + ": " + text;
      && Text.IndexOf(rest, ':') == |id| && rest[..|id|] == id && rest[|id| + 1..] == " " + text
      && Text.Strip(" " + text) == Text.Strip(text)
  {
    var rest := id + ": " + text;
    assert rest[|id|] == ':';
    forall i | 0 <= i < |id| ensures rest[i] != ':' { assert rest[i] == id[i]; }
    Text.TrimIgnoresMargins(" ", text, "", Text.Whitespace);
    assert " " + text + "" == " " + text;
  }

  lemma LineIsOneLine(id: string, text: string)
    requires Text.BreakFree(id) && Text.BreakFree(text)
    ensures Text.BreakFree("- " + id + ": " + text)
  {
  }

  lemma QuestionOfParts(line: string, id: string, text: string)
    requires Text.Strip(line) == line && "- " <= line && ':' in line && line[2..] == id + ": " + text
    requires ':' !in id && Text.Strip(id) == id && Text.Strip(text) == text
    ensures QuestionOf(line) == Some(Obj(map["id" := Str(id), "text" := Str(text)]))
  {
    PartsOfQuestion(id, text);
  }

  lemma QuestionIsItsParts(q: Json)
    requires QuestionOk(q)
    ensures q == Obj(map["id" := q.fields["id"], "text" := q.fields["text"]])
  {
    assert q.fields == map["id" := q.fields["id"], "text" := q.fields["text"]];
  }

  lemma QuestionReadsBack(q: Json)
    requires QuestionOk(q)
    ensures QuestionOf(QuestionLine(q)) == Some(q)
    ensures Text.BreakFree(QuestionLine(q)) && QuestionLine(q) != "" && Text.Strip(QuestionLine(q)) != MARK
  {
    var id, text := q.fields["id"].s, q.fields["text"].s;
    var line := QuestionLine(q);
    assert line == "- " + id + ": " + text;
    StripKeeps(text);
    LineOfQuestion(id, text);
    LineIsOneLine(id, text);
    QuestionOfParts(line, id, text);
    QuestionIsItsParts(q);
  }

  lemma QuestionsReadBack(questions: seq<Json>)
    requires forall q <- questions :: QuestionOk(q)
    ensures QuestionsOf(QuestionLines(questions)) == questions
    ensures forall line <- QuestionLines(questions) ::
              Text.BreakFree(line) && line != "" && Text.Strip(line) != MARK
  {
    QuestionLinesAreLines(questions);
    QuestionsAreRead(questions);
  }

  lemma QuestionLinesAreLines(questions: seq<Json>)
    requires forall q <- questions :: QuestionOk(q)
    ensures forall line <- QuestionLines(questions) ::
              Text.BreakFree(line) && line != "" && Text.Strip(line) != MARK
  {
    forall line <- QuestionLines(questions) ensures Text.BreakFree(line) && line != "" && Text.Strip(line) != MARK {
      var i :| 0 <= i < |questions| && line == QuestionLine(questions[i]);
      QuestionReadsBack(questions[i]);
    }
  }

  lemma {:induction false} QuestionsAreRead(questions: seq<Json>)
    requires forall q <- questions :: QuestionOk(q)
    ensures QuestionsOf(QuestionLines(questions)) == questions
  {
    if questions != [] {
      QuestionReadsBack(questions[0]);
      QuestionsAreRead(questions[1..]);
      QuestionLinesSplit(questions);
      FirstQuestion(QuestionLine(questions[0]), QuestionLines(questions[1..]));
      assert [questions[0]] + questions[1..] == questions;
    }
  }

  lemma QuestionLinesSplit(questions: seq<Json>)
    requires questions != []
    ensures QuestionLines(questions) == [QuestionLine(questions[0])] + QuestionLines(questions[1..])
  {
  }

  lemma FirstQuestion(line: string, rest: seq<string>)
    ensures QuestionsOf([line] + rest) ==
              (match QuestionOf(line) case None => [] case Some(q) => [q]) + QuestionsOf(rest)
  {
    assert ([line] + rest)[1..] == rest;
  }

  /** Whatever line a question is read from, its parts are trimmed, on one line, the id without a colon. */
  lemma ReadQuestionIsOk(line: string, q: Json)
    requires Text.BreakFree(line) && QuestionOf(line) == Some(q)
    ensures q.Obj? && q.fields.Keys == {"id", "text"} && q.fields["id"].Str? && q.fields["text"].Str?
    ensures q.fields["id"].s != "" && q.fields["text"].s != "" ==> QuestionOk(q)
  {
    var rest := Text.Strip(line)[2..];
    var n := Text.IndexOf(rest, ':');
    StripOfOneLine(line);
    StripOfOneLine(rest[..n]);
    StripOfOneLine(if n < |rest| then rest[n + 1..] else "");
    StripAddsNothing(rest[..n], ':');
  }

  lemma StripOfOneLine(s: string)
    requires Text.BreakFree(s)
    ensures Text.BreakFree(Text.Strip(s)) && Text.Strip(Text.Strip(s)) == Text.Strip(s)
  {
    var a, b := Text.TrimIsStretch(s, Text.Whitespace);
    Text.TrimOfStripped(Text.Strip(s), Text.Whitespace);
  }

  lemma StripAddsNothing(s: string, c: char)
    requires c !in s
    ensures c !in Text.Strip(s)
  {
    var a, b := Text.TrimIsStretch(s, Text.Whitespace);
  }

  lemma {:induction false} ReadQuestionsAreOk(lines: seq<string>)
    requires forall line <- lines :: Text.BreakFree(line)
    ensures forall q <- QuestionsOf(lines) ::
              q.Obj? && q.fields.Keys == {"id", "text"} && q.fields["id"].Str? && q.fields["text"].Str?
              && (q.fields["id"].s != "" && q.fields["text"].s != "" ==> QuestionOk(q))
  {
    if lines != [] {
      ReadQuestionsAreOk(lines[1..]);
      if QuestionOf(lines[0]).Some? {
        ReadQuestionIsOk(lines[0], QuestionOf(lines[0]).value);
      }
    }
  }
}
