/** The body field of each response type, printed as prose and assigned back from it. */
module BodyBack {
  import opened Wrappers
  import opened Packets
  import opened Validate
  import opened Markdown
  import opened FrontMatter
  import opened Prose
  import Text

  /** The payload field a type prints as prose. */
  function ProseKey(t: ResponseType): string {
    match t
    case PlanCompleted => "content"
    case ExecutionCompleted => "summary"
    case ExecutionProgress => "message"
    case ExecutionFailed => "message"
    case ReviewCompleted => "rationale"
    case _ => ""
  }

  predicate IsProse(t: ResponseType) {
    ProseKey(t) != ""
  }

  function ProseText(p: ResponsePacket): string {
    FieldText(p, ProseKey(p.responseType))
  }

  function HeadingOf(p: ResponsePacket): string {
    match p.responseType
    case PlanCompleted => if FieldText(p, "title") != "" then TitleHeading(FieldText(p, "title")) else ""
    case ExecutionProgress => PROGRESS_HEADING
    case ExecutionCompleted => COMPLETED_HEADING
    case ExecutionFailed => FAILED_HEADING
    case ReviewCompleted => ReviewHeading(FieldText(p, "outcome"))
    case _ => ""
  }

  lemma BodyIsHeadingAndText(p: ResponsePacket)
    requires IsProse(p.responseType)
    ensures Body(p) == HeadingOf(p) + ProseText(p)
  {
  }

  /** The mapping as far as the body looks at it. */
  ghost predicate Describes(m: map<string, Json>, p: ResponsePacket) {
    && StringAt(m, "response_type") == TypeText(p.responseType)
    && StringAt(m, "title") == FieldText(p, "title")
    && (!p.responseType.PlanCompleted? ==> FieldText(p, "title") == "")
    && StringAt(m, "outcome") == FieldText(p, "outcome")
    && (p.responseType.ReviewCompleted? ==> FieldText(p, "outcome") != "")
    && (forall k <- BODY_KEYS :: k !in m)
    && Text.BreakFree(FieldText(p, "title")) && Text.BreakFree(FieldText(p, "outcome"))
  }

  lemma HeadingIsUnix(p: ResponsePacket)
    requires Text.BreakFree(FieldText(p, "title")) && Text.BreakFree(FieldText(p, "outcome"))
    ensures Text.UnixBreaks(HeadingOf(p)) && (HeadingOf(p) == "" || HeadingOf(p)[0] == '#')
  {
    var t, o := FieldText(p, "title"), FieldText(p, "outcome");
    if p.responseType.PlanCompleted? {
      Text.UnixOfConcat("# " + t, "\n\n");
      Text.UnixOfConcat("# ", t);
    } else if p.responseType.ReviewCompleted? {
      Text.UnixOfConcat("# Review " + o, "\n\n");
      Text.UnixOfConcat("# Review ", o);
    }
  }

  /** What is assigned to the body field of a prose type. */
  function Assigned(p: ResponsePacket, body: string): string {
    Text.RemovePrefix(body, HeadingOf(p))
  }

  lemma AssignsProse(m: map<string, Json>, p: ResponsePacket, body: string)
    requires Describes(m, p) && IsProse(p.responseType) && body != ""
    ensures AssignBody(m, body) == m[ProseKey(p.responseType) := Str(Assigned(p, body))]
  {
    NothingRemoved(WithoutTitle(m, body));
    NothingRemoved(body);
    ProseTarget(m, p);
  }

  lemma NothingRemoved(text: string)
    ensures Text.RemovePrefix(text, "") == text
  {
  }

  /** The field a prose type assigns to, which the mapping does not hold, and the heading it takes away. */
  lemma ProseTarget(m: map<string, Json>, p: ResponsePacket)
    requires Describes(m, p) && IsProse(p.responseType)
    ensures ProseKey(p.responseType) !in m && StringAt(m, "response_type") != "question.blocked"
    ensures BodyTarget(m) == Some((ProseKey(p.responseType), if p.responseType.PlanCompleted? then "" else HeadingOf(p)))
  {
    assert ProseKey(p.responseType) in BODY_KEYS;
  }

  lemma AssignsNothing(m: map<string, Json>, p: ResponsePacket, body: string)
    requires Describes(m, p) && (p.responseType.ReceiptAccepted? || p.responseType.ExecutionAcknowledged?)
    ensures AssignBody(m, body) == m
  {
  }

  // ---------------------------------------------------------------- prose

  lemma ProseIff(p: ResponsePacket)
    requires IsProse(p.responseType) && ProseText(p) != ""
    requires Text.BreakFree(FieldText(p, "title")) && Text.BreakFree(FieldText(p, "outcome"))
    ensures
      var body := BodyText(BodyLines(Body(p)));
      (body != "" && Assigned(p, body) == ProseText(p)) <==> ProseClean(ProseText(p), HeadingOf(p) != "")
  {
    var s, heading := ProseText(p), HeadingOf(p);
    var body := BodyText(BodyLines(Body(p)));
    BodyIsHeadingAndText(p);
    HeadingIsUnix(p);
    if ProseClean(s, heading != "") {
      ProseComesBack(heading, s);
      assert (heading + s)[|heading|..] == s;
    }
    if body != "" && Assigned(p, body) == s {
      BodyTextIsClean(Body(p));
      SuffixIsClean(body, heading, s);
    }
  }

  lemma HeadingTitle(p: ResponsePacket) returns (title: string)
    requires Text.BreakFree(FieldText(p, "title")) && Text.BreakFree(FieldText(p, "outcome"))
    requires HeadingOf(p) != ""
    ensures title != "" && Text.BreakFree(title) && title[0] == '#' && HeadingOf(p) == title + "\n\n"
  {
    match p.responseType
    case PlanCompleted => title := "# " + FieldText(p, "title");
    case ExecutionProgress => title := "# Execution progress";
    case ExecutionCompleted => title := "# Execution completed";
    case ExecutionFailed => title := "# Execution failed";
    case ReviewCompleted => title := "# Review " + FieldText(p, "outcome");
  }

  lemma ProseMarks(p: ResponsePacket)
    requires IsProse(p.responseType)
    requires Text.BreakFree(FieldText(p, "title")) && Text.BreakFree(FieldText(p, "outcome"))
    ensures Marks(BodyLines(Body(p))) == Marks(BodyLines(ProseText(p)))
  {
    BodyIsHeadingAndText(p);
    if HeadingOf(p) == "" {
      assert "" + ProseText(p) == ProseText(p);
    } else {
      var title := HeadingTitle(p);
      MarksBelowHeading(title, ProseText(p));
    }
  }

  // ---------------------------------------------------------------- receipts and acknowledgements

  lemma TwoLineMarks(first: string, second: string)
    requires first != "" && Text.BreakFree(first) && !Text.IsSpace(first[0]) && first[0] != '@'
    requires second != "" && Text.BreakFree(second) && !Text.IsSpace(second[0]) && second[0] != '@'
    ensures Marks(BodyLines(first + "\n" + second)) == 0
  {
    NoMark(first);
    OneLineHasNoMark(second);
    assert Text.Terminated([first][1..]) == "";
    assert Text.Terminated([first]) == first + "\n";
    MarksBelow([first], second);
  }

  lemma ReceiptMarks(p: ResponsePacket)
    requires p.responseType.ReceiptAccepted?
    requires Text.BreakFree(FieldText(p, "status")) && Text.BreakFree(FieldText(p, "receipt_type"))
    ensures Marks(BodyLines(Body(p))) == 0
  {
    var status, kind := "- Status: " + FieldText(p, "status"), "- Receipt: " + FieldText(p, "receipt_type");
    TwoLineMarks(status, kind);
    MarksBelowHeading("# Receipt accepted", status + "\n" + kind);
    ReceiptBody(p, status, kind);
  }

  lemma ReceiptBody(p: ResponsePacket, status: string, kind: string)
    requires p.responseType.ReceiptAccepted?
    requires status == "- Status: " + FieldText(p, "status") && kind == "- Receipt: " + FieldText(p, "receipt_type")
    ensures Body(p) == "# Receipt accepted" + "\n\n" + (status + "\n" + kind)
  {
  }

  lemma AcknowledgementMarks(p: ResponsePacket)
    requires p.responseType.ExecutionAcknowledged? && Text.BreakFree(FieldText(p, "executor_run_id"))
    ensures Marks(BodyLines(Body(p))) == 0
  {
    var line := AcceptedLine(FieldText(p, "executor_run_id"));
    AcceptedLineIsOneLine(FieldText(p, "executor_run_id"));
    OneLineHasNoMark(line);
    MarksBelowHeading("# Execution acknowledged", line);
    AcknowledgementBody(p);
  }

  function AcceptedLine(run: string): string {
    "Run `" + run + "` was accepted."
  }

  lemma AcceptedLineIsOneLine(run: string)
    requires Text.BreakFree(run)
    ensures Text.BreakFree(AcceptedLine(run))
  {
    var line, n := AcceptedLine(run), |"Run `"|;
    assert Text.BreakFree("Run `") && Text.BreakFree("` was accepted.");
    assert line[n..n + |run|] == run;
  }

  lemma AcknowledgementBody(p: ResponsePacket)
    requires p.responseType.ExecutionAcknowledged?
    ensures Body(p) == "# Execution acknowledged" + "\n\n" + AcceptedLine(FieldText(p, "executor_run_id"))
  {
  }

  // ---------------------------------------------------------------- questions

  function QuestionsBody(questions: seq<Json>): string {
    Text.Join(["# Blocking questions", ""] + QuestionLines(questions))
  }

  lemma QuestionsHeadingInParts()
    ensures QUESTIONS_HEADING == "# Blocking questions" + "\n\n"
    ensures QUESTIONS_HEADING[0] == '#' && Text.UnixBreaks(QUESTIONS_HEADING)
  {
  }

  lemma QuestionsComeBack(questions: seq<Json>)
    requires questions != [] && forall q <- questions :: QuestionOk(q)
    ensures BodyText(BodyLines(QuestionsBody(questions))) == QuestionsBody(questions) && QuestionsBody(questions) != ""
    ensures QuestionsFromBody(QuestionsBody(questions)) == questions
    ensures Marks(BodyLines(QuestionsBody(questions))) == 0
  {
    var lines := QuestionLines(questions);
    QuestionBody(lines);
    QuestionsHeadingInParts();
    QuestionTextIsSolid(questions);
    ProseComesBack(QUESTIONS_HEADING, Text.Join(lines));
    QuestionsOfText(questions);
    QuestionMarks(questions);
  }

  lemma MarksUnderQuestionsTitle(text: string)
    ensures Marks(BodyLines("# Blocking questions" + "\n\n" + text)) == Marks(BodyLines(text))
  {
    MarksBelowHeading("# Blocking questions", text);
  }

  lemma QuestionMarks(questions: seq<Json>)
    requires questions != [] && forall q <- questions :: QuestionOk(q)
    ensures Marks(BodyLines("# Blocking questions" + "\n\n" + Text.Join(QuestionLines(questions)))) == 0
  {
    var lines := QuestionLines(questions);
    QuestionsReadBack(questions);
    MarksOfJoined(lines);
    MarksUnderQuestionsTitle(Text.Join(lines));
  }

  lemma QuestionsOfText(questions: seq<Json>)
    requires questions != [] && forall q <- questions :: QuestionOk(q)
    ensures QuestionsFromBody(QUESTIONS_HEADING + Text.Join(QuestionLines(questions))) == questions
  {
    var lines := QuestionLines(questions);
    QuestionsReadBack(questions);
    assert lines[|lines| - 1] in lines;
    Text.SplitJoined(lines);
    PrefixRemoved(QUESTIONS_HEADING, Text.Join(lines));
  }

  lemma PrefixRemoved(prefix: string, s: string)
    ensures Text.RemovePrefix(prefix + s, prefix) == s
  {
    assert (prefix + s)[|prefix|..] == s;
  }

  lemma QuestionBody(lines: seq<string>)
    requires lines != []
    ensures Text.Join(["# Blocking questions", ""] + lines) == "# Blocking questions" + "\n\n" + Text.Join(lines)
  {
    var all := ["# Blocking questions", ""] + lines;
    assert all[1..] == [""] + lines && all[1..][1..] == lines;
    assert Text.Join(all[1..]) == "" + "\n" + Text.Join(lines);
  }

  lemma MarksOfJoined(lines: seq<string>)
    requires lines != [] && forall line <- lines :: Text.BreakFree(line) && Text.Strip(line) != MARK
    ensures Marks(BodyLines(Text.Join(lines))) == 0
  {
    Text.TerminatedIsJoined(lines);
    Text.SplitTerminated(lines, "");
    assert Text.Terminated(lines) + "" == Text.Join(lines) + "\n";
    assert lines + [] == lines;
    NoMarks(lines);
  }

  lemma {:induction false} JoinEnds(lines: seq<string>)
    requires lines != [] && lines[|lines| - 1] != ""
    ensures Text.Join(lines) != ""
    ensures Text.Join(lines)[|Text.Join(lines)| - 1] == lines[|lines| - 1][|lines[|lines| - 1]| - 1]
  {
    if |lines| > 1 {
      JoinEnds(lines[1..]);
    }
  }

  lemma QuestionTextIsSolid(questions: seq<Json>)
    requires questions != [] && forall q <- questions :: QuestionOk(q)
    ensures ProseClean(Text.Join(QuestionLines(questions)), true)
  {
    QuestionsReadBack(questions);
    var lines := QuestionLines(questions);
    var last := lines[|lines| - 1];
    assert last in lines;
    Text.JoinedIsUnix(lines);
    JoinEnds(lines);
    assert !Text.IsLineBreak(last[|last| - 1]);
  }

  // ---------------------------------------------------------------- what a reader of the prose finds

  lemma HeadedBody(heading: string, rest: string)
    requires Text.BreakFree(heading)
    ensures Text.SplitLines(heading + "\n\n" + rest) == [heading, ""] + Text.SplitLines(rest)
  {
    var below := "" + "\n" + rest;
    assert heading + "\n\n" + rest == heading + "\n" + below;
    Text.SplitFirstLine(heading, below);
    Text.SplitFirstLine("", rest);
  }

  lemma OneLastLine(line: string)
    requires Text.BreakFree(line) && line != ""
    ensures Text.SplitLines(line) == [line]
  {
    Text.SplitJoined([line]);
  }

  lemma TwoLastLines(first: string, last: string)
    requires Text.BreakFree(first) && Text.BreakFree(last) && last != ""
    ensures Text.SplitLines(first + "\n" + last) == [first, last]
  {
    Text.SplitFirstLine(first, last);
    OneLastLine(last);
  }

  /** The body has this heading, an empty line, and then the text. */
  predicate HeadedBy(p: ResponsePacket, heading: string) {
    Text.SplitLines(Body(p)) == [heading, ""] + Text.SplitLines(ProseText(p))
  }

  lemma IsHeadedBy(p: ResponsePacket, heading: string)
    requires Text.BreakFree(heading) && Body(p) == heading + "\n\n" + ProseText(p)
    ensures HeadedBy(p, heading)
  {
    HeadedBody(heading, ProseText(p));
  }

  lemma ProgressBody(p: ResponsePacket)
    requires p.responseType.ExecutionProgress?
    ensures Body(p) == "# Execution progress" + "\n\n" + ProseText(p) && Text.BreakFree("# Execution progress")
  {
  }

  lemma CompletionBody(p: ResponsePacket)
    requires p.responseType.ExecutionCompleted?
    ensures Body(p) == "# Execution completed" + "\n\n" + ProseText(p) && Text.BreakFree("# Execution completed")
  {
  }

  lemma FailureBody(p: ResponsePacket)
    requires p.responseType.ExecutionFailed?
    ensures Body(p) == "# Execution failed" + "\n\n" + ProseText(p) && Text.BreakFree("# Execution failed")
  {
  }

  /** What stands above the text of each type that a machine does not choose. */
  lemma ReportsAreHeaded(p: ResponsePacket)
    ensures p.responseType.ExecutionProgress? ==> HeadedBy(p, "# Execution progress")
    ensures p.responseType.ExecutionCompleted? ==> HeadedBy(p, "# Execution completed")
    ensures p.responseType.ExecutionFailed? ==> HeadedBy(p, "# Execution failed")
  {
    match p.responseType
    case ExecutionProgress => ProgressBody(p); IsHeadedBy(p, "# Execution progress");
    case ExecutionCompleted => CompletionBody(p); IsHeadedBy(p, "# Execution completed");
    case ExecutionFailed => FailureBody(p); IsHeadedBy(p, "# Execution failed");
    case _ =>
  }

  /** What an acknowledgement says in prose, although the parser does not read it there. */
  lemma AcknowledgementIsTold(p: ResponsePacket)
    requires p.responseType.ExecutionAcknowledged? && Text.BreakFree(FieldText(p, "executor_run_id"))
    ensures Text.SplitLines(Body(p)) == ["# Execution acknowledged", ""] + [AcceptedLine(FieldText(p, "executor_run_id"))]
  {
    AcknowledgementBody(p);
    AcceptedLineIsOneLine(FieldText(p, "executor_run_id"));
    HeadedBody("# Execution acknowledged", AcceptedLine(FieldText(p, "executor_run_id")));
    OneLastLine(AcceptedLine(FieldText(p, "executor_run_id")));
  }

  lemma TwoLinesBelow(heading: string, first: string, last: string)
    requires Text.BreakFree(heading) && Text.BreakFree(first) && Text.BreakFree(last) && last != ""
    ensures Text.SplitLines(heading + "\n\n" + (first + "\n" + last)) == [heading, ""] + [first, last]
  {
    HeadedBody(heading, first + "\n" + last);
    TwoLastLines(first, last);
  }

  lemma OneLineTogether(caption: string, text: string)
    requires Text.BreakFree(caption) && Text.BreakFree(text)
    ensures Text.BreakFree(caption + text)
  {
  }

  lemma ReceiptLabels()
    ensures Text.BreakFree("# Receipt accepted") && Text.BreakFree("- Status: ") && Text.BreakFree("- Receipt: ")
  {
  }

  /** What a receipt says in prose. */
  lemma ReceiptIsTold(p: ResponsePacket, status: string, kind: string)
    requires p.responseType.ReceiptAccepted? && status == FieldText(p, "status") && kind == FieldText(p, "receipt_type")
    requires Text.BreakFree(status) && Text.BreakFree(kind)
    ensures Text.SplitLines(Body(p)) == ["# Receipt accepted", ""] + ["- Status: " + status, "- Receipt: " + kind]
  {
    ReceiptBody(p, "- Status: " + status, "- Receipt: " + kind);
    ReceiptLabels();
    OneLineTogether("- Status: ", status);
    OneLineTogether("- Receipt: ", kind);
    TwoLinesBelow("# Receipt accepted", "- Status: " + status, "- Receipt: " + kind);
  }
}
