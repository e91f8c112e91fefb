/** The printer and the parser as they run: loops over lines, with flags and indices. */
module MarkdownIO {
  import opened Wrappers
  import opened Packets
  import opened Validate
  import M = Markdown
  import opened Markdown
  import Text

  // ---------------------------------------------------------------- printing

  lemma {:induction false} PayloadEntriesOfAppend(fields: seq<Field>, last: Field)
    ensures PayloadEntries(fields + [last]) ==
              PayloadEntries(fields) + if last.key in BODY_KEYS then [] else [PayloadEntry(last)]
  {
    if fields == [] {
      assert fields + [last] == [last];
      assert PayloadEntries([last][1..]) == [];
    } else {
      PayloadEntriesOfAppend(fields[1..], last);
      assert (fields + [last])[1..] == fields[1..] + [last];
    }
  }

  /** _payload_fields */
  method PayloadFieldLines(p: ResponsePacket) returns (lines: seq<string>)
    ensures lines == Lines(PayloadEntries(p.payload))
  {
    lines := [];
    for i := 0 to |p.payload|
      invariant lines == Lines(PayloadEntries(p.payload[..i]))
    {
      var f := p.payload[i];
      PayloadEntriesOfAppend(p.payload[..i], f);
      assert p.payload[..i + 1] == p.payload[..i] + [f];
      if f.key !in BODY_KEYS {
        var key := if f.key == "content_sha256" then "body_sha256" else f.key;
        lines := lines + ["  " + key + ": " + ValueText(f.key, f.value)];
      }
    }
    assert p.payload[..|p.payload|] == p.payload;
  }

  /** _body for question.blocked */
  method QuestionBody(questions: seq<Json>) returns (body: string)
    ensures body == Text.Join(["# Blocking questions", ""] + QuestionLines(questions))
  {
    var lines := ["# Blocking questions", ""];
    for i := 0 to |questions|
      invariant lines == ["# Blocking questions", ""] + QuestionLines(questions[..i])
    {
      lines := lines + ["- " + QuestionText(questions[i], "id") + ": " + QuestionText(questions[i], "text")];
      assert QuestionLines(questions[..i + 1]) == QuestionLines(questions[..i]) + [QuestionLine(questions[i])];
    }
    assert questions[..|questions|] == questions;
    return Text.Join(lines);
  }

  /** The fields list of render_response_markdown, before the payload fields. */
  method EnvelopeLines(codec: Codec, p: ResponsePacket) returns (fields: seq<string>)
    ensures fields == Lines(EnvelopeEntries(codec, p))
  {
    fields := Lines(FixedEntries(codec, p));
    ghost var entries := FixedEntries(codec, p);
    if Truthy(p.executorRunId) {
      fields := fields + [Line(Entry("executor_run_id", p.executorRunId.value))];
      entries := entries + [Entry("executor_run_id", p.executorRunId.value)];
    }
    if Truthy(p.correlationId) {
      fields := fields + [Line(Entry("correlation_id", p.correlationId.value))];
      entries := entries + [Entry("correlation_id", p.correlationId.value)];
    }
    if p.evidenceRefs != [] {
      fields := fields + [Line(Entry("evidence_refs", codec.dumpRefs(p.evidenceRefs)))];
      entries := entries + [Entry("evidence_refs", codec.dumpRefs(p.evidenceRefs))];
    }
    assert fields == Lines(entries);
    assert entries == EnvelopeEntries(codec, p);
  }

  /** render_response_markdown */
  method RenderResponseMarkdown(codec: Codec, p: ResponsePacket) returns (markdown: string)
    ensures markdown == Render(codec, p)
  {
    var fields := EnvelopeLines(codec, p);
    var payload := PayloadFieldLines(p);
    fields := fields + payload;
    assert fields == Lines(Entries(codec, p));
    var body := Body(p);
    if p.responseType.QuestionBlocked? {
      body := QuestionBody(Questions(p));
    }
    return "@response\n---\nawr:\n" + Text.Join(fields) + "\n---\n\n" + body + "\n";
  }

  // ---------------------------------------------------------------- parsing

  /** _parse_awr_block */
  method ParseAwrBlock(text: string) returns (r: Result<map<string, string>, ParseError>)
    ensures r == ParseBlock(text)
  {
    var lines := Text.SplitLines(text);
    var mapping: map<string, string> := map[];
    var inAwr, indent := false, 0;
    var i := 0;
    while i < |lines|
      invariant 0 <= i <= |lines|
      invariant !inAwr ==> mapping == map[]
      invariant ScanLines(Searching, lines) ==
                ScanLines(if inAwr then Inside(indent, mapping) else Searching, lines[i..])
    {
      var raw := lines[i];
      assert lines[i..][0] == raw && lines[i..][1..] == lines[i + 1..];
      i := i + 1;
      if !inAwr {
        if "awr:" <= Text.TrimLeft(raw, Text.Whitespace) {
          inAwr, indent := true, Indent(raw);
        }
        continue;
      }
      if Text.Strip(raw) == "" || "#" <= Text.TrimLeft(raw, Text.Whitespace) {
        continue;
      }
      if Indent(raw) <= indent {
        DoneStays(mapping, lines[i..]);
        assert Found(ScanLines(Searching, lines)) == mapping;
        if mapping == map[] { return Err(Invalid); }
        return Ok(mapping);
      }
      var stripped := Text.Strip(raw);
      if ':' in stripped {
        var n := Text.IndexOf(stripped, ':');
        var value := CleanValue(stripped[n + 1..]);
        if value !in EMPTY_VALUES {
          mapping := mapping[Text.Strip(stripped[..n]) := value];
        }
      }
    }
    assert lines[i..] == [];
    assert Found(ScanLines(Searching, lines)) == mapping;
    if mapping == map[] { return Err(Invalid); }
    return Ok(mapping);
  }

  lemma {:induction false} DoneStays(mapping: map<string, string>, lines: seq<string>)
    ensures ScanLines(Done(mapping), lines) == Done(mapping)
    decreases lines
  {
    if lines != [] {
      DoneStays(mapping, lines[1..]);
    }
  }

  lemma {:induction false} QuestionsOfAppend(lines: seq<string>, last: string)
    ensures QuestionsOf(lines + [last]) ==
              QuestionsOf(lines) + if QuestionOf(last).Some? then [QuestionOf(last).value] else []
  {
    if lines == [] {
      assert lines + [last] == [last];
      assert [last][1..] == [];
    } else {
      QuestionsOfAppend(lines[1..], last);
      assert (lines + [last])[1..] == lines[1..] + [last];
    }
  }

  /** The question one line holds, if any. */
  method ReadQuestion(line: string) returns (question: Option<Json>)
    ensures question == QuestionOf(line)
  {
    var stripped := Text.Strip(line);
    if !("- " <= stripped) || ':' !in stripped {
      return None;
    }
    var rest := stripped[2..];
    var n := Text.IndexOf(rest, ':');
    var prompt := if n < |rest| then rest[n + 1..] else "";
    return Some(Obj(map["id" := Str(Text.Strip(rest[..n])), "text" := Str(Text.Strip(prompt))]));
  }

  /** _questions_from_body */
  method QuestionsFromBody(text: string) returns (questions: seq<Json>)
    ensures questions == M.QuestionsFromBody(text)
  {
    var lines := Text.SplitLines(Text.RemovePrefix(text, QUESTIONS_HEADING));
    questions := [];
    for i := 0 to |lines|
      invariant questions == QuestionsOf(lines[..i])
    {
      QuestionsOfAppend(lines[..i], lines[i]);
      assert lines[..i + 1] == lines[..i] + [lines[i]];
      var question := ReadQuestion(lines[i]);
      if question.None? {
        continue;
      }
      questions := questions + [question.value];
    }
    assert lines[..|lines|] == lines;
  }

  /** _assign_markdown_body, which adds to the mapping it is given. */
  method AssignMarkdownBody(m: map<string, Json>, body: string) returns (mapping: map<string, Json>)
    ensures mapping == AssignBody(m, body)
  {
    mapping := m;
    if body == "" {
      return;
    }
    var text := WithoutTitle(mapping, body);
    if StringAt(mapping, "response_type") == "question.blocked" && "questions" !in mapping {
      var questions := QuestionsFromBody(text);
      if questions != [] {
        mapping := mapping["questions" := List(questions)];
      }
      return;
    }
    var target := BodyTarget(mapping);
    if target.None? || target.value.0 in mapping {
      return;
    }
    mapping := mapping[target.value.0 := Str(Text.RemovePrefix(text, target.value.1))];
  }

  method FindText(lines: seq<string>, from: nat) returns (index: nat)
    requires from <= |lines|
    ensures index == NextText(lines, from)
  {
    index := from;
    while index < |lines| && Text.Strip(lines[index]) == ""
      invariant from <= index <= |lines| && NextText(lines, from) == NextText(lines, index)
    {
      index := index + 1;
    }
  }

  method FindFence(lines: seq<string>, from: nat) returns (index: nat)
    requires from <= |lines|
    ensures index == NextFence(lines, from)
  {
    index := from;
    while index < |lines| && Text.Strip(lines[index]) != FENCE
      invariant from <= index <= |lines| && NextFence(lines, from) == NextFence(lines, index)
    {
      index := index + 1;
    }
  }

  /** The front matter of parse_response_markdown. */
  method FencesOf(lines: seq<string>) returns (r: Result<Fences, ParseError>)
    ensures r == FindFences(lines)
  {
    var start := FindText(lines, 0);
    if start == |lines| || Text.Strip(lines[start]) != MARK || Marks(lines) != 1 {
      return Err(Unframed);
    }
    var open := FindText(lines, start + 1);
    if open == |lines| || Text.Strip(lines[open]) != FENCE {
      return Err(Unframed);
    }
    var close := FindFence(lines, open + 1);
    if close == |lines| {
      return Err(Unframed);
    }
    return Ok(Fences(open, close));
  }

  method CutFrontMatter(lines: seq<string>) returns (r: Result<Parts, ParseError>)
    ensures r == CutFront(lines)
  {
    var fences := FencesOf(lines);
    if fences.Err? {
      return Err(fences.error);
    }
    var f := fences.value;
    return Ok(Parts(Text.Join(lines[f.open + 1..f.close]), TrimNewlines(Text.Join(lines[f.close + 1..]))));
  }

  /** The rest of parse_response_markdown, once the front matter is cut out. */
  method FromFront(codec: Codec, block: string, body: string) returns (r: Result<ResponsePacket, ParseError>)
    ensures r == FromCut(codec, Parts(block, body))
  {
    var mapping := ParseAwrBlock(block);
    if mapping.Err? {
      return Err(mapping.error);
    }
    var filled := AssignMarkdownBody(Texts(mapping.value), body);
    var raw := RawFrom(codec, filled);
    if raw.Err? {
      return Err(raw.error);
    }
    return ParsePacket(codec, raw.value);
  }

  /** parse_response_markdown */
  method ParseResponseMarkdown(codec: Codec, markdown: string) returns (r: Result<ResponsePacket, ParseError>)
    ensures r == Parse(codec, markdown)
  {
    var parts := CutFrontMatter(Text.SplitLines(markdown));
    if parts.Err? {
      return Err(parts.error);
    }
    r := FromFront(codec, parts.value.block, parts.value.body);
  }
}
