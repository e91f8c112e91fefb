/** Whatever document is parsed, the values taken from its envelope are single lines. */
module SingleLine {
  import opened Wrappers
  import opened Packets
  import opened Validate
  import opened ValidationLaws
  import opened Markdown
  import opened PayloadKeys
  import opened ReadBack
  import Text

  // ---------------------------------------------------------------- the mapping

  ghost predicate OneLineValues(m: map<string, string>) {
    forall k <- m.Keys :: Text.BreakFree(m[k])
  }

  lemma StretchIsOneLine(s: string, a: nat, b: nat)
    requires Text.BreakFree(s) && a <= b <= |s|
    ensures Text.BreakFree(s[a..b])
  {
  }

  lemma TrimIsOneLine(s: string, what: Text.Strippable)
    requires Text.BreakFree(s)
    ensures Text.BreakFree(Text.Trim(s, what))
  {
    var a, b := Text.TrimIsStretch(s, what);
    StretchIsOneLine(s, a, b);
  }

  lemma CleanIsOneLine(s: string)
    requires Text.BreakFree(s)
    ensures Text.BreakFree(CleanValue(s))
  {
    TrimIsOneLine(s, Text.Whitespace);
    TrimIsOneLine(Text.Strip(s), Text.Exactly('"'));
    TrimIsOneLine(Text.Trim(Text.Strip(s), Text.Exactly('"')), Text.Exactly('\''));
  }

  lemma WithLineIsOneLine(m: map<string, string>, line: string)
    requires OneLineValues(m) && Text.BreakFree(line)
    ensures OneLineValues(WithLine(m, line))
  {
    var n := Text.IndexOf(line, ':');
    if n < |line| {
      StretchIsOneLine(line, n + 1, |line|);
      assert line[n + 1..|line|] == line[n + 1..];
      CleanIsOneLine(line[n + 1..]);
    }
  }

  lemma {:induction false} ScanIsOneLine(s: Scan, lines: seq<string>)
    requires OneLineValues(Found(s)) && forall line <- lines :: Text.BreakFree(line)
    ensures OneLineValues(Found(ScanLines(s, lines)))
    decreases lines
  {
    if lines != [] {
      assert Text.BreakFree(lines[0]);
      TrimIsOneLine(lines[0], Text.Whitespace);
      if s.Inside? {
        WithLineIsOneLine(s.mapping, Text.Strip(lines[0]));
      }
      ScanIsOneLine(ScanLine(s, lines[0]), lines[1..]);
    }
  }

  lemma BlockIsOneLine(text: string)
    requires ParseBlock(text).Ok?
    ensures OneLineValues(ParseBlock(text).value)
  {
    ScanIsOneLine(Searching, Text.SplitLines(text));
  }

  // ---------------------------------------------------------------- the packet

  predicate OneLineText(v: Json) {
    v.Str? ==> Text.BreakFree(v.s)
  }

  predicate OneLineOption(v: Option<string>) {
    v.Some? ==> Text.BreakFree(v.value)
  }

  /** The values the printer writes into the envelope. */
  ghost predicate OneLine(p: ResponsePacket) {
    && Text.BreakFree(p.workOrderId) && Text.BreakFree(p.inReplyTo) && Text.BreakFree(p.idempotencyKey)
    && Text.BreakFree(p.createdAt) && OneLineOption(p.executorRunId) && OneLineOption(p.correlationId)
    && FieldsOneLine(p.payload)
  }

  ghost predicate OneLineOutsideBody(m: map<string, Json>) {
    forall k <- m.Keys :: k !in BODY_KEYS ==> OneLineText(m[k])
  }

  lemma AssignedIsOneLine(m: map<string, string>, body: string)
    requires OneLineValues(m)
    ensures OneLineOutsideBody(AssignBody(Texts(m), body))
  {
    AssignBodyKeeps(Texts(m), body);
  }

  lemma PayloadMapIsOneLine(m: map<string, Json>)
    requires OneLineOutsideBody(m)
    ensures OneLineOutsideBody(WithRun(m, PayloadMap(m)))
  {
    var payload := PayloadMap(m);
    BodyKeysApart();
    forall k <- payload.Keys | k !in BODY_KEYS ensures OneLineText(payload[k]) {
      PayloadMapKeys(m, k);
      assert payload[k] == m[YamlKey(k)] || payload[k] == Number(m[YamlKey(k)]);
    }
    assert "executor_run_id" in TOP_KEYS;
  }

  lemma FieldIsOneLine(m: map<string, Json>, rules: Rules, f: Field)
    requires OneLineOutsideBody(m) && Validated(m, rules, f)
    requires f.key !in BODY_KEYS && !EndsWith(f.key, "sha256")
    ensures OneLineText(f.value)
  {
    assert f.value.Str? ==> m[f.key] == f.value;
  }

  lemma QuestionFieldsAreBody(m: map<string, Json>)
    requires ValidateQuestions(m).Ok?
    ensures forall f <- ValidateQuestions(m).value :: f.key in BODY_KEYS
  {
    assert "questions" in BODY_KEYS;
  }

  ghost predicate FieldsOneLine(fields: seq<Field>) {
    forall f <- fields :: f.key !in BODY_KEYS && !EndsWith(f.key, "sha256") ==> OneLineText(f.value)
  }

  lemma ObjectIsOneLine(m: map<string, Json>, rules: Rules)
    requires OneLineOutsideBody(m) && WellFormed(rules) && Object(m, rules).Ok?
    ensures FieldsOneLine(Object(m, rules).value)
  {
    ObjectIsSound(m, rules);
    var fields := Object(m, rules).value;
    forall f <- fields | f.key !in BODY_KEYS && !EndsWith(f.key, "sha256") ensures OneLineText(f.value) {
      FieldIsOneLine(m, rules, f);
    }
  }

  lemma FieldsAreOneLine(t: ResponseType, m: map<string, Json>)
    requires OneLineOutsideBody(m) && ValidatePayload(t, m).Ok?
    ensures FieldsOneLine(ValidatePayload(t, m).value)
  {
    RulesAreWellFormed(t);
    if t.QuestionBlocked? {
      QuestionFieldsAreBody(m);
    } else {
      ObjectIsOneLine(m, RulesFor(t));
    }
  }

  lemma PayloadIsOneLine(raw: map<string, Json>, t: ResponseType, m: map<string, Json>)
    requires OneLineOutsideBody(m) && Read(raw, "payload") == Obj(m) && ParsePayload(raw, t).Ok?
    ensures FieldsOneLine(ParsePayload(raw, t).value)
  {
    FieldsAreOneLine(t, PayloadOf(Read(raw, "payload")).fields);
  }

  lemma PartsAreOneLine(codec: Codec, m: map<string, Json>, raw: map<string, Json>, p: ResponsePacket)
    requires OneLineOutsideBody(m) && RawFrom(codec, m) == Ok(raw) && ParseBody(raw) == Ok(p)
    ensures OneLine(p)
  {
    RawReads(codec, m, raw);
    BodyParts(raw, p);
    PayloadMapIsOneLine(m);
    PayloadIsOneLine(raw, p.responseType, WithRun(m, PayloadMap(m)));
    NamesAreOneLine(m, raw, p);
  }

  lemma NamesAreOneLine(m: map<string, Json>, raw: map<string, Json>, p: ResponsePacket)
    requires OneLineOutsideBody(m)
    requires ParseLineage(raw) == Ok(Lineage(p.workOrderId, p.inReplyTo, p.idempotencyKey, p.sourceInputSha256, p.createdAt))
    requires ParseNames(raw) == Ok(Names(p.messageId, p.correlationId, p.executorRunId, p.actor))
    requires forall k <- TOP_KEYS :: k != "evidence_refs" ==> Read(raw, k) == Read(m, k)
    ensures Text.BreakFree(p.workOrderId) && Text.BreakFree(p.inReplyTo) && Text.BreakFree(p.idempotencyKey)
    ensures Text.BreakFree(p.createdAt) && OneLineOption(p.executorRunId) && OneLineOption(p.correlationId)
  {
    BodyKeysApart();
    TopKeyNames();
  }

  lemma TopKeyNames()
    ensures "work_order_id" in TOP_KEYS && "in_reply_to" in TOP_KEYS && "idempotency_key" in TOP_KEYS
    ensures "created_at" in TOP_KEYS && "executor_run_id" in TOP_KEYS && "correlation_id" in TOP_KEYS
    ensures "message_id" in TOP_KEYS && "actor" in TOP_KEYS && "schema" in TOP_KEYS && "response_type" in TOP_KEYS
    ensures "authority" in TOP_KEYS && "content_sha256" in TOP_KEYS && "source_input_sha256" in TOP_KEYS
  {
  }

  lemma ParsedIsOneLine(codec: Codec, markdown: string, p: ResponsePacket)
    requires Parse(codec, markdown) == Ok(p)
    ensures OneLine(p)
  {
    var parts := CutFront(Text.SplitLines(markdown)).value;
    var mapping := ParseBlock(parts.block).value;
    BlockIsOneLine(parts.block);
    AssignedIsOneLine(mapping, parts.body);
    var m := AssignBody(Texts(mapping), parts.body);
    var raw := RawFrom(codec, m).value;
    PacketParts(codec, raw, p);
    PartsAreOneLine(codec, m, raw, p.(contentSha256 := None));
  }
}
