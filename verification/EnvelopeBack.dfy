/** A printed envelope validates to the packet's own headers, exactly for those that survive. */
module EnvelopeBack {
  import opened Wrappers
  import opened Packets
  import opened Validate
  import opened ValidationLaws
  import opened Markdown
  import opened FrontMatter
  import opened PayloadKeys
  import opened Envelope
  import opened ReadBack
  import opened Prose
  import opened BodyBack
  import opened SingleLine
  import opened Survival
  import Text

  // ---------------------------------------------------------------- what validity says

  predicate StringsChecked(p: ResponsePacket) {
    && RequireString(Str(p.workOrderId), MAX_STRING_BYTES) == Ok(p.workOrderId)
    && RequireString(Str(p.inReplyTo), MAX_STRING_BYTES) == Ok(p.inReplyTo)
    && RequireString(Str(p.idempotencyKey), MAX_STRING_BYTES) == Ok(p.idempotencyKey)
    && RequireString(Str(p.createdAt), MAX_STRING_BYTES) == Ok(p.createdAt)
    && Digest(Str(p.sourceInputSha256)) == Ok(p.sourceInputSha256) && IsDigest(p.sourceInputSha256)
    && OptionalString(TextOrNull(p.executorRunId)) == Ok(p.executorRunId)
    && OptionalString(TextOrNull(p.correlationId)) == Ok(p.correlationId)
    && p.schema == RESPONSE_SCHEMA && p.authority == RESPONSE_AUTHORITY
  }

  ghost predicate Checked(codec: Codec, p: ResponsePacket) {
    && StringsChecked(p)
    && ValidatePayload(p.responseType, MapOf(p.payload)) == Ok(p.payload)
    && ParseEvidence(List(RefsJson(p.evidenceRefs))) == Ok(p.evidenceRefs)
    && p.contentSha256.Some? && IsDigest(p.contentSha256.value) && Fingerprint(codec, p) == Ok(p.contentSha256.value)
  }

  lemma StringsOfValid(raw: map<string, Json>, p: ResponsePacket)
    requires ParseLineage(raw) == Ok(Lineage(p.workOrderId, p.inReplyTo, p.idempotencyKey, p.sourceInputSha256, p.createdAt))
    requires ParseNames(raw) == Ok(Names(p.messageId, p.correlationId, p.executorRunId, p.actor))
    requires p.schema == RESPONSE_SCHEMA && p.authority == RESPONSE_AUTHORITY
    ensures StringsChecked(p)
  {
    LineageStrings(raw, LineageOf(p));
    NameStrings(raw, NamesOf(p));
  }

  lemma NameStrings(raw: map<string, Json>, n: Names)
    requires ParseNames(raw) == Ok(n)
    ensures OptionalString(TextOrNull(n.executorRunId)) == Ok(n.executorRunId)
    ensures OptionalString(TextOrNull(n.correlationId)) == Ok(n.correlationId)
  {
  }

  lemma PayloadOfValid(raw: map<string, Json>, t: ResponseType, payload: seq<Field>)
    requires ParsePayload(raw, t) == Ok(payload)
    ensures ValidatePayload(t, MapOf(payload)) == Ok(payload)
  {
    PayloadIsStable(t, PayloadOf(Read(raw, "payload")).fields);
  }

  lemma EvidenceOfValid(raw: map<string, Json>, refs: seq<EvidenceRef>)
    requires ParseEvidence(Read(raw, "evidence_refs")) == Ok(refs)
    ensures ParseEvidence(List(RefsJson(refs))) == Ok(refs)
  {
    EvidenceIsStable(raw, map["evidence_refs" := List(RefsJson(refs))]);
  }

  /** Everything validation guarantees of an accepted packet. */
  lemma ValidIsChecked(codec: Codec, raw: map<string, Json>, p: ResponsePacket)
    requires HexDigests(codec) && ParsePacket(codec, raw) == Ok(p)
    ensures Checked(codec, p)
  {
    PacketParts(codec, raw, p);
    BodyParts(raw, p.(contentSha256 := None));
    StringsOfValid(raw, p);
    PayloadOfValid(raw, p.responseType, p.payload);
    EvidenceOfValid(raw, p.evidenceRefs);
  }

  lemma PayloadKeysOfChecked(codec: Codec, p: ResponsePacket)
    requires Checked(codec, p)
    ensures PayloadKeysOk(p)
  {
    PayloadIsStable(p.responseType, MapOf(p.payload));
  }

  /** A validated field is a fixed point of its own check. */
  lemma FieldIsFixed(codec: Codec, p: ResponsePacket, f: Field)
    requires Checked(codec, p) && !p.responseType.QuestionBlocked? && f in p.payload
    ensures IsPayloadKey(p.responseType, f.key)
    ensures FieldValue(RulesFor(p.responseType), f.key, f.value) == Ok(f.value)
  {
    RulesAreWellFormed(p.responseType);
    PayloadKeysOfChecked(codec, p);
    ObjectIsSound(MapOf(p.payload), RulesFor(p.responseType));
    MapOfFields(p.payload);
  }

  // ---------------------------------------------------------------- the envelope is readable

  lemma ValueTextIsOneLine(t: ResponseType, f: Field)
    requires IsPayloadKey(t, f.key) && FieldValue(RulesFor(t), f.key, f.value) == Ok(f.value)
    requires !EndsWith(f.key, "sha256") ==> OneLineText(f.value)
    ensures Text.BreakFree(ValueText(f.key, f.value))
  {
    if EndsWith(f.key, "sha256") {
      DigestFieldReads(t, f);
      HexIsHeader(f.value.s);
    } else {
      KeyFacts(t, f.key);
      PlainTextIsOneLine(f.key, f.value);
    }
  }

  lemma PlainTextIsOneLine(key: string, v: Json)
    requires !Text.Contains(key, "sha256") && OneLineText(v)
    ensures Text.BreakFree(ValueText(key, v))
  {
    match v
    case Int(n) => NumberIsOneLine(n);
    case Bool(b) => assert Text.BreakFree("true") && Text.BreakFree("false");
    case _ =>
  }

  lemma NumberIsOneLine(n: int)
    ensures Text.BreakFree(Text.Decimal(n))
  {
    Text.DecimalParses(if n < 0 then -n else n);
  }

  lemma QuestionPayload(p: ResponsePacket)
    requires p.responseType.QuestionBlocked? && ValidatePayload(p.responseType, MapOf(p.payload)) == Ok(p.payload)
    ensures |p.payload| == 1 && p.payload[0].key == "questions" && p.payload[0].value.List?
    ensures Questions(p) == p.payload[0].value.items && Questions(p) != [] && |Questions(p)| <= MAX_COLLECTION
    ensures CleanQuestions(Questions(p)) == Ok(Questions(p))
    ensures PayloadEntries(p.payload) == []
  {
    assert p.payload == [p.payload[0]];
    assert MapOf(p.payload) == map["questions" := p.payload[0].value];
    assert "questions" in BODY_KEYS;
    assert p.payload[1..] == [];
  }

  lemma PayloadEntriesArePlain(codec: Codec, p: ResponsePacket)
    requires Checked(codec, p) && OneLine(p)
    ensures PlainEntries(PayloadEntries(p.payload))
  {
    if p.responseType.QuestionBlocked? {
      QuestionPayload(p);
    } else {
      forall e <- PayloadEntries(p.payload) ensures PlainKey(e.key) && Text.BreakFree(e.text) {
        var f := PayloadFieldOf(p, e);
        FieldIsFixed(codec, p, f);
        KeyFacts(p.responseType, f.key);
        ValueTextIsOneLine(p.responseType, f);
      }
    }
  }

  lemma ConstantsAreOneLine(p: ResponsePacket)
    requires StringsChecked(p)
    ensures Text.BreakFree(p.schema) && Text.BreakFree(p.authority) && Text.BreakFree(TypeText(p.responseType))
    ensures Text.BreakFree("sha256:" + p.sourceInputSha256)
  {
    ConstantsAreHeaders(p.responseType);
    HexIsHeader(p.sourceInputSha256);
  }

  lemma FixedEntriesArePlain(codec: Codec, p: ResponsePacket)
    requires Checked(codec, p) && OneLine(p)
    ensures forall e <- FixedEntries(codec, p) :: Text.BreakFree(e.text)
  {
    ConstantsAreOneLine(p);
    HexIsHeader(p.contentSha256.value);
    FixedTexts(codec, p);
  }

  lemma FixedTexts(codec: Codec, p: ResponsePacket)
    requires p.contentSha256.Some? && Text.BreakFree("sha256:" + p.contentSha256.value) && p.contentSha256.value != ""
    requires Text.BreakFree(p.schema) && Text.BreakFree(p.authority) && Text.BreakFree(TypeText(p.responseType))
    requires Text.BreakFree("sha256:" + p.sourceInputSha256)
    requires Text.BreakFree(p.workOrderId) && Text.BreakFree(p.inReplyTo) && Text.BreakFree(p.idempotencyKey)
    requires Text.BreakFree(p.createdAt)
    ensures forall e <- FixedEntries(codec, p) :: Text.BreakFree(e.text)
  {
    assert FixedEntries(codec, p)[8].text == "sha256:" + p.contentSha256.value;
  }

  lemma EntriesArePlain(codec: Codec, p: ResponsePacket)
    requires Lawful(codec) && Checked(codec, p) && OneLine(p)
    ensures PlainEntries(Entries(codec, p)) && Entries(codec, p) != []
  {
    EnvelopeTexts(codec, p);
    FixedEntriesArePlain(codec, p);
    OptionalOnes(codec, p);
    PayloadEntriesArePlain(codec, p);
    assert Entries(codec, p)[0] in Entries(codec, p);
  }

  /** A printed packet whose headers are single lines parses from its own entries and body. */
  lemma ParseOfRendered(codec: Codec, p: ResponsePacket)
    requires Lawful(codec) && Checked(codec, p) && OneLine(p)
    ensures
      var mapping := Gather(map[], Entries(codec, p));
      Parse(codec, Render(codec, p)) ==
      if Marks(BodyLines(Body(p))) != 0 then Err(Unframed)
      else if mapping == map[] then Err(Invalid)
      else FromParts(codec, mapping, BodyText(BodyLines(Body(p))))
  {
    EntriesArePlain(codec, p);
    ParseOfDocument(codec, Entries(codec, p), Body(p));
  }

  // ---------------------------------------------------------------- reading the envelope

  /** What each envelope key reads back as. */
  ghost predicate EnvelopeReads(codec: Codec, m: map<string, Json>, p: ResponsePacket) {
    && Read(m, "schema") == ReadText(p.schema)
    && Read(m, "response_type") == ReadText(TypeText(p.responseType))
    && Read(m, "authority") == ReadText(p.authority)
    && Read(m, "content_sha256") == ReadText("sha256:" + DigestText(codec, p))
    && LineageReads(m, p) && NamesRead(m, p)
    && (if p.evidenceRefs != [] then Read(m, "evidence_refs") == ReadText(codec.dumpRefs(p.evidenceRefs))
        else "evidence_refs" !in m)
  }

  predicate LineageReads(m: map<string, Json>, p: ResponsePacket) {
    && Read(m, "work_order_id") == ReadText(p.workOrderId) && Read(m, "in_reply_to") == ReadText(p.inReplyTo)
    && Read(m, "idempotency_key") == ReadText(p.idempotencyKey) && Read(m, "created_at") == ReadText(p.createdAt)
    && Read(m, "source_input_sha256") == ReadText("sha256:" + p.sourceInputSha256)
  }

  predicate NamesRead(m: map<string, Json>, p: ResponsePacket) {
    && Read(m, "message_id") == Null && Read(m, "actor") == Null
    && Read(m, "correlation_id") == (if p.correlationId.Some? then ReadText(p.correlationId.value) else Null)
    && (p.executorRunId.Some? ==> Read(m, "executor_run_id") == ReadText(p.executorRunId.value))
    && (p.executorRunId.None? && !p.responseType.ExecutionAcknowledged? ==> Read(m, "executor_run_id") == Null)
  }

  lemma PayloadAvoids(codec: Codec, p: ResponsePacket, key: string)
    requires Checked(codec, p) && key in TOP_KEYS && (key == "executor_run_id" ==> !p.responseType.ExecutionAcknowledged?)
    ensures !KeyIn(PayloadEntries(p.payload), key)
  {
    if KeyIn(PayloadEntries(p.payload), key) {
      var e :| e in PayloadEntries(p.payload) && e.key == key;
      var f := PayloadFieldOf(p, e);
      PayloadKeysOfChecked(codec, p);
      KeyFacts(p.responseType, f.key);
    }
  }

  lemma LineageIsRead(codec: Codec, p: ResponsePacket, body: string)
    requires SameTextPerKey(Entries(codec, p))
    ensures LineageReads(MappingOf(codec, p, body), p)
  {
    EnvelopeHas(codec, p);
    BodyKeysApart();
    TopKeyNames();
    EntryReads(codec, p, body, Entry("work_order_id", p.workOrderId));
    EntryReads(codec, p, body, Entry("in_reply_to", p.inReplyTo));
    EntryReads(codec, p, body, Entry("idempotency_key", p.idempotencyKey));
    EntryReads(codec, p, body, Entry("created_at", p.createdAt));
    EntryReads(codec, p, body, Entry("source_input_sha256", "sha256:" + p.sourceInputSha256));
  }

  lemma KindIsRead(codec: Codec, p: ResponsePacket, body: string)
    requires SameTextPerKey(Entries(codec, p))
    ensures
      var m := MappingOf(codec, p, body);
      && Read(m, "schema") == ReadText(p.schema) && Read(m, "response_type") == ReadText(TypeText(p.responseType))
      && Read(m, "authority") == ReadText(p.authority)
      && Read(m, "content_sha256") == ReadText("sha256:" + DigestText(codec, p))
  {
    EnvelopeHas(codec, p);
    BodyKeysApart();
    TopKeyNames();
    EntryReads(codec, p, body, Entry("schema", p.schema));
    EntryReads(codec, p, body, Entry("response_type", TypeText(p.responseType)));
    EntryReads(codec, p, body, Entry("authority", p.authority));
    EntryReads(codec, p, body, Entry("content_sha256", "sha256:" + DigestText(codec, p)));
  }

  lemma AbsentKeyIsNull(codec: Codec, p: ResponsePacket, body: string, key: string)
    requires Checked(codec, p) && SameTextPerKey(Entries(codec, p)) && key in TOP_KEYS
    requires !KeyIn(EnvelopeEntries(codec, p), key) && (key == "executor_run_id" ==> !p.responseType.ExecutionAcknowledged?)
    ensures key !in MappingOf(codec, p, body)
  {
    PayloadAvoids(codec, p, key);
    BodyKeysApart();
    OtherKeysReadNothing(codec, p, body, key);
  }

  lemma NamesAreRead(codec: Codec, p: ResponsePacket, body: string)
    requires Checked(codec, p) && SameTextPerKey(Entries(codec, p))
    ensures NamesRead(MappingOf(codec, p, body), p)
  {
    EnvelopeLacks(codec, p);
    TopKeyNames();
    AbsentKeyIsNull(codec, p, body, "message_id");
    AbsentKeyIsNull(codec, p, body, "actor");
    OptionalKeyIsRead(codec, p, body, "correlation_id", p.correlationId);
    if p.executorRunId.Some? || !p.responseType.ExecutionAcknowledged? {
      OptionalKeyIsRead(codec, p, body, "executor_run_id", p.executorRunId);
    }
  }

  lemma OptionalKeyIsRead(codec: Codec, p: ResponsePacket, body: string, key: string, text: Option<string>)
    requires Checked(codec, p) && SameTextPerKey(Entries(codec, p))
    requires (key == "correlation_id" && text == p.correlationId) || (key == "executor_run_id" && text == p.executorRunId)
    requires key == "executor_run_id" && text.None? ==> !p.responseType.ExecutionAcknowledged?
    ensures Read(MappingOf(codec, p, body), key) == if text.Some? then ReadText(text.value) else Null
  {
    TopKeyNames();
    BodyKeysApart();
    if text.Some? {
      EnvelopeHas(codec, p);
      EntryReads(codec, p, body, Entry(key, text.value));
    } else {
      EnvelopeLacks(codec, p);
      AbsentKeyIsNull(codec, p, body, key);
    }
  }

  lemma EnvelopeIsRead(codec: Codec, p: ResponsePacket, body: string)
    requires Checked(codec, p) && SameTextPerKey(Entries(codec, p))
    ensures EnvelopeReads(codec, MappingOf(codec, p, body), p)
  {
    KindIsRead(codec, p, body);
    LineageIsRead(codec, p, body);
    NamesAreRead(codec, p, body);
    EnvelopeHas(codec, p);
    EnvelopeLacks(codec, p);
    BodyKeysApart();
    assert "evidence_refs" in TOP_KEYS;
    if p.evidenceRefs != [] {
      EntryReads(codec, p, body, Entry("evidence_refs", codec.dumpRefs(p.evidenceRefs)));
    } else {
      AbsentKeyIsNull(codec, p, body, "evidence_refs");
    }
  }

  // ---------------------------------------------------------------- parsing the envelope

  lemma TextReadsIff(v: string, limit: nat)
    requires RequireString(Str(v), limit) == Ok(v) && Text.BreakFree(v)
    ensures RequireString(ReadText(v), limit) == Ok(v) <==> HeaderOk(v)
  {
  }

  lemma OptionReadsIff(v: Option<string>)
    requires OptionalString(TextOrNull(v)) == Ok(v) && OneLineOption(v)
    ensures v.Some? ==> (OptionalString(ReadText(v.value)) == Ok(v) <==> HeaderOk(v.value))
  {
  }

  lemma DigestReads(d: string)
    requires IsDigest(d)
    ensures Digest(ReadText("sha256:" + d)) == Ok(d)
  {
    HexIsHeader(d);
    HexIsDigest(d);
  }

  lemma HeaderReads(v: string)
    requires HeaderOk(v)
    ensures ReadText(v) == Str(v)
  {
  }

  lemma KindComesBack(codec: Codec, m: map<string, Json>, raw: map<string, Json>, p: ResponsePacket)
    requires StringsChecked(p) && EnvelopeReads(codec, m, p) && RawFrom(codec, m) == Ok(raw)
    ensures ParseKind(raw) == Ok(p.responseType)
  {
    RawReads(codec, m, raw);
    TopKeyNames();
    ConstantsAreHeaders(p.responseType);
    HeaderReads(p.schema);
    HeaderReads(p.authority);
    HeaderReads(TypeText(p.responseType));
    KindOfTexts(raw, p.responseType);
  }

  lemma KindOfTexts(raw: map<string, Json>, t: ResponseType)
    requires Read(raw, "schema") == Str(RESPONSE_SCHEMA) && Read(raw, "response_type") == Str(TypeText(t))
    requires Read(raw, "authority") == Str(RESPONSE_AUTHORITY)
    ensures ParseKind(raw) == Ok(t)
  {
    TypeTextsDiffer(t, TypeOf(TypeText(t)).GetOr(t));
  }

  lemma TypeTextsDiffer(t: ResponseType, u: ResponseType)
    ensures TypeText(t) == TypeText(u) ==> t == u
    ensures TypeOf(TypeText(t)).Some?
  {
    if TypeText(t) == TypeText(u) {
      assert TypeText(t)[|TypeText(t)| - 2] == TypeText(u)[|TypeText(u)| - 2];
      assert TypeText(t)[1] == TypeText(u)[1];
    }
  }

  function LineageOf(p: ResponsePacket): Lineage {
    Lineage(p.workOrderId, p.inReplyTo, p.idempotencyKey, p.sourceInputSha256, p.createdAt)
  }

  function NamesOf(p: ResponsePacket): Names {
    Names(p.messageId, p.correlationId, p.executorRunId, p.actor)
  }

  predicate LineageOk(p: ResponsePacket) {
    HeaderOk(p.workOrderId) && HeaderOk(p.inReplyTo) && HeaderOk(p.idempotencyKey) && HeaderOk(p.createdAt)
  }

  lemma LineageComesBackIff(m: map<string, Json>, p: ResponsePacket)
    requires StringsChecked(p) && OneLine(p) && LineageReads(m, p)
    ensures ParseLineage(m) == Ok(LineageOf(p)) <==> LineageOk(p)
    ensures LineageOk(p) ==>
              Read(m, "work_order_id").Str? && Read(m, "in_reply_to").Str? && Read(m, "idempotency_key").Str?
              && Read(m, "created_at").Str? && Read(m, "source_input_sha256").Str?
  {
    TextReadsIff(p.workOrderId, MAX_STRING_BYTES);
    TextReadsIff(p.inReplyTo, MAX_STRING_BYTES);
    TextReadsIff(p.idempotencyKey, MAX_STRING_BYTES);
    TextReadsIff(p.createdAt, MAX_STRING_BYTES);
    DigestReads(p.sourceInputSha256);
  }

  predicate NamesOk(p: ResponsePacket) {
    p.messageId.None? && p.actor.None? && HeaderOrAbsent(p.executorRunId) && HeaderOrAbsent(p.correlationId)
  }

  lemma NamesComeBackIff(m: map<string, Json>, p: ResponsePacket)
    requires StringsChecked(p) && OneLine(p) && NamesRead(m, p)
    requires p.responseType.ExecutionAcknowledged? ==> p.executorRunId.Some?
    ensures ParseNames(m) == Ok(NamesOf(p)) <==> NamesOk(p)
  {
    OptionReadsIff(p.executorRunId);
    OptionReadsIff(p.correlationId);
  }

  /** Both look at top-level keys only, which the raw packet takes over. */
  lemma RawKeepsNames(codec: Codec, m: map<string, Json>, raw: map<string, Json>)
    requires RawFrom(codec, m) == Ok(raw)
    ensures ParseLineage(raw) == ParseLineage(m) && ParseNames(raw) == ParseNames(m)
  {
    RawReads(codec, m, raw);
    TopKeyNames();
  }

  lemma DumpIsHeader(codec: Codec, refs: seq<EvidenceRef>)
    requires Lawful(codec)
    ensures ReadText(codec.dumpRefs(refs)) == Str(codec.dumpRefs(refs))
  {
    var text := codec.dumpRefs(refs);
    CleanOfSolid(text);
    assert "|"[0] == '|' && ">"[0] == '>';
  }

  lemma EvidenceComesBack(codec: Codec, m: map<string, Json>, p: ResponsePacket)
    requires Lawful(codec) && Checked(codec, p) && EnvelopeReads(codec, m, p)
    ensures RawFrom(codec, m).Ok?
    ensures ParseEvidence(Read(RawFrom(codec, m).value, "evidence_refs")) == Ok(p.evidenceRefs)
  {
    DumpIsHeader(codec, p.evidenceRefs);
    EvidenceIsLoaded(codec, m, p.evidenceRefs);
  }

  lemma EvidenceIsLoaded(codec: Codec, m: map<string, Json>, refs: seq<EvidenceRef>)
    requires Lawful(codec) && ParseEvidence(List(RefsJson(refs))) == Ok(refs)
    requires if refs != [] then Read(m, "evidence_refs") == Str(codec.dumpRefs(refs)) else "evidence_refs" !in m
    ensures RawFrom(codec, m).Ok?
    ensures ParseEvidence(Read(RawFrom(codec, m).value, "evidence_refs")) == Ok(refs)
  {
    assert "evidence_refs" in TOP_KEYS;
    assert RawFrom(codec, m).Ok?;
    RawReads(codec, m, RawFrom(codec, m).value);
  }
}
