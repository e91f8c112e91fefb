/** Parsing a rendered packet gives back the packet, exactly for the canonical ones. */
module RoundTrip {
  import opened Wrappers
  import opened Packets
  import opened Validate
  import opened ValidationLaws
  import opened Markdown
  import opened FrontMatter
  import opened PayloadKeys
  import opened Envelope
  import opened ReadBack
  import opened Prose
  import opened BodyBack
  import opened SingleLine
  import opened Survival
  import opened EnvelopeBack
  import opened PayloadBack
  import Outbox
  import Broker
  import Text

  // ---------------------------------------------------------------- canonical packets come back

  lemma CanonicalIsOneLine(codec: Codec, p: ResponsePacket)
    requires Canonical(p) && PayloadKeysOk(p)
    ensures OneLine(p) && RunAgrees(p)
  {
    forall f <- p.payload | f.key !in BODY_KEYS && !EndsWith(f.key, "sha256") ensures OneLineText(f.value) {
      assert PayloadFieldOk(f);
    }
    if p.responseType.ExecutionAcknowledged? && Truthy(p.executorRunId) {
      forall f <- p.payload | f.key == "executor_run_id" ensures f.value == Str(p.executorRunId.value) {
        GetOfField(p, f);
      }
    }
  }

  lemma TextsOfBodyAreLines(codec: Codec, p: ResponsePacket, key: string)
    requires PayloadKeysOk(p) && FieldsOk(p) && PrintedWord(key)
    ensures Text.BreakFree(FieldText(p, key))
  {
    GetIsMembership(p.payload, key);
    if Get(p.payload, key).Some? {
      assert PayloadFieldOk(Field(key, Get(p.payload, key).value));
    }
  }

  lemma CanonicalHasNoMarks(codec: Codec, p: ResponsePacket)
    requires Checked(codec, p) && Canonical(p) && PayloadKeysOk(p) && SameTextPerKey(Entries(codec, p))
    ensures Marks(BodyLines(Body(p))) == 0
  {
    if p.responseType.QuestionBlocked? {
      QuestionsSurvive(codec, p);
    } else {
      PlainNames();
      TextsOfBodyAreLines(codec, p, "title");
      TextsOfBodyAreLines(codec, p, "outcome");
      TextsOfBodyAreLines(codec, p, "status");
      TextsOfBodyAreLines(codec, p, "receipt_type");
      TextsOfBodyAreLines(codec, p, "executor_run_id");
      MarksByType(p);
    }
  }

  predicate PrintedWord(key: string) {
    key !in BODY_KEYS && !EndsWith(key, "sha256")
  }

  lemma PlainNames()
    ensures PrintedWord("title") && PrintedWord("outcome") && PrintedWord("executor_run_id")
    ensures PrintedWord("status") && PrintedWord("receipt_type")
  {
    HeadingKeysAreOrdinary("title");
    HeadingKeysAreOrdinary("outcome");
    ShortWords();
    NotBodyKeys();
    WordIsPrinted("executor_run_id");
    WordIsPrinted("status");
    WordIsPrinted("receipt_type");
  }

  lemma NotBodyKeys()
    ensures "executor_run_id" !in BODY_KEYS && "status" !in BODY_KEYS && "receipt_type" !in BODY_KEYS
  {
  }

  lemma WordIsPrinted(key: string)
    requires WordKey(key) && key !in BODY_KEYS
    ensures PrintedWord(key)
  {
    WordIsPlain(key);
    NoTwoNoDigest(key);
  }

  lemma MarksByType(p: ResponsePacket)
    requires BodyOk(p) && !p.responseType.QuestionBlocked?
    requires Text.BreakFree(FieldText(p, "title")) && Text.BreakFree(FieldText(p, "outcome"))
    requires Text.BreakFree(FieldText(p, "status")) && Text.BreakFree(FieldText(p, "receipt_type"))
    requires Text.BreakFree(FieldText(p, "executor_run_id"))
    ensures Marks(BodyLines(Body(p))) == 0
  {
    if p.responseType.ReceiptAccepted? {
      ReceiptMarks(p);
    } else if p.responseType.ExecutionAcknowledged? {
      AcknowledgementMarks(p);
    } else {
      ProseMarks(p);
    }
  }

  lemma AckPayloadComesBack(codec: Codec, p: ResponsePacket, body: string)
    requires Checked(codec, p) && Canonical(p) && OneLine(p) && SameTextPerKey(Entries(codec, p))
    requires p.responseType.ExecutionAcknowledged? && Describes(Base(codec, p), p)
    requires EnvelopeReads(codec, MappingOf(codec, p, body), p)
    ensures ValidatePayload(p.responseType, PayloadRead(MappingOf(codec, p, body))) == Ok(p.payload)
  {
    RunFieldAgrees(codec, p);
    AckPayloadIff(codec, p, body);
  }

  lemma ProsePayloadComesBack(codec: Codec, p: ResponsePacket)
    requires Checked(codec, p) && Canonical(p) && OneLine(p) && SameTextPerKey(Entries(codec, p))
    requires IsProse(p.responseType) && Describes(Base(codec, p), p)
    ensures
      ValidatePayload(p.responseType, PayloadRead(MappingOf(codec, p, BodyText(BodyLines(Body(p)))))) == Ok(p.payload)
  {
    ProseOfCanonical(p);
    ProsePayloadIff(codec, p);
  }

  lemma ProseOfCanonical(p: ResponsePacket)
    requires Canonical(p) && IsProse(p.responseType)
    ensures ProseClean(ProseText(p), HeadingOf(p) != "") && FieldsOk(p)
  {
  }

  lemma ObjectPayloadComesBack(codec: Codec, p: ResponsePacket)
    requires Checked(codec, p) && Canonical(p) && OneLine(p) && SameTextPerKey(Entries(codec, p))
    requires !p.responseType.QuestionBlocked? && Describes(Base(codec, p), p)
    requires EnvelopeReads(codec, MappingOf(codec, p, BodyText(BodyLines(Body(p)))), p)
    ensures
      ValidatePayload(p.responseType, PayloadRead(MappingOf(codec, p, BodyText(BodyLines(Body(p)))))) == Ok(p.payload)
  {
    var body := BodyText(BodyLines(Body(p)));
    match p.responseType
    case ReceiptAccepted => ReceiptPayloadComesBack(codec, p, body);
    case ExecutionAcknowledged => AckPayloadComesBack(codec, p, body);
    case _ => ProsePayloadComesBack(codec, p);
  }

  lemma RunFieldAgrees(codec: Codec, p: ResponsePacket)
    requires Checked(codec, p) && p.responseType.ExecutionAcknowledged?
    requires p.executorRunId == Some(FieldText(p, "executor_run_id"))
    ensures forall f <- p.payload :: f.key == "executor_run_id" ==> f.value == Str(p.executorRunId.value)
  {
    PayloadKeysOfChecked(codec, p);
    forall f <- p.payload | f.key == "executor_run_id" ensures f.value == Str(p.executorRunId.value) {
      GetOfField(p, f);
      FieldIsFixed(codec, p, f);
      RunIsNoDigest();
    }
  }

  lemma AllowedIsNotForbidden(t: ResponseType, key: string)
    requires IsPayloadKey(t, key)
    ensures key !in FORBIDDEN_INLINE_KEYS
  {
    match t
    case ExecutionCompleted => CompletionKeysAllowed(key);
    case _ =>
  }

  lemma CompletionKeysAllowed(key: string)
    requires IsPayloadKey(ExecutionCompleted, key)
    ensures key !in FORBIDDEN_INLINE_KEYS
  {
  }

  lemma QuestionKeysAllowed(base: map<string, Json>, body: string)
    requires QuestionEnvelope(base)
    ensures PayloadRead(AssignBody(base, body)).Keys !! FORBIDDEN_INLINE_KEYS
  {
    AllowedIsNotForbidden(QuestionBlocked, "questions");
    forall k <- PayloadRead(AssignBody(base, body)).Keys ensures k !in FORBIDDEN_INLINE_KEYS {
      QuestionsAreAlone(base, body, k);
    }
  }

  lemma KeysAreAllowed(codec: Codec, p: ResponsePacket, body: string)
    requires Checked(codec, p) && SameTextPerKey(Entries(codec, p)) && Describes(Base(codec, p), p)
    requires !p.responseType.QuestionBlocked?
    ensures PayloadRead(MappingOf(codec, p, body)).Keys !! FORBIDDEN_INLINE_KEYS
  {
    forall k <- PayloadRead(MappingOf(codec, p, body)).Keys ensures k !in FORBIDDEN_INLINE_KEYS {
      KeyIsAllowed(codec, p, body, k);
    }
  }

  lemma PayloadComesBack(codec: Codec, p: ResponsePacket)
    requires Checked(codec, p) && Canonical(p) && OneLine(p) && RunAgrees(p) && SameTextPerKey(Entries(codec, p))
    requires EnvelopeReads(codec, MappingOf(codec, p, BodyText(BodyLines(Body(p)))), p)
    ensures
      var m := MappingOf(codec, p, BodyText(BodyLines(Body(p))));
      ValidatePayload(p.responseType, PayloadRead(m)) == Ok(p.payload) && PayloadRead(m).Keys !! FORBIDDEN_INLINE_KEYS
  {
    if p.responseType.QuestionBlocked? {
      QuestionsSurvive(codec, p);
      BaseOfQuestions(codec, p);
      QuestionKeysAllowed(Base(codec, p), BodyText(BodyLines(Body(p))));
    } else {
      BaseDescribes(codec, p);
      ObjectPayloadComesBack(codec, p);
      KeysAreAllowed(codec, p, BodyText(BodyLines(Body(p))));
    }
  }

  lemma KeyIsAllowed(codec: Codec, p: ResponsePacket, body: string, key: string)
    requires Checked(codec, p) && SameTextPerKey(Entries(codec, p)) && Describes(Base(codec, p), p)
    requires !p.responseType.QuestionBlocked? && key in PayloadRead(MappingOf(codec, p, body))
    ensures key !in FORBIDDEN_INLINE_KEYS
  {
    PayloadReadKeys(codec, p, body, key);
    PayloadKeysOfChecked(codec, p);
    AllowedIsNotForbidden(p.responseType, key);
  }

  lemma RequiredKeysOf(m: map<string, Json>)
    requires "schema" in m && "response_type" in m && "work_order_id" in m && "in_reply_to" in m
    requires "idempotency_key" in m && "source_input_sha256" in m && "created_at" in m
    ensures forall k <- COMMON_REQUIRED :: k in m
  {
  }

  lemma RequiredKeysAreRead(codec: Codec, m: map<string, Json>, raw: map<string, Json>, p: ResponsePacket)
    requires RawFrom(codec, m) == Ok(raw) && EnvelopeReads(codec, m, p) && StringsChecked(p) && OneLine(p) && LineageOk(p)
    ensures KnownKeys(raw)
  {
    ConstantsAreHeaders(p.responseType);
    HeaderReads(p.schema);
    HeaderReads(TypeText(p.responseType));
    LineageComesBackIff(m, p);
    RequiredKeysOf(m);
    RawIsKnown(codec, m, raw);
  }

  /** Every stage of validation gives the packet's own part again. */
  lemma StagesComeBack(codec: Codec, p: ResponsePacket, m: map<string, Json>, raw: map<string, Json>)
    requires Lawful(codec) && Checked(codec, p) && HeadersOk(p) && OneLine(p) && EnvelopeReads(codec, m, p)
    requires p.responseType.ExecutionAcknowledged? ==> p.executorRunId.Some?
    requires RawFrom(codec, m) == Ok(raw)
    requires ValidatePayload(p.responseType, PayloadRead(m)) == Ok(p.payload) && PayloadRead(m).Keys !! FORBIDDEN_INLINE_KEYS
    ensures ParseBody(raw) == Ok(p.(contentSha256 := None))
  {
    RequiredKeysAreRead(codec, m, raw, p);
    KindComesBack(codec, m, raw, p);
    EvidenceComesBack(codec, m, p);
    LineageComesBackIff(m, p);
    NamesComeBackIff(m, p);
    RawKeepsNames(codec, m, raw);
    RawReads(codec, m, raw);
    PayloadObjIsRead(raw, p.responseType, PayloadRead(m));
    BodyFromParts(raw, p);
  }

  lemma DigestComesBack(codec: Codec, p: ResponsePacket, m: map<string, Json>, raw: map<string, Json>)
    requires Checked(codec, p) && EnvelopeReads(codec, m, p) && RawFrom(codec, m) == Ok(raw)
    ensures Digest(Read(raw, "content_sha256")) == Ok(p.contentSha256.value)
  {
    RawReads(codec, m, raw);
    TopKeyNames();
    DigestReads(p.contentSha256.value);
  }

  lemma CanonicalComesBack(codec: Codec, p: ResponsePacket)
    requires Lawful(codec) && Checked(codec, p) && Canonical(p)
    ensures Parse(codec, Render(codec, p)) == Ok(p)
  {
    PayloadKeysOfChecked(codec, p);
    CanonicalIsOneLine(codec, p);
    EntriesAreConsistent(codec, p);
    ParseOfRendered(codec, p);
    CanonicalHasNoMarks(codec, p);
    var body := BodyText(BodyLines(Body(p)));
    var m := MappingOf(codec, p, body);
    EnvelopeIsRead(codec, p, body);
    PayloadComesBack(codec, p);
    EvidenceComesBack(codec, m, p);
    var raw := RawFrom(codec, m).value;
    StagesComeBack(codec, p, m, raw);
    DigestComesBack(codec, p, m, raw);
    PacketFromParts(codec, raw, p);
    MappingIsNotEmpty(codec, p);
  }

  lemma MappingIsNotEmpty(codec: Codec, p: ResponsePacket)
    requires SameTextPerKey(Entries(codec, p)) && StringsChecked(p)
    ensures Gather(map[], Entries(codec, p)) != map[]
  {
    var e := Entry("schema", p.schema);
    EnvelopeHas(codec, p);
    ConstantsAreHeaders(p.responseType);
    GatherReads(map[], Entries(codec, p));
    assert AgreesWith(Gather(map[], Entries(codec, p)), e);
    assert e.key in Gather(map[], Entries(codec, p));
  }

  // ---------------------------------------------------------------- what comes back is canonical

  lemma EnvelopeTextsAreStrings(codec: Codec, p: ResponsePacket, body: string)
    ensures forall k <- MappingOf(codec, p, body).Keys :: k in TOP_KEYS ==> MappingOf(codec, p, body)[k].Str?
  {
    AssignBodyKeeps(Base(codec, p), body);
    BodyKeysApart();
  }

  lemma ParsedRunIsOurs(codec: Codec, p: ResponsePacket, body: string, raw: map<string, Json>)
    requires RawFrom(codec, MappingOf(codec, p, body)) == Ok(raw) && ParseBody(raw) == Ok(p.(contentSha256 := None))
    requires p.responseType.ExecutionAcknowledged?
    ensures RunAgrees(p) && p.executorRunId.Some?
    ensures forall f <- p.payload :: f.key == "executor_run_id" ==> f.value == Str(p.executorRunId.value)
  {
    EnvelopeTextsAreStrings(codec, p, body);
    ParsedRunsAgree(codec, MappingOf(codec, p, body), raw, p.(contentSha256 := None));
  }

  lemma ParsedHeadersAreOk(codec: Codec, p: ResponsePacket, m: map<string, Json>, raw: map<string, Json>)
    requires Checked(codec, p) && OneLine(p) && EnvelopeReads(codec, m, p)
    requires p.responseType.ExecutionAcknowledged? ==> p.executorRunId.Some?
    requires RawFrom(codec, m) == Ok(raw) && ParseBody(raw) == Ok(p.(contentSha256 := None))
    ensures HeadersOk(p)
  {
    BodyParts(raw, p.(contentSha256 := None));
    RawKeepsNames(codec, m, raw);
    LineageComesBackIff(m, p);
    NamesComeBackIff(m, p);
  }

  lemma ParsedFieldsAreOk(codec: Codec, p: ResponsePacket, body: string)
    requires Checked(codec, p) && OneLine(p) && HeadersOk(p) && SameTextPerKey(Entries(codec, p))
    requires p.responseType.ExecutionAcknowledged? ==>
               p.executorRunId.Some? && forall f <- p.payload :: f.key == "executor_run_id" ==> f.value == Str(p.executorRunId.value)
    requires ValidatePayload(p.responseType, PayloadRead(MappingOf(codec, p, body))) == Ok(p.payload)
    ensures FieldsOk(p)
  {
    if p.responseType.QuestionBlocked? {
      QuestionFieldsAreBody(PayloadRead(MappingOf(codec, p, body)));
    } else {
      ValidatedFields(p.responseType, PayloadRead(MappingOf(codec, p, body)), p.payload);
      FieldsComeBack(codec, p, body);
    }
  }

  lemma ValidatedFields(t: ResponseType, m: map<string, Json>, fields: seq<Field>)
    requires !t.QuestionBlocked? && ValidatePayload(t, m) == Ok(fields)
    ensures forall f <- fields :: Validated(m, RulesFor(t), f)
  {
    RulesAreWellFormed(t);
    ObjectIsSound(m, RulesFor(t));
  }

  lemma ParsedProseIsOk(codec: Codec, p: ResponsePacket)
    requires Checked(codec, p) && OneLine(p) && SameTextPerKey(Entries(codec, p)) && IsProse(p.responseType)
    requires FieldsOk(p) && Describes(Base(codec, p), p) && Marks(BodyLines(Body(p))) == 0
    requires
      ValidatePayload(p.responseType, PayloadRead(MappingOf(codec, p, BodyText(BodyLines(Body(p)))))) == Ok(p.payload)
    ensures ProseClean(ProseText(p), HeadingOf(p) != "") && Marks(BodyLines(ProseText(p))) == 0
  {
    ProsePayloadIff(codec, p);
    ProseMarks(p);
  }

  lemma AckRunText(codec: Codec, p: ResponsePacket)
    requires Checked(codec, p) && p.responseType.ExecutionAcknowledged? && p.executorRunId.Some?
    requires forall f <- p.payload :: f.key == "executor_run_id" ==> f.value == Str(p.executorRunId.value)
    ensures p.executorRunId == Some(FieldText(p, "executor_run_id"))
  {
    RequiredIsPresent(codec, p, "executor_run_id");
    GetIsMembership(p.payload, "executor_run_id");
    assert Field("executor_run_id", Get(p.payload, "executor_run_id").value) in p.payload;
  }

  lemma ParsedAckIsOk(codec: Codec, p: ResponsePacket, body: string)
    requires Checked(codec, p) && OneLine(p) && SameTextPerKey(Entries(codec, p)) && p.responseType.ExecutionAcknowledged?
    requires HeadersOk(p) && FieldsOk(p) && Describes(Base(codec, p), p) && EnvelopeReads(codec, MappingOf(codec, p, body), p)
    requires p.executorRunId.Some?
    requires forall f <- p.payload :: f.key == "executor_run_id" ==> f.value == Str(p.executorRunId.value)
    requires ValidatePayload(p.responseType, PayloadRead(MappingOf(codec, p, body))) == Ok(p.payload)
    ensures BodyOk(p)
  {
    AckPayloadIff(codec, p, body);
    AckRunText(codec, p);
  }

  lemma ParsedBodyIsOk(codec: Codec, p: ResponsePacket, body: string)
    requires Checked(codec, p) && OneLine(p) && RunAgrees(p) && SameTextPerKey(Entries(codec, p))
    requires HeadersOk(p) && FieldsOk(p) && body == BodyText(BodyLines(Body(p))) && Marks(BodyLines(Body(p))) == 0
    requires EnvelopeReads(codec, MappingOf(codec, p, body), p)
    requires p.responseType.ExecutionAcknowledged? ==>
               p.executorRunId.Some? && forall f <- p.payload :: f.key == "executor_run_id" ==> f.value == Str(p.executorRunId.value)
    requires ValidatePayload(p.responseType, PayloadRead(MappingOf(codec, p, body))) == Ok(p.payload)
    ensures BodyOk(p)
  {
    if p.responseType.QuestionBlocked? {
      ReadQuestionsSurvive(codec, p, body);
    } else {
      BaseDescribes(codec, p);
      if p.responseType.ExecutionAcknowledged? {
        ParsedAckIsOk(codec, p, body);
      } else if IsProse(p.responseType) {
        ParsedProseIsOk(codec, p);
      }
    }
  }

  lemma ParsedRawIsCanonical(codec: Codec, p: ResponsePacket, body: string, raw: map<string, Json>)
    requires Lawful(codec) && Checked(codec, p) && OneLine(p)
    requires body == BodyText(BodyLines(Body(p))) && Marks(BodyLines(Body(p))) == 0
    requires RawFrom(codec, MappingOf(codec, p, body)) == Ok(raw) && ParseBody(raw) == Ok(p.(contentSha256 := None))
    ensures Canonical(p)
  {
    var m := MappingOf(codec, p, body);
    PayloadKeysOfChecked(codec, p);
    if p.responseType.ExecutionAcknowledged? { ParsedRunIsOurs(codec, p, body, raw); }
    EntriesAreConsistent(codec, p);
    EnvelopeIsRead(codec, p, body);
    ParsedHeadersAreOk(codec, p, m, raw);
    BodyParts(raw, p.(contentSha256 := None));
    RawReads(codec, m, raw);
    PayloadObjIsRead(raw, p.responseType, PayloadRead(m));
    ParsedFieldsAreOk(codec, p, body);
    ParsedBodyIsOk(codec, p, body);
  }

  lemma WhatComesBackIsCanonical(codec: Codec, p: ResponsePacket)
    requires Lawful(codec) && Checked(codec, p) && Parse(codec, Render(codec, p)) == Ok(p)
    ensures Canonical(p)
  {
    ParsedIsOneLine(codec, Render(codec, p), p);
    ParseOfRendered(codec, p);
    var body := BodyText(BodyLines(Body(p)));
    var raw := RawFrom(codec, MappingOf(codec, p, body)).value;
    PacketParts(codec, raw, p);
    ParsedRawIsCanonical(codec, p, body, raw);
  }

  /**
   Main result. Rendering a validated packet and parsing the Markdown gives back the same packet,
   fingerprint included, if and only if the packet is canonical.
   */
  lemma RoundTripIff(codec: Codec, raw: map<string, Json>, p: ResponsePacket)
    requires Lawful(codec) && ParsePacket(codec, raw) == Ok(p)
    ensures Parse(codec, Render(codec, p)) == Ok(p) <==> Canonical(p)
  {
    ValidIsChecked(codec, raw, p);
    if Canonical(p) {
      CanonicalComesBack(codec, p);
    }
    if Parse(codec, Render(codec, p)) == Ok(p) {
      WhatComesBackIsCanonical(codec, p);
    }
  }

  // ---------------------------------------------------------------- the broker's own packets

  /**
   The acknowledgement a refresh worker feeds back through the parser comes back unchanged, when
   the texts it carries fit on a line.
   */
  lemma BrokerAckComesBack(codec: Codec, raw: map<string, Json>, r: Broker.Record, claimed: Broker.Dispatch,
                           executor: string, digest: string, createdAt: string)
    requires Lawful(codec) && ParsePacket(codec, raw) == Ok(Outbox.AckPacket(r, claimed, executor, digest, createdAt))
    requires
      var p := Outbox.AckPacket(r, claimed, executor, digest, createdAt);
      && HeaderOk(p.workOrderId) && HeaderOk(p.inReplyTo) && HeaderOk(p.idempotencyKey) && HeaderOk(createdAt)
      && HeaderOk(executor) && HeaderOrAbsent(p.executorRunId)
    ensures
      var p := Outbox.AckPacket(r, claimed, executor, digest, createdAt);
      Parse(codec, Render(codec, p)) == Ok(p)
  {
    var p := Outbox.AckPacket(r, claimed, executor, digest, createdAt);
    AckIsCanonical(p, executor, p.executorRunId.value);
    RoundTripIff(codec, raw, p);
  }

  /** An acknowledgement of this shape is canonical exactly when its texts, the executor's name too, survive. */
  lemma AckCanonicalIff(p: ResponsePacket, executor: string, run: string)
    requires p.responseType.ExecutionAcknowledged? && p.executorRunId == Some(run)
    requires p.payload == [Field("executor", Str(executor)), Field("executor_run_id", Str(run))]
    ensures Canonical(p) <==> HeadersOk(p) && HeaderOk(executor)
  {
    if HeadersOk(p) && HeaderOk(executor) {
      AckIsCanonical(p, executor, run);
    }
    if Canonical(p) {
      ExecutorIsOrdinary();
      assert p.payload[0].key == "executor" && p.payload[0] in p.payload;
      assert PayloadFieldOk(p.payload[0]);
    }
  }

  lemma ExecutorIsOrdinary()
    ensures "executor" !in BODY_KEYS && !EndsWith("executor", "sha256")
  {
    var tail := "executor"[|"executor"| - |"sha256"|..];
    assert tail[0] == 'e' && "sha256"[0] == 's';
  }

  lemma AckIsCanonical(p: ResponsePacket, executor: string, run: string)
    requires p.responseType.ExecutionAcknowledged? && HeadersOk(p) && HeaderOk(executor) && HeaderOk(run)
    requires p.payload == [Field("executor", Str(executor)), Field("executor_run_id", Str(run))]
    requires p.executorRunId == Some(run)
    ensures Canonical(p)
  {
    assert p.payload[1..] == [Field("executor_run_id", Str(run))];
    assert p.payload[1..][1..] == [];
    assert Get(p.payload[1..], "executor_run_id") == Some(Str(run));
    assert Get(p.payload, "executor_run_id") == Some(Str(run));
    assert Get(p.payload[1..], "message").None?;
  }
}
