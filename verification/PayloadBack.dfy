/** A printed payload validates to itself, type by type, exactly when its fields and prose survive. */
module PayloadBack {
  import opened Wrappers
  import opened Packets
  import opened Validate
  import opened ValidationLaws
  import opened Markdown
  import opened FrontMatter
  import opened PayloadKeys
  import opened Envelope
  import opened ReadBack
  import opened Prose
  import opened BodyBack
  import opened SingleLine
  import opened Survival
  import opened EnvelopeBack
  import Text

  // ---------------------------------------------------------------- parsing the payload

  function PayloadRead(m: map<string, Json>): map<string, Json> {
    WithRun(m, PayloadMap(m))
  }

  lemma FieldEntryReads(codec: Codec, p: ResponsePacket, body: string, f: Field)
    requires SameTextPerKey(Entries(codec, p)) && f in p.payload && f.key !in BODY_KEYS
    ensures
      var m, text := MappingOf(codec, p, body), ValueText(f.key, f.value);
      Read(m, YamlKey(f.key)) == ReadText(text) && (YamlKey(f.key) in m <==> Kept(text))
  {
    PayloadEntriesAre(p.payload);
    YamlKeyIsNoBody(f.key);
    assert PayloadEntry(f) in Entries(codec, p);
    EntryReads(codec, p, body, PayloadEntry(f));
  }

  lemma RunAddsNoOther(m: map<string, Json>, key: string)
    requires key != "executor_run_id"
    ensures key in PayloadRead(m) <==> key in PayloadMap(m)
    ensures Read(PayloadRead(m), key) == Read(PayloadMap(m), key)
  {
  }

  lemma ValidatedIff(t: ResponseType, m: map<string, Json>, f: Field)
    requires IsPayloadKey(t, f.key) && FieldValue(RulesFor(t), f.key, f.value) == Ok(f.value)
    requires f.value.Str? ==> EndsWith(f.key, "sha256") || Text.BreakFree(f.value.s)
    requires Read(m, f.key) == ReadValue(f.key, ValueText(f.key, f.value)) && (f.key in m <==> Kept(ValueText(f.key, f.value)))
    ensures Validated(m, RulesFor(t), f) <==> PayloadFieldOk(f)
  {
    FieldReadsIff(t, f);
  }

  /** A payload field printed in the envelope comes back exactly when it is one that survives. */
  lemma EnvelopeFieldIff(codec: Codec, p: ResponsePacket, body: string, f: Field)
    requires Checked(codec, p) && OneLine(p) && SameTextPerKey(Entries(codec, p)) && !p.responseType.QuestionBlocked?
    requires f in p.payload && f.key !in BODY_KEYS && f.key != "executor_run_id"
    ensures Validated(PayloadRead(MappingOf(codec, p, body)), RulesFor(p.responseType), f) <==> PayloadFieldOk(f)
  {
    var m := MappingOf(codec, p, body);
    FieldIsFixed(codec, p, f);
    KeyFacts(p.responseType, f.key);
    FieldEntryReads(codec, p, body, f);
    PayloadMapReads(m, f.key, ValueText(f.key, f.value));
    RunAddsNoOther(m, f.key);
    assert f.value.Str? ==> EndsWith(f.key, "sha256") || OneLineText(f.value);
    ValidatedIff(p.responseType, PayloadRead(m), f);
  }

  lemma YamlKeyIsNoBody(key: string)
    requires key !in BODY_KEYS
    ensures YamlKey(key) !in BODY_KEYS
  {
    BodyKeysApart();
  }

  /** The run of an acknowledgement comes back when both places name it and it survives. */
  lemma RunFieldReads(codec: Codec, p: ResponsePacket, m: map<string, Json>, f: Field)
    requires Checked(codec, p) && p.responseType.ExecutionAcknowledged? && f in p.payload && f.key == "executor_run_id"
    requires Read(m, "response_type") == Str(TypeText(p.responseType))
    requires p.executorRunId.Some? && HeaderOk(p.executorRunId.value) && f.value == Str(p.executorRunId.value)
    requires Read(m, "executor_run_id") == ReadText(p.executorRunId.value)
    ensures Validated(PayloadRead(m), RulesFor(p.responseType), f)
  {
    FieldIsFixed(codec, p, f);
    HeaderReads(p.executorRunId.value);
    TopKeyNames();
    if "executor_run_id" in PayloadMap(m) {
      PayloadMapKeys(m, "executor_run_id");
    }
    assert PayloadRead(m)["executor_run_id"] == f.value;
  }

  /** The run in the payload of a parsed acknowledgement was taken from the envelope. */
  lemma RunComesFromEnvelope(m: map<string, Json>, fields: seq<Field>)
    requires ValidatePayload(ExecutionAcknowledged, PayloadRead(m)) == Ok(fields)
    ensures "executor_run_id" in m
    ensures forall f <- fields :: f.key == "executor_run_id" ==> m["executor_run_id"] == f.value
  {
    RulesAreWellFormed(ExecutionAcknowledged);
    ObjectIsSound(PayloadRead(m), RulesFor(ExecutionAcknowledged));
    assert HasKey(fields, "executor_run_id");
    TopKeyNames();
    RunIsNoDigest();
    if "executor_run_id" in PayloadMap(m) {
      PayloadMapKeys(m, "executor_run_id");
    }
    forall f <- fields | f.key == "executor_run_id" ensures m["executor_run_id"] == f.value {
      assert Validated(PayloadRead(m), RulesFor(ExecutionAcknowledged), f);
    }
  }

  lemma RunOfNames(raw: map<string, Json>, p: ResponsePacket)
    requires ParseNames(raw) == Ok(NamesOf(p))
    ensures Read(raw, "executor_run_id") == TextOrNull(p.executorRunId)
  {
  }

  lemma PayloadObjIsRead(raw: map<string, Json>, t: ResponseType, m: map<string, Json>)
    requires Read(raw, "payload") == Obj(m)
    ensures m.Keys !! FORBIDDEN_INLINE_KEYS ==> ParsePayload(raw, t) == ValidatePayload(t, m)
    ensures ParsePayload(raw, t).Ok? ==> ParsePayload(raw, t) == ValidatePayload(t, m)
  {
    assert Falsy(Obj(m)) ==> m == map[];
  }

  /** Any parsed acknowledgement names the same run in the envelope and in the payload. */
  lemma ParsedRunsAgree(codec: Codec, m: map<string, Json>, raw: map<string, Json>, p: ResponsePacket)
    requires RawFrom(codec, m) == Ok(raw) && ParseBody(raw) == Ok(p) && p.responseType.ExecutionAcknowledged?
    requires forall k <- m.Keys :: k in TOP_KEYS ==> m[k].Str?
    ensures p.executorRunId.Some?
    ensures forall f <- p.payload :: f.key == "executor_run_id" ==> f.value == Str(p.executorRunId.value)
  {
    RawReads(codec, m, raw);
    BodyParts(raw, p);
    TopKeyNames();
    PayloadObjIsRead(raw, p.responseType, PayloadRead(m));
    RunComesFromEnvelope(m, p.payload);
    RunOfNames(raw, p);
  }

  lemma RunIsNoDigest()
    ensures !EndsWith("executor_run_id", "sha256")
  {
    KeyFacts(ExecutionAcknowledged, "executor_run_id");
  }

  /** Reading all fields back one by one is reading the object back. */
  lemma ObjectComesBackIff(codec: Codec, p: ResponsePacket, m: map<string, Json>)
    requires Checked(codec, p) && !p.responseType.QuestionBlocked?
    requires forall k <- m.Keys :: HasKey(p.payload, k)
    ensures
      ValidatePayload(p.responseType, m) == Ok(p.payload) <==>
      forall f <- p.payload :: Validated(m, RulesFor(p.responseType), f)
  {
    var rules := RulesFor(p.responseType);
    RulesAreWellFormed(p.responseType);
    assert Object(MapOf(p.payload), rules) == Ok(p.payload);
    if forall f <- p.payload :: Validated(m, rules, f) {
      ObjectAgrees(MapOf(p.payload), m, rules);
    }
    if ValidatePayload(p.responseType, m) == Ok(p.payload) {
      ObjectIsSound(m, rules);
    }
  }

  // ---------------------------------------------------------------- the mapping the body is assigned to

  function Base(codec: Codec, p: ResponsePacket): map<string, Json> {
    Texts(Gather(map[], Entries(codec, p)))
  }

  lemma {:induction false} GetIsMembership(fields: seq<Field>, key: string)
    ensures Get(fields, key).Some? ==> Field(key, Get(fields, key).value) in fields
    ensures Get(fields, key).None? ==> !HasKey(fields, key)
  {
    if fields != [] {
      GetIsMembership(fields[1..], key);
    }
  }

  lemma GetOfField(p: ResponsePacket, f: Field)
    requires PayloadKeysOk(p) && f in p.payload
    ensures Get(p.payload, f.key) == Some(f.value)
  {
    GetIsMembership(p.payload, f.key);
    assert HasKey(p.payload, f.key);
  }

  lemma EntryKeys(codec: Codec, p: ResponsePacket, key: string)
    requires PayloadKeysOk(p) && KeyIn(Entries(codec, p), key)
    ensures key in TOP_KEYS || exists f <- p.payload :: f.key !in BODY_KEYS && YamlKey(f.key) == key
  {
    var e :| e in Entries(codec, p) && e.key == key;
    EnvelopeTexts(codec, p);
    if e in PayloadEntries(p.payload) {
      var f := PayloadFieldOf(p, e);
    }
  }

  lemma BaseHasNoBody(codec: Codec, p: ResponsePacket, key: string)
    requires PayloadKeysOk(p) && RunAgrees(p) && key in BODY_KEYS
    ensures key !in Base(codec, p)
  {
    EntriesAreConsistent(codec, p);
    GatherReads(map[], Entries(codec, p));
    BodyKeysApart();
    if KeyIn(Entries(codec, p), key) {
      EntryKeys(codec, p, key);
    }
  }

  predicate HeadingKey(key: string) {
    key == "title" || key == "outcome"
  }

  lemma HeadingKeysAreOrdinary(key: string)
    requires HeadingKey(key)
    ensures key !in TOP_KEYS && key !in BODY_KEYS && YamlKey(key) == key && !EndsWith(key, "sha256")
    ensures !Text.Contains(key, "sha256") && key != "body_sha256"
  {
    ShortWords();
    LongWords();
    NotTop();
    NotTopEither();
    WordIsPlain(key);
    NoTwoNoDigest(key);
  }

  lemma HeadingFieldIsText(codec: Codec, p: ResponsePacket, f: Field)
    requires Checked(codec, p) && !p.responseType.QuestionBlocked? && f in p.payload && HeadingKey(f.key)
    ensures f.value.Str? && f.value.s != ""
  {
    FieldIsFixed(codec, p, f);
    HeadingKeysAreOrdinary(f.key);
  }

  lemma BaseReadsHeader(codec: Codec, p: ResponsePacket, e: Entry)
    requires SameTextPerKey(Entries(codec, p)) && e in Entries(codec, p) && HeaderOk(e.text)
    ensures StringAt(Base(codec, p), e.key) == e.text
  {
    GatherReads(map[], Entries(codec, p));
    assert AgreesWith(Gather(map[], Entries(codec, p)), e);
  }

  lemma PresentHeadingReads(codec: Codec, p: ResponsePacket, f: Field)
    requires SameTextPerKey(Entries(codec, p)) && FieldsOk(p)
    requires f in p.payload && HeadingKey(f.key) && f.value.Str?
    ensures StringAt(Base(codec, p), f.key) == f.value.s && Text.BreakFree(f.value.s)
  {
    HeadingKeysAreOrdinary(f.key);
    PayloadEntriesAre(p.payload);
    assert PayloadEntry(f) == Entry(f.key, f.value.s);
    assert PayloadFieldOk(f);
    BaseReadsHeader(codec, p, PayloadEntry(f));
  }

  ghost predicate HeadingsAreText(p: ResponsePacket) {
    forall f <- p.payload :: HeadingKey(f.key) ==> f.value.Str? && f.value.s != ""
  }

  lemma HeadingTextReads(codec: Codec, p: ResponsePacket, key: string)
    requires PayloadKeysOk(p) && SameTextPerKey(Entries(codec, p)) && FieldsOk(p) && HeadingKey(key)
    requires HeadingsAreText(p)
    ensures StringAt(Base(codec, p), key) == FieldText(p, key) && Text.BreakFree(FieldText(p, key))
  {
    GetIsMembership(p.payload, key);
    if Get(p.payload, key).Some? {
      var f := Field(key, Get(p.payload, key).value);
      assert f in p.payload;
      PresentHeadingReads(codec, p, f);
    } else {
      AbsentHeadingReads(codec, p, key);
    }
  }

  lemma AbsentHeadingReads(codec: Codec, p: ResponsePacket, key: string)
    requires PayloadKeysOk(p) && SameTextPerKey(Entries(codec, p)) && HeadingKey(key) && !HasKey(p.payload, key)
    ensures key !in Base(codec, p)
  {
    HeadingKeysAreOrdinary(key);
    GatherReads(map[], Entries(codec, p));
    if KeyIn(Entries(codec, p), key) {
      EntryKeys(codec, p, key);
      var f :| f in p.payload && f.key !in BODY_KEYS && YamlKey(f.key) == key;
      KeyFacts(p.responseType, f.key);
    }
  }

  lemma TypeReads(codec: Codec, p: ResponsePacket)
    requires SameTextPerKey(Entries(codec, p))
    ensures StringAt(Base(codec, p), "response_type") == TypeText(p.responseType)
  {
    EnvelopeHas(codec, p);
    ConstantsAreHeaders(p.responseType);
    BaseReadsHeader(codec, p, Entry("response_type", TypeText(p.responseType)));
  }

  lemma TitleOnlyInPlans(p: ResponsePacket)
    requires PayloadKeysOk(p) && !p.responseType.PlanCompleted?
    ensures FieldText(p, "title") == ""
  {
    GetIsMembership(p.payload, "title");
    if Get(p.payload, "title").Some? {
      TitleIsPlanKey(p.responseType);
    }
  }

  lemma TitleIsPlanKey(t: ResponseType)
    ensures IsPayloadKey(t, "title") ==> t.PlanCompleted?
  {
  }

  lemma OutcomeOfReview(codec: Codec, p: ResponsePacket)
    requires Checked(codec, p) && p.responseType.ReviewCompleted?
    ensures FieldText(p, "outcome") != ""
  {
    RulesAreWellFormed(p.responseType);
    ObjectIsSound(MapOf(p.payload), RulesFor(p.responseType));
    assert HasKey(p.payload, "outcome");
    GetIsMembership(p.payload, "outcome");
    HeadingFieldIsText(codec, p, Field("outcome", Get(p.payload, "outcome").value));
  }

  lemma BaseDescribes(codec: Codec, p: ResponsePacket)
    requires Checked(codec, p) && OneLine(p) && RunAgrees(p) && FieldsOk(p) && !p.responseType.QuestionBlocked?
    ensures Describes(Base(codec, p), p)
  {
    PayloadKeysOfChecked(codec, p);
    EntriesAreConsistent(codec, p);
    TypeReads(codec, p);
    forall f <- p.payload | HeadingKey(f.key) ensures f.value.Str? && f.value.s != "" {
      HeadingFieldIsText(codec, p, f);
    }
    HeadingTextReads(codec, p, "title");
    HeadingTextReads(codec, p, "outcome");
    if !p.responseType.PlanCompleted? { TitleOnlyInPlans(p); }
    if p.responseType.ReviewCompleted? { OutcomeOfReview(codec, p); }
    forall k <- BODY_KEYS ensures k !in Base(codec, p) { BaseHasNoBody(codec, p, k); }
  }

  // ---------------------------------------------------------------- the payload object

  lemma RequiredIsPresent(codec: Codec, p: ResponsePacket, key: string)
    requires Checked(codec, p) && !p.responseType.QuestionBlocked? && key in RulesFor(p.responseType).required
    ensures HasKey(p.payload, key)
  {
    RulesAreWellFormed(p.responseType);
    ObjectIsSound(MapOf(p.payload), RulesFor(p.responseType));
  }

  lemma MappingKeys(codec: Codec, p: ResponsePacket, body: string, key: string)
    requires Describes(Base(codec, p), p) && !p.responseType.QuestionBlocked?
    requires key in MappingOf(codec, p, body) && key !in Base(codec, p)
    ensures IsProse(p.responseType) && key == ProseKey(p.responseType)
  {
    if IsProse(p.responseType) {
      if body != "" { AssignsProse(Base(codec, p), p, body); }
    } else {
      AssignsNothing(Base(codec, p), p, body);
    }
  }

  lemma BaseKeyIsField(codec: Codec, p: ResponsePacket, key: string)
    requires PayloadKeysOk(p) && SameTextPerKey(Entries(codec, p))
    requires YamlKey(key) in Base(codec, p) && YamlKey(key) !in TOP_KEYS && key != "body_sha256"
    ensures HasKey(p.payload, key)
  {
    GatherReads(map[], Entries(codec, p));
    EntryKeys(codec, p, YamlKey(key));
    var f :| f in p.payload && YamlKey(f.key) == YamlKey(key);
    KeyFacts(p.responseType, f.key);
    assert f.key == key;
  }

  lemma ProseKeyIsRequired(t: ResponseType)
    requires IsProse(t)
    ensures ProseKey(t) in RulesFor(t).required && ProseKey(t) in BODY_KEYS && ProseKey(t) !in TOP_KEYS
    ensures YamlKey(ProseKey(t)) == ProseKey(t) && !IsNumber(ProseKey(t)) && ProseKey(t) != "body_sha256"
    ensures ProseKey(t) != "executor_run_id"
  {
    BodyKeysApart();
  }

  lemma PayloadReadKeys(codec: Codec, p: ResponsePacket, body: string, key: string)
    requires Checked(codec, p) && SameTextPerKey(Entries(codec, p)) && Describes(Base(codec, p), p)
    requires !p.responseType.QuestionBlocked? && key in PayloadRead(MappingOf(codec, p, body))
    ensures HasKey(p.payload, key)
  {
    var m := MappingOf(codec, p, body);
    PayloadKeysOfChecked(codec, p);
    if key in PayloadMap(m) {
      PayloadMapKeys(m, key);
      if YamlKey(key) in Base(codec, p) {
        BaseKeyIsField(codec, p, key);
      } else {
        MappingKeys(codec, p, body, YamlKey(key));
        ProseKeyIsRequired(p.responseType);
        BodyKeysApart();
        RequiredIsPresent(codec, p, key);
      }
    } else {
      AckTypeRead(codec, p, body);
      RequiredIsPresent(codec, p, "executor_run_id");
    }
  }

  lemma AckTypeRead(codec: Codec, p: ResponsePacket, body: string)
    requires Describes(Base(codec, p), p)
    requires StringAt(MappingOf(codec, p, body), "response_type") == "execution.acknowledged"
    ensures p.responseType.ExecutionAcknowledged?
  {
    AssignBodyKeeps(Base(codec, p), body);
    assert "response_type" in Base(codec, p);
    TypeTextsDiffer(p.responseType, ExecutionAcknowledged);
  }

  lemma ProseFieldReads(codec: Codec, p: ResponsePacket, body: string)
    requires Describes(Base(codec, p), p) && IsProse(p.responseType)
    ensures
      var read, key := PayloadRead(MappingOf(codec, p, body)), ProseKey(p.responseType);
      (key in read <==> body != "") && (body != "" ==> read[key] == Str(Assigned(p, body)))
  {
    var m, key := MappingOf(codec, p, body), ProseKey(p.responseType);
    ProseKeyIsRequired(p.responseType);
    RunAddsNoOther(m, key);
    PlainKeyReads(m, key);
    ProseKeyOfMapping(codec, p, body);
  }

  lemma PlainKeyReads(m: map<string, Json>, key: string)
    requires key !in TOP_KEYS && YamlKey(key) == key && key != "body_sha256" && !IsNumber(key)
    ensures key in PayloadMap(m) <==> key in m
    ensures key in m ==> PayloadMap(m)[key] == m[key]
  {
  }

  lemma ProseKeyOfMapping(codec: Codec, p: ResponsePacket, body: string)
    requires Describes(Base(codec, p), p) && IsProse(p.responseType)
    ensures
      var m, key := MappingOf(codec, p, body), ProseKey(p.responseType);
      (key in m <==> body != "") && (body != "" ==> m[key] == Str(Assigned(p, body)))
  {
    ProseKeyIsRequired(p.responseType);
    if body == "" {
      assert MappingOf(codec, p, body) == Base(codec, p);
    } else {
      AssignsProse(Base(codec, p), p, body);
    }
  }

  lemma ProseTextOfField(codec: Codec, p: ResponsePacket, f: Field)
    requires Checked(codec, p) && IsProse(p.responseType) && f in p.payload && f.key == ProseKey(p.responseType)
    ensures FieldValue(RulesFor(p.responseType), f.key, f.value) == Ok(f.value)
    ensures f.value == Str(ProseText(p)) && ProseText(p) != ""
  {
    PayloadKeysOfChecked(codec, p);
    FieldIsFixed(codec, p, f);
    GetOfField(p, f);
    ProseIsText(p.responseType, f);
  }

  /** The field printed as prose comes back exactly when the assigned text is its own. */
  lemma ProseFieldIff(codec: Codec, p: ResponsePacket, body: string, f: Field)
    requires Checked(codec, p) && Describes(Base(codec, p), p) && IsProse(p.responseType)
    requires f in p.payload && f.key == ProseKey(p.responseType)
    ensures
      Validated(PayloadRead(MappingOf(codec, p, body)), RulesFor(p.responseType), f) <==>
      (body != "" && Assigned(p, body) == ProseText(p))
  {
    ProseFieldReads(codec, p, body);
    ProseTextOfField(codec, p, f);
    ProseIsText(p.responseType, f);
  }

  lemma ProseIsText(t: ResponseType, f: Field)
    requires IsProse(t) && f.key == ProseKey(t) && FieldValue(RulesFor(t), f.key, f.value) == Ok(f.value)
    ensures f.value.Str? && f.value.s != ""
    ensures forall v: Json :: FieldValue(RulesFor(t), f.key, v) == Ok(f.value) ==> v == f.value
  {
    KeyFacts(t, f.key);
  }

  // ---------------------------------------------------------------- payloads, type by type

  /** The keys of a payload that are printed as prose or not at all. */
  lemma BodyKeysOfType(t: ResponseType, key: string)
    requires IsPayloadKey(t, key) && key in BODY_KEYS
    ensures
      || (IsProse(t) && key == ProseKey(t))
      || (t.ExecutionAcknowledged? && key == "message")
      || (t.QuestionBlocked? && key == "questions")
  {
  }

  lemma FieldsComeBack(codec: Codec, p: ResponsePacket, body: string)
    requires Checked(codec, p) && OneLine(p) && SameTextPerKey(Entries(codec, p)) && !p.responseType.QuestionBlocked?
    requires p.responseType.ExecutionAcknowledged? ==>
               p.executorRunId.Some? && HeaderOk(p.executorRunId.value)
               && forall f <- p.payload :: f.key == "executor_run_id" ==> f.value == Str(p.executorRunId.value)
    requires forall f <- p.payload :: Validated(PayloadRead(MappingOf(codec, p, body)), RulesFor(p.responseType), f)
    ensures FieldsOk(p)
  {
    forall f <- p.payload | f.key !in BODY_KEYS ensures PayloadFieldOk(f) {
      if f.key == "executor_run_id" {
        FieldIsFixed(codec, p, f);
        KindsOfKey(p.responseType, f.key);
        TopKeyNames();
        RunIsNoDigest();
      } else {
        EnvelopeFieldIff(codec, p, body, f);
      }
    }
  }

  /** For a type with a prose field: what is read back is the payload exactly when the prose is clean. */
  lemma ProsePayloadIff(codec: Codec, p: ResponsePacket)
    requires Checked(codec, p) && OneLine(p) && SameTextPerKey(Entries(codec, p)) && IsProse(p.responseType)
    requires FieldsOk(p) && Describes(Base(codec, p), p)
    ensures
      var m := MappingOf(codec, p, BodyText(BodyLines(Body(p))));
      ValidatePayload(p.responseType, PayloadRead(m)) == Ok(p.payload) <==> ProseClean(ProseText(p), HeadingOf(p) != "")
  {
    var body := BodyText(BodyLines(Body(p)));
    var m := MappingOf(codec, p, body);
    forall k <- PayloadRead(m).Keys ensures HasKey(p.payload, k) { PayloadReadKeys(codec, p, body, k); }
    ObjectComesBackIff(codec, p, PayloadRead(m));
    ProseKeyIsRequired(p.responseType);
    RequiredIsPresent(codec, p, ProseKey(p.responseType));
    var prose :| prose in p.payload && prose.key == ProseKey(p.responseType);
    ProseFieldIff(codec, p, body, prose);
    ProseTextOfField(codec, p, prose);
    ProseIff(p);
    PayloadKeysOfChecked(codec, p);
    forall f <- p.payload | f != prose ensures Validated(PayloadRead(m), RulesFor(p.responseType), f) {
      if f.key == prose.key { SameKeySameField(p, f, prose); }
      NonProseField(codec, p, body, f);
    }
  }

  lemma NonProseField(codec: Codec, p: ResponsePacket, body: string, f: Field)
    requires Checked(codec, p) && OneLine(p) && SameTextPerKey(Entries(codec, p)) && IsProse(p.responseType)
    requires FieldsOk(p) && f in p.payload && f.key != ProseKey(p.responseType)
    ensures Validated(PayloadRead(MappingOf(codec, p, body)), RulesFor(p.responseType), f)
  {
    PrintedField(codec, p, f);
    EnvelopeFieldIff(codec, p, body, f);
  }

  lemma PrintedField(codec: Codec, p: ResponsePacket, f: Field)
    requires Checked(codec, p) && IsProse(p.responseType) && f in p.payload && f.key != ProseKey(p.responseType)
    ensures !p.responseType.QuestionBlocked? && f.key !in BODY_KEYS && f.key != "executor_run_id"
  {
    FieldIsFixed(codec, p, f);
    OtherKeyIsPrinted(p.responseType, f.key);
  }

  lemma SameKeySameField(p: ResponsePacket, f: Field, g: Field)
    requires PayloadKeysOk(p) && f in p.payload && g in p.payload && f.key == g.key
    ensures f == g
  {
  }

  lemma OtherKeyIsPrinted(t: ResponseType, key: string)
    requires IsPayloadKey(t, key) && IsProse(t)
    ensures key != ProseKey(t) ==> key !in BODY_KEYS && key != "executor_run_id"
  {
    if key in BODY_KEYS { BodyKeysOfType(t, key); }
    RunIsAckKey(t);
  }

  lemma RunIsAckKey(t: ResponseType)
    ensures IsPayloadKey(t, "executor_run_id") ==> t.ExecutionAcknowledged?
  {
    if IsPayloadKey(t, "executor_run_id") {
      TopKeyNames();
      KeyFacts(t, "executor_run_id");
    }
  }

  lemma ReceiptPayloadComesBack(codec: Codec, p: ResponsePacket, body: string)
    requires Checked(codec, p) && OneLine(p) && SameTextPerKey(Entries(codec, p)) && p.responseType.ReceiptAccepted?
    requires FieldsOk(p) && Describes(Base(codec, p), p)
    ensures ValidatePayload(p.responseType, PayloadRead(MappingOf(codec, p, body))) == Ok(p.payload)
  {
    var m := MappingOf(codec, p, body);
    forall k <- PayloadRead(m).Keys ensures HasKey(p.payload, k) { PayloadReadKeys(codec, p, body, k); }
    ObjectComesBackIff(codec, p, PayloadRead(m));
    forall f <- p.payload ensures Validated(PayloadRead(m), RulesFor(p.responseType), f) {
      FieldIsFixed(codec, p, f);
      if f.key in BODY_KEYS { BodyKeysOfType(p.responseType, f.key); }
      RunIsAckKey(p.responseType);
      EnvelopeFieldIff(codec, p, body, f);
    }
  }

  lemma AckFieldComesBack(codec: Codec, p: ResponsePacket, body: string, f: Field)
    requires Checked(codec, p) && OneLine(p) && SameTextPerKey(Entries(codec, p)) && p.responseType.ExecutionAcknowledged?
    requires FieldsOk(p) && f in p.payload && f.key !in BODY_KEYS
    requires p.executorRunId.Some? && HeaderOk(p.executorRunId.value)
    requires f.key == "executor_run_id" ==> f.value == Str(p.executorRunId.value)
    requires EnvelopeReads(codec, MappingOf(codec, p, body), p)
    ensures Validated(PayloadRead(MappingOf(codec, p, body)), RulesFor(p.responseType), f)
  {
    if f.key == "executor_run_id" {
      ConstantsAreHeaders(p.responseType);
      HeaderReads(TypeText(p.responseType));
      RunFieldReads(codec, p, MappingOf(codec, p, body), f);
    } else {
      EnvelopeFieldIff(codec, p, body, f);
    }
  }

  lemma AckPayloadIff(codec: Codec, p: ResponsePacket, body: string)
    requires Checked(codec, p) && OneLine(p) && SameTextPerKey(Entries(codec, p)) && p.responseType.ExecutionAcknowledged?
    requires FieldsOk(p) && Describes(Base(codec, p), p) && EnvelopeReads(codec, MappingOf(codec, p, body), p)
    requires p.executorRunId.Some? && HeaderOk(p.executorRunId.value)
    requires forall f <- p.payload :: f.key == "executor_run_id" ==> f.value == Str(p.executorRunId.value)
    ensures
      ValidatePayload(p.responseType, PayloadRead(MappingOf(codec, p, body))) == Ok(p.payload) <==>
      Get(p.payload, "message").None?
  {
    var m := MappingOf(codec, p, body);
    forall k <- PayloadRead(m).Keys ensures HasKey(p.payload, k) { PayloadReadKeys(codec, p, body, k); }
    ObjectComesBackIff(codec, p, PayloadRead(m));
    GetIsMembership(p.payload, "message");
    MessageIsNotRead(codec, p, body);
    forall f <- p.payload | f.key != "message" ensures Validated(PayloadRead(m), RulesFor(p.responseType), f) {
      FieldIsFixed(codec, p, f);
      if f.key in BODY_KEYS { BodyKeysOfType(p.responseType, f.key); }
      AckFieldComesBack(codec, p, body, f);
    }
  }

  lemma MessageIsNotRead(codec: Codec, p: ResponsePacket, body: string)
    requires p.responseType.ExecutionAcknowledged? && Describes(Base(codec, p), p)
    ensures "message" !in PayloadRead(MappingOf(codec, p, body))
  {
    AssignsNothing(Base(codec, p), p, body);
    if "message" in PayloadMap(MappingOf(codec, p, body)) {
      PayloadMapKeys(MappingOf(codec, p, body), "message");
    }
    assert "message" in BODY_KEYS;
  }

  // ---------------------------------------------------------------- questions

  /** A question as it is read: an id and a text, nothing else. */
  predicate IdAndText(q: Json) {
    q.Obj? && q.fields.Keys == {"id", "text"} && q.fields["id"].Str? && q.fields["text"].Str?
  }

  lemma CleanQuestionIsSame(q: Json)
    requires IdAndText(q) && Object(q.fields, QUESTION_RULES).Ok?
    ensures Obj(MapOf(Object(q.fields, QUESTION_RULES).value)) == q
    ensures q.fields["id"].s != "" && q.fields["text"].s != ""
  {
    RulesAreWellFormed(QuestionBlocked);
    ObjectIsSound(q.fields, QUESTION_RULES);
    var fields := Object(q.fields, QUESTION_RULES).value;
    MapOfFields(fields);
    assert HasKey(fields, "id") && HasKey(fields, "text");
    NotDigestKeys();
    QuestionFieldIsSame(q.fields, "id");
    QuestionFieldIsSame(q.fields, "text");
    assert MapOf(fields) == q.fields;
  }

  lemma NotDigestKeys()
    ensures !EndsWith("id", "sha256") && !EndsWith("text", "sha256")
  {
  }

  lemma QuestionFieldIsSame(m: map<string, Json>, key: string)
    requires key == "id" || key == "text"
    requires key in m && FieldValue(QUESTION_RULES, key, m[key]).Ok?
    ensures FieldValue(QUESTION_RULES, key, m[key]).value == m[key]
    ensures m[key].Str? ==> m[key].s != ""
  {
    NotDigestKeys();
  }

  lemma {:induction false} CleanQuestionsAreSame(items: seq<Json>)
    requires (forall q <- items :: IdAndText(q)) && CleanQuestions(items).Ok?
    ensures CleanQuestions(items).value == items
    ensures forall q <- items :: IdAndText(q) && q.fields["id"].s != "" && q.fields["text"].s != ""
  {
    if items != [] {
      CleanQuestionIsSame(items[0]);
      CleanQuestionsAreSame(items[1..]);
      assert items == [items[0]] + items[1..];
    }
  }

  /** The questions handed to the validator: those of the body, or nothing. */
  function QuestionsRead(body: string): Json {
    if body == "" || QuestionsFromBody(body) == [] then Null else List(QuestionsFromBody(body))
  }

  /** The envelope of a question: its type, and no payload key. */
  predicate QuestionEnvelope(base: map<string, Json>) {
    StringAt(base, "response_type") == "question.blocked" && base.Keys <= TOP_KEYS
  }

  lemma EntriesOfQuestions(codec: Codec, p: ResponsePacket)
    requires Checked(codec, p) && p.responseType.QuestionBlocked?
    ensures forall e <- Entries(codec, p) :: e.key in TOP_KEYS
  {
    QuestionPayload(p);
    EnvelopeTexts(codec, p);
  }

  lemma EnvelopeOfQuestions(codec: Codec, p: ResponsePacket)
    requires p.responseType.QuestionBlocked? && SameTextPerKey(Entries(codec, p))
    requires forall e <- Entries(codec, p) :: e.key in TOP_KEYS
    ensures QuestionEnvelope(Base(codec, p))
  {
    TypeReads(codec, p);
    OnlyEntryKeys(map[], Entries(codec, p));
  }

  lemma BaseOfQuestions(codec: Codec, p: ResponsePacket)
    requires Checked(codec, p) && p.responseType.QuestionBlocked? && SameTextPerKey(Entries(codec, p))
    ensures QuestionEnvelope(Base(codec, p))
  {
    EntriesOfQuestions(codec, p);
    EnvelopeOfQuestions(codec, p);
  }

  lemma QuestionsAreAlone(base: map<string, Json>, body: string, key: string)
    requires QuestionEnvelope(base) && key in PayloadRead(AssignBody(base, body))
    ensures key == "questions"
  {
    var m := AssignBody(base, body);
    NotTop();
    AssignsQuestions(base, body);
    AssignBodyKeeps(base, body);
    assert StringAt(m, "response_type") != "execution.acknowledged";
    PayloadMapKeys(m, key);
  }

  lemma QuestionsAreRead(base: map<string, Json>, body: string)
    requires QuestionEnvelope(base)
    ensures Read(PayloadRead(AssignBody(base, body)), "questions") == QuestionsRead(body)
  {
    var m := AssignBody(base, body);
    NotTop();
    AssignsQuestions(base, body);
    PlainKeyReads(m, "questions");
    RunAddsNoOther(m, "questions");
  }

  lemma {:induction false} OnlyEntryKeys(m: map<string, string>, entries: seq<Entry>)
    requires m.Keys <= TOP_KEYS && forall e <- entries :: e.key in TOP_KEYS
    ensures Gather(m, entries).Keys <= TOP_KEYS
    decreases entries
  {
    if entries != [] {
      var e := entries[0];
      OnlyEntryKeys(if Kept(e.text) then m[e.key := CleanValue(e.text)] else m, entries[1..]);
    }
  }

  lemma AssignsQuestions(base: map<string, Json>, body: string)
    requires QuestionEnvelope(base)
    ensures
      AssignBody(base, body) ==
      if body == "" || QuestionsFromBody(body) == [] then base else base["questions" := List(QuestionsFromBody(body))]
  {
    NotTop();
    assert "questions" !in base && "title" !in base;
  }

  lemma ValidatesQuestions(m: map<string, Json>, items: seq<Json>)
    requires Read(m, "questions") == List(items) && items != [] && |items| <= MAX_COLLECTION
    requires CleanQuestions(items) == Ok(items)
    ensures ValidatePayload(QuestionBlocked, m) == Ok([Field("questions", List(items))])
  {
  }

  lemma QuestionsSurvive(codec: Codec, p: ResponsePacket)
    requires Checked(codec, p) && p.responseType.QuestionBlocked? && SameTextPerKey(Entries(codec, p))
    requires forall q <- Questions(p) :: QuestionOk(q)
    ensures
      var m := MappingOf(codec, p, BodyText(BodyLines(Body(p))));
      ValidatePayload(p.responseType, PayloadRead(m)) == Ok(p.payload)
    ensures Marks(BodyLines(Body(p))) == 0
  {
    QuestionPayload(p);
    QuestionsComeBack(Questions(p));
    BaseOfQuestions(codec, p);
    QuestionsAreRead(Base(codec, p), QuestionsBody(Questions(p)));
    ValidatesQuestions(PayloadRead(AssignBody(Base(codec, p), QuestionsBody(Questions(p)))), Questions(p));
    QuestionShape(codec, p);
  }

  lemma QuestionShape(codec: Codec, p: ResponsePacket)
    requires Checked(codec, p) && p.responseType.QuestionBlocked?
    ensures p.payload == [Field("questions", List(Questions(p)))] && Body(p) == QuestionsBody(Questions(p))
  {
    QuestionPayload(p);
  }

  lemma ValidatedQuestionsAreOk(m: map<string, Json>, body: string, items: seq<Json>)
    requires Read(m, "questions") == QuestionsRead(body)
    requires ValidatePayload(QuestionBlocked, m) == Ok([Field("questions", List(items))])
    ensures forall q <- items :: QuestionOk(q)
  {
    ReadQuestionsAreOk(Text.SplitLines(Text.RemovePrefix(body, QUESTIONS_HEADING)));
    CleanQuestionsAreSame(QuestionsFromBody(body));
  }

  lemma ReadQuestionsSurvive(codec: Codec, p: ResponsePacket, body: string)
    requires Checked(codec, p) && p.responseType.QuestionBlocked? && SameTextPerKey(Entries(codec, p))
    requires ValidatePayload(p.responseType, PayloadRead(MappingOf(codec, p, body))) == Ok(p.payload)
    ensures forall q <- Questions(p) :: QuestionOk(q)
  {
    QuestionShape(codec, p);
    BaseOfQuestions(codec, p);
    QuestionsAreRead(Base(codec, p), body);
    ValidatedQuestionsAreOk(PayloadRead(MappingOf(codec, p, body)), body, Questions(p));
  }
}
