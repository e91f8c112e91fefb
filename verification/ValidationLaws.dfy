/** What validation keeps: a validated packet is a fixed point, and nothing else comes out. */
module ValidationLaws {
  import opened Wrappers
  import opened Packets
  import opened Validate
  import Text

  // ---------------------------------------------------------------- fields

  /** Field keys are written once, and the required ones are all checked values. */
  ghost predicate WellFormed(rules: Rules) {
    && (forall i, j :: 0 <= i < j < |rules.required| ==> rules.required[i] != rules.required[j])
    && (forall i, j :: 0 <= i < j < |rules.optional| ==> rules.optional[i] != rules.optional[j])
    && (forall k <- rules.required :: k !in rules.optional && k != "percent")
  }

  lemma CompletionRulesAreWellFormed()
    ensures WellFormed(RulesFor(ExecutionCompleted))
  {
    var o := RulesFor(ExecutionCompleted).optional;
    CompletionKeyLengths();
    assert o[1] != o[4] && o[3] != o[7];
    assert forall k <- o :: |k| != 7;
  }

  lemma CompletionKeyLengths()
    ensures
      var o := RulesFor(ExecutionCompleted).optional;
      && |o| == 8 && |o[0]| == 14 && |o[1]| == 10 && |o[2]| == 6 && |o[3]| == 8
      && |o[4]| == 10 && |o[5]| == 16 && |o[6]| == 11 && |o[7]| == 8
      && o[1][0] == 'r' && o[4][0] == 'c' && o[3][1] == 'a' && o[7][1] == 'l'
  {
  }

  lemma ReceiptRulesAreWellFormed()
    ensures WellFormed(RulesFor(ReceiptAccepted))
  {
    var r, o := RulesFor(ReceiptAccepted).required, RulesFor(ReceiptAccepted).optional;
    assert |r[0]| == 12 && |r[1]| == 6 && |r[2]| == 14;
    assert |o[0]| == 15 && |o[1]| == 13 && |o[2]| == 9;
  }

  lemma RulesAreWellFormed(t: ResponseType)
    ensures WellFormed(RulesFor(t)) && WellFormed(QUESTION_RULES)
  {
    match t
    case ExecutionCompleted => CompletionRulesAreWellFormed();
    case ReceiptAccepted => ReceiptRulesAreWellFormed();
    case _ =>
  }

  lemma DigestIsStable(v: Json)
    requires Digest(v).Ok?
    ensures Digest(Str(Digest(v).value)) == Digest(v)
    ensures Digest(Str("sha256:" + Digest(v).value)) == Digest(v)
  {
    var text, d := v.s, Digest(v).value;
    if "sha256:" <= text {
      Text.Utf8OfSuffix(text, |"sha256:"|);
    }
    assert d[0] != 's';
    assert !("sha256:" <= d);
    assert ("sha256:" + d)[|"sha256:"|..] == d;
    Utf8OfHex("sha256:", d);
  }

  lemma {:induction false} Utf8OfAscii(s: string)
    requires forall i :: 0 <= i < |s| ==> s[i] < '\U{80}'
    ensures Text.Utf8Length(s) == |s|
  {
    if s != "" {
      Utf8OfAscii(s[1..]);
    }
  }

  lemma Utf8OfHex(prefix: string, d: string)
    requires IsDigest(d) && prefix == "sha256:"
    ensures Text.Utf8Length(prefix + d) <= MAX_STRING_BYTES
  {
    Utf8OfAscii(prefix + d);
  }

  lemma FieldValueIsStable(rules: Rules, key: string, v: Json)
    requires WellFormed(rules) && (key in rules.required || key in rules.optional)
    requires FieldValue(rules, key, v).Ok?
    ensures FieldValue(rules, key, FieldValue(rules, key, v).value) == FieldValue(rules, key, v)
    ensures !v.Null? && !FieldValue(rules, key, v).value.Null?
  {
    if EndsWith(key, "sha256") {
      DigestIsStable(v);
    }
  }

  // ---------------------------------------------------------------- objects

  /** The keys of a field list are some of `keys`, in their order and without repetition. */
  ghost predicate KeysFrom(fields: seq<Field>, keys: seq<string>) {
    && (forall f <- fields :: f.key in keys)
    && (forall i, j :: 0 <= i < j < |fields| ==> fields[i].key != fields[j].key)
  }

  ghost predicate HasKey(fields: seq<Field>, key: string) {
    exists f <- fields :: f.key == key
  }

  ghost predicate Validated(m: map<string, Json>, rules: Rules, f: Field) {
    f.key in m && FieldValue(rules, f.key, m[f.key]) == Ok(f.value)
  }

  lemma {:induction false} RequiredIsSound(m: map<string, Json>, rules: Rules, keys: seq<string>)
    requires CollectRequired(m, rules, keys).Ok?
    requires forall i, j :: 0 <= i < j < |keys| ==> keys[i] != keys[j]
    ensures
      var fields := CollectRequired(m, rules, keys).value;
      && KeysFrom(fields, keys)
      && (forall f <- fields :: Validated(m, rules, f))
      && (forall k <- keys :: HasKey(fields, k))
  {
    if keys != [] {
      RequiredIsSound(m, rules, keys[1..]);
      var fields, rest := CollectRequired(m, rules, keys).value, CollectRequired(m, rules, keys[1..]).value;
      assert fields == [fields[0]] + rest;
      forall k <- keys ensures HasKey(fields, k) {
        if k == keys[0] {
          assert fields[0].key == k;
        } else {
          assert k in keys[1..] && HasKey(rest, k);
        }
      }
    }
  }

  lemma {:induction false} OptionalIsSound(m: map<string, Json>, rules: Rules, keys: seq<string>)
    requires CollectOptional(m, rules, keys).Ok?
    requires forall i, j :: 0 <= i < j < |keys| ==> keys[i] != keys[j]
    ensures
      var fields := CollectOptional(m, rules, keys).value;
      && KeysFrom(fields, keys)
      && (forall f <- fields :: Validated(m, rules, f))
      && (forall k <- keys :: !Read(m, k).Null? ==> HasKey(fields, k))
  {
    if keys != [] {
      OptionalIsSound(m, rules, keys[1..]);
      var fields, rest := CollectOptional(m, rules, keys).value, CollectOptional(m, rules, keys[1..]).value;
      forall k <- keys | !Read(m, k).Null? ensures HasKey(fields, k) {
        if k == keys[0] {
          assert fields[0].key == k;
        } else {
          assert k in keys[1..] && HasKey(rest, k);
          assert fields == rest || fields == [fields[0]] + rest;
        }
      }
    }
  }

  /** _object returns exactly the present fields, each once, each validated. */
  lemma ObjectIsSound(m: map<string, Json>, rules: Rules)
    requires WellFormed(rules) && Object(m, rules).Ok?
    ensures
      var fields := Object(m, rules).value;
      && KeysFrom(fields, rules.required + rules.optional)
      && (forall f <- fields :: Validated(m, rules, f))
      && (forall k <- m.Keys :: k in rules.required || k in rules.optional)
      && (forall k <- rules.required :: HasKey(fields, k))
      && (forall k <- m.Keys :: !m[k].Null? ==> HasKey(fields, k))
  {
    RequiredIsSound(m, rules, rules.required);
    OptionalIsSound(m, rules, rules.optional);
    var a := CollectRequired(m, rules, rules.required).value;
    var b := CollectOptional(m, rules, rules.optional).value;
    forall k | HasKey(a, k) || HasKey(b, k) ensures HasKey(a + b, k) {
      if HasKey(a, k) {
        var f :| f in a && f.key == k;
        assert f in a + b;
      } else {
        var f :| f in b && f.key == k;
        assert f in a + b;
      }
    }
    forall k <- m.Keys | !m[k].Null? ensures HasKey(a + b, k) {
      assert Read(m, k) == m[k];
    }
  }

  lemma {:induction false} RequiredAgrees(m: map<string, Json>, m': map<string, Json>, rules: Rules, keys: seq<string>)
    requires CollectRequired(m, rules, keys).Ok?
    requires forall f <- CollectRequired(m, rules, keys).value :: Validated(m', rules, f)
    ensures CollectRequired(m', rules, keys) == CollectRequired(m, rules, keys)
  {
    if keys != [] {
      var fields, rest := CollectRequired(m, rules, keys).value, CollectRequired(m, rules, keys[1..]).value;
      assert fields == [fields[0]] + rest && fields[0] in fields;
      forall f <- rest ensures Validated(m', rules, f) { assert f in fields; }
      RequiredAgrees(m, m', rules, keys[1..]);
    }
  }

  lemma {:induction false} OptionalAgrees(m: map<string, Json>, m': map<string, Json>, rules: Rules, keys: seq<string>)
    requires CollectOptional(m, rules, keys).Ok?
    requires forall f <- CollectOptional(m, rules, keys).value :: Validated(m', rules, f)
    requires forall k <- keys :: Read(m, k).Null? <==> Read(m', k).Null?
    ensures CollectOptional(m', rules, keys) == CollectOptional(m, rules, keys)
  {
    if keys != [] {
      var fields, rest := CollectOptional(m, rules, keys).value, CollectOptional(m, rules, keys[1..]).value;
      forall f <- rest ensures Validated(m', rules, f) { assert f in fields; }
      if !Read(m, keys[0]).Null? {
        assert fields[0] in fields;
      }
      OptionalAgrees(m, m', rules, keys[1..]);
    }
  }

  /** The result depends on the validated values only, not on how the input spelled them. */
  lemma ObjectAgrees(m: map<string, Json>, m': map<string, Json>, rules: Rules)
    requires WellFormed(rules) && Object(m, rules).Ok?
    requires forall f <- Object(m, rules).value :: Validated(m', rules, f)
    requires forall k <- m'.Keys :: HasKey(Object(m, rules).value, k)
    ensures Object(m', rules) == Object(m, rules)
  {
    ObjectIsSound(m, rules);
    var a := CollectRequired(m, rules, rules.required).value;
    var b := CollectOptional(m, rules, rules.optional).value;
    var fields := Object(m, rules).value;
    forall f | f in a || f in b ensures Validated(m', rules, f) { assert f in fields; }
    RequiredAgrees(m, m', rules, rules.required);
    RequiredIsSound(m, rules, rules.required);
    OptionalIsSound(m, rules, rules.optional);
    forall k <- rules.optional ensures Read(m, k).Null? <==> Read(m', k).Null? {
      AbsenceAgrees(m, m', rules, k);
    }
    OptionalAgrees(m, m', rules, rules.optional);
    forall k <- m'.Keys ensures k in rules.required || k in rules.optional {
      assert HasKey(fields, k);
    }
  }

  lemma AbsenceAgrees(m: map<string, Json>, m': map<string, Json>, rules: Rules, k: string)
    requires WellFormed(rules) && Object(m, rules).Ok? && k in rules.optional
    requires forall f <- Object(m, rules).value :: Validated(m', rules, f)
    requires forall k <- m'.Keys :: HasKey(Object(m, rules).value, k)
    ensures Read(m, k).Null? <==> Read(m', k).Null?
  {
    ObjectIsSound(m, rules);
    var fields := Object(m, rules).value;
    if k in m && !m[k].Null? {
      var f :| f in fields && f.key == k;
      FieldValueIsStable(rules, k, m'[k]);
    }
    if k in m' {
      var f :| f in fields && f.key == k;
      FieldValueIsStable(rules, k, m[k]);
    }
  }

  lemma {:induction false} MapOfFields(fields: seq<Field>)
    requires forall i, j :: 0 <= i < j < |fields| ==> fields[i].key != fields[j].key
    ensures forall f <- fields :: f.key in MapOf(fields) && MapOf(fields)[f.key] == f.value
    ensures forall k <- MapOf(fields).Keys :: HasKey(fields, k)
  {
    if fields != [] {
      MapOfFields(fields[1..]);
      forall f <- fields ensures f.key in MapOf(fields) && MapOf(fields)[f.key] == f.value {
        if f != fields[0] {
          assert f in fields[1..];
        }
      }
      forall k <- MapOf(fields).Keys ensures HasKey(fields, k) {
        if k != fields[0].key {
          assert HasKey(fields[1..], k);
        }
      }
    }
  }

  /** Validating an object that has been validated changes nothing. */
  lemma ObjectIsStable(m: map<string, Json>, rules: Rules)
    requires WellFormed(rules) && Object(m, rules).Ok?
    ensures Object(MapOf(Object(m, rules).value), rules) == Object(m, rules)
  {
    ObjectIsSound(m, rules);
    var fields := Object(m, rules).value;
    MapOfFields(fields);
    forall f <- fields ensures Validated(MapOf(fields), rules, f) {
      FieldValueIsStable(rules, f.key, m[f.key]);
    }
    ObjectAgrees(m, MapOf(fields), rules);
  }

  lemma {:induction false} QuestionsAreStable(items: seq<Json>)
    requires CleanQuestions(items).Ok?
    ensures |CleanQuestions(items).value| == |items|
    ensures CleanQuestions(CleanQuestions(items).value) == CleanQuestions(items)
  {
    if items != [] {
      RulesAreWellFormed(QuestionBlocked);
      ObjectIsStable(items[0].fields, QUESTION_RULES);
      QuestionsAreStable(items[1..]);
      var cleaned := CleanQuestions(items).value;
      assert cleaned[1..] == CleanQuestions(items[1..]).value;
    }
  }

  lemma PayloadIsStable(t: ResponseType, m: map<string, Json>)
    requires ValidatePayload(t, m).Ok?
    ensures ValidatePayload(t, MapOf(ValidatePayload(t, m).value)) == ValidatePayload(t, m)
    ensures KeysFrom(ValidatePayload(t, m).value, RulesFor(t).required + RulesFor(t).optional)
    ensures ValidatePayload(t, m).value != []
  {
    RulesAreWellFormed(t);
    if t.QuestionBlocked? {
      QuestionsAreStable(m["questions"].items);
      MapOfFields(ValidatePayload(t, m).value);
    } else {
      ObjectIsSound(m, RulesFor(t));
      ObjectIsStable(m, RulesFor(t));
      assert HasKey(Object(m, RulesFor(t)).value, RulesFor(t).required[0]);
    }
  }

  lemma RefIsStable(m: map<string, Json>)
    requires ParseRef(m).Ok?
    ensures ParseRef(RefJson(ParseRef(m).value).fields) == ParseRef(m)
  {
    DigestIsStable(Read(m, "sha256"));
    RefJsonParses(ParseRef(m).value);
  }

  lemma RefJsonParses(r: EvidenceRef)
    requires r.purpose in PURPOSES && RequireString(Str(r.artifactId), MAX_STRING_BYTES) == Ok(r.artifactId)
    requires Digest(Str(r.sha256)) == Ok(r.sha256)
    requires OptionalString(TextOrNull(r.detectedMediaType)) == Ok(r.detectedMediaType)
    requires RequireString(Str(r.safeFilename), MAX_STRING_BYTES) == Ok(r.safeFilename)
    ensures ParseRef(RefJson(r).fields) == Ok(r)
  {
    RefJsonReads(r);
  }

  lemma RefJsonReads(r: EvidenceRef)
    ensures
      var m := RefJson(r).fields;
      && m.Keys == REF_KEYS && "purpose" in m && "byte_length" in m
      && Read(m, "artifact_id") == Str(r.artifactId) && m["purpose"] == Str(r.purpose)
      && m["byte_length"] == Int(r.byteLength) && Read(m, "sha256") == Str(r.sha256)
      && Read(m, "detected_media_type") == TextOrNull(r.detectedMediaType)
      && Read(m, "safe_filename") == Str(r.safeFilename)
  {
  }

  lemma {:induction false} RefsAreStable(items: seq<Json>)
    requires ParseRefs(items).Ok?
    ensures |ParseRefs(items).value| == |items|
    ensures ParseRefs(RefsJson(ParseRefs(items).value)) == ParseRefs(items)
  {
    if items != [] {
      RefIsStable(items[0].fields);
      RefsAreStable(items[1..]);
      var refs := ParseRefs(items).value;
      assert RefsJson(refs)[1..] == RefsJson(refs[1..]);
    }
  }

  // ---------------------------------------------------------------- packets

  lemma RawLineage(p: ResponsePacket)
    ensures
      var raw := ToRaw(p);
      && Read(raw, "work_order_id") == Str(p.workOrderId) && Read(raw, "in_reply_to") == Str(p.inReplyTo)
      && Read(raw, "idempotency_key") == Str(p.idempotencyKey)
      && Read(raw, "source_input_sha256") == Str(p.sourceInputSha256) && Read(raw, "created_at") == Str(p.createdAt)
  {
  }

  lemma RawNames(p: ResponsePacket)
    ensures
      var raw := ToRaw(p);
      && Read(raw, "message_id") == TextOrNull(p.messageId) && Read(raw, "correlation_id") == TextOrNull(p.correlationId)
      && Read(raw, "executor_run_id") == TextOrNull(p.executorRunId) && Read(raw, "actor") == TextOrNull(p.actor)
  {
  }

  lemma RawRest(p: ResponsePacket)
    ensures
      var raw := ToRaw(p);
      && Read(raw, "schema") == Str(p.schema) && Read(raw, "response_type") == Str(TypeText(p.responseType))
      && Read(raw, "authority") == Str(p.authority) && Read(raw, "payload") == Obj(MapOf(p.payload))
      && Read(raw, "evidence_refs") == List(RefsJson(p.evidenceRefs))
      && Read(raw, "content_sha256") == TextOrNull(p.contentSha256)
  {
  }

  lemma RawKeysKnown(p: ResponsePacket)
    ensures KnownKeys(ToRaw(p))
  {
  }

  /** Every field of a validated payload was a field of the input. */
  lemma PayloadKeysComeFromInput(t: ResponseType, m: map<string, Json>)
    requires ValidatePayload(t, m).Ok?
    ensures forall f <- ValidatePayload(t, m).value :: f.key in m
    ensures forall i, j :: 0 <= i < j < |ValidatePayload(t, m).value| ==>
              ValidatePayload(t, m).value[i].key != ValidatePayload(t, m).value[j].key
  {
    RulesAreWellFormed(t);
    if !t.QuestionBlocked? {
      ObjectIsSound(m, RulesFor(t));
    }
  }

  lemma PayloadParseIsStable(raw: map<string, Json>, raw': map<string, Json>, t: ResponseType)
    requires ParsePayload(raw, t).Ok?
    requires Read(raw', "payload") == Obj(MapOf(ParsePayload(raw, t).value))
    ensures ParsePayload(raw', t) == ParsePayload(raw, t)
  {
    var m := PayloadOf(Read(raw, "payload")).fields;
    var fields := ValidatePayload(t, m).value;
    PayloadIsStable(t, m);
    PayloadKeysComeFromInput(t, m);
    MapOfFields(fields);
    assert fields[0].key in MapOf(fields);
    forall k <- MapOf(fields).Keys ensures k !in FORBIDDEN_INLINE_KEYS {
      assert HasKey(fields, k);
    }
  }

  lemma EvidenceIsStable(raw: map<string, Json>, raw': map<string, Json>)
    requires ParseEvidence(Read(raw, "evidence_refs")).Ok?
    requires Read(raw', "evidence_refs") == List(RefsJson(ParseEvidence(Read(raw, "evidence_refs")).value))
    ensures ParseEvidence(Read(raw', "evidence_refs")) == ParseEvidence(Read(raw, "evidence_refs"))
  {
    var v := Read(raw, "evidence_refs");
    RefsAreStable(if Falsy(v) then [] else v.items);
  }

  lemma LineageStrings(raw: map<string, Json>, l: Lineage)
    requires ParseLineage(raw) == Ok(l)
    ensures RequireString(Str(l.workOrderId), MAX_STRING_BYTES) == Ok(l.workOrderId)
    ensures RequireString(Str(l.inReplyTo), MAX_STRING_BYTES) == Ok(l.inReplyTo)
    ensures RequireString(Str(l.idempotencyKey), MAX_STRING_BYTES) == Ok(l.idempotencyKey)
    ensures RequireString(Str(l.createdAt), MAX_STRING_BYTES) == Ok(l.createdAt)
    ensures Digest(Str(l.sourceInputSha256)) == Ok(l.sourceInputSha256) && IsDigest(l.sourceInputSha256)
  {
    DigestIsStable(Read(raw, "source_input_sha256"));
  }

  lemma LineageIsStable(raw: map<string, Json>, p: ResponsePacket)
    requires ParseLineage(raw) ==
             Ok(Lineage(p.workOrderId, p.inReplyTo, p.idempotencyKey, p.sourceInputSha256, p.createdAt))
    ensures ParseLineage(ToRaw(p)) == ParseLineage(raw)
  {
    RawLineage(p);
    LineageStrings(raw, Lineage(p.workOrderId, p.inReplyTo, p.idempotencyKey, p.sourceInputSha256, p.createdAt));
  }

  lemma NamesAreStable(raw: map<string, Json>, p: ResponsePacket)
    requires ParseNames(raw) == Ok(Names(p.messageId, p.correlationId, p.executorRunId, p.actor))
    ensures ParseNames(ToRaw(p)) == ParseNames(raw)
  {
    RawNames(p);
  }

  lemma KindIsStable(p: ResponsePacket)
    requires p.schema == RESPONSE_SCHEMA && p.authority == RESPONSE_AUTHORITY
    ensures ParseKind(ToRaw(p)) == Ok(p.responseType)
  {
    RawRest(p);
  }

  lemma BodyStages(raw: map<string, Json>, p: ResponsePacket)
    requires ParseBody(raw) == Ok(p)
    ensures KnownKeys(raw) && ParseKind(raw).Ok? && ParsePayload(raw, ParseKind(raw).value).Ok?
    ensures ParseEvidence(Read(raw, "evidence_refs")).Ok? && ParseLineage(raw).Ok? && ParseNames(raw).Ok?
    ensures p == PacketFrom(ParseKind(raw).value, ParsePayload(raw, ParseKind(raw).value).value,
                            ParseEvidence(Read(raw, "evidence_refs")).value, ParseLineage(raw).value, ParseNames(raw).value)
  {
  }

  /** The stages of ParseBody one by one. */
  lemma BodyParts(raw: map<string, Json>, p: ResponsePacket)
    requires ParseBody(raw) == Ok(p)
    ensures KnownKeys(raw) && ParseKind(raw) == Ok(p.responseType) && ParsePayload(raw, p.responseType) == Ok(p.payload)
    ensures ParseEvidence(Read(raw, "evidence_refs")) == Ok(p.evidenceRefs)
    ensures ParseLineage(raw) == Ok(Lineage(p.workOrderId, p.inReplyTo, p.idempotencyKey, p.sourceInputSha256, p.createdAt))
    ensures ParseNames(raw) == Ok(Names(p.messageId, p.correlationId, p.executorRunId, p.actor))
    ensures p.schema == RESPONSE_SCHEMA && p.authority == RESPONSE_AUTHORITY && p.contentSha256.None?
  {
    BodyStages(raw, p);
  }

  lemma BodyIsStable(raw: map<string, Json>, p: ResponsePacket)
    requires ParseBody(raw) == Ok(p.(contentSha256 := None))
    ensures ParseBody(ToRaw(p)) == ParseBody(raw)
  {
    BodyParts(raw, p.(contentSha256 := None));
    RawKeysKnown(p);
    KindIsStable(p);
    LineageIsStable(raw, p);
    NamesAreStable(raw, p);
    RawRest(p);
    PayloadParseIsStable(raw, ToRaw(p), p.responseType);
    EvidenceIsStable(raw, ToRaw(p));
    BodyFromParts(ToRaw(p), p);
  }

  lemma BodyFromParts(raw: map<string, Json>, p: ResponsePacket)
    requires KnownKeys(raw) && ParseKind(raw) == Ok(p.responseType)
    requires p.schema == RESPONSE_SCHEMA && p.authority == RESPONSE_AUTHORITY
    requires ParsePayload(raw, p.responseType) == Ok(p.payload)
    requires ParseEvidence(Read(raw, "evidence_refs")) == Ok(p.evidenceRefs)
    requires ParseLineage(raw) ==
             Ok(Lineage(p.workOrderId, p.inReplyTo, p.idempotencyKey, p.sourceInputSha256, p.createdAt))
    requires ParseNames(raw) == Ok(Names(p.messageId, p.correlationId, p.executorRunId, p.actor))
    ensures ParseBody(raw) == Ok(p.(contentSha256 := None))
  {
  }

  /** A codec whose fingerprints are 64 lowercase hexadecimal digits. */
  ghost predicate HexDigests(codec: Codec) {
    forall p :: IsDigest(codec.fingerprint(p))
  }

  lemma HexIsDigest(d: string)
    requires IsDigest(d)
    ensures Digest(Str(d)) == Ok(d) && Digest(Str("sha256:" + d)) == Ok(d)
  {
    Utf8OfHex("sha256:", d);
    Text.Utf8OfSuffix("sha256:" + d, |"sha256:"|);
    assert ("sha256:" + d)[|"sha256:"|..] == d;
    assert d[0] != 's';
    assert !("sha256:" <= d);
  }

  lemma PacketParts(codec: Codec, raw: map<string, Json>, p: ResponsePacket)
    requires ParsePacket(codec, raw) == Ok(p)
    ensures ParseBody(raw) == Ok(p.(contentSha256 := None))
    ensures p.contentSha256.Some? && Fingerprint(codec, p) == Ok(p.contentSha256.value)
    ensures Read(raw, "content_sha256").Null? || Digest(Read(raw, "content_sha256")) == Ok(p.contentSha256.value)
  {
  }

  lemma PacketFromParts(codec: Codec, raw: map<string, Json>, p: ResponsePacket)
    requires ParseBody(raw) == Ok(p.(contentSha256 := None))
    requires p.contentSha256.Some? && Fingerprint(codec, p) == Ok(p.contentSha256.value)
    requires Read(raw, "content_sha256").Null? || Digest(Read(raw, "content_sha256")) == Ok(p.contentSha256.value)
    ensures ParsePacket(codec, raw) == Ok(p)
  {
  }

  /** Validating a packet that has been validated returns the same packet and fingerprint. */
  lemma ParseIsIdempotent(codec: Codec, raw: map<string, Json>, p: ResponsePacket)
    requires HexDigests(codec) && ParsePacket(codec, raw) == Ok(p)
    ensures ParsePacket(codec, ToRaw(p)) == Ok(p)
  {
    PacketParts(codec, raw, p);
    BodyIsStable(raw, p);
    RawRest(p);
    HexIsDigest(p.contentSha256.value);
    PacketFromParts(codec, ToRaw(p), p);
  }
}
