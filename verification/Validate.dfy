/** Validation of response packets (src/awr/responses/validate.py). */
module Validate {
  import opened Wrappers
  import opened Packets
  import Text

  /** What lies outside the model: the canonical fingerprint with its size limit, and the JSON text of evidence. */
  datatype Codec = Codec(
    fingerprint: ResponsePacket -> string,
    fits: ResponsePacket -> bool,
    dumpRefs: seq<EvidenceRef> -> string,
    loads: string -> Option<Json>)

  datatype ParseError = Unframed | Invalid

  const RESPONSE_SCHEMA := "awr.response/v1"
  const RESPONSE_AUTHORITY := "report_only"
  const MAX_STRING_BYTES := 8 * 1024
  const MAX_BODY_BYTES := 256 * 1024
  const MAX_COLLECTION := 32
  const MAX_EVIDENCE_REFS := 10

  const COMMON_REQUIRED := [
    "schema", "response_type", "work_order_id", "in_reply_to", "idempotency_key", "source_input_sha256", "created_at"]
  const COMMON_OPTIONAL := [
    "authority", "payload", "evidence_refs", "message_id", "correlation_id", "executor_run_id", "actor", "content_sha256"]
  const FORBIDDEN_INLINE_KEYS := {
    "bytes", "diff", "log", "logs", "path", "report", "screenshot", "url", "signed_url"}
  const PURPOSES := {"design_reference", "data_contract", "requirements_reference", "other_reference"}
  const REVIEW_OUTCOMES := {"APPROVED", "REVISE", "REJECTED"}

  function TypeText(t: ResponseType): string {
    match t
    case ReceiptAccepted => "receipt.accepted"
    case PlanCompleted => "plan.completed"
    case QuestionBlocked => "question.blocked"
    case ExecutionAcknowledged => "execution.acknowledged"
    case ExecutionProgress => "execution.progress"
    case ExecutionCompleted => "execution.completed"
    case ExecutionFailed => "execution.failed"
    case ReviewCompleted => "review.completed"
  }

  function TypeOf(text: string): (t: Option<ResponseType>)
    ensures t.Some? ==> TypeText(t.value) == text
    ensures t.None? ==> forall u: ResponseType :: TypeText(u) != text
  {
    if text == "receipt.accepted" then Some(ReceiptAccepted)
    else if text == "plan.completed" then Some(PlanCompleted)
    else if text == "question.blocked" then Some(QuestionBlocked)
    else if text == "execution.acknowledged" then Some(ExecutionAcknowledged)
    else if text == "execution.progress" then Some(ExecutionProgress)
    else if text == "execution.completed" then Some(ExecutionCompleted)
    else if text == "execution.failed" then Some(ExecutionFailed)
    else if text == "review.completed" then Some(ReviewCompleted)
    else None
  }

  // ---------------------------------------------------------------- single values

  function RequireString(v: Json, limit: nat): Result<string, ParseError> {
    if v.Str? && v.s != "" && Text.Utf8Length(v.s) <= limit then Ok(v.s) else Err(Invalid)
  }

  predicate IsDigest(s: string) {
    |s| == 64 && forall i :: 0 <= i < 64 ==> '0' <= s[i] <= '9' || 'a' <= s[i] <= 'f'
  }

  function Digest(v: Json): Result<string, ParseError> {
    var text :- RequireString(v, MAX_STRING_BYTES);
    var digest := Text.RemovePrefix(text, "sha256:");
    if IsDigest(digest) then Ok(digest) else Err(Invalid)
  }

  function OptionalString(v: Json): Result<Option<string>, ParseError> {
    if v.Null? then Ok(None)
    else
      var s :- RequireString(v, MAX_STRING_BYTES);
      Ok(Some(s))
  }

  /** mapping.get(key): an absent key reads as None. */
  function Read(m: map<string, Json>, key: string): Json {
    if key in m then m[key] else Null
  }

  predicate Falsy(v: Json) {
    match v
    case Null => true
    case Bool(b) => !b
    case Int(n) => n == 0
    case Str(s) => s == ""
    case List(items) => items == []
    case Obj(fields) => fields == map[]
  }

  // ---------------------------------------------------------------- objects

  /** What _object is told: the fields in the order it writes them, and which may be long. */
  datatype Rules = Rules(required: seq<string>, optional: seq<string>, body: set<string>)

  const QUESTION_RULES := Rules(["id", "text"], [], {"text"})

  function RulesFor(t: ResponseType): Rules {
    match t
    case ReceiptAccepted =>
      Rules(["receipt_type", "status", "content_sha256"], ["ledger_sequence", "bundle_sha256", "duplicate"], {})
    case PlanCompleted => Rules(["content", "content_sha256"], ["title", "plan_id"], {"content"})
    case QuestionBlocked => Rules(["questions"], [], {})
    case ExecutionAcknowledged => Rules(["executor", "executor_run_id"], ["message"], {})
    case ExecutionProgress => Rules(["message"], ["percent"], {})
    case ExecutionCompleted =>
      Rules(["summary"],
            ["content_sha256", "repository", "branch", "base_ref", "commit_sha", "pull_request_url", "limitations", "blockers"],
            {"summary"})
    case ExecutionFailed => Rules(["error_type", "message"], [], {})
    case ReviewCompleted => Rules(["outcome", "rationale"], [], {"rationale"})
  }

  predicate EndsWith(s: string, suffix: string) {
    |suffix| <= |s| && s[|s| - |suffix|..] == suffix
  }

  function Limit(rules: Rules, key: string): nat {
    if key in rules.body then MAX_BODY_BYTES else MAX_STRING_BYTES
  }

  function TextOf(rules: Rules, key: string, v: Json): Result<Json, ParseError> {
    var s :- RequireString(v, Limit(rules, key));
    Ok(Str(s))
  }

  /** The validated value of a field that is present. */
  function FieldValue(rules: Rules, key: string, v: Json): Result<Json, ParseError> {
    if EndsWith(key, "sha256") then
      var d :- Digest(v);
      Ok(Str(d))
    else if key in rules.required then
      if key == "percent" then Ok(v) else TextOf(rules, key, v)
    else if key == "ledger_sequence" || key == "percent" then
      if v.Int? || v.Bool? then Ok(v) else Err(Invalid)
    else if key == "duplicate" then
      if v.Bool? then Ok(v) else Err(Invalid)
    else TextOf(rules, key, v)
  }

  function CollectRequired(m: map<string, Json>, rules: Rules, keys: seq<string>): Result<seq<Field>, ParseError> {
    if keys == [] then Ok([])
    else
      :- Need(keys[0] in m, Invalid);
      var v :- FieldValue(rules, keys[0], m[keys[0]]);
      var rest :- CollectRequired(m, rules, keys[1..]);
      Ok([Field(keys[0], v)] + rest)
  }

  function CollectOptional(m: map<string, Json>, rules: Rules, keys: seq<string>): Result<seq<Field>, ParseError> {
    if keys == [] then Ok([])
    else if Read(m, keys[0]).Null? then CollectOptional(m, rules, keys[1..])
    else
      var v :- FieldValue(rules, keys[0], m[keys[0]]);
      var rest :- CollectOptional(m, rules, keys[1..]);
      Ok([Field(keys[0], v)] + rest)
  }

  /** _object */
  function Object(m: map<string, Json>, rules: Rules): Result<seq<Field>, ParseError> {
    if exists k <- m.Keys :: k !in rules.required && k !in rules.optional then Err(Invalid)
    else
      var required :- CollectRequired(m, rules, rules.required);
      var optional :- CollectOptional(m, rules, rules.optional);
      Ok(required + optional)
  }

  function MapOf(fields: seq<Field>): map<string, Json> {
    if fields == [] then map[] else MapOf(fields[1..])[fields[0].key := fields[0].value]
  }

  function CleanQuestions(items: seq<Json>): Result<seq<Json>, ParseError> {
    if items == [] then Ok([])
    else
      :- Need(items[0].Obj?, Invalid);
      var first :- Object(items[0].fields, QUESTION_RULES);
      var rest :- CleanQuestions(items[1..]);
      Ok([Obj(MapOf(first))] + rest)
  }

  function ValidateQuestions(m: map<string, Json>): Result<seq<Field>, ParseError> {
    var questions := Read(m, "questions");
    :- Need(questions.List? && questions.items != [] && |questions.items| <= MAX_COLLECTION, Invalid);
    var cleaned :- CleanQuestions(questions.items);
    Ok([Field("questions", List(cleaned))])
  }

  /** True counts as the integer 1 in Python. */
  predicate PercentOk(v: Json) {
    v.Bool? || (v.Int? && 0 <= v.n <= 100)
  }

  /** The checks that follow _object for some types. */
  predicate ExtraOk(t: ResponseType, fields: seq<Field>) {
    match t
    case ExecutionProgress => Get(fields, "percent").Some? ==> PercentOk(Get(fields, "percent").value)
    case ReviewCompleted =>
      Get(fields, "outcome").Some? && Get(fields, "outcome").value.Str?
      && Get(fields, "outcome").value.s in REVIEW_OUTCOMES
    case _ => true
  }

  function ValidatePayload(t: ResponseType, m: map<string, Json>): Result<seq<Field>, ParseError> {
    if t.QuestionBlocked? then ValidateQuestions(m)
    else
      var fields :- Object(m, RulesFor(t));
      :- Need(ExtraOk(t, fields), Invalid);
      Ok(fields)
  }

  // ---------------------------------------------------------------- evidence references

  const REF_KEYS := {"artifact_id", "purpose", "byte_length", "sha256", "detected_media_type", "safe_filename"}

  function ParseRef(m: map<string, Json>): Result<EvidenceRef, ParseError> {
    if !(m.Keys <= REF_KEYS) then Err(Invalid)
    else
      :- Need(Read(m, "purpose").Str? && Read(m, "purpose").s in PURPOSES, Invalid);
      var artifactId :- RequireString(Read(m, "artifact_id"), MAX_STRING_BYTES);
      :- Need(Read(m, "byte_length").Int?, Invalid);
      var sha256 :- Digest(Read(m, "sha256"));
      var media :- OptionalString(Read(m, "detected_media_type"));
      var filename :- RequireString(Read(m, "safe_filename"), MAX_STRING_BYTES);
      Ok(EvidenceRef(artifactId, m["purpose"].s, m["byte_length"].n, sha256, media, filename))
  }

  function ParseRefs(items: seq<Json>): Result<seq<EvidenceRef>, ParseError> {
    if items == [] then Ok([])
    else
      :- Need(items[0].Obj?, Invalid);
      var first :- ParseRef(items[0].fields);
      var rest :- ParseRefs(items[1..]);
      Ok([first] + rest)
  }

  function ParseEvidence(v: Json): Result<seq<EvidenceRef>, ParseError> {
    var items := if Falsy(v) then List([]) else v;
    :- Need(items.List? && |items.items| <= MAX_EVIDENCE_REFS, Invalid);
    ParseRefs(items.items)
  }

  function TextOrNull(s: Option<string>): Json {
    match s
    case None => Null
    case Some(text) => Str(text)
  }

  /** ArtifactReference.to_dict */
  function RefJson(r: EvidenceRef): Json {
    Obj(map[
      "artifact_id" := Str(r.artifactId), "purpose" := Str(r.purpose), "byte_length" := Int(r.byteLength),
      "sha256" := Str(r.sha256), "detected_media_type" := TextOrNull(r.detectedMediaType),
      "safe_filename" := Str(r.safeFilename)])
  }

  function RefsJson(refs: seq<EvidenceRef>): seq<Json> {
    seq(|refs|, i requires 0 <= i < |refs| => RefJson(refs[i]))
  }

  // ---------------------------------------------------------------- packets

  function PayloadOf(v: Json): Json {
    if Falsy(v) then Obj(map[]) else v
  }

  /** fingerprint_packet: the digest field itself is not part of what is hashed. */
  function Fingerprint(codec: Codec, p: ResponsePacket): Result<string, ParseError> {
    var body := p.(contentSha256 := None);
    if codec.fits(body) then Ok(codec.fingerprint(body)) else Err(Invalid)
  }

  predicate KnownKeys(raw: map<string, Json>) {
    && (forall k <- raw.Keys :: k in COMMON_REQUIRED || k in COMMON_OPTIONAL)
    && (forall k <- COMMON_REQUIRED :: k in raw.Keys)
  }

  /** The schema, the type and the authority of a packet; the first and the last are constants. */
  function ParseKind(raw: map<string, Json>): Result<ResponseType, ParseError> {
    if Read(raw, "schema") != Str(RESPONSE_SCHEMA) then Err(Invalid)
    else
      var typeText := Read(raw, "response_type");
      :- Need(typeText.Str? && TypeOf(typeText.s).Some?, Invalid);
      :- Need("authority" in raw ==> raw["authority"] == Str(RESPONSE_AUTHORITY), Invalid);
      Ok(TypeOf(typeText.s).value)
  }

  function ParsePayload(raw: map<string, Json>, t: ResponseType): Result<seq<Field>, ParseError> {
    var payload := PayloadOf(Read(raw, "payload"));
    :- Need(payload.Obj? && payload.fields.Keys !! FORBIDDEN_INLINE_KEYS, Invalid);
    ValidatePayload(t, payload.fields)
  }

  datatype Lineage = Lineage(
    workOrderId: string, inReplyTo: string, idempotencyKey: string, sourceInputSha256: string, createdAt: string)

  function ParseLineage(raw: map<string, Json>): Result<Lineage, ParseError> {
    var workOrderId :- RequireString(Read(raw, "work_order_id"), MAX_STRING_BYTES);
    var inReplyTo :- RequireString(Read(raw, "in_reply_to"), MAX_STRING_BYTES);
    var key :- RequireString(Read(raw, "idempotency_key"), MAX_STRING_BYTES);
    var source :- Digest(Read(raw, "source_input_sha256"));
    var createdAt :- RequireString(Read(raw, "created_at"), MAX_STRING_BYTES);
    Ok(Lineage(workOrderId, inReplyTo, key, source, createdAt))
  }

  datatype Names = Names(
    messageId: Option<string>, correlationId: Option<string>, executorRunId: Option<string>, actor: Option<string>)

  function ParseNames(raw: map<string, Json>): Result<Names, ParseError> {
    var messageId :- OptionalString(Read(raw, "message_id"));
    var correlationId :- OptionalString(Read(raw, "correlation_id"));
    var runId :- OptionalString(Read(raw, "executor_run_id"));
    var actor :- OptionalString(Read(raw, "actor"));
    Ok(Names(messageId, correlationId, runId, actor))
  }

  function PacketFrom(t: ResponseType, payload: seq<Field>, refs: seq<EvidenceRef>, l: Lineage, n: Names): ResponsePacket {
    ResponsePacket(
      RESPONSE_SCHEMA, t, l.workOrderId, l.inReplyTo, l.idempotencyKey, l.sourceInputSha256, l.createdAt,
      RESPONSE_AUTHORITY, payload, refs, n.messageId, n.correlationId, n.executorRunId, n.actor, None)
  }

  /** Everything parse_response_packet reads except the declared digest. */
  function ParseBody(raw: map<string, Json>): Result<ResponsePacket, ParseError> {
    if !KnownKeys(raw) then Err(Invalid)
    else
      var t :- ParseKind(raw);
      var payload :- ParsePayload(raw, t);
      var refs :- ParseEvidence(Read(raw, "evidence_refs"));
      var lineage :- ParseLineage(raw);
      var names :- ParseNames(raw);
      Ok(PacketFrom(t, payload, refs, lineage, names))
  }

  /** parse_response_packet */
  function ParsePacket(codec: Codec, raw: map<string, Json>): Result<ResponsePacket, ParseError> {
    var body :- ParseBody(raw);
    var digest :- Fingerprint(codec, body);
    var declared := Read(raw, "content_sha256");
    :- Need(declared.Null? || Digest(declared) == Ok(digest), Invalid);
    Ok(body.(contentSha256 := Some(digest)))
  }

  /** to_dict */
  function ToRaw(p: ResponsePacket): map<string, Json> {
    map[
      "schema" := Str(p.schema), "response_type" := Str(TypeText(p.responseType)),
      "work_order_id" := Str(p.workOrderId), "in_reply_to" := Str(p.inReplyTo),
      "idempotency_key" := Str(p.idempotencyKey), "source_input_sha256" := Str(p.sourceInputSha256),
      "created_at" := Str(p.createdAt), "authority" := Str(p.authority),
      "payload" := Obj(MapOf(p.payload)), "evidence_refs" := List(RefsJson(p.evidenceRefs)),
      "message_id" := TextOrNull(p.messageId), "correlation_id" := TextOrNull(p.correlationId),
      "executor_run_id" := TextOrNull(p.executorRunId), "actor" := TextOrNull(p.actor),
      "content_sha256" := TextOrNull(p.contentSha256)]
  }
}
