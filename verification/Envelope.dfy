/** The mapping a printed packet reads back as, key by key. */
module Envelope {
  import opened Wrappers
  import opened Packets
  import opened Validate
  import opened ValidationLaws
  import opened Markdown
  import opened FrontMatter
  import opened PayloadKeys
  import Text

  // ---------------------------------------------------------------- values that survive

  /** A value the envelope carries unchanged: one line, no margins, no quotes around it, no block mark. */
  predicate HeaderOk(v: string) {
    Text.BreakFree(v) && CleanValue(v) == v && v !in EMPTY_VALUES
  }

  predicate HeaderOrAbsent(v: Option<string>) {
    v.Some? ==> HeaderOk(v.value)
  }

  lemma CleanOfSolid(v: string)
    requires v != "" && forall c <- [v[0], v[|v| - 1]] :: !Text.IsSpace(c) && c != '"' && c != '\''
    ensures CleanValue(v) == v
  {
    assert v[0] in [v[0], v[|v| - 1]] && v[|v| - 1] in [v[0], v[|v| - 1]];
    Text.TrimOfStripped(v, Text.Whitespace);
    Text.TrimOfStripped(v, Text.Exactly('"'));
    Text.TrimOfStripped(v, Text.Exactly('\''));
  }

  lemma HexIsHeader(d: string)
    requires IsDigest(d)
    ensures HeaderOk("sha256:" + d)
  {
    var v := "sha256:" + d;
    assert v[0] == 's' && v[|v| - 1] == d[63];
    CleanOfSolid(v);
    assert |v| == 71;
  }

  lemma DecimalIsHeader(n: nat)
    ensures HeaderOk(Text.Decimal(n))
  {
    Text.DecimalParses(n);
    CleanOfSolid(Text.Decimal(n));
    assert "|"[0] == '|' && ">"[0] == '>';
  }

  /** Lower-case letters, digits, dots, slashes and underscores. */
  predicate Dotted(v: string) {
    v != "" && forall i :: 0 <= i < |v| ==> 'a' <= v[i] <= 'z' || '.' <= v[i] <= '9' || v[i] == '_'
  }

  lemma DottedIsHeader(v: string)
    requires Dotted(v)
    ensures HeaderOk(v)
  {
    assert forall i :: 0 <= i < |v| ==> !Text.IsLineBreak(v[i]);
    CleanOfSolid(v);
    assert "|"[0] == '|' && ">"[0] == '>';
  }

  lemma SomeTypesAreDotted()
    ensures Dotted("receipt.accepted") && Dotted("plan.completed") && Dotted("question.blocked")
    ensures Dotted("review.completed")
  {
  }

  lemma ExecutionTypesAreDotted()
    ensures Dotted("execution.acknowledged") && Dotted("execution.progress")
    ensures Dotted("execution.completed") && Dotted("execution.failed")
  {
  }

  lemma TypesAreDotted(t: ResponseType)
    ensures Dotted(TypeText(t))
  {
    SomeTypesAreDotted();
    ExecutionTypesAreDotted();
  }

  lemma SchemaIsDotted()
    ensures Dotted(RESPONSE_SCHEMA) && Dotted(RESPONSE_AUTHORITY)
  {
  }

  lemma ConstantsAreHeaders(t: ResponseType)
    ensures HeaderOk(RESPONSE_SCHEMA) && HeaderOk(RESPONSE_AUTHORITY) && HeaderOk(TypeText(t))
  {
    SchemaIsDotted();
    TypesAreDotted(t);
    DottedIsHeader(RESPONSE_SCHEMA);
    DottedIsHeader(RESPONSE_AUTHORITY);
    DottedIsHeader(TypeText(t));
  }

  // ---------------------------------------------------------------- gathering entries

  ghost predicate SameTextPerKey(entries: seq<Entry>) {
    forall a, b :: a in entries && b in entries && a.key == b.key ==> a.text == b.text
  }

  ghost predicate KeyIn(entries: seq<Entry>, key: string) {
    exists e <- entries :: e.key == key
  }

  ghost predicate AgreesWith(m: map<string, string>, e: Entry) {
    (e.key in m <==> Kept(e.text)) && (e.key in m ==> m[e.key] == CleanValue(e.text))
  }

  lemma {:induction false} GatherReads(m: map<string, string>, entries: seq<Entry>)
    requires SameTextPerKey(entries)
    requires forall e <- entries :: e.key in m ==> AgreesWith(m, e)
    ensures
      var g := Gather(m, entries);
      && (forall e <- entries :: AgreesWith(g, e))
      && (forall k <- m.Keys :: k in g)
      && (forall k <- g.Keys :: k in m || KeyIn(entries, k))
      && (forall k <- m.Keys :: !KeyIn(entries, k) ==> g[k] == m[k])
    decreases entries
  {
    if entries != [] {
      var e, rest := entries[0], entries[1..];
      var m' := if Kept(e.text) then m[e.key := CleanValue(e.text)] else m;
      assert forall x <- rest :: x in entries;
      assert e in entries;
      GatherReads(m', rest);
      var g := Gather(m, entries);
      forall x <- entries ensures AgreesWith(g, x) {
        if x !in rest {
          assert x == e;
          assert forall y <- rest :: y.key == e.key ==> y == e;
        }
      }
      forall k <- g.Keys ensures k in m || KeyIn(entries, k) {
        if KeyIn(rest, k) {
          var y :| y in rest && y.key == k;
          assert y in entries;
        }
      }
      forall k <- m.Keys | !KeyIn(entries, k) ensures g[k] == m[k] {
        assert !KeyIn(rest, k);
      }
    }
  }

  // ---------------------------------------------------------------- the entries of a packet

  function DigestText(codec: Codec, p: ResponsePacket): string {
    Or(p.contentSha256, codec.fingerprint(p.(contentSha256 := None)))
  }

  function EnvelopeText(codec: Codec, p: ResponsePacket, key: string): string {
    if key == "schema" then p.schema
    else if key == "response_type" then TypeText(p.responseType)
    else if key == "work_order_id" then p.workOrderId
    else if key == "in_reply_to" then p.inReplyTo
    else if key == "idempotency_key" then p.idempotencyKey
    else if key == "source_input_sha256" then "sha256:" + p.sourceInputSha256
    else if key == "created_at" then p.createdAt
    else if key == "authority" then p.authority
    else if key == "content_sha256" then "sha256:" + DigestText(codec, p)
    else if key == "executor_run_id" then p.executorRunId.GetOr("")
    else if key == "correlation_id" then p.correlationId.GetOr("")
    else codec.dumpRefs(p.evidenceRefs)
  }

  lemma LineageKeysArePlain()
    ensures PlainKey("schema") && PlainKey("response_type") && PlainKey("work_order_id")
    ensures PlainKey("in_reply_to") && PlainKey("idempotency_key")
  {
  }

  lemma OtherKeysArePlain()
    ensures PlainKey("source_input_sha256") && PlainKey("created_at") && PlainKey("authority") && PlainKey("content_sha256")
  {
  }

  lemma FixedKeys(codec: Codec, p: ResponsePacket)
    ensures forall e <- FixedEntries(codec, p) :: PlainKey(e.key)
  {
    LineageKeysArePlain();
    OtherKeysArePlain();
  }

  lemma FixedTexts(codec: Codec, p: ResponsePacket)
    ensures forall e <- FixedEntries(codec, p) :: e.text == EnvelopeText(codec, p, e.key) && e.key in TOP_KEYS
  {
  }

  lemma OptionalKeysArePlain()
    ensures PlainKey("executor_run_id") && PlainKey("correlation_id") && PlainKey("evidence_refs")
    ensures "executor_run_id" in TOP_KEYS && "correlation_id" in TOP_KEYS && "evidence_refs" in TOP_KEYS
  {
  }

  lemma OptionalTexts(codec: Codec, p: ResponsePacket)
    ensures forall e <- OptionalEntries(codec, p) :: e.text == EnvelopeText(codec, p, e.key) && e.key in TOP_KEYS && PlainKey(e.key)
  {
    OptionalKeysArePlain();
    OptionalOnes(codec, p);
  }

  lemma OptionalOnes(codec: Codec, p: ResponsePacket)
    ensures forall e <- OptionalEntries(codec, p) ::
              || (e.key == "executor_run_id" && Truthy(p.executorRunId) && e.text == p.executorRunId.value)
              || (e.key == "correlation_id" && Truthy(p.correlationId) && e.text == p.correlationId.value)
              || (e.key == "evidence_refs" && p.evidenceRefs != [] && e.text == codec.dumpRefs(p.evidenceRefs))
  {
  }

  lemma EnvelopeTexts(codec: Codec, p: ResponsePacket)
    ensures forall e <- EnvelopeEntries(codec, p) ::
              e.text == EnvelopeText(codec, p, e.key) && e.key in TOP_KEYS && PlainKey(e.key)
  {
    FixedKeys(codec, p);
    FixedTexts(codec, p);
    OptionalTexts(codec, p);
  }

  /** The envelope lines that are always there, and those that depend on the packet. */
  lemma EnvelopeHas(codec: Codec, p: ResponsePacket)
    ensures
      var es := EnvelopeEntries(codec, p);
      && Entry("schema", p.schema) in es && Entry("response_type", TypeText(p.responseType)) in es
      && Entry("work_order_id", p.workOrderId) in es && Entry("in_reply_to", p.inReplyTo) in es
      && Entry("idempotency_key", p.idempotencyKey) in es
      && Entry("source_input_sha256", "sha256:" + p.sourceInputSha256) in es
      && Entry("created_at", p.createdAt) in es && Entry("authority", p.authority) in es
      && Entry("content_sha256", "sha256:" + DigestText(codec, p)) in es
      && (Truthy(p.executorRunId) ==> Entry("executor_run_id", p.executorRunId.value) in es)
      && (Truthy(p.correlationId) ==> Entry("correlation_id", p.correlationId.value) in es)
      && (p.evidenceRefs != [] ==> Entry("evidence_refs", codec.dumpRefs(p.evidenceRefs)) in es)
  {
    var es := FixedEntries(codec, p);
    assert es[0] in es && es[1] in es && es[2] in es && es[3] in es && es[4] in es && es[5] in es;
    assert es[6] in es && es[7] in es && es[8] in es;
  }

  lemma FixedLacks(codec: Codec, p: ResponsePacket)
    ensures forall e <- FixedEntries(codec, p) ::
              e.key != "message_id" && e.key != "actor" && e.key != "executor_run_id" && e.key != "correlation_id"
              && e.key != "evidence_refs"
  {
  }

  /** Lines the packet does not ask for are absent from the envelope. */
  lemma EnvelopeLacks(codec: Codec, p: ResponsePacket)
    ensures
      var es := EnvelopeEntries(codec, p);
      && !KeyIn(es, "message_id") && !KeyIn(es, "actor")
      && (!Truthy(p.executorRunId) ==> !KeyIn(es, "executor_run_id"))
      && (!Truthy(p.correlationId) ==> !KeyIn(es, "correlation_id"))
      && (p.evidenceRefs == [] ==> !KeyIn(es, "evidence_refs"))
  {
    FixedLacks(codec, p);
    OptionalOnes(codec, p);
  }

  // ---------------------------------------------------------------- the entries of a payload

  lemma {:induction false} PayloadEntriesAre(fields: seq<Field>)
    ensures forall f <- fields :: f.key !in BODY_KEYS ==> PayloadEntry(f) in PayloadEntries(fields)
    ensures forall e <- PayloadEntries(fields) :: exists f <- fields :: f.key !in BODY_KEYS && e == PayloadEntry(f)
  {
    if fields != [] {
      PayloadEntriesAre(fields[1..]);
      var rest := PayloadEntries(fields[1..]);
      forall f <- fields | f.key !in BODY_KEYS ensures PayloadEntry(f) in PayloadEntries(fields) {
        if f != fields[0] { assert f in fields[1..]; }
      }
      forall e <- PayloadEntries(fields)
        ensures exists f <- fields :: f.key !in BODY_KEYS && e == PayloadEntry(f)
      {
        if e in rest {
          var f :| f in fields[1..] && f.key !in BODY_KEYS && e == PayloadEntry(f);
          assert f in fields;
        } else {
          assert fields[0] in fields;
        }
      }
    }
  }

  /** Keys of a validated payload. */
  ghost predicate PayloadKeysOk(p: ResponsePacket) {
    && (forall f <- p.payload :: IsPayloadKey(p.responseType, f.key))
    && (forall f, g :: f in p.payload && g in p.payload && f.key == g.key ==> f == g)
  }

  /** An acknowledgement names the same run in the envelope and in the payload. */
  ghost predicate RunAgrees(p: ResponsePacket) {
    p.responseType.ExecutionAcknowledged? && Truthy(p.executorRunId) ==>
      forall f <- p.payload :: f.key == "executor_run_id" ==> f.value == Str(p.executorRunId.value)
  }

  lemma SameYamlKey(t: ResponseType, a: string, b: string)
    requires IsPayloadKey(t, a) && IsPayloadKey(t, b) && YamlKey(a) == YamlKey(b)
    ensures a == b
  {
    KeyFacts(t, a);
    KeyFacts(t, b);
  }

  lemma SamePayloadEntry(p: ResponsePacket, f: Field, g: Field)
    requires PayloadKeysOk(p) && f in p.payload && g in p.payload && YamlKey(f.key) == YamlKey(g.key)
    ensures f == g
  {
    SameYamlKey(p.responseType, f.key, g.key);
  }

  lemma PayloadFieldOf(p: ResponsePacket, e: Entry) returns (f: Field)
    requires e in PayloadEntries(p.payload)
    ensures f in p.payload && f.key !in BODY_KEYS && e == PayloadEntry(f)
  {
    PayloadEntriesAre(p.payload);
    f :| f in p.payload && f.key !in BODY_KEYS && e == PayloadEntry(f);
  }

  lemma PayloadEntriesAgree(p: ResponsePacket, a: Entry, b: Entry)
    requires PayloadKeysOk(p)
    requires a in PayloadEntries(p.payload) && b in PayloadEntries(p.payload) && a.key == b.key
    ensures a.text == b.text
  {
    var f := PayloadFieldOf(p, a);
    var g := PayloadFieldOf(p, b);
    SamePayloadEntry(p, f, g);
  }

  lemma EnvelopeAgreesWithPayload(codec: Codec, p: ResponsePacket, a: Entry, b: Entry)
    requires PayloadKeysOk(p) && RunAgrees(p)
    requires a in EnvelopeEntries(codec, p) && b in PayloadEntries(p.payload) && a.key == b.key
    ensures a.text == b.text
  {
    EnvelopeTexts(codec, p);
    var g := PayloadFieldOf(p, b);
    KeyFacts(p.responseType, g.key);
    SharedRunKey(codec, p, a, g);
  }

  lemma EntriesAreConsistent(codec: Codec, p: ResponsePacket)
    requires PayloadKeysOk(p) && RunAgrees(p)
    ensures SameTextPerKey(Entries(codec, p))
  {
    var es, ps := EnvelopeEntries(codec, p), PayloadEntries(p.payload);
    EnvelopeTexts(codec, p);
    forall a, b | a in ps && b in ps && a.key == b.key ensures a.text == b.text {
      PayloadEntriesAgree(p, a, b);
    }
    forall a, b | a in es && b in ps && a.key == b.key ensures a.text == b.text {
      EnvelopeAgreesWithPayload(codec, p, a, b);
    }
  }

  lemma SharedRunKey(codec: Codec, p: ResponsePacket, a: Entry, g: Field)
    requires a in EnvelopeEntries(codec, p) && g in p.payload && RunAgrees(p)
    requires a.key == YamlKey(g.key) && p.responseType.ExecutionAcknowledged? && g.key == "executor_run_id"
    requires a.text == EnvelopeText(codec, p, a.key)
    ensures a.text == ValueText(g.key, g.value)
  {
    EnvelopeLacks(codec, p);
    assert KeyIn(EnvelopeEntries(codec, p), "executor_run_id");
    ShortWords();
    WordIsPlain(g.key);
    NoTwoNoDigest(g.key);
  }

  // ---------------------------------------------------------------- evidence as text

  lemma BodyLeavesEvidence(m: map<string, Json>, body: string)
    requires "evidence_refs" in m
    ensures "evidence_refs" in AssignBody(m, body) && AssignBody(m, body)["evidence_refs"] == m["evidence_refs"]
  {
  }

  /** Main result. A document whose evidence is not the JSON text of a list is not parsed, whatever else it says. */
  lemma EvidenceIsAListInText(codec: Codec, mapping: map<string, string>, body: string)
    requires "evidence_refs" in mapping && FromParts(codec, mapping, body).Ok?
    ensures mapping["evidence_refs"] != ""
    ensures codec.loads(mapping["evidence_refs"]).Some? && codec.loads(mapping["evidence_refs"]).value.List?
  {
    BodyLeavesEvidence(Texts(mapping), body);
  }
}
