/** What the validator is handed when a printed packet is parsed. */
module ReadBack {
  import opened Wrappers
  import opened Packets
  import opened Validate
  import opened ValidationLaws
  import opened Markdown
  import opened FrontMatter
  import opened PayloadKeys
  import opened Envelope
  import Text

  // ---------------------------------------------------------------- the mapping

  lemma BodyKeysApart()
    ensures BODY_KEYS !! TOP_KEYS && "body_sha256" !in BODY_KEYS && "payload" !in TOP_KEYS
  {
  }

  /** Assigning the prose body adds at most one body field and changes nothing else. */
  lemma AssignBodyKeeps(m: map<string, Json>, body: string)
    ensures forall k <- m.Keys :: k in AssignBody(m, body) && AssignBody(m, body)[k] == m[k]
    ensures forall k <- AssignBody(m, body).Keys :: k in m || k in BODY_KEYS
  {
  }

  /** What reading `key` gives when the envelope carries the line `key: text`. */
  function ReadText(text: string): Json {
    if Kept(text) then Str(CleanValue(text)) else Null
  }

  function MappingOf(codec: Codec, p: ResponsePacket, body: string): map<string, Json> {
    AssignBody(Texts(Gather(map[], Entries(codec, p))), body)
  }

  lemma EntryReads(codec: Codec, p: ResponsePacket, body: string, e: Entry)
    requires SameTextPerKey(Entries(codec, p)) && e in Entries(codec, p) && e.key !in BODY_KEYS
    ensures Read(MappingOf(codec, p, body), e.key) == ReadText(e.text)
    ensures e.key in MappingOf(codec, p, body) <==> Kept(e.text)
  {
    GatherReads(map[], Entries(codec, p));
    AssignBodyKeeps(Texts(Gather(map[], Entries(codec, p))), body);
    assert AgreesWith(Gather(map[], Entries(codec, p)), e);
  }

  lemma OtherKeysReadNothing(codec: Codec, p: ResponsePacket, body: string, key: string)
    requires SameTextPerKey(Entries(codec, p)) && !KeyIn(Entries(codec, p), key) && key !in BODY_KEYS
    ensures key !in MappingOf(codec, p, body)
  {
    GatherReads(map[], Entries(codec, p));
    AssignBodyKeeps(Texts(Gather(map[], Entries(codec, p))), body);
  }

  // ---------------------------------------------------------------- the raw packet

  lemma RawReads(codec: Codec, m: map<string, Json>, raw: map<string, Json>)
    requires RawFrom(codec, m) == Ok(raw)
    ensures Read(raw, "payload") == Obj(WithRun(m, PayloadMap(m))) && "payload" in raw
    ensures forall k <- TOP_KEYS :: (k in raw <==> k in m)
    ensures forall k <- TOP_KEYS :: k != "evidence_refs" ==> Read(raw, k) == Read(m, k)
    ensures "evidence_refs" in m ==> MarkdownEvidence(codec, m["evidence_refs"]) == Ok(Read(raw, "evidence_refs"))
    ensures raw.Keys <= TOP_KEYS + {"payload"}
  {
    BodyKeysApart();
  }

  lemma TopKeysAreKnown()
    ensures forall k <- TOP_KEYS + {"payload"} :: k in COMMON_REQUIRED || k in COMMON_OPTIONAL
    ensures forall k <- COMMON_REQUIRED :: k in TOP_KEYS
  {
  }

  lemma RawIsKnown(codec: Codec, m: map<string, Json>, raw: map<string, Json>)
    requires RawFrom(codec, m) == Ok(raw) && forall k <- COMMON_REQUIRED :: k in m
    ensures KnownKeys(raw)
  {
    RawReads(codec, m, raw);
    TopKeysAreKnown();
  }

  // ---------------------------------------------------------------- payload values

  predicate IsNumber(key: string) {
    key == "percent" || key == "ledger_sequence"
  }

  /** What the payload map holds for a printed field. */
  function ReadValue(key: string, text: string): Json {
    if IsNumber(key) then Number(ReadText(text)) else ReadText(text)
  }

  lemma PayloadMapReads(m: map<string, Json>, key: string, text: string)
    requires YamlKey(key) !in TOP_KEYS && key != "body_sha256"
    requires Read(m, YamlKey(key)) == ReadText(text) && (YamlKey(key) in m <==> Kept(text))
    ensures Read(PayloadMap(m), key) == ReadValue(key, text)
    ensures key in PayloadMap(m) <==> Kept(text)
  {
  }

  lemma PayloadMapKeys(m: map<string, Json>, key: string)
    requires key in PayloadMap(m)
    ensures key != "body_sha256" && YamlKey(key) in m && YamlKey(key) !in TOP_KEYS
  {
    NotTop();
  }

  /** A field of the payload that is printed in the envelope survives exactly under this condition. */
  predicate PayloadFieldOk(f: Field) {
    match f.value
    case Bool(_) => false
    case Int(n) => n >= 0
    case Str(s) => EndsWith(f.key, "sha256") || HeaderOk(s)
    case _ => false
  }

  lemma DigestFieldReads(t: ResponseType, f: Field)
    requires IsPayloadKey(t, f.key) && EndsWith(f.key, "sha256")
    requires FieldValue(RulesFor(t), f.key, f.value) == Ok(f.value)
    ensures f.value.Str? && IsDigest(f.value.s)
    ensures ValueText(f.key, f.value) == "sha256:" + f.value.s && Kept(ValueText(f.key, f.value))
    ensures FieldValue(RulesFor(t), f.key, ReadValue(f.key, ValueText(f.key, f.value))) == Ok(f.value)
  {
    KeyFacts(t, f.key);
    var d := f.value.s;
    assert "sha256:" <= d ==> |Text.RemovePrefix(d, "sha256:")| < |d|;
    assert d[0] != 's';
    assert !("sha256:" <= d);
    HexIsHeader(d);
    HexIsDigest(d);
  }

  lemma NumberFieldReads(t: ResponseType, f: Field)
    requires IsPayloadKey(t, f.key) && IsNumber(f.key) && FieldValue(RulesFor(t), f.key, f.value) == Ok(f.value)
    requires WellFormed(RulesFor(t))
    ensures f.value.Int? || f.value.Bool?
    ensures FieldValue(RulesFor(t), f.key, ReadValue(f.key, ValueText(f.key, f.value))) == Ok(f.value) <==> PayloadFieldOk(f)
    ensures PayloadFieldOk(f) ==> Kept(ValueText(f.key, f.value))
  {
    KeyFacts(t, f.key);
    match f.value
    case Int(n) =>
      if n >= 0 {
        DecimalIsHeader(n);
        Text.DecimalParses(n);
      } else {
        NegativeReads(n);
      }
    case Bool(b) => TruthReads(b);
  }

  lemma NegativeReads(n: int)
    requires n < 0
    ensures !Number(ReadText(Text.Decimal(n))).Int?
  {
    var text := Text.Decimal(n);
    Text.DecimalParses(-n);
    CleanOfSolid(text);
    assert CleanValue(text)[0] == '-';
  }

  lemma TruthReads(b: bool)
    ensures !Number(ReadText(if b then "true" else "false")).Int? && !Number(ReadText(if b then "true" else "false")).Bool?
  {
    CleanOfSolid("true");
    CleanOfSolid("false");
    assert "true"[0] == 't' && "false"[0] == 'f';
  }

  lemma OtherFieldReads(t: ResponseType, f: Field)
    requires IsPayloadKey(t, f.key) && !EndsWith(f.key, "sha256") && !IsNumber(f.key)
    requires FieldValue(RulesFor(t), f.key, f.value) == Ok(f.value) && WellFormed(RulesFor(t))
    requires f.value.Str? ==> Text.BreakFree(f.value.s)
    ensures f.value.Str? || f.value.Bool?
    ensures FieldValue(RulesFor(t), f.key, ReadValue(f.key, ValueText(f.key, f.value))) == Ok(f.value) <==> PayloadFieldOk(f)
    ensures PayloadFieldOk(f) ==> Kept(ValueText(f.key, f.value))
  {
    KeyFacts(t, f.key);
  }

  /** A printed payload field validates to itself again exactly when it is one of those that survive. */
  lemma FieldReadsIff(t: ResponseType, f: Field)
    requires IsPayloadKey(t, f.key) && FieldValue(RulesFor(t), f.key, f.value) == Ok(f.value)
    requires f.value.Str? ==> EndsWith(f.key, "sha256") || Text.BreakFree(f.value.s)
    ensures FieldValue(RulesFor(t), f.key, ReadValue(f.key, ValueText(f.key, f.value))) == Ok(f.value) <==> PayloadFieldOk(f)
    ensures PayloadFieldOk(f) ==> Kept(ValueText(f.key, f.value))
  {
    RulesAreWellFormed(t);
    if EndsWith(f.key, "sha256") {
      DigestFieldReads(t, f);
    } else if IsNumber(f.key) {
      NumberFieldReads(t, f);
    } else {
      OtherFieldReads(t, f);
    }
  }
}
