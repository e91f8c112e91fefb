/** What a response packet must look like: validation accepts exactly these objects, and takes over what they say. */
module Schema {
  import opened Wrappers
  import opened Packets
  import opened Validate
  import opened ValidationLaws
  import opened PayloadKeys
  import Text

  // ---------------------------------------------------------------- values

  /** A non-empty text of at most `limit` bytes. */
  predicate TextUpTo(v: Json, limit: nat) {
    v.Str? && v.s != "" && Text.Utf8Length(v.s) <= limit
  }

  predicate ShortText(v: Json) {
    TextUpTo(v, 8192)
  }

  predicate LongText(v: Json) {
    TextUpTo(v, 262144)
  }

  function Unprefixed(digest: string): string {
    if |digest| >= 7 && digest[..7] == "sha256:" then digest[7..] else digest
  }

  /** 64 lower-case hexadecimal digits, perhaps with the prefix sha256: before them. */
  predicate DigestText(v: Json) {
    && ShortText(v)
    && (var d := Unprefixed(v.s);
        |d| == 64 && forall i :: 0 <= i < 64 ==> '0' <= d[i] <= '9' || 'a' <= d[i] <= 'f')
  }

  predicate WholeNumber(v: Json) {
    v.Int? || v.Bool?
  }

  predicate Percent(v: Json) {
    v.Bool? || (v.Int? && 0 <= v.n <= 100)
  }

  predicate Outcome(v: Json) {
    v == Str("APPROVED") || v == Str("REVISE") || v == Str("REJECTED")
  }

  datatype Kind = Short | Long | Hex | Whole | Flag | Share | Result

  predicate Is(v: Json, kind: Kind) {
    match kind
    case Short => ShortText(v)
    case Long => LongText(v)
    case Hex => DigestText(v)
    case Whole => WholeNumber(v)
    case Flag => v.Bool?
    case Share => Percent(v)
    case Result => Outcome(v)
  }

  // ---------------------------------------------------------------- payloads

  predicate Question(v: Json) {
    v.Obj? && v.fields.Keys == {"id", "text"} && ShortText(v.fields["id"]) && LongText(v.fields["text"])
  }

  datatype Slot = Slot(key: string, kind: Kind, required: bool)

  /** The fields of each type but question.blocked, in the order in which they are kept. */
  function Shape(t: ResponseType): seq<Slot> {
    match t
    case ReceiptAccepted =>
      [Slot("receipt_type", Short, true), Slot("status", Short, true), Slot("content_sha256", Hex, true),
       Slot("ledger_sequence", Whole, false), Slot("bundle_sha256", Hex, false), Slot("duplicate", Flag, false)]
    case PlanCompleted =>
      [Slot("content", Long, true), Slot("content_sha256", Hex, true), Slot("title", Short, false), Slot("plan_id", Short, false)]
    case QuestionBlocked => []
    case ExecutionAcknowledged =>
      [Slot("executor", Short, true), Slot("executor_run_id", Short, true), Slot("message", Short, false)]
    case ExecutionProgress => [Slot("message", Short, true), Slot("percent", Share, false)]
    case ExecutionCompleted =>
      [Slot("summary", Long, true), Slot("content_sha256", Hex, false), Slot("repository", Short, false),
       Slot("branch", Short, false), Slot("base_ref", Short, false), Slot("commit_sha", Short, false),
       Slot("pull_request_url", Short, false), Slot("limitations", Short, false), Slot("blockers", Short, false)]
    case ExecutionFailed => [Slot("error_type", Short, true), Slot("message", Short, true)]
    case ReviewCompleted => [Slot("outcome", Result, true), Slot("rationale", Long, true)]
  }

  /** The field is there if it must be, and of its kind if it is there. */
  predicate SlotFits(m: map<string, Json>, slot: Slot) {
    if slot.required then slot.key in m && Is(m[slot.key], slot.kind)
    else slot.key !in m || m[slot.key].Null? || Is(m[slot.key], slot.kind)
  }

  predicate QuestionsFit(m: map<string, Json>) {
    && "questions" in m && m["questions"].List? && 1 <= |m["questions"].items| <= 32
    && forall q <- m["questions"].items :: Question(q)
  }

  /** No field but those of the shape, and every one fits. */
  predicate PayloadFits(t: ResponseType, m: map<string, Json>) {
    if t.QuestionBlocked? then QuestionsFit(m)
    else
      && (forall k <- m.Keys :: exists slot <- Shape(t) :: slot.key == k)
      && (forall slot <- Shape(t) :: SlotFits(m, slot))
  }

  // ---------------------------------------------------------------- values are checked as stated

  lemma StringAcceptedIff(v: Json, limit: nat)
    ensures RequireString(v, limit).Ok? <==> TextUpTo(v, limit)
    ensures RequireString(v, limit).Ok? ==> RequireString(v, limit).value == v.s
  {
  }

  lemma DigestAcceptedIff(v: Json)
    ensures Digest(v).Ok? <==> DigestText(v)
  {
    StringAcceptedIff(v, 8192);
    if v.Str? {
      PrefixIsRemoved(v.s);
    }
  }

  lemma PrefixIsRemoved(digest: string)
    ensures Text.RemovePrefix(digest, "sha256:") == Unprefixed(digest)
  {
  }

  // ---------------------------------------------------------------- objects

  lemma {:induction false} RequiredAcceptedIff(m: map<string, Json>, rules: Rules, keys: seq<string>)
    ensures CollectRequired(m, rules, keys).Ok? <==> forall k <- keys :: k in m && FieldValue(rules, k, m[k]).Ok?
  {
    if keys != [] {
      RequiredAcceptedIff(m, rules, keys[1..]);
      assert keys == [keys[0]] + keys[1..];
    }
  }

  lemma {:induction false} OptionalAcceptedIff(m: map<string, Json>, rules: Rules, keys: seq<string>)
    ensures CollectOptional(m, rules, keys).Ok? <==>
            forall k <- keys :: Read(m, k).Null? || (k in m && FieldValue(rules, k, m[k]).Ok?)
  {
    if keys != [] {
      OptionalAcceptedIff(m, rules, keys[1..]);
      assert keys == [keys[0]] + keys[1..];
    }
  }

  lemma ObjectAcceptedIff(m: map<string, Json>, rules: Rules)
    ensures Object(m, rules).Ok? <==>
            && (forall k <- m.Keys :: k in rules.required || k in rules.optional)
            && (forall k <- rules.required :: k in m && FieldValue(rules, k, m[k]).Ok?)
            && (forall k <- rules.optional :: Read(m, k).Null? || (k in m && FieldValue(rules, k, m[k]).Ok?))
  {
    RequiredAcceptedIff(m, rules, rules.required);
    OptionalAcceptedIff(m, rules, rules.optional);
  }

  lemma TextAcceptedIff(rules: Rules, key: string, v: Json)
    ensures TextOf(rules, key, v).Ok? <==> if key in rules.body then LongText(v) else ShortText(v)
  {
    StringAcceptedIff(v, Limit(rules, key));
  }

  lemma DigestFieldAcceptedIff(rules: Rules, key: string, v: Json)
    requires EndsWith(key, "sha256")
    ensures FieldValue(rules, key, v).Ok? <==> DigestText(v)
  {
    DigestAcceptedIff(v);
  }

  lemma OtherFieldAcceptedIff(rules: Rules, key: string, v: Json)
    requires !EndsWith(key, "sha256")
    requires key == "ledger_sequence" || key == "percent" || key == "duplicate" ==> key !in rules.required
    ensures FieldValue(rules, key, v).Ok? <==>
            if key == "ledger_sequence" || key == "percent" then WholeNumber(v)
            else if key == "duplicate" then v.Bool?
            else if key in rules.body then LongText(v) else ShortText(v)
  {
    TextAcceptedIff(rules, key, v);
  }

  // ---------------------------------------------------------------- the shapes are the rules

  /** The kind validation itself checks; the share and the outcome are looked at again afterwards. */
  function Checked(kind: Kind): Kind {
    match kind
    case Share => Whole
    case Result => Short
    case _ => kind
  }

  /** What a key means to validation, and the kind that says so. */
  predicate KeyMeans(key: string, body: set<string>, kind: Kind) {
    && (EndsWith(key, "sha256") <==> kind.Hex?)
    && (key == "ledger_sequence" || key == "percent" <==> Checked(kind).Whole?)
    && (key == "duplicate" <==> kind.Flag?)
    && (key in body <==> kind.Long?)
  }

  /** Slot `i` stands for the key at its place in the rules. */
  predicate SlotMatches(rules: Rules, slots: seq<Slot>, i: nat)
    requires i < |slots| == |rules.required| + |rules.optional|
  {
    var slot, n := slots[i], |rules.required|;
    && slot.required == (i < n)
    && slot.key == (if i < n then rules.required[i] else rules.optional[i - n])
    && KeyMeans(slot.key, rules.body, slot.kind)
  }

  ghost predicate ShapeMatches(t: ResponseType) {
    |Shape(t)| == |RulesFor(t).required| + |RulesFor(t).optional|
    && forall i :: 0 <= i < |Shape(t)| ==> SlotMatches(RulesFor(t), Shape(t), i)
  }

  predicate Special(key: string) {
    key == "ledger_sequence" || key == "percent" || key == "duplicate"
  }

  /** A plain word that is not one of the special three. */
  lemma PlainKey(key: string, body: set<string>, kind: Kind)
    requires WordKey(key) && !Special(key)
    requires kind.Short? || kind.Long? || kind.Result?
    requires key in body <==> kind.Long?
    ensures KeyMeans(key, body, kind)
  {
    WordIsPlain(key);
    NoTwoNoDigest(key);
  }

  lemma SpecialKey(key: string, body: set<string>, kind: Kind)
    requires WordKey(key) && key !in body
    requires if key == "duplicate" then kind.Flag? else (key == "ledger_sequence" || key == "percent") && Checked(kind).Whole?
    requires key == "duplicate" ==> key != "ledger_sequence" && key != "percent"
    requires key != "duplicate" || kind.Flag?
    ensures KeyMeans(key, body, kind)
  {
    WordIsPlain(key);
    NoTwoNoDigest(key);
    assert "duplicate" != "ledger_sequence" && "duplicate" != "percent";
  }

  lemma DigestKey(key: string, body: set<string>)
    requires (key == "content_sha256" || key == "bundle_sha256") && key !in body
    ensures KeyMeans(key, body, Hex)
  {
    DigestKeys();
    assert "content_sha256"[7] == '_' && "bundle_sha256"[6] == '_';
    assert |"content_sha256"| == 14 && |"bundle_sha256"| == 13;
  }

  lemma WordsAreNotSpecial()
    ensures !Special("receipt_type") && !Special("status") && !Special("content") && !Special("title") && !Special("plan_id")
    ensures !Special("executor") && !Special("executor_run_id") && !Special("message") && !Special("summary")
  {
    assert "content"[0] == 'c' && "plan_id"[1] == 'l' && "message"[0] == 'm' && "summary"[0] == 's' && "percent"[0] == 'p';
    assert "executor_run_id"[0] == 'e' && "ledger_sequence"[0] == 'l' && "percent"[1] == 'e';
  }

  lemma MoreWordsAreNotSpecial()
    ensures !Special("repository") && !Special("branch") && !Special("base_ref") && !Special("commit_sha")
    ensures !Special("pull_request_url") && !Special("limitations") && !Special("blockers") && !Special("error_type")
    ensures !Special("outcome") && !Special("rationale")
  {
    assert "outcome"[0] == 'o' && "percent"[0] == 'p' && "rationale"[0] == 'r' && "duplicate"[0] == 'd';
  }

  lemma FailureShape()
    ensures ShapeMatches(ResponseType.ExecutionFailed)
  {
    ShortWords();
    LongWords();
    WordsAreNotSpecial();
    MoreWordsAreNotSpecial();
    PlainKey("error_type", {}, Short);
    PlainKey("message", {}, Short);
  }

  lemma ReviewShape()
    ensures ShapeMatches(ResponseType.ReviewCompleted)
  {
    LongWords();
    MoreWordsAreNotSpecial();
    PlainKey("outcome", {"rationale"}, Result);
    PlainKey("rationale", {"rationale"}, Long);
  }

  lemma AcknowledgementShape()
    ensures ShapeMatches(ResponseType.ExecutionAcknowledged)
  {
    ShortWords();
    WordsAreNotSpecial();
    PlainKey("executor", {}, Short);
    PlainKey("executor_run_id", {}, Short);
    PlainKey("message", {}, Short);
  }

  lemma ProgressShape()
    ensures ShapeMatches(ResponseType.ExecutionProgress)
  {
    ShortWords();
    WordsAreNotSpecial();
    PlainKey("message", {}, Short);
    SpecialKey("percent", {}, Share);
  }

  lemma PlanShape()
    ensures ShapeMatches(ResponseType.PlanCompleted)
  {
    ShortWords();
    WordsAreNotSpecial();
    PlainKey("content", {"content"}, Long);
    DigestKey("content_sha256", {"content"});
    PlainKey("title", {"content"}, Short);
    PlainKey("plan_id", {"content"}, Short);
  }

  lemma ReceiptKeys()
    ensures KeyMeans("receipt_type", {}, Short) && KeyMeans("status", {}, Short) && KeyMeans("content_sha256", {}, Hex)
    ensures KeyMeans("ledger_sequence", {}, Whole) && KeyMeans("bundle_sha256", {}, Hex) && KeyMeans("duplicate", {}, Flag)
  {
    ShortWords();
    WordsAreNotSpecial();
    PlainKey("receipt_type", {}, Short);
    PlainKey("status", {}, Short);
    DigestKey("content_sha256", {});
    SpecialKey("ledger_sequence", {}, Whole);
    DigestKey("bundle_sha256", {});
    SpecialKey("duplicate", {}, Flag);
  }

  lemma ReceiptShape()
    ensures ShapeMatches(ReceiptAccepted)
  {
    ReceiptKeys();
  }

  lemma CompletionKeys()
    ensures KeyMeans("summary", {"summary"}, Long) && KeyMeans("content_sha256", {"summary"}, Hex)
    ensures KeyMeans("repository", {"summary"}, Short) && KeyMeans("branch", {"summary"}, Short)
    ensures KeyMeans("base_ref", {"summary"}, Short)
  {
    LongWords();
    WordsAreNotSpecial();
    MoreWordsAreNotSpecial();
    PlainKey("summary", {"summary"}, Long);
    DigestKey("content_sha256", {"summary"});
    PlainKey("repository", {"summary"}, Short);
    PlainKey("branch", {"summary"}, Short);
    PlainKey("base_ref", {"summary"}, Short);
  }

  lemma MoreCompletionKeys()
    ensures KeyMeans("commit_sha", {"summary"}, Short) && KeyMeans("pull_request_url", {"summary"}, Short)
    ensures KeyMeans("limitations", {"summary"}, Short) && KeyMeans("blockers", {"summary"}, Short)
  {
    LongWords();
    MoreWordsAreNotSpecial();
    PlainKey("commit_sha", {"summary"}, Short);
    PlainKey("pull_request_url", {"summary"}, Short);
    PlainKey("limitations", {"summary"}, Short);
    PlainKey("blockers", {"summary"}, Short);
  }

  lemma FirstCompletionSlots()
    ensures
      var rules, slots := RulesFor(ResponseType.ExecutionCompleted), Shape(ResponseType.ExecutionCompleted);
      && |slots| == |rules.required| + |rules.optional| == 9
      && forall i :: 0 <= i < 5 ==> SlotMatches(rules, slots, i)
  {
    CompletionKeys();
  }

  lemma LastCompletionSlots()
    ensures
      var rules, slots := RulesFor(ResponseType.ExecutionCompleted), Shape(ResponseType.ExecutionCompleted);
      && |slots| == |rules.required| + |rules.optional| == 9
      && forall i :: 5 <= i < 9 ==> SlotMatches(rules, slots, i)
  {
    MoreCompletionKeys();
  }

  lemma CompletionShape()
    ensures ShapeMatches(ResponseType.ExecutionCompleted)
  {
    FirstCompletionSlots();
    LastCompletionSlots();
  }

  lemma ShapesMatch(t: ResponseType)
    requires !t.QuestionBlocked?
    ensures ShapeMatches(t)
  {
    match t
    case ReceiptAccepted => ReceiptShape();
    case PlanCompleted => PlanShape();
    case ExecutionAcknowledged => AcknowledgementShape();
    case ExecutionProgress => ProgressShape();
    case ExecutionCompleted => CompletionShape();
    case ExecutionFailed => FailureShape();
    case ReviewCompleted => ReviewShape();
  }

  // ---------------------------------------------------------------- payloads are accepted as stated

  /** What validation makes of one slot before it looks at shares and outcomes again. */
  lemma SlotAcceptedIff(rules: Rules, slots: seq<Slot>, i: nat, v: Json)
    requires i < |slots| == |rules.required| + |rules.optional| && SlotMatches(rules, slots, i)
    requires Special(slots[i].key) ==> slots[i].key !in rules.required
    ensures FieldValue(rules, slots[i].key, v).Ok? <==> Is(v, Checked(slots[i].kind))
  {
    if EndsWith(slots[i].key, "sha256") {
      DigestFieldAcceptedIff(rules, slots[i].key, v);
    } else {
      OtherFieldAcceptedIff(rules, slots[i].key, v);
    }
  }

  predicate CheckedSlotFits(m: map<string, Json>, slot: Slot) {
    SlotFits(m, slot.(kind := Checked(slot.kind)))
  }

  /** An object is accepted exactly when its fields are those of the slots and fit as they are checked. */
  lemma ObjectFitsIff(m: map<string, Json>, rules: Rules, slots: seq<Slot>)
    requires |slots| == |rules.required| + |rules.optional|
    requires forall i :: 0 <= i < |slots| ==> SlotMatches(rules, slots, i)
    requires forall key <- rules.required :: !Special(key)
    ensures Object(m, rules).Ok? <==>
            && (forall k <- m.Keys :: exists slot <- slots :: slot.key == k)
            && (forall slot <- slots :: CheckedSlotFits(m, slot))
  {
    ObjectAcceptedIff(m, rules);
    SlotsAreKeys(rules, slots);
    var n := |rules.required|;
    forall i | 0 <= i < |slots|
      ensures CheckedSlotFits(m, slots[i]) <==>
              if i < n then slots[i].key in m && FieldValue(rules, slots[i].key, m[slots[i].key]).Ok?
              else Read(m, slots[i].key).Null? || (slots[i].key in m && FieldValue(rules, slots[i].key, m[slots[i].key]).Ok?)
    {
      assert SlotMatches(rules, slots, i);
      if slots[i].key in m {
        SlotAcceptedIff(rules, slots, i, m[slots[i].key]);
      }
    }
    FitsByPlace(m, rules, slots);
  }

  lemma SlotsAreKeys(rules: Rules, slots: seq<Slot>)
    requires |slots| == |rules.required| + |rules.optional|
    requires forall i :: 0 <= i < |slots| ==> SlotMatches(rules, slots, i)
    ensures forall k :: (exists slot <- slots :: slot.key == k) <==> k in rules.required || k in rules.optional
  {
    var n := |rules.required|;
    forall k ensures (exists slot <- slots :: slot.key == k) <==> k in rules.required || k in rules.optional {
      if k in rules.required {
        var i :| 0 <= i < n && rules.required[i] == k;
        assert SlotMatches(rules, slots, i) && slots[i] in slots;
      }
      if k in rules.optional {
        var i :| 0 <= i < |rules.optional| && rules.optional[i] == k;
        assert SlotMatches(rules, slots, n + i) && slots[n + i] in slots;
      }
      if exists slot <- slots :: slot.key == k {
        var i :| 0 <= i < |slots| && slots[i].key == k;
        assert SlotMatches(rules, slots, i);
      }
    }
  }

  /** The rules speak of keys, the slots of places. */
  lemma FitsByPlace(m: map<string, Json>, rules: Rules, slots: seq<Slot>)
    requires |slots| == |rules.required| + |rules.optional|
    requires forall i :: 0 <= i < |slots| ==> SlotMatches(rules, slots, i)
    ensures (forall k <- rules.required :: k in m && FieldValue(rules, k, m[k]).Ok?) <==>
            forall i :: 0 <= i < |rules.required| ==> slots[i].key in m && FieldValue(rules, slots[i].key, m[slots[i].key]).Ok?
    ensures (forall k <- rules.optional :: Read(m, k).Null? || (k in m && FieldValue(rules, k, m[k]).Ok?)) <==>
            forall i :: |rules.required| <= i < |slots| ==>
              Read(m, slots[i].key).Null? || (slots[i].key in m && FieldValue(rules, slots[i].key, m[slots[i].key]).Ok?)
  {
    var n := |rules.required|;
    forall i | 0 <= i < n ensures slots[i].key == rules.required[i] { assert SlotMatches(rules, slots, i); }
    forall i | 0 <= i < |rules.optional| ensures slots[n + i].key == rules.optional[i] { assert SlotMatches(rules, slots, n + i); }
    forall i | n <= i < |slots| ensures slots[i].key == rules.optional[i - n] { assert SlotMatches(rules, slots, i); }
  }

  // ---------------------------------------------------------------- shares, outcomes, questions

  lemma {:induction false} GetFirst(fields: seq<Field>, key: string)
    requires forall i, j :: 0 <= i < j < |fields| ==> fields[i].key != fields[j].key
    ensures Get(fields, key).Some? <==> HasKey(fields, key)
    ensures forall f <- fields :: f.key == key ==> Get(fields, key) == Some(f.value)
  {
    if fields != [] {
      GetFirst(fields[1..], key);
      assert fields == [fields[0]] + fields[1..];
    }
  }

  /** The validated value of a field, if it is there. */
  lemma ValidatedField(m: map<string, Json>, rules: Rules, key: string)
    requires WellFormed(rules) && Object(m, rules).Ok? && (key in rules.required || key in rules.optional)
    ensures
      var value := Get(Object(m, rules).value, key);
      && (value.Some? ==> key in m && FieldValue(rules, key, m[key]) == Ok(value.value))
      && (value.None? ==> key !in m || m[key].Null?)
      && (key in rules.required ==> value.Some?)
  {
    ObjectIsSound(m, rules);
    GetFirst(Object(m, rules).value, key);
    if HasKey(Object(m, rules).value, key) {
      var f :| f in Object(m, rules).value && f.key == key;
      assert Validated(m, rules, f);
    }
  }

  lemma PercentKept(v: Json)
    requires FieldValue(RulesFor(ResponseType.ExecutionProgress), "percent", v).Ok?
    ensures FieldValue(RulesFor(ResponseType.ExecutionProgress), "percent", v) == Ok(v)
  {
    ShortWords();
    SpecialKey("percent", {}, Share);
  }

  lemma NullIsNoNumber(v: Json)
    ensures FieldValue(RulesFor(ResponseType.ExecutionProgress), "percent", v).Ok? ==> !v.Null?
  {
    ShortWords();
    SpecialKey("percent", {}, Share);
  }

  lemma OutcomeKept(v: Json)
    requires FieldValue(RulesFor(ResponseType.ReviewCompleted), "outcome", v).Ok?
    ensures FieldValue(RulesFor(ResponseType.ReviewCompleted), "outcome", v) == Ok(v)
  {
    LongWords();
    MoreWordsAreNotSpecial();
    PlainKey("outcome", {"rationale"}, Result);
  }

  lemma ShareIsChecked(m: map<string, Json>)
    requires Object(m, RulesFor(ResponseType.ExecutionProgress)).Ok?
    ensures ExtraOk(ResponseType.ExecutionProgress, Object(m, RulesFor(ResponseType.ExecutionProgress)).value) <==>
            SlotFits(m, Slot("percent", Share, false))
  {
    RulesAreWellFormed(ResponseType.ExecutionProgress);
    ValidatedField(m, RulesFor(ResponseType.ExecutionProgress), "percent");
    if "percent" in m && FieldValue(RulesFor(ResponseType.ExecutionProgress), "percent", m["percent"]).Ok? {
      PercentKept(m["percent"]);
      NullIsNoNumber(m["percent"]);
    }
  }

  /** The validated outcome is the one that was given. */
  lemma OutcomeIsGiven(m: map<string, Json>)
    requires Object(m, RulesFor(ResponseType.ReviewCompleted)).Ok?
    ensures "outcome" in m
    ensures Get(Object(m, RulesFor(ResponseType.ReviewCompleted)).value, "outcome") == Some(m["outcome"])
  {
    RulesAreWellFormed(ResponseType.ReviewCompleted);
    ValidatedField(m, RulesFor(ResponseType.ReviewCompleted), "outcome");
    OutcomeKept(m["outcome"]);
  }

  lemma OutcomeIsChecked(m: map<string, Json>)
    requires Object(m, RulesFor(ResponseType.ReviewCompleted)).Ok?
    ensures ExtraOk(ResponseType.ReviewCompleted, Object(m, RulesFor(ResponseType.ReviewCompleted)).value) <==>
            SlotFits(m, Slot("outcome", Result, true))
  {
    OutcomeIsGiven(m);
    OutcomeIsOneOfThree(m["outcome"]);
  }

  lemma OutcomeIsOneOfThree(v: Json)
    ensures v.Str? && v.s in REVIEW_OUTCOMES <==> Is(v, Result)
  {
  }

  const QUESTION_SLOTS := [Slot("id", Short, true), Slot("text", Long, true)]

  lemma QuestionShape()
    ensures forall i :: 0 <= i < 2 ==> SlotMatches(QUESTION_RULES, QUESTION_SLOTS, i)
    ensures forall key <- QUESTION_RULES.required :: !Special(key)
  {
    assert WordKey("id") && WordKey("text");
    PlainKey("id", {"text"}, Short);
    PlainKey("text", {"text"}, Long);
  }

  lemma QuestionAcceptedIff(v: Json)
    ensures v.Obj? && Object(v.fields, QUESTION_RULES).Ok? <==> Question(v)
  {
    if v.Obj? {
      QuestionShape();
      ObjectFitsIff(v.fields, QUESTION_RULES, QUESTION_SLOTS);
      QuestionByFields(v.fields);
    }
  }

  lemma QuestionByFields(m: map<string, Json>)
    ensures (forall k <- m.Keys :: exists slot <- QUESTION_SLOTS :: slot.key == k)
            && (forall slot <- QUESTION_SLOTS :: CheckedSlotFits(m, slot))
            <==> Question(Obj(m))
  {
    assert QUESTION_SLOTS[0] in QUESTION_SLOTS && QUESTION_SLOTS[1] in QUESTION_SLOTS;
    if (forall k <- m.Keys :: exists slot <- QUESTION_SLOTS :: slot.key == k)
       && (forall slot <- QUESTION_SLOTS :: CheckedSlotFits(m, slot)) {
      assert CheckedSlotFits(m, QUESTION_SLOTS[0]) && CheckedSlotFits(m, QUESTION_SLOTS[1]);
      forall k <- m.Keys ensures k in {"id", "text"} {
        var slot :| slot in QUESTION_SLOTS && slot.key == k;
      }
      assert m.Keys == {"id", "text"};
    }
  }

  lemma {:induction false} QuestionsAcceptedIff(items: seq<Json>)
    ensures CleanQuestions(items).Ok? <==> forall q <- items :: Question(q)
  {
    if items != [] {
      QuestionAcceptedIff(items[0]);
      QuestionsAcceptedIff(items[1..]);
      assert items == [items[0]] + items[1..];
    }
  }

  // ---------------------------------------------------------------- payloads

  lemma NoSpecialRequired(t: ResponseType)
    ensures forall key <- RulesFor(t).required :: !Special(key)
  {
    WordsAreNotSpecial();
    MoreWordsAreNotSpecial();
    assert |"content_sha256"| == 14;
  }

  /** Where no share and no outcome is asked for, a slot fits as it is checked. */
  lemma PlainShape(t: ResponseType, m: map<string, Json>)
    requires !t.ExecutionProgress? && !t.ReviewCompleted?
    ensures forall slot <- Shape(t) :: CheckedSlotFits(m, slot) <==> SlotFits(m, slot)
  {
    KindsOfShape(t);
  }

  lemma KindsOfShape(t: ResponseType)
    requires !t.ExecutionProgress? && !t.ReviewCompleted?
    ensures forall slot <- Shape(t) :: !slot.kind.Share? && !slot.kind.Result?
  {
    if t.ExecutionCompleted? {
      KindsOfCompletion();
    } else if t.ReceiptAccepted? {
      KindsOfReceipt();
    }
  }

  lemma KindsOfCompletion()
    ensures forall slot <- Shape(ResponseType.ExecutionCompleted) :: slot.kind.Long? || slot.kind.Hex? || slot.kind.Short?
  {
  }

  lemma KindsOfReceipt()
    ensures forall slot <- Shape(ResponseType.ReceiptAccepted) ::
              slot.kind.Short? || slot.kind.Hex? || slot.kind.Whole? || slot.kind.Flag?
  {
  }

  lemma ProgressFitsIff(m: map<string, Json>)
    ensures PayloadFits(ResponseType.ExecutionProgress, m) <==>
            && (forall k <- m.Keys :: exists slot <- Shape(ResponseType.ExecutionProgress) :: slot.key == k)
            && (forall slot <- Shape(ResponseType.ExecutionProgress) :: CheckedSlotFits(m, slot))
            && SlotFits(m, Slot("percent", Share, false))
  {
    var slots := Shape(ResponseType.ExecutionProgress);
    assert slots == [Slot("message", Short, true), Slot("percent", Share, false)];
    assert slots[0] in slots && slots[1] in slots;
    assert SlotFits(m, slots[1]) ==> CheckedSlotFits(m, slots[1]);
    assert SlotFits(m, slots[0]) <==> CheckedSlotFits(m, slots[0]);
  }

  lemma ReviewFitsIff(m: map<string, Json>)
    ensures PayloadFits(ResponseType.ReviewCompleted, m) <==>
            && (forall k <- m.Keys :: exists slot <- Shape(ResponseType.ReviewCompleted) :: slot.key == k)
            && (forall slot <- Shape(ResponseType.ReviewCompleted) :: CheckedSlotFits(m, slot))
            && SlotFits(m, Slot("outcome", Result, true))
  {
    var slots := Shape(ResponseType.ReviewCompleted);
    assert slots == [Slot("outcome", Result, true), Slot("rationale", Long, true)];
    assert slots[0] in slots && slots[1] in slots;
    OutcomeSlotIsChecked(m, slots[0]);
    assert SlotFits(m, slots[1]) <==> CheckedSlotFits(m, slots[1]);
  }

  lemma OutcomeSlotIsChecked(m: map<string, Json>, slot: Slot)
    requires slot.kind.Result?
    ensures SlotFits(m, slot) ==> CheckedSlotFits(m, slot)
  {
    OutcomesAreShort();
  }

  lemma OutcomesAreShort()
    ensures ShortText(Str("APPROVED")) && ShortText(Str("REVISE")) && ShortText(Str("REJECTED"))
  {
    AsciiLength("APPROVED");
    AsciiLength("REVISE");
    AsciiLength("REJECTED");
  }

  /** ASCII text has as many bytes as characters. */
  lemma {:induction false} AsciiLength(s: string)
    requires forall i :: 0 <= i < |s| ==> s[i] <= '~'
    ensures Text.Utf8Length(s) == |s|
  {
    if s != "" {
      AsciiLength(s[1..]);
    }
  }

  /** Main result. A payload is accepted if and only if it has the shape of its type. */
  lemma PayloadAcceptedIff(t: ResponseType, m: map<string, Json>)
    ensures ValidatePayload(t, m).Ok? <==> PayloadFits(t, m)
  {
    if t.QuestionBlocked? {
      if "questions" in m && m["questions"].List? {
        QuestionsAcceptedIff(m["questions"].items);
      }
    } else {
      ShapesMatch(t);
      NoSpecialRequired(t);
      ObjectFitsIff(m, RulesFor(t), Shape(t));
      if t.ExecutionProgress? {
        ProgressFitsIff(m);
        if Object(m, RulesFor(t)).Ok? { ShareIsChecked(m); }
      } else if t.ReviewCompleted? {
        ReviewFitsIff(m);
        if Object(m, RulesFor(t)).Ok? { OutcomeIsChecked(m); }
      } else {
        PlainShape(t, m);
      }
    }
  }

  // ---------------------------------------------------------------- evidence

  predicate ReferenceFits(v: Json) {
    && v.Obj?
    && v.fields.Keys <= {"artifact_id", "purpose", "byte_length", "sha256", "detected_media_type", "safe_filename"}
    && "purpose" in v.fields
    && v.fields["purpose"] in {Str("design_reference"), Str("data_contract"), Str("requirements_reference"), Str("other_reference")}
    && "artifact_id" in v.fields && ShortText(v.fields["artifact_id"])
    && "byte_length" in v.fields && v.fields["byte_length"].Int?
    && "sha256" in v.fields && DigestText(v.fields["sha256"])
    && ("detected_media_type" in v.fields && !v.fields["detected_media_type"].Null? ==> ShortText(v.fields["detected_media_type"]))
    && "safe_filename" in v.fields && ShortText(v.fields["safe_filename"])
  }

  /** The reference says what the object says, its digest bare. */
  predicate ReferenceSays(v: Json, r: EvidenceRef)
    requires ReferenceFits(v)
  {
    && Str(r.artifactId) == v.fields["artifact_id"] && Str(r.purpose) == v.fields["purpose"]
    && Int(r.byteLength) == v.fields["byte_length"] && r.sha256 == Unprefixed(v.fields["sha256"].s)
    && Str(r.safeFilename) == v.fields["safe_filename"]
    && (if "detected_media_type" in v.fields && !v.fields["detected_media_type"].Null?
        then r.detectedMediaType.Some? && Str(r.detectedMediaType.value) == v.fields["detected_media_type"]
        else r.detectedMediaType.None?)
  }

  lemma ReferenceAcceptedIff(v: Json)
    ensures v.Obj? && ParseRef(v.fields).Ok? <==> ReferenceFits(v)
    ensures v.Obj? && ParseRef(v.fields).Ok? ==> ReferenceSays(v, ParseRef(v.fields).value)
  {
    if v.Obj? {
      var m := v.fields;
      StringAcceptedIff(Read(m, "artifact_id"), 8192);
      StringAcceptedIff(Read(m, "safe_filename"), 8192);
      StringAcceptedIff(Read(m, "detected_media_type"), 8192);
      DigestAcceptedIff(Read(m, "sha256"));
      DigestIsBare(Read(m, "sha256"));
    }
  }

  lemma DigestIsBare(v: Json)
    ensures Digest(v).Ok? ==> Digest(v).value == Unprefixed(v.s)
  {
    if v.Str? { PrefixIsRemoved(v.s); }
  }

  lemma {:induction false} ReferencesAcceptedIff(items: seq<Json>)
    ensures ParseRefs(items).Ok? <==> forall v <- items :: ReferenceFits(v)
    ensures ParseRefs(items).Ok? ==>
              && |ParseRefs(items).value| == |items|
              && forall i :: 0 <= i < |items| ==> ReferenceSays(items[i], ParseRefs(items).value[i])
  {
    if items != [] {
      ReferenceAcceptedIff(items[0]);
      ReferencesAcceptedIff(items[1..]);
      assert items == [items[0]] + items[1..];
    }
  }

  predicate Empty(v: Json) {
    v in {Null, Bool(false), Int(0), Str(""), List([]), Obj(map[])}
  }

  predicate EvidenceFits(v: Json) {
    Empty(v) || (v.List? && |v.items| <= 10 && forall item <- v.items :: ReferenceFits(item))
  }

  lemma EvidenceAcceptedIff(v: Json)
    ensures ParseEvidence(v).Ok? <==> EvidenceFits(v)
  {
    ReferencesAcceptedIff(if Falsy(v) then [] else if v.List? then v.items else []);
  }

  // ---------------------------------------------------------------- packets

  /** The name of each type. */
  predicate NamesType(text: string, t: ResponseType) {
    match t
    case ReceiptAccepted => text == "receipt.accepted"
    case PlanCompleted => text == "plan.completed"
    case QuestionBlocked => text == "question.blocked"
    case ExecutionAcknowledged => text == "execution.acknowledged"
    case ExecutionProgress => text == "execution.progress"
    case ExecutionCompleted => text == "execution.completed"
    case ExecutionFailed => text == "execution.failed"
    case ReviewCompleted => text == "review.completed"
  }

  lemma TypeIsNamed(text: string, t: ResponseType)
    ensures TypeText(t) == text <==> NamesType(text, t)
  {
  }

  lemma TypeFound(text: string, t: ResponseType)
    requires TypeOf(text).Some?
    ensures NamesType(text, t) <==> TypeOf(text).value == t
  {
    var u := TypeOf(text).value;
    if u != t { NamesDiffer(t, u); }
  }

  lemma NamesDiffer(t: ResponseType, u: ResponseType)
    requires t != u
    ensures TypeText(t) != TypeText(u)
  {
    TypeLengths();
    assert TypeText(ResponseType.PlanCompleted)[0] == 'p';
    assert TypeText(ReceiptAccepted)[2] == 'c' && TypeText(ResponseType.ReviewCompleted)[2] == 'v';
    assert TypeText(ResponseType.QuestionBlocked)[0] == 'q' && TypeText(ResponseType.ExecutionFailed)[0] == 'e';
  }

  lemma TypeLengths()
    ensures |TypeText(ReceiptAccepted)| == 16 && |TypeText(ResponseType.PlanCompleted)| == 14
    ensures |TypeText(ResponseType.QuestionBlocked)| == 16 && |TypeText(ResponseType.ExecutionAcknowledged)| == 22
    ensures |TypeText(ResponseType.ExecutionProgress)| == 18 && |TypeText(ResponseType.ExecutionCompleted)| == 19
    ensures |TypeText(ResponseType.ExecutionFailed)| == 16 && |TypeText(ResponseType.ReviewCompleted)| == 16
  {
  }

  const PACKET_KEYS: set<string> := {
    "schema", "response_type", "work_order_id", "in_reply_to", "idempotency_key", "source_input_sha256", "created_at",
    "authority", "payload", "evidence_refs", "message_id", "correlation_id", "executor_run_id", "actor", "content_sha256"
  }

  /** What must be there, and nothing unknown. */
  predicate KeysFit(raw: map<string, Json>) {
    && raw.Keys <= PACKET_KEYS
    && "schema" in raw && "response_type" in raw && "work_order_id" in raw && "in_reply_to" in raw
    && "idempotency_key" in raw && "source_input_sha256" in raw && "created_at" in raw
  }

  predicate KindFits(raw: map<string, Json>, t: ResponseType) {
    && Read(raw, "schema") == Str("awr.response/v1")
    && Read(raw, "response_type").Str? && NamesType(Read(raw, "response_type").s, t)
    && ("authority" in raw ==> raw["authority"] == Str("report_only"))
  }

  /** What an absent or empty payload holds, and what a payload may not hold in any type. */
  function PayloadFields(raw: map<string, Json>): map<string, Json> {
    if Read(raw, "payload").Obj? then Read(raw, "payload").fields else map[]
  }

  predicate ContentFits(raw: map<string, Json>, t: ResponseType) {
    && (Empty(Read(raw, "payload")) || Read(raw, "payload").Obj?)
    && (forall k <- PayloadFields(raw).Keys ::
          k !in {"bytes", "diff", "log", "logs", "path", "report", "screenshot", "url", "signed_url"})
    && PayloadFits(t, PayloadFields(raw)) && EvidenceFits(Read(raw, "evidence_refs"))
  }

  predicate LineageFits(raw: map<string, Json>) {
    && ShortText(Read(raw, "work_order_id")) && ShortText(Read(raw, "in_reply_to"))
    && ShortText(Read(raw, "idempotency_key")) && DigestText(Read(raw, "source_input_sha256"))
    && ShortText(Read(raw, "created_at"))
  }

  predicate OptionalText(v: Json) {
    v.Null? || ShortText(v)
  }

  predicate NamesFit(raw: map<string, Json>) {
    && OptionalText(Read(raw, "message_id")) && OptionalText(Read(raw, "correlation_id"))
    && OptionalText(Read(raw, "executor_run_id")) && OptionalText(Read(raw, "actor"))
  }

  lemma KeysAcceptedIff(raw: map<string, Json>)
    ensures KnownKeys(raw) <==> KeysFit(raw)
  {
    forall k | k in raw ensures k in PACKET_KEYS <==> k in COMMON_REQUIRED || k in COMMON_OPTIONAL { KnownName(k); }
    RequiredNames(raw);
  }

  lemma KnownName(k: string)
    ensures k in PACKET_KEYS <==> k in COMMON_REQUIRED || k in COMMON_OPTIONAL
  {
  }

  lemma RequiredNames(raw: map<string, Json>)
    ensures (forall k <- COMMON_REQUIRED :: k in raw.Keys) <==>
            && "schema" in raw && "response_type" in raw && "work_order_id" in raw && "in_reply_to" in raw
            && "idempotency_key" in raw && "source_input_sha256" in raw && "created_at" in raw
  {
    var r := COMMON_REQUIRED;
    assert r[0] in r && r[1] in r && r[2] in r && r[3] in r && r[4] in r && r[5] in r && r[6] in r;
  }

  lemma KindAcceptedIff(raw: map<string, Json>, t: ResponseType)
    ensures ParseKind(raw) == Ok(t) <==> KindFits(raw, t)
  {
    if Read(raw, "response_type").Str? {
      var text := Read(raw, "response_type").s;
      TypeIsNamed(text, t);
      if TypeOf(text).Some? { TypeFound(text, t); }
    }
  }

  lemma ContentAcceptedIff(raw: map<string, Json>, t: ResponseType)
    ensures ParsePayload(raw, t).Ok? && ParseEvidence(Read(raw, "evidence_refs")).Ok? <==> ContentFits(raw, t)
  {
    PayloadPartIff(raw, t);
    EvidenceAcceptedIff(Read(raw, "evidence_refs"));
  }

  lemma EmptyIsFalsy(v: Json)
    ensures Falsy(v) <==> Empty(v)
  {
  }

  lemma ForbiddenNames(keys: set<string>)
    ensures keys !! FORBIDDEN_INLINE_KEYS <==>
            forall k <- keys :: k !in {"bytes", "diff", "log", "logs", "path", "report", "screenshot", "url", "signed_url"}
  {
  }

  lemma PayloadPartIff(raw: map<string, Json>, t: ResponseType)
    ensures ParsePayload(raw, t).Ok? <==>
            && (Empty(Read(raw, "payload")) || Read(raw, "payload").Obj?)
            && (forall k <- PayloadFields(raw).Keys ::
                  k !in {"bytes", "diff", "log", "logs", "path", "report", "screenshot", "url", "signed_url"})
            && PayloadFits(t, PayloadFields(raw))
  {
    EmptyIsFalsy(Read(raw, "payload"));
    ForbiddenNames(PayloadFields(raw).Keys);
    PayloadAcceptedIff(t, PayloadFields(raw));
    if Empty(Read(raw, "payload")) || Read(raw, "payload").Obj? {
      PayloadIsItsFields(raw);
    }
  }

  lemma PayloadIsItsFields(raw: map<string, Json>)
    requires Empty(Read(raw, "payload")) || Read(raw, "payload").Obj?
    ensures PayloadOf(Read(raw, "payload")) == Obj(PayloadFields(raw))
  {
  }

  /** What an accepted lineage says. */
  predicate LineageSays(raw: map<string, Json>, l: Lineage) {
    && Str(l.workOrderId) == Read(raw, "work_order_id") && Str(l.inReplyTo) == Read(raw, "in_reply_to")
    && Str(l.idempotencyKey) == Read(raw, "idempotency_key") && Str(l.createdAt) == Read(raw, "created_at")
    && Read(raw, "source_input_sha256").Str? && l.sourceInputSha256 == Unprefixed(Read(raw, "source_input_sha256").s)
  }

  lemma LineageAcceptedIff(raw: map<string, Json>)
    ensures ParseLineage(raw).Ok? <==> LineageFits(raw)
    ensures ParseLineage(raw).Ok? ==> LineageSays(raw, ParseLineage(raw).value)
  {
    StringAcceptedIff(Read(raw, "work_order_id"), 8192);
    StringAcceptedIff(Read(raw, "in_reply_to"), 8192);
    StringAcceptedIff(Read(raw, "idempotency_key"), 8192);
    StringAcceptedIff(Read(raw, "created_at"), 8192);
    DigestAcceptedIff(Read(raw, "source_input_sha256"));
    DigestIsBare(Read(raw, "source_input_sha256"));
  }

  predicate Says(v: Json, text: Option<string>) {
    if v.Null? then text.None? else text.Some? && v == Str(text.value)
  }

  lemma NamesAcceptedIff(raw: map<string, Json>)
    ensures ParseNames(raw).Ok? <==> NamesFit(raw)
    ensures ParseNames(raw).Ok? ==>
              && Says(Read(raw, "message_id"), ParseNames(raw).value.messageId)
              && Says(Read(raw, "correlation_id"), ParseNames(raw).value.correlationId)
              && Says(Read(raw, "executor_run_id"), ParseNames(raw).value.executorRunId)
              && Says(Read(raw, "actor"), ParseNames(raw).value.actor)
  {
    StringAcceptedIff(Read(raw, "message_id"), 8192);
    StringAcceptedIff(Read(raw, "correlation_id"), 8192);
    StringAcceptedIff(Read(raw, "executor_run_id"), 8192);
    StringAcceptedIff(Read(raw, "actor"), 8192);
  }

  /** Everything but the fingerprint. */
  predicate BodyFits(raw: map<string, Json>, t: ResponseType) {
    KeysFit(raw) && KindFits(raw, t) && ContentFits(raw, t) && LineageFits(raw) && NamesFit(raw)
  }

  /** Main result. A raw object is accepted as a packet of a type, but for its fingerprint, if and only if it fits. */
  lemma BodyAcceptedIff(raw: map<string, Json>, t: ResponseType)
    ensures ParseBody(raw).Ok? && ParseBody(raw).value.responseType == t <==> BodyFits(raw, t)
  {
    KeysAcceptedIff(raw);
    KindAcceptedIff(raw, t);
    ContentAcceptedIff(raw, t);
    LineageAcceptedIff(raw);
    NamesAcceptedIff(raw);
    BodyStagesIff(raw, t);
  }

  lemma BodyStagesIff(raw: map<string, Json>, t: ResponseType)
    ensures ParseBody(raw).Ok? && ParseBody(raw).value.responseType == t <==>
            && KnownKeys(raw) && ParseKind(raw) == Ok(t) && ParsePayload(raw, t).Ok?
            && ParseEvidence(Read(raw, "evidence_refs")).Ok? && ParseLineage(raw).Ok? && ParseNames(raw).Ok?
  {
  }

  /** Main result. An accepted packet says what the object says, field by field. */
  lemma BodySays(raw: map<string, Json>, p: ResponsePacket)
    requires ParseBody(raw) == Ok(p)
    ensures
      && p.schema == "awr.response/v1" && p.authority == "report_only" && p.contentSha256.None?
      && Read(raw, "response_type").Str? && NamesType(Read(raw, "response_type").s, p.responseType)
      && LineageSays(raw, Lineage(p.workOrderId, p.inReplyTo, p.idempotencyKey, p.sourceInputSha256, p.createdAt))
      && Says(Read(raw, "message_id"), p.messageId) && Says(Read(raw, "correlation_id"), p.correlationId)
      && Says(Read(raw, "executor_run_id"), p.executorRunId) && Says(Read(raw, "actor"), p.actor)
  {
    BodyParts(raw, p);
    KindAcceptedIff(raw, p.responseType);
    LineageAcceptedIff(raw);
    NamesAcceptedIff(raw);
  }

  /** The declared digest, if any, must be the fingerprint of what was read, and that must not be too large. */
  predicate FingerprintFits(codec: Codec, raw: map<string, Json>, body: ResponsePacket) {
    && codec.fits(body.(contentSha256 := None))
    && (Read(raw, "content_sha256").Null?
        || (DigestText(Read(raw, "content_sha256"))
            && Unprefixed(Read(raw, "content_sha256").s) == codec.fingerprint(body.(contentSha256 := None))))
  }

  /** Main result. A packet is accepted if and only if its body fits and the fingerprint does; it carries the fingerprint. */
  lemma PacketAcceptedIff(codec: Codec, raw: map<string, Json>)
    ensures ParsePacket(codec, raw).Ok? <==> ParseBody(raw).Ok? && FingerprintFits(codec, raw, ParseBody(raw).value)
    ensures ParsePacket(codec, raw).Ok? ==>
              ParsePacket(codec, raw).value ==
              ParseBody(raw).value.(contentSha256 := Some(codec.fingerprint(ParseBody(raw).value.(contentSha256 := None))))
  {
    DigestAcceptedIff(Read(raw, "content_sha256"));
    DigestIsBare(Read(raw, "content_sha256"));
  }

  /** Main result. A validated field says what the input says, a digest without its prefix. */
  lemma FieldSays(rules: Rules, key: string, v: Json)
    ensures FieldValue(rules, key, v).Ok? ==>
              FieldValue(rules, key, v).value == if EndsWith(key, "sha256") then Str(Unprefixed(v.s)) else v
  {
    DigestIsBare(v);
    if EndsWith(key, "sha256") { DigestAcceptedIff(v); }
  }
}
