/**
 The Markdown form of a response packet: render_response_markdown (src/awr/responses/render.py)
 and parse_response_markdown (src/awr/responses/validate.py).
 */
module Markdown {
  import opened Wrappers
  import opened Packets
  import opened Validate
  import Text

  // ---------------------------------------------------------------- printing

  /** One line of the awr mapping. */
  datatype Entry = Entry(key: string, text: string)

  function Line(e: Entry): string {
    "  " + e.key + ": " + e.text
  }

  function Lines(entries: seq<Entry>): (lines: seq<string>)
    ensures |lines| == |entries| && forall i :: 0 <= i < |entries| ==> lines[i] == Line(entries[i])
  {
    seq(|entries|, i requires 0 <= i < |entries| => Line(entries[i]))
  }

  const BODY_KEYS := {"content", "summary", "rationale", "message", "questions"}

  /** str(value) as the envelope prints it. Outside `questions` a validated payload holds no other values. */
  function ValueText(key: string, v: Json): string {
    match v
    case Bool(b) => if b then "true" else "false"
    case Int(n) => Text.Decimal(n)
    case Str(s) => if Text.Contains(key, "sha256") then "sha256:" + Text.RemovePrefix(s, "sha256:") else s
    case _ => ""
  }

  function YamlKey(key: string): string {
    if key == "content_sha256" then "body_sha256" else key
  }

  function PayloadEntry(f: Field): Entry {
    Entry(YamlKey(f.key), ValueText(f.key, f.value))
  }

  /** _payload_fields */
  function PayloadEntries(fields: seq<Field>): seq<Entry> {
    if fields == [] then []
    else (if fields[0].key in BODY_KEYS then [] else [PayloadEntry(fields[0])]) + PayloadEntries(fields[1..])
  }

  function OptionalEntry(key: string, text: Option<string>): seq<Entry> {
    if Truthy(text) then [Entry(key, text.value)] else []
  }

  function FixedEntries(codec: Codec, p: ResponsePacket): seq<Entry> {
    [Entry("schema", p.schema), Entry("response_type", TypeText(p.responseType)),
     Entry("work_order_id", p.workOrderId), Entry("in_reply_to", p.inReplyTo),
     Entry("idempotency_key", p.idempotencyKey), Entry("source_input_sha256", "sha256:" + p.sourceInputSha256),
     Entry("created_at", p.createdAt), Entry("authority", p.authority),
     Entry("content_sha256", "sha256:" + Or(p.contentSha256, codec.fingerprint(p.(contentSha256 := None))))]
  }

  function OptionalEntries(codec: Codec, p: ResponsePacket): seq<Entry> {
    OptionalEntry("executor_run_id", p.executorRunId)
    + OptionalEntry("correlation_id", p.correlationId)
    + (if p.evidenceRefs != [] then [Entry("evidence_refs", codec.dumpRefs(p.evidenceRefs))] else [])
  }

  function EnvelopeEntries(codec: Codec, p: ResponsePacket): seq<Entry> {
    FixedEntries(codec, p) + OptionalEntries(codec, p)
  }

  function Entries(codec: Codec, p: ResponsePacket): seq<Entry> {
    EnvelopeEntries(codec, p) + PayloadEntries(p.payload)
  }

  /** A text field of the payload, as an f-string prints it. */
  function FieldText(p: ResponsePacket, key: string): string {
    match Get(p.payload, key)
    case Some(Str(s)) => s
    case _ => ""
  }

  function QuestionText(q: Json, key: string): string {
    if q.Obj? && key in q.fields && q.fields[key].Str? then q.fields[key].s else ""
  }

  function QuestionLine(q: Json): string {
    "- " + QuestionText(q, "id") + ": " + QuestionText(q, "text")
  }

  function QuestionLines(questions: seq<Json>): (lines: seq<string>)
    ensures |lines| == |questions| && forall i :: 0 <= i < |questions| ==> lines[i] == QuestionLine(questions[i])
  {
    seq(|questions|, i requires 0 <= i < |questions| => QuestionLine(questions[i]))
  }

  function Questions(p: ResponsePacket): seq<Json> {
    match Get(p.payload, "questions")
    case Some(List(items)) => items
    case _ => []
  }

  const PROGRESS_HEADING := "# Execution progress\n\n"
  const COMPLETED_HEADING := "# Execution completed\n\n"
  const FAILED_HEADING := "# Execution failed\n\n"
  const QUESTIONS_HEADING := "# Blocking questions\n\n"

  function TitleHeading(title: string): string {
    "# " + title + "\n\n"
  }

  function ReviewHeading(outcome: string): string {
    "# Review " + outcome + "\n\n"
  }

  /** _body */
  function Body(p: ResponsePacket): string {
    match p.responseType
    case ReceiptAccepted =>
      "# Receipt accepted\n\n- Status: " + FieldText(p, "status") + "\n- Receipt: " + FieldText(p, "receipt_type")
    case PlanCompleted =>
      (if FieldText(p, "title") != "" then TitleHeading(FieldText(p, "title")) else "") + FieldText(p, "content")
    case QuestionBlocked => Text.Join(["# Blocking questions", ""] + QuestionLines(Questions(p)))
    case ExecutionAcknowledged =>
      "# Execution acknowledged\n\nRun `" + FieldText(p, "executor_run_id") + "` was accepted."
    case ExecutionProgress => PROGRESS_HEADING + FieldText(p, "message")
    case ExecutionCompleted => COMPLETED_HEADING + FieldText(p, "summary")
    case ExecutionFailed => FAILED_HEADING + FieldText(p, "message")
    case ReviewCompleted => ReviewHeading(FieldText(p, "outcome")) + FieldText(p, "rationale")
  }

  const MARK := "@response"
  const FENCE := "---"

  function Render(codec: Codec, p: ResponsePacket): string {
    "@response\n---\nawr:\n" + Text.Join(Lines(Entries(codec, p))) + "\n---\n\n" + Body(p) + "\n"
  }

  // ---------------------------------------------------------------- the awr block

  /** Where _parse_awr_block is: before the mapping, inside it, or past its end. */
  datatype Scan =
    | Searching
    | Inside(indent: nat, mapping: map<string, string>)
    | Done(mapping: map<string, string>)

  function Found(s: Scan): map<string, string> {
    if s.Searching? then map[] else s.mapping
  }

  function CleanValue(text: string): string {
    Text.Trim(Text.Trim(Text.Strip(text), Text.Exactly('"')), Text.Exactly('\''))
  }

  const EMPTY_VALUES := {"", "|", ">"}

  function Indent(raw: string): (n: nat) {
    var stripped := Text.TrimLeft(raw, Text.Whitespace);
    if |stripped| <= |raw| then |raw| - |stripped| else 0
  }

  /** `key: value` added to the mapping; a line without a colon or a value adds nothing. */
  function WithLine(m: map<string, string>, stripped: string): map<string, string> {
    if ':' !in stripped then m
    else
      var n := Text.IndexOf(stripped, ':');
      var value := CleanValue(stripped[n + 1..]);
      if value in EMPTY_VALUES then m else m[Text.Strip(stripped[..n]) := value]
  }

  function ScanLine(s: Scan, raw: string): Scan {
    match s
    case Searching =>
      if "awr:" <= Text.TrimLeft(raw, Text.Whitespace) then Inside(Indent(raw), map[]) else Searching
    case Inside(indent, mapping) =>
      if Text.Strip(raw) == "" || "#" <= Text.TrimLeft(raw, Text.Whitespace) then s
      else if Indent(raw) <= indent then Done(mapping)
      else Inside(indent, WithLine(mapping, Text.Strip(raw)))
    case Done(_) => s
  }

  function ScanLines(s: Scan, lines: seq<string>): Scan
    decreases lines
  {
    if lines == [] then s else ScanLines(ScanLine(s, lines[0]), lines[1..])
  }

  function ParseBlock(text: string): Result<map<string, string>, ParseError> {
    var mapping := Found(ScanLines(Searching, Text.SplitLines(text)));
    if mapping == map[] then Err(Invalid) else Ok(mapping)
  }

  // ---------------------------------------------------------------- the body

  function QuestionOf(line: string): Option<Json> {
    var stripped := Text.Strip(line);
    if !("- " <= stripped) || ':' !in stripped then None
    else
      var rest := stripped[2..];
      var n := Text.IndexOf(rest, ':');
      Some(Obj(map["id" := Str(Text.Strip(rest[..n])),
                   "text" := Str(Text.Strip(if n < |rest| then rest[n + 1..] else ""))]))
  }

  function QuestionsOf(lines: seq<string>): seq<Json> {
    if lines == [] then []
    else
      var rest := QuestionsOf(lines[1..]);
      match QuestionOf(lines[0])
      case None => rest
      case Some(q) => [q] + rest
  }

  /** _questions_from_body */
  function QuestionsFromBody(text: string): seq<Json> {
    QuestionsOf(Text.SplitLines(Text.RemovePrefix(text, QUESTIONS_HEADING)))
  }

  function StringAt(m: map<string, Json>, key: string): string {
    if key in m && m[key].Str? then m[key].s else ""
  }

  /** The payload field a type keeps in the prose body, with the heading printed above it. */
  function BodyTarget(m: map<string, Json>): Option<(string, string)> {
    var t := StringAt(m, "response_type");
    if t == "plan.completed" then Some(("content", ""))
    else if t == "execution.completed" then Some(("summary", COMPLETED_HEADING))
    else if t == "execution.progress" then Some(("message", PROGRESS_HEADING))
    else if t == "execution.failed" then Some(("message", FAILED_HEADING))
    else if t == "review.completed" then
      Some(("rationale", if StringAt(m, "outcome") != "" then ReviewHeading(StringAt(m, "outcome")) else ""))
    else None
  }

  function WithoutTitle(m: map<string, Json>, body: string): string {
    if StringAt(m, "title") != "" then Text.RemovePrefix(body, TitleHeading(StringAt(m, "title"))) else body
  }

  /** _assign_markdown_body */
  function AssignBody(m: map<string, Json>, body: string): map<string, Json> {
    if body == "" then m
    else
      var text := WithoutTitle(m, body);
      if StringAt(m, "response_type") == "question.blocked" && "questions" !in m then
        var questions := QuestionsFromBody(text);
        if questions == [] then m else m["questions" := List(questions)]
      else
        match BodyTarget(m)
        case None => m
        case Some((field, heading)) => if field in m then m else m[field := Str(Text.RemovePrefix(text, heading))]
  }

  // ---------------------------------------------------------------- from the mapping to the packet

  const TOP_KEYS := {
    "schema", "response_type", "work_order_id", "in_reply_to", "idempotency_key", "source_input_sha256", "created_at",
    "authority", "message_id", "correlation_id", "executor_run_id", "actor", "content_sha256", "evidence_refs"}

  function Texts(m: map<string, string>): (r: map<string, Json>)
    ensures r.Keys == m.Keys && forall k <- m.Keys :: r[k] == Str(m[k])
  {
    map k <- m.Keys :: Str(m[k])
  }

  /** _parse_markdown_evidence */
  function MarkdownEvidence(codec: Codec, v: Json): Result<Json, ParseError> {
    if v.List? then Ok(v)
    else
      :- Need(v.Str? && v.s != "", Invalid);
      match codec.loads(v.s)
      case Some(List(items)) => Ok(List(items))
      case _ => Err(Invalid)
  }

  function Number(v: Json): Json {
    if v.Str? && Text.AllDigits(v.s) then Int(Text.ParseNat(v.s)) else v
  }

  /** The payload keys of the mapping, the body digest under its own name again, numbers as integers. */
  function PayloadMap(m: map<string, Json>): map<string, Json> {
    map k | k in m.Keys + {"content_sha256"} - {"body_sha256"}
          && (if k == "content_sha256" then "body_sha256" in m else k !in TOP_KEYS) ::
      if k == "content_sha256" then m["body_sha256"]
      else if k == "percent" || k == "ledger_sequence" then Number(m[k])
      else m[k]
  }

  function WithRun(m: map<string, Json>, payload: map<string, Json>): map<string, Json> {
    if StringAt(m, "response_type") == "execution.acknowledged" && StringAt(m, "executor_run_id") != ""
       && "executor_run_id" !in payload
    then payload["executor_run_id" := m["executor_run_id"]]
    else payload
  }

  function TopMap(m: map<string, Json>): map<string, Json> {
    map k | k in m.Keys && k in TOP_KEYS :: m[k]
  }

  function RawFrom(codec: Codec, m: map<string, Json>): Result<map<string, Json>, ParseError> {
    var top := TopMap(m);
    var refs :- if "evidence_refs" in m then MarkdownEvidence(codec, m["evidence_refs"]) else Ok(Null);
    var withRefs := if "evidence_refs" in m then top["evidence_refs" := refs] else top;
    Ok(withRefs["payload" := Obj(WithRun(m, PayloadMap(m)))])
  }

  /** Everything after the front matter has been cut out. */
  function FromParts(codec: Codec, mapping: map<string, string>, body: string): Result<ResponsePacket, ParseError> {
    var raw :- RawFrom(codec, AssignBody(Texts(mapping), body));
    ParsePacket(codec, raw)
  }

  // ---------------------------------------------------------------- the document

  /** The first line from `i` on that is not blank. */
  function NextText(lines: seq<string>, i: nat): (n: nat)
    requires i <= |lines|
    ensures i <= n <= |lines|
    decreases |lines| - i
  {
    if i == |lines| || Text.Strip(lines[i]) != "" then i else NextText(lines, i + 1)
  }

  /** The first fence from `i` on. */
  function NextFence(lines: seq<string>, i: nat): (n: nat)
    requires i <= |lines|
    ensures i <= n <= |lines|
    decreases |lines| - i
  {
    if i == |lines| || Text.Strip(lines[i]) == FENCE then i else NextFence(lines, i + 1)
  }

  function Marks(lines: seq<string>): nat {
    if lines == [] then 0 else (if Text.Strip(lines[0]) == MARK then 1 else 0) + Marks(lines[1..])
  }

  function TrimNewlines(s: string): string {
    Text.Trim(s, Text.Exactly('\n'))
  }

  /** The text between the fences, and the prose after them. */
  datatype Parts = Parts(block: string, body: string)

  /** Where the two fences are: the mark is the first text, and a fence the next. */
  datatype Fences = Fences(open: nat, close: nat)

  function FencesAfter(lines: seq<string>, start: nat): (r: Result<Fences, ParseError>)
    requires start < |lines|
    ensures r.Ok? ==> r.value.open < r.value.close < |lines|
  {
    var open := NextText(lines, start + 1);
    if open == |lines| || Text.Strip(lines[open]) != FENCE then Err(Unframed)
    else
      var close := NextFence(lines, open + 1);
      if close == |lines| then Err(Unframed) else Ok(Fences(open, close))
  }

  function FindFences(lines: seq<string>): (r: Result<Fences, ParseError>)
    ensures r.Ok? ==> r.value.open < r.value.close < |lines|
  {
    var start := NextText(lines, 0);
    if start == |lines| || Text.Strip(lines[start]) != MARK || Marks(lines) != 1 then Err(Unframed)
    else FencesAfter(lines, start)
  }

  function CutFront(lines: seq<string>): Result<Parts, ParseError> {
    var f :- FindFences(lines);
    Ok(Parts(Text.Join(lines[f.open + 1..f.close]), TrimNewlines(Text.Join(lines[f.close + 1..]))))
  }

  function FromCut(codec: Codec, parts: Parts): Result<ResponsePacket, ParseError> {
    var mapping :- ParseBlock(parts.block);
    FromParts(codec, mapping, parts.body)
  }

  /** parse_response_markdown */
  function Parse(codec: Codec, markdown: string): Result<ResponsePacket, ParseError> {
    var parts :- CutFront(Text.SplitLines(markdown));
    FromCut(codec, parts)
  }
}
