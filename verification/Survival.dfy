/** The packets that survive being printed, and what the model assumes of hash and JSON. */
module Survival {
  import opened Wrappers
  import opened Packets
  import opened Validate
  import opened ValidationLaws
  import opened Markdown
  import opened FrontMatter
  import opened PayloadKeys
  import opened Envelope
  import opened ReadBack
  import opened Prose
  import opened BodyBack
  import opened SingleLine
  import Text

  // ---------------------------------------------------------------- canonical packets

  predicate HeadersOk(p: ResponsePacket) {
    && p.messageId.None? && p.actor.None?
    && HeaderOk(p.workOrderId) && HeaderOk(p.inReplyTo) && HeaderOk(p.idempotencyKey) && HeaderOk(p.createdAt)
    && HeaderOrAbsent(p.executorRunId) && HeaderOrAbsent(p.correlationId)
  }

  /** Fields printed in the envelope survive there. */
  predicate FieldsOk(p: ResponsePacket) {
    forall f <- p.payload :: f.key !in BODY_KEYS ==> PayloadFieldOk(f)
  }

  /** What is printed below the envelope survives there, and an acknowledgement loses nothing. */
  predicate BodyOk(p: ResponsePacket) {
    match p.responseType
    case ReceiptAccepted => true
    case QuestionBlocked => forall q <- Questions(p) :: QuestionOk(q)
    case ExecutionAcknowledged =>
      Get(p.payload, "message").None? && p.executorRunId == Some(FieldText(p, "executor_run_id"))
    case _ => ProseClean(ProseText(p), HeadingOf(p) != "") && Marks(BodyLines(ProseText(p))) == 0
  }

  predicate Canonical(p: ResponsePacket) {
    HeadersOk(p) && FieldsOk(p) && BodyOk(p)
  }

  /** What the model assumes of the hash and of the JSON text of evidence references. */
  ghost predicate Lawful(codec: Codec) {
    && HexDigests(codec)
    && forall refs ::
         var text := codec.dumpRefs(refs);
         text != "" && text[0] == '[' && text[|text| - 1] == ']' && Text.BreakFree(text)
         && codec.loads(text) == Some(List(RefsJson(refs)))
  }
}
