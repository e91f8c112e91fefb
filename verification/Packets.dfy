/** The awr.response/v1 packet (src/awr/responses/contracts.py). */
module Packets {
  import opened Wrappers

  datatype ResponseType =
    | ReceiptAccepted
    | PlanCompleted
    | QuestionBlocked
    | ExecutionAcknowledged
    | ExecutionProgress
    | ExecutionCompleted
    | ExecutionFailed
    | ReviewCompleted

  /** A decoded JSON value: what a caller hands to the validator and what a payload field holds. */
  datatype Json =
    | Null
    | Bool(b: bool)
    | Int(n: int)
    | Str(s: string)
    | List(items: seq<Json>)
    | Obj(fields: map<string, Json>)

  /** One entry of a payload. Python dictionaries keep insertion order, so a payload is a sequence. */
  datatype Field = Field(key: string, value: Json)

  datatype EvidenceRef = EvidenceRef(
    artifactId: string,
    purpose: string,
    byteLength: int,
    sha256: string,
    detectedMediaType: Option<string>,
    safeFilename: string)

  datatype ResponsePacket = ResponsePacket(
    schema: string,
    responseType: ResponseType,
    workOrderId: string,
    inReplyTo: string,
    idempotencyKey: string,
    sourceInputSha256: string,
    createdAt: string,
    authority: string,
    payload: seq<Field>,
    evidenceRefs: seq<EvidenceRef>,
    messageId: Option<string>,
    correlationId: Option<string>,
    executorRunId: Option<string>,
    actor: Option<string>,
    contentSha256: Option<string>)

  /** payload.get(key) */
  function Get(fields: seq<Field>, key: string): Option<Json> {
    if fields == [] then None
    else if fields[0].key == key then Some(fields[0].value)
    else Get(fields[1..], key)
  }

  /** Python truth of an optional string: absent and empty are both false. */
  predicate Truthy(text: Option<string>) {
    text.Some? && text.value != ""
  }

  /** Python `text or fallback`. */
  function Or(text: Option<string>, fallback: string): string {
    if Truthy(text) then text.value else fallback
  }
}
