/**
 The acknowledgement as the broker really submits it: printed and fed back through the parser
 (_persist_execution_ack in src/awr/service.py).
 */
module AckMarkdown {
  import opened Wrappers
  import opened Packets
  import opened Lifecycle
  import opened Broker
  import opened Runs
  import opened Chain
  import opened Outbox
  import opened Refresh
  import opened Envelope
  import opened Survival
  import Validate
  import Markdown
  import RoundTrip

  /** submit_response, from the Markdown on. */
  function SubmitMarkdown(codec: Validate.Codec, r: Record, markdown: string, actor: string, clash: bool, now: int)
    : (Record, Outcome)
  {
    match Markdown.Parse(codec, markdown)
    case Err(_) => (r, Refused(Invalid))
    case Ok(packet) => SubmitResponse(r, packet, actor, None, clash, now)
  }

  function SubmitAck(codec: Validate.Codec, r: Record, claimed: Dispatch, ack: AckInput): (Record, Outcome) {
    var packet := AckPacket(r, claimed, ack.executor, ack.digest, ack.createdAt);
    SubmitMarkdown(codec, r, Markdown.Render(codec, packet), r.recipient, ack.clash, ack.now)
  }

  /** Every text of the acknowledgement, the run id and the executor's name among them, survives on its line. */
  predicate AckPrints(r: Record, claimed: Dispatch, ack: AckInput) {
    HeadersOk(AckPacket(r, claimed, ack.executor, ack.digest, ack.createdAt)) && HeaderOk(ack.executor)
  }

  /** The broker builds the acknowledgement with the validator (_trusted_response). */
  ghost predicate Validated(codec: Validate.Codec, packet: ResponsePacket) {
    exists raw :: Validate.ParsePacket(codec, raw) == Ok(packet)
  }

  /** The stored row is the acknowledgement the broker built. */
  predicate StoresPacket(r: Record, r': Record, packet: ResponsePacket) {
    |r'.responses| == |r.responses| + 1 && r'.responses[|r.responses|].packet == packet
  }

  lemma AckComesBackIff(codec: Validate.Codec, r: Record, claimed: Dispatch, ack: AckInput)
    requires Lawful(codec) && Validated(codec, AckPacket(r, claimed, ack.executor, ack.digest, ack.createdAt))
    ensures
      var packet := AckPacket(r, claimed, ack.executor, ack.digest, ack.createdAt);
      Markdown.Parse(codec, Markdown.Render(codec, packet)) == Ok(packet) <==> AckPrints(r, claimed, ack)
  {
    var packet := AckPacket(r, claimed, ack.executor, ack.digest, ack.createdAt);
    var raw :| Validate.ParsePacket(codec, raw) == Ok(packet);
    RoundTrip.RoundTripIff(codec, raw, packet);
    RoundTrip.AckCanonicalIff(packet, ack.executor, claimed.providerRunId.GetOr("None"));
  }

  lemma SubmissionStores(r: Record, packet: ResponsePacket, clash: bool, now: int)
    ensures
      var (r', outcome) := SubmitResponse(r, packet, r.recipient, None, clash, now);
      if outcome.Stored? then StoresPacket(r, r', packet) else r' == r
  {
    SubmitStoresOrNothing(r, packet, r.recipient, None, clash, now);
    RespondShape(r, Respond(packet, r.recipient, None, clash, now));
  }

  /** Whatever the parser made of the text, nothing but what it parsed is stored. */
  lemma MarkdownStoresParsed(codec: Validate.Codec, r: Record, markdown: string, packet: ResponsePacket, clash: bool, now: int)
    requires StoresPacket(r, SubmitMarkdown(codec, r, markdown, r.recipient, clash, now).0, packet)
    ensures Markdown.Parse(codec, markdown) == Ok(packet)
  {
    var parsed := Markdown.Parse(codec, markdown);
    if parsed.Ok? {
      SubmissionStores(r, parsed.value, clash, now);
    }
  }

  /**
   Main result. In EXECUTION_DISPATCHED the acknowledgement the broker built is stored if and only if a
   live approval covers the plan, its key and digest are unused and all its texts survive printing.
   */
  lemma PrintedAckIsStoredIff(codec: Validate.Codec, r: Record, claimed: Dispatch, ack: AckInput)
    requires Lawful(codec) && Validated(codec, AckPacket(r, claimed, ack.executor, ack.digest, ack.createdAt))
    requires SnapshotTracksLedger(r) && r.status.ExecutionDispatched? && r.recipient != ""
    ensures
      StoresPacket(r, SubmitAck(codec, r, claimed, ack).0, AckPacket(r, claimed, ack.executor, ack.digest, ack.createdAt))
      <==> ApprovalLive(r, ack.now) && AckUnused(r, claimed.dispatchId, ack) && AckPrints(r, claimed, ack)
  {
    var packet := AckPacket(r, claimed, ack.executor, ack.digest, ack.createdAt);
    var markdown := Markdown.Render(codec, packet);
    AckComesBackIff(codec, r, claimed, ack);
    AckIsStoredIff(r, claimed, ack);
    if AckPrints(r, claimed, ack) {
      SubmissionStores(r, packet, ack.clash, ack.now);
    } else if StoresPacket(r, SubmitMarkdown(codec, r, markdown, r.recipient, ack.clash, ack.now).0, packet) {
      MarkdownStoresParsed(codec, r, markdown, packet, ack.clash, ack.now);
    }
  }

  /** Then the submission the refresh makes of the packet itself is the one the broker makes of its text. */
  lemma PrintedAckIsSubmitted(codec: Validate.Codec, r: Record, claimed: Dispatch, ack: AckInput)
    requires Lawful(codec) && Validated(codec, AckPacket(r, claimed, ack.executor, ack.digest, ack.createdAt))
    requires AckPrints(r, claimed, ack)
    ensures
      var packet := AckPacket(r, claimed, ack.executor, ack.digest, ack.createdAt);
      SubmitAck(codec, r, claimed, ack) == SubmitResponse(r, packet, r.recipient, None, ack.clash, ack.now)
  {
    AckComesBackIff(codec, r, claimed, ack);
  }
}
