/**
 The durable state of one work order and the transactions that change it
 (src/awr/service.py over src/awr/storage/sqlite.py). Each function is one BEGIN IMMEDIATE
 transaction: it either returns the new rows or leaves the record as it was.
 */
module Broker {
  import opened Wrappers
  import opened Packets
  import opened Lifecycle
  import Text

  // ---------------------------------------------------------------- rows

  datatype Receipt =
    | ResponseReceipt(responseType: ResponseType, contentSha256: string, messageId: string,
                      status: WorkStatus, ledgerSequence: int)
    | DecisionReceipt(decisionId: string, decisionType: DecisionType, status: WorkStatus,
                      ledgerSequence: int, fingerprint: DecisionFingerprint)
    | BrokerReceipt(event: LifecycleEvent, status: WorkStatus, ledgerSequence: int, messageId: string)
    | IntentReceipt(event: LifecycleEvent, status: WorkStatus, ledgerSequence: int,
                    dispatchId: string, attempt: nat)

  /** The canonical fields a decision is fingerprinted over; equal fields, equal fingerprint. */
  datatype DecisionFingerprint = DecisionFingerprint(
    decisionType: DecisionType,
    workOrderId: string,
    actor: string,
    targetKind: TargetKind,
    targetId: string,
    targetSha256: string,
    permittedAction: string,
    scope: string,
    idempotencyKey: string,
    rationale: string,
    expiresAt: Option<int>)

  datatype StoredResponse = StoredResponse(
    packetId: string,
    actor: string,
    contentSha256: string,
    packet: ResponsePacket,
    receipt: Receipt)

  datatype DecisionRow = DecisionRow(decision: StoredDecision, fingerprint: DecisionFingerprint, receipt: Receipt)

  datatype DispatchState = Pending | Leased | ProviderAccepted | Acknowledged | ReconciliationRequired | Abandoned

  /** The hashed inputs of provider_idempotency_key that vary within one work order. */
  datatype ProviderKey = ProviderKey(attempt: nat, planSha256: string, wrapperSha256: string)

  datatype Dispatch = Dispatch(
    dispatchId: string,
    attempt: nat,
    planId: string,
    planSha256: string,
    approvalDecisionId: string,
    providerKey: ProviderKey,
    existingAgentId: Option<string>,
    state: DispatchState,
    attemptCount: nat,
    leaseOwner: Option<string>,
    leaseExpiresAt: Option<int>,
    providerAgentId: Option<string>,
    providerRunId: Option<string>,
    lastFailureCode: Option<string>,
    receipt: Receipt)

  datatype PlanningRun = PlanningRun(
    executor: string, agentId: string, runId: string, content: string, contentSha256: string, durationMs: Option<int>)

  datatype EntryBody =
    | ResponseEntry(event: LifecycleEvent, messageId: string, contentSha256: string)
    | DecisionEntry(event: LifecycleEvent, decision: StoredDecision)
    | BrokerEntry(event: LifecycleEvent, messageId: string)
    | IntentEntry(event: LifecycleEvent, dispatchId: string, attempt: nat)
    | WorkOrderAccepted
    | WorkOrderRouted
    | BundleValidated(hasReferences: bool)
    | ExecutorAcknowledged(agentId: string, runId: string)
    | ExecutorStatus(runStatus: string)
    | ExecutorFailed
    | ExecutorRejected
    | PlanReceived(planId: string, run: PlanningRun)
    | PlanAvailable(planId: string, contentSha256: string, receivedSequence: int)

  datatype LedgerEntry = LedgerEntry(sequence: int, actor: string, body: EntryBody)

  datatype Record = Record(
    workOrderId: string,
    sender: string,
    recipient: string,
    contentSha256: string,
    status: WorkStatus,
    snapshot: Option<Snapshot>,
    ledger: seq<LedgerEntry>,
    responses: seq<StoredResponse>,
    decisions: seq<DecisionRow>,
    dispatches: seq<Dispatch>)

  datatype BrokerError =
    | Kernel(kernel: LifecycleError)
    | Invalid
    | UniqueConstraint
    | DeliveryUnsupported

  datatype Outcome =
    | Stored(receipt: Receipt)
    | Replayed(receipt: Receipt)
    | Refused(error: BrokerError)

  // ---------------------------------------------------------------- reading the record

  function NextSequence(ledger: seq<LedgerEntry>): int {
    if ledger == [] then 1 else ledger[|ledger| - 1].sequence + 1
  }

  function Appended(r: Record, actor: string, body: EntryBody): Record {
    r.(ledger := r.ledger + [LedgerEntry(NextSequence(r.ledger), actor, body)])
  }

  /** _snapshot_from_session: the stored snapshot with missing principals filled in, or a derived one. */
  function CurrentSnapshot(r: Record): Snapshot {
    match r.snapshot
    case None => DeriveSnapshot(r.workOrderId, r.sender, r.recipient, r.contentSha256)
    case Some(s) =>
      s.(decisionPrincipals := if s.decisionPrincipals != {} then s.decisionPrincipals else {r.sender},
         executorPrincipals := if s.executorPrincipals != {} then s.executorPrincipals else {r.recipient})
  }

  function Decisions(rows: seq<DecisionRow>): (ds: seq<StoredDecision>)
    ensures |ds| == |rows|
    ensures forall i :: 0 <= i < |rows| ==> ds[i] == rows[i].decision
  {
    seq(|rows|, i requires 0 <= i < |rows| => rows[i].decision)
  }

  /** get_response_by_idempotency */
  function FindResponse(rows: seq<StoredResponse>, actor: string, responseType: ResponseType, key: string)
    : Option<StoredResponse>
  {
    if rows == [] then None
    else if rows[0].actor == actor && rows[0].packet.responseType == responseType && rows[0].packet.idempotencyKey == key
    then Some(rows[0])
    else FindResponse(rows[1..], actor, responseType, key)
  }

  function FindDecision(rows: seq<DecisionRow>, actor: string, decisionType: DecisionType, key: string)
    : Option<DecisionRow>
  {
    if rows == [] then None
    else if
      && rows[0].decision.actor == actor
      && rows[0].decision.decisionType == decisionType
      && rows[0].decision.idempotencyKey == key
    then Some(rows[0])
    else FindDecision(rows[1..], actor, decisionType, key)
  }

  function FindDispatch(ds: seq<Dispatch>, dispatchId: string): Option<Dispatch> {
    if ds == [] then None
    else if ds[0].dispatchId == dispatchId then Some(ds[0])
    else FindDispatch(ds[1..], dispatchId)
  }

  /** UPDATE execution_dispatches ... WHERE dispatch_id = ? */
  function WithDispatch(ds: seq<Dispatch>, changed: Dispatch): (r: seq<Dispatch>)
    ensures |r| == |ds|
    ensures forall i :: 0 <= i < |ds| ==> r[i] == if ds[i].dispatchId == changed.dispatchId then changed else ds[i]
  {
    seq(|ds|, i requires 0 <= i < |ds| => if ds[i].dispatchId == changed.dispatchId then changed else ds[i])
  }

  // ---------------------------------------------------------------- submit_response

  const REPORT_ONLY := "report_only"

  function Digest(packet: ResponsePacket): string {
    packet.contentSha256.GetOr("")
  }

  function MessageId(packet: ResponsePacket): string {
    Or(packet.messageId, Digest(packet))
  }

  /**
   A parsed packet always carries its digest. `clash` is true when a row of another work order
   already holds this packet id or this (actor, type, key): the unique constraints span the table.
   */
  function SubmitResponse(
    r: Record, packet: ResponsePacket, actor: string, expectedVersion: Option<int>, clash: bool, now: int)
    : (Record, Outcome)
  {
    if packet.authority != REPORT_ONLY || packet.workOrderId != r.workOrderId || !Truthy(packet.contentSha256)
    then (r, Refused(Invalid))
    else
      match FindResponse(r.responses, actor, packet.responseType, packet.idempotencyKey)
      case Some(existing) =>
        if existing.contentSha256 != Digest(packet) then (r, Refused(Kernel(IdempotencyConflict)))
        else (r, Replayed(existing.receipt))
      case None =>
        match ApplyResponse(
          r.status, CurrentSnapshot(r), packet, actor, Decisions(r.decisions), expectedVersion, now)
        case Err(e) => (r, Refused(Kernel(e)))
        case Ok(t) =>
          if clash || exists row <- r.responses :: row.packetId == MessageId(packet)
          then (r, Refused(UniqueConstraint))
          else StoreResponse(r, packet, actor, t)
  }

  function StoreResponse(r: Record, packet: ResponsePacket, actor: string, t: Transition): (Record, Outcome) {
    var message := MessageId(packet);
    var receipt := ResponseReceipt(packet.responseType, Digest(packet), message, t.status, NextSequence(r.ledger));
    (Appended(r, actor, ResponseEntry(t.event, message, Digest(packet))).(
       status := t.status,
       snapshot := Some(Persisted(t.snapshot.(currentParentId := message))),
       responses := r.responses + [StoredResponse(message, actor, Digest(packet), packet, receipt)]),
     Stored(receipt))
  }

  // ---------------------------------------------------------------- record_decision

  const MAX_DECISION_RATIONALE_BYTES := 512

  datatype DecisionRequest = DecisionRequest(
    decisionType: DecisionType,
    actor: string,
    targetKind: TargetKind,
    targetId: string,
    targetSha256: string,
    permittedAction: string,
    scope: string,
    idempotencyKey: string,
    rationale: string,
    expiresAt: Option<int>)

  function DecisionOf(r: Record, q: DecisionRequest, decisionId: string, now: int): StoredDecision {
    StoredDecision(
      decisionId, q.decisionType, r.workOrderId, q.actor, q.targetKind, q.targetId,
      Text.RemovePrefix(q.targetSha256, "sha256:"), q.permittedAction, q.scope, now, q.idempotencyKey,
      Text.Strip(q.rationale), q.expiresAt)
  }

  function FingerprintDecision(d: StoredDecision): DecisionFingerprint {
    DecisionFingerprint(
      d.decisionType, d.workOrderId, d.actor, d.targetKind, d.targetId,
      Text.RemovePrefix(d.targetSha256, "sha256:"), d.permittedAction, d.scope, d.idempotencyKey,
      d.rationale, d.expiresAt)
  }

  predicate CompactRationale(rationale: string) {
    Text.Strip(rationale) != "" && Text.Utf8Length(Text.Strip(rationale)) <= MAX_DECISION_RATIONALE_BYTES
  }

  function RecordDecision(
    r: Record, q: DecisionRequest, expectedVersion: Option<int>, decisionId: string, clash: bool, now: int)
    : (Record, Outcome)
  {
    if DecisionEvent(q.decisionType).None? || !CompactRationale(q.rationale) then (r, Refused(Invalid))
    else
      var decision := DecisionOf(r, q, decisionId, now);
      match FindDecision(r.decisions, q.actor, q.decisionType, q.idempotencyKey)
      case Some(existing) =>
        if existing.fingerprint != FingerprintDecision(decision) then (r, Refused(Kernel(IdempotencyConflict)))
        else (r, Replayed(existing.receipt))
      case None =>
        match ApplyDecision(
          r.status, CurrentSnapshot(r), DecisionEvent(q.decisionType).value, decision, expectedVersion, now)
        case Err(e) => (r, Refused(Kernel(e)))
        case Ok(t) =>
          if clash || exists row <- r.decisions :: row.decision.decisionId == decisionId
          then (r, Refused(UniqueConstraint))
          else StoreDecision(r, decision, t)
  }

  function StoreDecision(r: Record, decision: StoredDecision, t: Transition): (Record, Outcome) {
    var fingerprint := FingerprintDecision(decision);
    var receipt := DecisionReceipt(
      decision.decisionId, decision.decisionType, t.status, NextSequence(r.ledger), fingerprint);
    (Appended(r, decision.actor, DecisionEntry(t.event, decision)).(
       status := t.status,
       snapshot := Some(Persisted(t.snapshot)),
       decisions := r.decisions + [DecisionRow(decision, fingerprint, receipt)]),
     Stored(receipt))
  }

  // ---------------------------------------------------------------- _apply_broker

  /** The events the service passes to _apply_broker; dispatch events go through CommitIntent. */
  predicate PlainBrokerEvent(event: LifecycleEvent) {
    event.PlanApprovalRequested? || event.CompletionReview? || event.QuestionAnswer?
  }

  function ApplyBroker(
    r: Record, event: LifecycleEvent, actor: string, messageId: string, expectedVersion: Option<int>, now: int)
    : (Record, Outcome)
  {
    if !PlainBrokerEvent(event) then (r, Refused(Invalid))
    else
      match ApplyBrokerEvent(
        r.status, CurrentSnapshot(r), event, actor, messageId, Decisions(r.decisions), expectedVersion, None, None, now)
      case Err(e) => (r, Refused(Kernel(e)))
      case Ok(t) =>
        (Appended(r, actor, BrokerEntry(event, messageId)).(
           status := t.status, snapshot := Some(Persisted(t.snapshot))),
         Stored(BrokerReceipt(event, t.status, NextSequence(r.ledger), messageId)))
  }

  // ---------------------------------------------------------------- _commit_execution_intent

  datatype IntentRequest = IntentRequest(
    event: LifecycleEvent,
    actor: string,
    planId: Option<string>,
    planSha256: Option<string>,
    expectedVersion: Option<int>)

  predicate Settled(state: DispatchState) {
    state.Acknowledged? || state.Abandoned?
  }

  /** The latest dispatch that is neither acknowledged nor failed. */
  function PendingDispatch(ds: seq<Dispatch>): Option<Dispatch> {
    if ds == [] then None
    else if !Settled(ds[|ds| - 1].state) then Some(ds[|ds| - 1])
    else PendingDispatch(ds[..|ds| - 1])
  }

  function MaxAttempt(ds: seq<Dispatch>): nat {
    if ds == [] then 0
    else
      var rest := MaxAttempt(ds[..|ds| - 1]);
      if ds[|ds| - 1].attempt > rest then ds[|ds| - 1].attempt else rest
  }

  lemma {:induction false} MaxAttemptBounds(ds: seq<Dispatch>)
    ensures forall d <- ds :: d.attempt <= MaxAttempt(ds)
  {
    if ds != [] {
      MaxAttemptBounds(ds[..|ds| - 1]);
    }
  }

  /** The agent of the planning run, when its acknowledgement recorded one. */
  function PlanningAgent(ledger: seq<LedgerEntry>): Option<string> {
    if ledger == [] then None
    else
      match ledger[|ledger| - 1].body
      case ExecutorAcknowledged(agentId, _) => DropEmpty(Some(agentId))
      case _ => PlanningAgent(ledger[..|ledger| - 1])
  }

  predicate CarriesArtifacts(ledger: seq<LedgerEntry>) {
    ledger != [] &&
    match ledger[|ledger| - 1].body
    case BundleValidated(hasReferences) => hasReferences
    case _ => CarriesArtifacts(ledger[..|ledger| - 1])
  }

  function RequestedSha(q: IntentRequest, snapshot: Snapshot): Option<string> {
    if Truthy(q.planSha256) then Some(Text.RemovePrefix(q.planSha256.value, "sha256:")) else snapshot.planSha256
  }

  function RequestedPlan(q: IntentRequest, snapshot: Snapshot): Option<string> {
    if Truthy(q.planId) then q.planId else snapshot.planId
  }

  function CommitIntent(r: Record, q: IntentRequest, dispatchId: string, wrapperSha256: string, now: int)
    : (Record, Outcome)
  {
    var pending := PendingDispatch(r.dispatches);
    var snapshot := CurrentSnapshot(r);
    var planId, planSha := RequestedPlan(q, snapshot), RequestedSha(q, snapshot);
    if CarriesArtifacts(r.ledger) then (r, Refused(DeliveryUnsupported))
    else if !IsDispatchEvent(q.event) then (r, Refused(Invalid))
    else if pending.Some? && r.status.ExecutionDispatched? then (r, Replayed(pending.value.receipt))
    else if !Truthy(planId) || !Truthy(planSha) then (r, Refused(Invalid))
    else
      match ApplyBrokerEvent(
        r.status, snapshot, q.event, q.actor, dispatchId, Decisions(r.decisions),
        q.expectedVersion, planId, planSha, now)
      case Err(e) => (r, Refused(Kernel(e)))
      case Ok(t) =>
        match MatchingPlanApproval(
          Decisions(r.decisions), Or(t.snapshot.planId, planId.value), Or(t.snapshot.planSha256, planSha.value), now)
        case Err(e) => (r, Refused(Kernel(e)))
        case Ok(approval) =>
          if exists d <- r.dispatches ::
               d.dispatchId == dispatchId
               || d.providerKey == ProviderKey(MaxAttempt(r.dispatches) + 1, planSha.value, wrapperSha256)
          then (r, Refused(UniqueConstraint))
          else StoreIntent(r, q, dispatchId, wrapperSha256, planId.value, planSha.value, approval.decisionId, t)
  }

  function StoreIntent(
    r: Record, q: IntentRequest, dispatchId: string, wrapperSha256: string,
    planId: string, planSha: string, approvalId: string, t: Transition)
    : (Record, Outcome)
  {
    var attempt := MaxAttempt(r.dispatches) + 1;
    var receipt := IntentReceipt(q.event, t.status, NextSequence(r.ledger), dispatchId, attempt);
    var dispatch := Dispatch(
      dispatchId, attempt, planId, planSha, approvalId, ProviderKey(attempt, planSha, wrapperSha256),
      PlanningAgent(r.ledger), Pending, 0, None, None, None, None, None, receipt);
    (Appended(r, q.actor, IntentEntry(q.event, dispatchId, attempt)).(
       status := t.status,
       snapshot := Some(Persisted(t.snapshot)),
       dispatches := r.dispatches + [dispatch]),
     Stored(receipt))
  }

  // ---------------------------------------------------------------- dispatch rows

  /** _LEASE_TTL_SECONDS, in microseconds. */
  const LEASE_TTL := 30_000_000

  /** A live lease held by somebody else. */
  predicate LeasedElsewhere(d: Dispatch, owner: string, now: int) {
    && d.state.Leased?
    && d.leaseExpiresAt.Some? && d.leaseExpiresAt.value > now
    && d.leaseOwner != Some(owner)
  }

  /** claim_execution_lease */
  function ClaimLease(r: Record, dispatchId: string, owner: string, now: int): (Record, Option<Dispatch>) {
    match FindDispatch(r.dispatches, dispatchId)
    case None => (r, None)
    case Some(d) =>
      if Settled(d.state) then (r, Some(d))
      else if LeasedElsewhere(d, owner, now) then (r, None)
      else
        var leased := d.(state := Leased, leaseOwner := Some(owner), leaseExpiresAt := Some(now + LEASE_TTL),
                         attemptCount := d.attemptCount + 1);
        (r.(dispatches := WithDispatch(r.dispatches, leased)), Some(leased))
  }

  /** _persist_provider_acceptance */
  function PersistAcceptance(r: Record, claimed: Dispatch, agentId: string, runId: string): (Record, Dispatch) {
    var current := FindDispatch(r.dispatches, claimed.dispatchId).GetOr(claimed);
    if current.state.Acknowledged? then (r, current)
    else
      var accepted := current.(
        state := ProviderAccepted, providerAgentId := Some(agentId), providerRunId := Some(runId));
      (r.(dispatches := WithDispatch(r.dispatches, accepted)), accepted)
  }

  /** The last transaction of _persist_execution_ack. */
  function MarkAcknowledged(r: Record, claimed: Dispatch, receipt: Receipt): Record {
    var current := FindDispatch(r.dispatches, claimed.dispatchId).GetOr(claimed);
    var done := current.(
      state := Acknowledged, providerAgentId := claimed.providerAgentId, providerRunId := claimed.providerRunId,
      receipt := receipt, leaseOwner := None, leaseExpiresAt := None);
    r.(dispatches := WithDispatch(r.dispatches, done))
  }

  /** _mark_reconciliation */
  function MarkReconciliation(r: Record, claimed: Dispatch, code: string): Record {
    var current := FindDispatch(r.dispatches, claimed.dispatchId).GetOr(claimed);
    var marked := current.(
      state := ReconciliationRequired, lastFailureCode := Some(code), leaseOwner := None, leaseExpiresAt := None);
    r.(dispatches := WithDispatch(r.dispatches, marked))
  }

  /** _remember_dispatch_receipt */
  function RememberReceipt(r: Record, dispatchId: string, receipt: Receipt): Record {
    match FindDispatch(r.dispatches, dispatchId)
    case None => r
    case Some(d) => r.(dispatches := WithDispatch(r.dispatches, d.(receipt := receipt)))
  }
}
