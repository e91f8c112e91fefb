/**
 The lifecycle as the documentation tells it (docs/AWR-LC-01B.md): what a transaction asks of a work
 order and what it leaves, read off the stored rows and the ledger alone, without the snapshot.
 */
module History {
  import opened Wrappers
  import opened Packets
  import opened Lifecycle
  import opened Broker
  import opened Runs
  import Text

  // ---------------------------------------------------------------- the allowed edges

  datatype Input =
    | Reply(responseType: ResponseType)
    | Review(outcome: string)
    | Message(event: LifecycleEvent)
    | Human(decisionType: DecisionType)

  /** The table of allowed edges by initiating input, but for question.answer and cancel. */
  predicate Edge(from: WorkStatus, input: Input, to: WorkStatus) {
    match input
    case Reply(PlanCompleted) => from.Planning? && to.PlanReady?
    case Reply(QuestionBlocked) => (from.Planning? || from.Executing?) && to.WaitingForInput?
    case Reply(ExecutionAcknowledged) => from.ExecutionDispatched? && to.Executing?
    case Reply(ExecutionProgress) => from.Executing? && to.Executing?
    case Reply(ExecutionCompleted) => from.Executing? && to.CompletionReady?
    case Reply(ExecutionFailed) => from.Executing? && to.Failed?
    case Review(outcome) =>
      && from.PlannerReviewing?
      && ((outcome == "APPROVED" && to.WaitingForHumanReview?)
          || (outcome == "REJECTED" && to.WaitingForHumanReview?)
          || (outcome == "REVISE" && to.RevisionRequired?))
    case Message(PlanApprovalRequested) => from.PlanReady? && to.WaitingForPlanApproval?
    case Message(PlanExecute) => from.ReadyForExecution? && to.ExecutionDispatched?
    case Message(ImplementationRefine) => from.RevisionRequired? && to.ExecutionDispatched?
    case Message(CompletionReview) => from.CompletionReady? && to.PlannerReviewing?
    case Human(ApprovePlanDecision) => from.WaitingForPlanApproval? && to.ReadyForExecution?
    case Human(RejectPlanDecision) => from.WaitingForPlanApproval? && to.PlanReady?
    case Human(AcceptCompletionDecision) => from.WaitingForHumanReview? && to.Complete?
    case Human(RequestRevisionDecision) => from.WaitingForHumanReview? && to.RevisionRequired?
    case _ => false
  }

  /** Every operational state that is not an end. */
  predicate MayBeCancelled(status: WorkStatus) {
    || status.Planning? || status.PlanReady? || status.WaitingForPlanApproval? || status.ReadyForExecution?
    || status.ExecutionDispatched? || status.Executing? || status.CompletionReady? || status.PlannerReviewing?
    || status.RevisionRequired? || status.WaitingForHumanReview? || status.WaitingForInput?
  }

  // ---------------------------------------------------------------- reading a packet

  function TextField(packet: ResponsePacket, key: string): Option<string> {
    match Get(packet.payload, key)
    case Some(Str(text)) => Some(text)
    case _ => None
  }

  /** The input a response is: a review is told apart by its outcome. */
  function InputOf(packet: ResponsePacket): Input {
    if packet.responseType.ReviewCompleted? && TextField(packet, "outcome").Some?
    then Review(TextField(packet, "outcome").value)
    else Reply(packet.responseType)
  }

  function Filled(text: Option<string>): bool {
    text.Some? && text.value != ""
  }

  /** The run a report names: in its envelope, or else in its payload. */
  function RunNamed(packet: ResponsePacket): Option<string> {
    if Filled(packet.executorRunId) then packet.executorRunId else TextField(packet, "executor_run_id")
  }

  /** The run an acknowledgement binds; a missing one prints as None. */
  function RunBound(packet: ResponsePacket): Option<string> {
    match RunNamed(packet)
    case None => Some("None")
    case Some(run) => if run == "" then None else Some(run)
  }

  /** The name a plan packet gives its plan. */
  function PlanName(packet: ResponsePacket): string {
    if Filled(TextField(packet, "plan_id")) then TextField(packet, "plan_id").value
    else if Filled(packet.messageId) then packet.messageId.value
    else packet.contentSha256.GetOr("None")
  }

  function MessageOf(packet: ResponsePacket): string {
    if Filled(packet.messageId) then packet.messageId.value else packet.contentSha256.GetOr("")
  }

  /** The ledger event of a response has the response's name. */
  predicate SameName(t: ResponseType, event: LifecycleEvent) {
    match t
    case PlanCompleted => event.PlanCompleted?
    case QuestionBlocked => event.QuestionBlocked?
    case ExecutionAcknowledged => event.ExecutionAcknowledged?
    case ExecutionProgress => event.ExecutionProgress?
    case ExecutionCompleted => event.ExecutionCompleted?
    case ExecutionFailed => event.ExecutionFailed?
    case ReviewCompleted => event.ReviewCompleted?
    case ReceiptAccepted => false
  }

  predicate DecisionName(t: DecisionType, event: LifecycleEvent) {
    match t
    case ApprovePlanDecision => event.ApprovePlan?
    case RejectPlanDecision => event.RejectPlan?
    case AcceptCompletionDecision => event.AcceptCompletion?
    case RequestRevisionDecision => event.RequestRevision?
    case CancelDecision => event.Cancel?
    case _ => false
  }

  function Bare(digest: string): string {
    if |digest| >= 7 && digest[..7] == "sha256:" then digest[7..] else digest
  }

  // ---------------------------------------------------------------- reading the rows

  function LastOf(rows: seq<StoredResponse>, t: ResponseType): (row: Option<StoredResponse>)
    ensures row.Some? ==> row.value in rows && row.value.packet.responseType == t
    ensures row.None? ==> forall other <- rows :: other.packet.responseType != t
  {
    if rows == [] then None
    else if rows[|rows| - 1].packet.responseType == t then Some(rows[|rows| - 1])
    else LastOf(rows[..|rows| - 1], t)
  }

  lemma LastOfAppend(rows: seq<StoredResponse>, row: StoredResponse, t: ResponseType)
    ensures LastOf(rows + [row], t) == if row.packet.responseType == t then Some(row) else LastOf(rows, t)
  {
    assert (rows + [row])[..|rows|] == rows;
  }

  function StoredPlan(r: Record): Option<StoredResponse> {
    LastOf(r.responses, ResponseType.PlanCompleted)
  }

  function StoredAck(r: Record): Option<StoredResponse> {
    LastOf(r.responses, ResponseType.ExecutionAcknowledged)
  }

  /** The recipient, and whoever had an execution.acknowledged stored. */
  function Executors(r: Record): set<string> {
    {r.recipient} + AckActors(r.responses)
  }

  function AckActors(rows: seq<StoredResponse>): set<string> {
    set row | row in rows && row.packet.responseType.ExecutionAcknowledged? :: row.actor
  }

  /** The last question has no answer yet. */
  predicate QuestionOpen(events: seq<LifecycleEvent>) {
    events != [] &&
    match events[|events| - 1]
    case QuestionBlocked => true
    case QuestionAnswer => false
    case _ => QuestionOpen(events[..|events| - 1])
  }

  lemma QuestionOpenOfAppend(events: seq<LifecycleEvent>, last: LifecycleEvent)
    ensures QuestionOpen(events + [last]) <==>
              last.QuestionBlocked? || (!last.QuestionAnswer? && QuestionOpen(events))
  {
    assert (events + [last])[..|events|] == events;
  }

  /** Where an open question was asked: a plan is stored before execution and never while planning. */
  function Origin(r: Record): Option<WorkStatus> {
    if !QuestionOpen(Events(r.ledger)) then None
    else if StoredPlan(r).Some? then Some(Executing)
    else Some(WorkStatus.Planning)
  }

  predicate Covers(d: StoredDecision, plan: StoredResponse) {
    && d.decisionType.ApprovePlanDecision? && d.targetKind.OnPlan?
    && d.targetId == PlanName(plan.packet) && Bare(d.targetSha256) == Bare(plan.contentSha256)
  }

  predicate Live(d: StoredDecision, now: int) {
    d.expiresAt.None? || now < d.expiresAt.value
  }

  /** A stored approve_plan of kind plan, still live, for the stored plan. */
  predicate PlanIsApproved(r: Record, now: int) {
    StoredPlan(r).Some? && exists row <- r.decisions :: Covers(row.decision, StoredPlan(r).value) && Live(row.decision, now)
  }

  predicate Participant(r: Record, actor: string) {
    actor != "" && (actor == r.sender || actor == r.recipient || actor == "broker:awr")
  }

  /** A caller may name the version it saw: one more than the accepted steps. */
  predicate AtVersion(r: Record, expected: Option<int>) {
    expected.Some? ==> expected.value == 1 + |Events(r.ledger)|
  }

  function NextNumber(r: Record): int {
    if r.ledger == [] then 1 else r.ledger[|r.ledger| - 1].sequence + 1
  }

  // ---------------------------------------------------------------- responses

  /** A report of execution names the run of the last acknowledgement. */
  predicate RunIsKept(r: Record, packet: ResponsePacket) {
    packet.responseType.ExecutionProgress? || packet.responseType.ExecutionCompleted? || packet.responseType.ExecutionFailed?
    ==> StoredAck(r).Some? && RunNamed(packet) == RunBound(StoredAck(r).value.packet)
  }

  /** A participant answers the latest message of this work order and of its accepted input. */
  predicate Addressed(r: Record, packet: ResponsePacket, actor: string, expected: Option<int>) {
    && Participant(r, actor) && AtVersion(r, expected)
    && packet.workOrderId == r.workOrderId && packet.sourceInputSha256 == r.contentSha256
    && packet.inReplyTo == Tip(r.workOrderId, r.ledger)
    && (Filled(packet.actor) ==> packet.actor.value == actor)
  }

  /** Everything a response must fit, and the state it leads to. */
  predicate ResponseLeads(r: Record, packet: ResponsePacket, actor: string, expected: Option<int>, now: int, to: WorkStatus) {
    && Addressed(r, packet, actor, expected)
    && Edge(r.status, InputOf(packet), to)
    && (packet.responseType.ExecutionAcknowledged? ==> PlanIsApproved(r, now))
    && RunIsKept(r, packet)
  }

  /** No row holds the packet's id, nor its actor, type and key together. */
  predicate ResponseIsNew(r: Record, packet: ResponsePacket, actor: string) {
    forall row <- r.responses ::
      && row.packetId != MessageOf(packet)
      && !(row.actor == actor && row.packet.responseType == packet.responseType
           && row.packet.idempotencyKey == packet.idempotencyKey)
  }

  predicate ResponseAdmitted(r: Record, packet: ResponsePacket, actor: string, expected: Option<int>, clash: bool, now: int,
                             to: WorkStatus) {
    && packet.authority == "report_only" && Filled(packet.contentSha256) && !clash
    && ResponseIsNew(r, packet, actor) && ResponseLeads(r, packet, actor, expected, now, to)
  }

  /** The rows after a stored response, and its receipt. */
  predicate ResponseIsStored(r: Record, r': Record, packet: ResponsePacket, actor: string, to: WorkStatus, receipt: Receipt) {
    var digest := packet.contentSha256.GetOr("");
    && r'.status == to && r'.decisions == r.decisions && r'.dispatches == r.dispatches
    && receipt == ResponseReceipt(packet.responseType, digest, MessageOf(packet), to, NextNumber(r))
    && r'.responses == r.responses + [StoredResponse(MessageOf(packet), actor, digest, packet, receipt)]
    && |r'.ledger| == |r.ledger| + 1 && r.ledger <= r'.ledger
    && (var e := r'.ledger[|r.ledger|];
        && e.sequence == NextNumber(r) && e.actor == actor && e.body.ResponseEntry?
        && SameName(packet.responseType, e.body.event) && e.body.messageId == MessageOf(packet)
        && e.body.contentSha256 == digest)
  }

  // ---------------------------------------------------------------- decisions

  /** Who may decide, what the decision may name, and the state it leads to. The digest is stored bare and compared bare. */
  predicate DecisionLeads(r: Record, q: DecisionRequest, expected: Option<int>, now: int, to: WorkStatus) {
    && q.actor != "" && q.actor == r.sender && q.actor !in Executors(r) && AtVersion(r, expected)
    && (q.expiresAt.Some? ==> now < q.expiresAt.value)
    && (Edge(r.status, Human(q.decisionType), to)
        || (q.decisionType.CancelDecision? && MayBeCancelled(r.status) && to.Cancelled?))
    && (q.decisionType.AcceptCompletionDecision? || q.decisionType.RequestRevisionDecision? ==>
          !QuestionOpen(Events(r.ledger)))
    && (q.decisionType.ApprovePlanDecision? ==>
          && StoredPlan(r).Some? && q.targetId == PlanName(StoredPlan(r).value.packet)
          && Bare(Bare(q.targetSha256)) == Bare(StoredPlan(r).value.contentSha256))
  }

  predicate DecisionIsNew(r: Record, q: DecisionRequest, decisionId: string) {
    forall row <- r.decisions ::
      && row.decision.decisionId != decisionId
      && !(row.decision.actor == q.actor && row.decision.decisionType == q.decisionType
           && row.decision.idempotencyKey == q.idempotencyKey)
  }

  predicate DecisionAdmitted(r: Record, q: DecisionRequest, expected: Option<int>, decisionId: string, clash: bool, now: int,
                             to: WorkStatus) {
    && Text.Strip(q.rationale) != "" && Text.Utf8Length(Text.Strip(q.rationale)) <= 512 && !clash
    && DecisionIsNew(r, q, decisionId) && DecisionLeads(r, q, expected, now, to)
  }

  /** The stored decision is the request, with its digest bare and its rationale trimmed. */
  predicate IsDecisionFor(d: StoredDecision, r: Record, q: DecisionRequest, decisionId: string, now: int) {
    && d.decisionId == decisionId && d.decisionType == q.decisionType && d.workOrderId == r.workOrderId
    && d.actor == q.actor && d.targetKind == q.targetKind && d.targetId == q.targetId
    && d.targetSha256 == Bare(q.targetSha256) && d.permittedAction == q.permittedAction && d.scope == q.scope
    && d.createdAt == now && d.idempotencyKey == q.idempotencyKey && d.rationale == Text.Strip(q.rationale)
    && d.expiresAt == q.expiresAt
  }

  predicate DecisionIsStored(r: Record, r': Record, q: DecisionRequest, decisionId: string, now: int, to: WorkStatus,
                             receipt: Receipt) {
    && r'.status == to && r'.responses == r.responses && r'.dispatches == r.dispatches
    && |r'.decisions| == |r.decisions| + 1 && r.decisions <= r'.decisions
    && (var row := r'.decisions[|r.decisions|];
        && IsDecisionFor(row.decision, r, q, decisionId, now) && row.receipt == receipt
        && receipt == DecisionReceipt(decisionId, q.decisionType, to, NextNumber(r), row.fingerprint))
    && |r'.ledger| == |r.ledger| + 1 && r.ledger <= r'.ledger
    && (var e := r'.ledger[|r.ledger|];
        && e.sequence == NextNumber(r) && e.actor == q.actor && e.body.DecisionEntry?
        && DecisionName(q.decisionType, e.body.event) && e.body.decision == r'.decisions[|r.decisions|].decision)
  }

  // ---------------------------------------------------------------- broker messages

  predicate MessageLeads(r: Record, event: LifecycleEvent, actor: string, expected: Option<int>, to: WorkStatus) {
    && Participant(r, actor) && AtVersion(r, expected)
    && (((event.PlanApprovalRequested? || event.CompletionReview?) && Edge(r.status, Message(event), to))
        || (event.QuestionAnswer? && r.status.WaitingForInput? && Origin(r) == Some(to)))
  }

  predicate MessageIsStored(r: Record, r': Record, event: LifecycleEvent, actor: string, messageId: string, to: WorkStatus,
                            receipt: Receipt) {
    && r'.status == to && r'.responses == r.responses && r'.decisions == r.decisions && r'.dispatches == r.dispatches
    && receipt == BrokerReceipt(event, to, NextNumber(r), messageId)
    && r'.ledger == r.ledger + [LedgerEntry(NextNumber(r), actor, BrokerEntry(event, messageId))]
  }

  // ---------------------------------------------------------------- dispatches

  /** The agent of the last planning acknowledgement that the ledger holds. */
  function AgentOf(ledger: seq<LedgerEntry>): Option<string> {
    if ledger == [] then None
    else if ledger[|ledger| - 1].body.ExecutorAcknowledged? then
      if ledger[|ledger| - 1].body.agentId == "" then None else Some(ledger[|ledger| - 1].body.agentId)
    else AgentOf(ledger[..|ledger| - 1])
  }

  /** The bundle of the work order refers to artifacts. */
  predicate RefersToArtifacts(ledger: seq<LedgerEntry>) {
    exists i :: 0 <= i < |ledger| && ledger[i].body == BundleValidated(true)
                && forall j :: i < j < |ledger| ==> !ledger[j].body.BundleValidated?
  }

  /** A plan the caller names must be the stored one. */
  predicate NamesPlan(q: IntentRequest, plan: StoredResponse) {
    && (Filled(q.planId) ==> q.planId.value == PlanName(plan.packet))
    && (Filled(q.planSha256) ==> Bare(q.planSha256.value) == plan.contentSha256)
  }

  predicate IntentLeads(r: Record, q: IntentRequest, now: int) {
    && Participant(r, q.actor) && AtVersion(r, q.expectedVersion)
    && (q.event.PlanExecute? || q.event.ImplementationRefine?)
    && Edge(r.status, Message(q.event), ExecutionDispatched)
    && PlanIsApproved(r, now) && NamesPlan(q, StoredPlan(r).value)
  }

  /** The last approval that covers the plan and is live. */
  predicate IsLatestApproval(rows: seq<DecisionRow>, k: nat, plan: StoredResponse, now: int) {
    && k < |rows| && Covers(rows[k].decision, plan) && Live(rows[k].decision, now)
    && forall j :: k < j < |rows| ==> !(Covers(rows[j].decision, plan) && Live(rows[j].decision, now))
  }

  predicate IntentAdmitted(r: Record, q: IntentRequest, dispatchId: string, wrapperSha256: string, now: int) {
    && !RefersToArtifacts(r.ledger) && IntentLeads(r, q, now)
    && forall d <- r.dispatches :: d.dispatchId != dispatchId
  }

  /** A new row: attempt n + 1 of the stored plan, under its latest approval, unclaimed. */
  predicate IntentIsStored(r: Record, r': Record, q: IntentRequest, dispatchId: string, wrapperSha256: string, now: int,
                           receipt: Receipt) {
    var attempt := |r.dispatches| + 1;
    && r'.status.ExecutionDispatched? && r'.responses == r.responses && r'.decisions == r.decisions
    && receipt == IntentReceipt(q.event, ExecutionDispatched, NextNumber(r), dispatchId, attempt)
    && r'.ledger == r.ledger + [LedgerEntry(NextNumber(r), q.actor, IntentEntry(q.event, dispatchId, attempt))]
    && |r'.dispatches| == |r.dispatches| + 1 && r.dispatches <= r'.dispatches
    && StoredPlan(r).Some?
    && (var plan, d := StoredPlan(r).value, r'.dispatches[|r.dispatches|];
        && d.dispatchId == dispatchId && d.attempt == attempt
        && d.planId == PlanName(plan.packet) && d.planSha256 == plan.contentSha256
        && d.providerKey == ProviderKey(attempt, plan.contentSha256, wrapperSha256)
        && (exists k :: 0 <= k < |r.decisions| && IsLatestApproval(r.decisions, k, plan, now)
                       && d.approvalDecisionId == r.decisions[k].decision.decisionId)
        && d.existingAgentId == AgentOf(r.ledger)
        && d.state.Pending? && d.attemptCount == 0 && d.leaseOwner.None? && d.leaseExpiresAt.None?
        && d.providerAgentId.None? && d.providerRunId.None? && d.lastFailureCode.None? && d.receipt == receipt)
  }
}
