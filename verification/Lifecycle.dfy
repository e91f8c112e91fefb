/** The pure lifecycle kernel (src/awr/lifecycle/kernel.py, transitions.py, decisions.py). */
module Lifecycle {
  import opened Wrappers
  import opened Packets
  import Text

  datatype WorkStatus =
    | Accepted
    | Routed
    | Planning
    | PlanReady
    | WaitingForPlanApproval
    | ReadyForExecution
    | ExecutionDispatched
    | Executing
    | CompletionReady
    | PlannerReviewing
    | RevisionRequired
    | WaitingForHumanReview
    | WaitingForInput
    | Complete
    | Failed
    | Cancelled

  predicate Terminal(status: WorkStatus) {
    status.Complete? || status.Failed? || status.Cancelled?
  }

  datatype LifecycleEvent =
    | PlanCompleted
    | PlanApprovalRequested
    | ApprovePlan
    | RejectPlan
    | PlanExecute
    | ExecutionAcknowledged
    | ExecutionProgress
    | ExecutionCompleted
    | ExecutionFailed
    | CompletionReview
    | ReviewCompleted
    | AcceptCompletion
    | RequestRevision
    | ImplementationRefine
    | QuestionBlocked
    | QuestionAnswer
    | Cancel

  predicate IsDecisionEvent(event: LifecycleEvent) {
    event.ApprovePlan? || event.RejectPlan? || event.AcceptCompletion? || event.RequestRevision? || event.Cancel?
  }

  predicate IsDispatchEvent(event: LifecycleEvent) {
    event.PlanExecute? || event.ImplementationRefine?
  }

  datatype LifecycleError = AuthorityError | LineageError | TransitionError | IdempotencyConflict

  // ---------------------------------------------------------------- transitions

  /** TRANSITION_TABLE: the smallest operational graph. */
  function Table(status: WorkStatus, event: LifecycleEvent): Option<WorkStatus> {
    match (status, event)
    case (Planning, PlanCompleted) => Some(PlanReady)
    case (Planning, QuestionBlocked) => Some(WaitingForInput)
    case (PlanReady, PlanApprovalRequested) => Some(WaitingForPlanApproval)
    case (WaitingForPlanApproval, ApprovePlan) => Some(ReadyForExecution)
    case (WaitingForPlanApproval, RejectPlan) => Some(PlanReady)
    case (ReadyForExecution, PlanExecute) => Some(ExecutionDispatched)
    case (ExecutionDispatched, ExecutionAcknowledged) => Some(Executing)
    case (Executing, ExecutionProgress) => Some(Executing)
    case (Executing, ExecutionCompleted) => Some(CompletionReady)
    case (Executing, ExecutionFailed) => Some(Failed)
    case (Executing, QuestionBlocked) => Some(WaitingForInput)
    case (CompletionReady, CompletionReview) => Some(PlannerReviewing)
    case (PlannerReviewing, ReviewCompleted) => Some(PlannerReviewing)
    case (WaitingForHumanReview, AcceptCompletion) => Some(Complete)
    case (WaitingForHumanReview, RequestRevision) => Some(RevisionRequired)
    case (WaitingForInput, QuestionAnswer) => Some(WaitingForInput)
    case (RevisionRequired, ImplementationRefine) => Some(ExecutionDispatched)
    case _ => None
  }

  /** CANCELLABLE: a family rule rather than one row per state. */
  predicate Cancellable(status: WorkStatus) {
    match status
    case Accepted | Routed | Complete | Failed | Cancelled => false
    case _ => true
  }

  function NextState(status: WorkStatus, event: LifecycleEvent): Result<WorkStatus, LifecycleError> {
    if event.Cancel? then
      if Cancellable(status) then Ok(Cancelled) else Err(TransitionError)
    else
      match Table(status, event)
      case Some(target) => Ok(target)
      case None => Err(TransitionError)
  }

  /** REVIEW_OUTCOMES */
  function ReviewTarget(outcome: string): Option<WorkStatus> {
    if outcome == "APPROVED" || outcome == "REJECTED" then Some(WaitingForHumanReview)
    else if outcome == "REVISE" then Some(RevisionRequired)
    else None
  }

  // ---------------------------------------------------------------- decisions

  datatype DecisionType =
    | ApprovePlanDecision
    | RejectPlanDecision
    | AcceptCompletionDecision
    | RequestRevisionDecision
    | CancelDecision
    | AuthorizeMerge
    | AuthorizeMainPush
    | AuthorizeDeployment
    | AuthorizeDestructive

  datatype TargetKind = OnPlan | OnCompletion | OnReview | OnWorkOrder

  /** Instants are integers; an absent expiry never expires. */
  datatype StoredDecision = StoredDecision(
    decisionId: string,
    decisionType: DecisionType,
    workOrderId: string,
    actor: string,
    targetKind: TargetKind,
    targetId: string,
    targetSha256: string,
    permittedAction: string,
    scope: string,
    createdAt: int,
    idempotencyKey: string,
    rationale: string,
    expiresAt: Option<int>)

  predicate DecisionExpired(decision: StoredDecision, now: int) {
    decision.expiresAt.Some? && decision.expiresAt.value <= now
  }

  /** A stored approval bound to exactly this plan fingerprint, whatever its expiry. */
  predicate ApprovesPlan(decision: StoredDecision, planId: string, planSha256: string) {
    && decision.decisionType.ApprovePlanDecision?
    && decision.targetKind.OnPlan?
    && decision.targetId == planId
    && Text.RemovePrefix(decision.targetSha256, "sha256:") == Text.RemovePrefix(planSha256, "sha256:")
  }

  /** matching_plan_approval: the last live approval of the plan, or a failure. */
  function MatchingPlanApproval(decisions: seq<StoredDecision>, planId: string, planSha256: string, now: int)
    : (r: Result<StoredDecision, LifecycleError>)
    ensures r.Ok? ==> r.value in decisions && ApprovesPlan(r.value, planId, planSha256) && !DecisionExpired(r.value, now)
    ensures r.Err? ==> forall d <- decisions :: ApprovesPlan(d, planId, planSha256) ==> DecisionExpired(d, now)
  {
    if decisions == [] then Err(AuthorityError)
    else
      var last := decisions[|decisions| - 1];
      if ApprovesPlan(last, planId, planSha256) && !DecisionExpired(last, now) then Ok(last)
      else
        MatchingPlanApproval(decisions[..|decisions| - 1], planId, planSha256, now)
  }

  // ---------------------------------------------------------------- snapshot

  datatype Snapshot = Snapshot(
    workOrderId: string,
    sourceInputSha256: string,
    currentParentId: string,
    version: int,
    participants: set<string>,
    planId: Option<string>,
    planSha256: Option<string>,
    boundAgentId: Option<string>,
    boundRunId: Option<string>,
    blockedFrom: Option<WorkStatus>,
    executionAcknowledged: bool,
    latestReviewOutcome: Option<string>,
    decisionPrincipals: set<string>,
    executorPrincipals: set<string>,
    originalLineage: seq<string>)

  function DeriveSnapshot(workOrderId: string, sender: string, recipient: string, source: string): Snapshot {
    Snapshot(workOrderId, source, workOrderId, 1, {sender, recipient, "broker:awr"},
             None, None, None, None, None, false, None, {sender}, {recipient}, [workOrderId])
  }

  function DropEmpty(text: Option<string>): Option<string> {
    if Truthy(text) then text else None
  }

  /** Writing a snapshot and reading it back: to_dict then from_dict turns empty strings into None. */
  function Persisted(s: Snapshot): Snapshot {
    s.(planId := DropEmpty(s.planId),
       planSha256 := DropEmpty(s.planSha256),
       boundAgentId := DropEmpty(s.boundAgentId),
       boundRunId := DropEmpty(s.boundRunId),
       latestReviewOutcome := DropEmpty(s.latestReviewOutcome))
  }

  datatype Transition = Transition(status: WorkStatus, snapshot: Snapshot, event: LifecycleEvent)

  /** _assert_actor */
  predicate KnownActor(actor: string, snapshot: Snapshot) {
    actor != "" && actor in snapshot.participants
  }

  function CheckVersion(snapshot: Snapshot, expectedVersion: Option<int>): Guard<LifecycleError> {
    Need(expectedVersion.Some? ==> expectedVersion.value == snapshot.version, LineageError)
  }

  function CheckDecisionPrincipal(actor: string, snapshot: Snapshot): Guard<LifecycleError> {
    Need(
      && Some(actor) != snapshot.boundAgentId
      && actor !in snapshot.executorPrincipals
      && actor in snapshot.decisionPrincipals,
      AuthorityError)
  }

  function Lineage(snapshot: Snapshot): seq<string> {
    if snapshot.originalLineage != [] then snapshot.originalLineage else [snapshot.currentParentId]
  }

  // ---------------------------------------------------------------- responses

  function ResponseEvent(responseType: ResponseType): Result<LifecycleEvent, LifecycleError> {
    match responseType
    case PlanCompleted => Ok(LifecycleEvent.PlanCompleted)
    case QuestionBlocked => Ok(LifecycleEvent.QuestionBlocked)
    case ExecutionAcknowledged => Ok(LifecycleEvent.ExecutionAcknowledged)
    case ExecutionProgress => Ok(LifecycleEvent.ExecutionProgress)
    case ExecutionCompleted => Ok(LifecycleEvent.ExecutionCompleted)
    case ExecutionFailed => Ok(LifecycleEvent.ExecutionFailed)
    case ReviewCompleted => Ok(LifecycleEvent.ReviewCompleted)
    case ReceiptAccepted => Err(TransitionError)
  }

  /** str(payload.get(key)): a missing key prints as None. */
  function PayloadText(packet: ResponsePacket, key: string): string {
    match Get(packet.payload, key)
    case Some(Str(s)) => s
    case _ => "None"
  }

  /** payload.get(key), when it is a string. */
  function PayloadString(packet: ResponsePacket, key: string): Option<string> {
    match Get(packet.payload, key)
    case Some(Str(s)) => Some(s)
    case _ => None
  }

  function ResponseTarget(status: WorkStatus, event: LifecycleEvent, packet: ResponsePacket)
    : Result<WorkStatus, LifecycleError>
  {
    if Terminal(status) then Err(TransitionError)
    else
      var target :- NextState(status, event);
      if event.ReviewCompleted? then
        match ReviewTarget(PayloadText(packet, "outcome"))
        case Some(reviewed) => Ok(reviewed)
        case None => Err(TransitionError)
      else
        Ok(target)
  }

  function PlanIdOf(packet: ResponsePacket): string {
    Or(PayloadString(packet, "plan_id"), Or(packet.messageId, packet.contentSha256.GetOr("None")))
  }

  predicate NeedsBoundRun(responseType: ResponseType) {
    responseType.ExecutionProgress? || responseType.ExecutionCompleted? || responseType.ExecutionFailed?
  }

  /** packet.executor_run_id or packet.payload.get("executor_run_id") */
  function ReportedRun(packet: ResponsePacket): Option<string> {
    if Truthy(packet.executorRunId) then packet.executorRunId else PayloadString(packet, "executor_run_id")
  }

  function ApplyResponse(
    status: WorkStatus, snapshot: Snapshot, packet: ResponsePacket, actor: string,
    decisions: seq<StoredDecision>, expectedVersion: Option<int>, now: int)
    : Result<Transition, LifecycleError>
  {
    if !KnownActor(actor, snapshot) then Err(AuthorityError)
    else
      :- CheckVersion(snapshot, expectedVersion);
      :- Need(packet.workOrderId == snapshot.workOrderId, LineageError);
      :- Need(packet.inReplyTo == snapshot.currentParentId, LineageError);
      :- Need(packet.sourceInputSha256 == snapshot.sourceInputSha256, LineageError);
      :- Need(Truthy(packet.actor) ==> packet.actor.value == actor, AuthorityError);
      var event :- ResponseEvent(packet.responseType);
      var target :- ResponseTarget(status, event, packet);
      var _ :- if packet.responseType.ExecutionAcknowledged? then
                 MatchingPlanApprovalCheck(decisions, snapshot, now)
               else Ok(());
      :- Need(NeedsBoundRun(packet.responseType) ==> snapshot.executionAcknowledged, LineageError);
      :- Need(NeedsBoundRun(packet.responseType) ==> ReportedRun(packet) == snapshot.boundRunId, LineageError);
      Ok(Transition(target, ResponseSnapshot(status, snapshot, packet, actor), event))
  }

  function MatchingPlanApprovalCheck(decisions: seq<StoredDecision>, snapshot: Snapshot, now: int)
    : Result<(), LifecycleError>
  {
    var _ :- MatchingPlanApproval(decisions, Or(snapshot.planId, ""), Or(snapshot.planSha256, ""), now);
    Ok(())
  }

  function ResponseSnapshot(status: WorkStatus, snapshot: Snapshot, packet: ResponsePacket, actor: string): Snapshot {
    var parent := Or(packet.messageId, Or(packet.contentSha256, snapshot.currentParentId));
    var moved := snapshot.(
      currentParentId := parent,
      version := snapshot.version + 1,
      originalLineage := Lineage(snapshot));
    match packet.responseType
    case PlanCompleted => moved.(planId := Some(PlanIdOf(packet)), planSha256 := packet.contentSha256)
    case ExecutionAcknowledged =>
      var agent := Or(packet.actor, actor);
      moved.(
        executionAcknowledged := true,
        boundRunId := Some(Or(packet.executorRunId, PayloadText(packet, "executor_run_id"))),
        boundAgentId := Some(agent),
        executorPrincipals := snapshot.executorPrincipals + {agent})
    case QuestionBlocked => moved.(blockedFrom := Some(status))
    case ReviewCompleted => moved.(latestReviewOutcome := Some(PayloadText(packet, "outcome")))
    case _ => moved
  }

  // ---------------------------------------------------------------- broker events

  /** The fingerprint a caller names must agree with the stored one, and a live approval must cover it. */
  function CheckExecutionAuthority(
    snapshot: Snapshot, decisions: seq<StoredDecision>, planId: Option<string>, planSha256: Option<string>, now: int)
    : Result<(), LifecycleError>
  {
    if Truthy(snapshot.planId) && Truthy(planId) && planId != snapshot.planId then Err(AuthorityError)
    else
      :- Need(Truthy(snapshot.planSha256) && Truthy(planSha256) ==> planSha256 == snapshot.planSha256, AuthorityError);
      var _ :- MatchingPlanApproval(
        decisions, Or(planId, Or(snapshot.planId, "")), Or(planSha256, Or(snapshot.planSha256, "")), now);
      Ok(())
  }

  function ApplyBrokerEvent(
    status: WorkStatus, snapshot: Snapshot, event: LifecycleEvent, actor: string, messageId: string,
    decisions: seq<StoredDecision>, expectedVersion: Option<int>,
    planId: Option<string>, planSha256: Option<string>, now: int)
    : Result<Transition, LifecycleError>
  {
    if !KnownActor(actor, snapshot) then Err(AuthorityError)
    else
      :- CheckVersion(snapshot, expectedVersion);
      var _ :- if IsDispatchEvent(event) then CheckExecutionAuthority(snapshot, decisions, planId, planSha256, now) else Ok(());
      :- Need(event.ImplementationRefine? ==> snapshot.originalLineage != [], LineageError);
      var target :- NextState(status, event);
      if event.QuestionAnswer? then
        :- Need(snapshot.blockedFrom.Some?, TransitionError);
        Ok(Transition(
             snapshot.blockedFrom.value,
             snapshot.(currentParentId := messageId, version := snapshot.version + 1, blockedFrom := None),
             event))
      else
        Ok(Transition(
             target,
             snapshot.(currentParentId := messageId, version := snapshot.version + 1, originalLineage := Lineage(snapshot)),
             event))
  }

  // ---------------------------------------------------------------- stored decisions

  function DecisionEvent(decisionType: DecisionType): Option<LifecycleEvent> {
    match decisionType
    case ApprovePlanDecision => Some(LifecycleEvent.ApprovePlan)
    case RejectPlanDecision => Some(LifecycleEvent.RejectPlan)
    case AcceptCompletionDecision => Some(LifecycleEvent.AcceptCompletion)
    case RequestRevisionDecision => Some(LifecycleEvent.RequestRevision)
    case CancelDecision => Some(LifecycleEvent.Cancel)
    case _ => None
  }

  function ApplyDecision(
    status: WorkStatus, snapshot: Snapshot, event: LifecycleEvent, decision: StoredDecision,
    expectedVersion: Option<int>, now: int)
    : Result<Transition, LifecycleError>
  {
    if !KnownActor(decision.actor, snapshot) then Err(AuthorityError)
    else
      :- CheckVersion(snapshot, expectedVersion);
      :- Need(IsDecisionEvent(event), AuthorityError);
      :- CheckDecisionPrincipal(decision.actor, snapshot);
      :- Need(!DecisionExpired(decision, now), AuthorityError);
      :- Need(Text.Strip(decision.rationale) != "", AuthorityError);
      :- Need(decision.workOrderId == snapshot.workOrderId, LineageError);
      :- Need(
        snapshot.blockedFrom.Some? ==> !event.AcceptCompletion? && !event.RequestRevision?, TransitionError);
      var _ :- if event.ApprovePlan? then CheckPlanApproval(snapshot, decision) else Ok(());
      var target :- NextState(status, event);
      Ok(Transition(target, snapshot.(version := snapshot.version + 1), event))
  }

  function CheckPlanApproval(snapshot: Snapshot, decision: StoredDecision): Result<(), LifecycleError> {
    if !decision.decisionType.ApprovePlanDecision? then Err(AuthorityError)
    else
      :- Need(Truthy(snapshot.planId) && Truthy(snapshot.planSha256), AuthorityError);
      :- Need(
        && decision.targetId == snapshot.planId.value
        && Text.RemovePrefix(decision.targetSha256, "sha256:") == Text.RemovePrefix(snapshot.planSha256.value, "sha256:"),
        AuthorityError);
      Ok(())
  }
}
