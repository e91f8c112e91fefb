/** Over every run the snapshot holds what the rows and the ledger tell. */
module SnapshotHistory {
  import opened Wrappers
  import opened Packets
  import opened Lifecycle
  import opened Broker
  import opened Planning
  import opened Runs
  import opened Chain
  import opened PlanAuthority
  import opened History
  import opened KernelHistory

  // ---------------------------------------------------------------- the snapshot tells the rows

  function PlanIdOfRows(r: Record): Option<string> {
    if StoredPlan(r).Some? then Some(PlanName(StoredPlan(r).value.packet)) else None
  }

  function PlanDigestOfRows(r: Record): Option<string> {
    if StoredPlan(r).Some? then Some(StoredPlan(r).value.contentSha256) else None
  }

  function RunOfRows(r: Record): Option<string> {
    if StoredAck(r).Some? then RunBound(StoredAck(r).value.packet) else None
  }

  predicate TellsPlan(r: Record) {
    var s := CurrentSnapshot(r);
    && s.planId == PlanIdOfRows(r) && s.planSha256 == PlanDigestOfRows(r)
    && (StoredPlan(r).Some? ==> Filled(s.planId) && Filled(s.planSha256))
  }

  predicate TellsExecutors(r: Record) {
    var s := CurrentSnapshot(r);
    s.executorPrincipals == Executors(r) && (s.boundAgentId.Some? ==> s.boundAgentId.value in Executors(r))
  }

  predicate TellsOrigin(r: Record) {
    CurrentSnapshot(r).blockedFrom == Origin(r) && (Origin(r).Some? ==> !r.status.Planning?)
  }

  predicate TellsRun(r: Record) {
    var s := CurrentSnapshot(r);
    (s.executionAcknowledged <==> StoredAck(r).Some?) && s.boundRunId == RunOfRows(r)
  }

  /** What the last stored review reported. */
  function OutcomeOfRows(r: Record): Option<string> {
    var review := LastOf(r.responses, ResponseType.ReviewCompleted);
    if review.Some? then TextField(review.value.packet, "outcome") else None
  }

  predicate TellsReview(r: Record) {
    var outcome := CurrentSnapshot(r).latestReviewOutcome;
    outcome == OutcomeOfRows(r) && DropEmpty(outcome) == outcome
  }

  predicate TellsRows(r: Record) {
    TellsPlan(r) && TellsExecutors(r) && TellsOrigin(r) && TellsRun(r) && TellsReview(r)
  }

  lemma ActorsOfAppend(rows: seq<StoredResponse>, row: StoredResponse)
    ensures AckActors(rows + [row]) ==
              if row.packet.responseType.ExecutionAcknowledged? then AckActors(rows) + {row.actor} else AckActors(rows)
  {
  }

  /** What the rows tell when one response is added under its event. */
  lemma RowsAfterResponse(r: Record, r': Record, row: StoredResponse)
    requires r'.responses == r.responses + [row] && r'.recipient == r.recipient
    requires r.ledger <= r'.ledger && |r'.ledger| == |r.ledger| + 1 && IsLifecycleEntry(r'.ledger[|r.ledger|])
    requires SameName(row.packet.responseType, r'.ledger[|r.ledger|].body.event)
    ensures
      var t := row.packet.responseType;
      && StoredPlan(r') == (if t.PlanCompleted? then Some(row) else StoredPlan(r))
      && StoredAck(r') == (if t.ExecutionAcknowledged? then Some(row) else StoredAck(r))
      && Executors(r') == Executors(r) + (if t.ExecutionAcknowledged? then {row.actor} else {})
      && QuestionOpen(Events(r'.ledger)) == (t.QuestionBlocked? || QuestionOpen(Events(r.ledger)))
  {
    LastOfAppend(r.responses, row, ResponseType.PlanCompleted);
    LastOfAppend(r.responses, row, ResponseType.ExecutionAcknowledged);
    ActorsOfAppend(r.responses, row);
    EventsOfExtension(r.ledger, r'.ledger);
    QuestionOpenOfAppend(Events(r.ledger), r'.ledger[|r.ledger|].body.event);
  }

  lemma PlanHasAName(packet: ResponsePacket)
    requires Filled(packet.contentSha256)
    ensures PlanIdOf(packet) == PlanName(packet) && PlanName(packet) != ""
  {
  }

  lemma BoundRunIsNamed(packet: ResponsePacket)
    ensures DropEmpty(Some(Or(packet.executorRunId, PayloadText(packet, "executor_run_id")))) == RunBound(packet)
  {
  }

  lemma AgentIsActor(packet: ResponsePacket, actor: string)
    requires Filled(packet.actor) ==> packet.actor.value == actor
    ensures Or(packet.actor, actor) == actor
  {
  }

  /** The fields of the snapshot an accepted response moves. */
  lemma ResponseMoves(status: WorkStatus, s: Snapshot, packet: ResponsePacket, actor: string)
    requires Filled(packet.contentSha256) && (Filled(packet.actor) ==> packet.actor.value == actor)
    ensures
      var s' := Persisted(ResponseSnapshot(status, s, packet, actor).(currentParentId := MessageId(packet)));
      var t := packet.responseType;
      && s'.planId == (if t.PlanCompleted? then Some(PlanName(packet)) else DropEmpty(s.planId))
      && s'.planSha256 == (if t.PlanCompleted? then packet.contentSha256 else DropEmpty(s.planSha256))
      && s'.executorPrincipals == s.executorPrincipals + (if t.ExecutionAcknowledged? then {actor} else {})
      && s'.boundAgentId == DropEmpty(if t.ExecutionAcknowledged? then Some(actor) else s.boundAgentId)
      && s'.blockedFrom == (if t.QuestionBlocked? then Some(status) else s.blockedFrom)
      && s'.executionAcknowledged == (t.ExecutionAcknowledged? || s.executionAcknowledged)
      && s'.boundRunId == (if t.ExecutionAcknowledged? then RunBound(packet) else DropEmpty(s.boundRunId))
      && s'.latestReviewOutcome ==
         DropEmpty(if t.ReviewCompleted? then Some(PayloadText(packet, "outcome")) else s.latestReviewOutcome)
  {
    PlanHasAName(packet);
    BoundRunIsNamed(packet);
    AgentIsActor(packet, actor);
  }

  // ---------------------------------------------------------------- one step

  /** The snapshot that is read back after a stored transition. */
  lemma ReadBackSnapshot(r: Record, r': Record, t: Transition, parent: string)
    requires SnapshotTracksLedger(r') && Advanced(r, r', t, parent)
    ensures CurrentSnapshot(r') == Persisted(t.snapshot.(currentParentId := parent))
  {
  }

  /** A question is asked while planning, with no plan stored, or while executing, with one. */
  lemma QuestionOrigin(r: Record, packet: ResponsePacket, to: WorkStatus)
    requires PlanInvariant(r) && TellsRows(r)
    requires packet.responseType.QuestionBlocked? && Edge(r.status, InputOf(packet), to)
    ensures r.status == if StoredPlan(r).Some? then Executing else WorkStatus.Planning
  {
  }

  /** The first plan is stored while planning, when no question is open. */
  lemma PlanComesUnasked(r: Record, packet: ResponsePacket, to: WorkStatus)
    requires TellsRows(r) && packet.responseType.PlanCompleted? && Edge(r.status, InputOf(packet), to)
    ensures !QuestionOpen(Events(r.ledger))
  {
  }

  /** A response was stored: its row, its entry, its edge and the snapshot that was written. */
  predicate ResponseAdded(r: Record, r': Record, packet: ResponsePacket, actor: string) {
    && Filled(packet.contentSha256) && (Filled(packet.actor) ==> packet.actor.value == actor) && actor != ""
    && Edge(r.status, InputOf(packet), r'.status)
    && CurrentSnapshot(r') ==
       Persisted(ResponseSnapshot(r.status, CurrentSnapshot(r), packet, actor).(currentParentId := MessageId(packet)))
    && r'.recipient == r.recipient && |r'.responses| == |r.responses| + 1 && r.responses <= r'.responses
    && (var row := r'.responses[|r.responses|];
        row.packet == packet && row.actor == actor && row.contentSha256 == packet.contentSha256.value)
    && r.ledger <= r'.ledger && |r'.ledger| == |r.ledger| + 1 && IsLifecycleEntry(r'.ledger[|r.ledger|])
    && SameName(packet.responseType, r'.ledger[|r.ledger|].body.event)
  }

  lemma RowsOfAdded(r: Record, r': Record, packet: ResponsePacket, actor: string)
    requires ResponseAdded(r, r', packet, actor)
    ensures
      var t, row := packet.responseType, r'.responses[|r.responses|];
      && StoredPlan(r') == (if t.PlanCompleted? then Some(row) else StoredPlan(r))
      && StoredAck(r') == (if t.ExecutionAcknowledged? then Some(row) else StoredAck(r))
      && Executors(r') == Executors(r) + (if t.ExecutionAcknowledged? then {actor} else {})
      && QuestionOpen(Events(r'.ledger)) == (t.QuestionBlocked? || QuestionOpen(Events(r.ledger)))
  {
    var row := r'.responses[|r.responses|];
    assert r'.responses == r.responses + [row];
    RowsAfterResponse(r, r', row);
  }

  lemma ResponseTellsPlan(r: Record, r': Record, packet: ResponsePacket, actor: string)
    requires ResponseAdded(r, r', packet, actor) && TellsPlan(r)
    ensures TellsPlan(r')
  {
    RowsOfAdded(r, r', packet, actor);
    ResponseMoves(r.status, CurrentSnapshot(r), packet, actor);
    PlanHasAName(packet);
  }

  lemma ResponseTellsExecutors(r: Record, r': Record, packet: ResponsePacket, actor: string)
    requires ResponseAdded(r, r', packet, actor) && TellsExecutors(r)
    ensures TellsExecutors(r')
  {
    RowsOfAdded(r, r', packet, actor);
    ResponseMoves(r.status, CurrentSnapshot(r), packet, actor);
  }

  lemma ResponseTellsOrigin(r: Record, r': Record, packet: ResponsePacket, actor: string)
    requires ResponseAdded(r, r', packet, actor) && PlanInvariant(r) && TellsRows(r)
    ensures TellsOrigin(r')
  {
    RowsOfAdded(r, r', packet, actor);
    ResponseMoves(r.status, CurrentSnapshot(r), packet, actor);
    if packet.responseType.QuestionBlocked? {
      QuestionOrigin(r, packet, r'.status);
    } else if packet.responseType.PlanCompleted? {
      PlanComesUnasked(r, packet, r'.status);
    }
    NoEdgeToPlanning(r.status, InputOf(packet), r'.status);
  }

  lemma NoEdgeToPlanning(from: WorkStatus, input: Input, to: WorkStatus)
    requires Edge(from, input, to)
    ensures !to.Planning?
  {
  }

  lemma ResponseTellsRun(r: Record, r': Record, packet: ResponsePacket, actor: string)
    requires ResponseAdded(r, r', packet, actor) && TellsRun(r)
    requires DropEmpty(CurrentSnapshot(r).boundRunId) == CurrentSnapshot(r).boundRunId
    ensures TellsRun(r')
  {
    RowsOfAdded(r, r', packet, actor);
    ResponseMoves(r.status, CurrentSnapshot(r), packet, actor);
  }

  /** Only a review with one of the outcomes has an edge, and then the snapshot holds that outcome. */
  lemma OutcomeIsGiven(from: WorkStatus, packet: ResponsePacket, to: WorkStatus)
    requires packet.responseType.ReviewCompleted? && Edge(from, InputOf(packet), to)
    ensures DropEmpty(Some(PayloadText(packet, "outcome"))) == TextField(packet, "outcome")
    ensures TextField(packet, "outcome").Some? && TextField(packet, "outcome").value != ""
  {
  }

  lemma ResponseTellsReview(r: Record, r': Record, packet: ResponsePacket, actor: string)
    requires ResponseAdded(r, r', packet, actor) && TellsReview(r)
    ensures TellsReview(r')
  {
    var row := r'.responses[|r.responses|];
    assert r'.responses == r.responses + [row];
    LastOfAppend(r.responses, row, ResponseType.ReviewCompleted);
    ResponseMoves(r.status, CurrentSnapshot(r), packet, actor);
    if packet.responseType.ReviewCompleted? {
      OutcomeIsGiven(r.status, packet, r'.status);
    }
  }

  lemma SnapshotIsPersisted(r: Record)
    requires SnapshotTracksLedger(r)
    ensures DropEmpty(CurrentSnapshot(r).boundRunId) == CurrentSnapshot(r).boundRunId
  {
  }

  lemma RespondTells(r: Record, step: Step)
    requires SnapshotTracksLedger(r) && PlanInvariant(r) && TellsRows(r) && step.Respond?
    ensures TellsRows(Apply(r, step))
  {
    var r' := Apply(r, step);
    RespondShape(r, step);
    if r' != r {
      var t, s, ds := RespondTransition(r, step).value, CurrentSnapshot(r), Decisions(r.decisions);
      KernelTakesResponse(r.status, s, step.packet, step.actor, ds, step.expectedVersion, step.now, t.status);
      AcceptedResponse(r.status, s, step.packet, step.actor, ds, step.expectedVersion, step.now, t);
      RespondTracks(r, step);
      ReadBackSnapshot(r, r', t, MessageId(step.packet));
      SnapshotIsPersisted(r);
      ResponseTellsPlan(r, r', step.packet, step.actor);
      ResponseTellsExecutors(r, r', step.packet, step.actor);
      ResponseTellsOrigin(r, r', step.packet, step.actor);
      ResponseTellsRun(r, r', step.packet, step.actor);
      ResponseTellsReview(r, r', step.packet, step.actor);
    }
  }

  /** A decision, a message or a dispatch: no row of a response, and the snapshot keeps what the rows tell. */
  predicate QuietlyAdvanced(r: Record, r': Record, event: LifecycleEvent) {
    var s, s' := CurrentSnapshot(r), CurrentSnapshot(r');
    && r'.responses == r.responses && r'.recipient == r.recipient
    && r.ledger <= r'.ledger && |r'.ledger| == |r.ledger| + 1 && IsLifecycleEntry(r'.ledger[|r.ledger|])
    && r'.ledger[|r.ledger|].body.event == event && !event.QuestionBlocked?
    && s'.planId == DropEmpty(s.planId) && s'.planSha256 == DropEmpty(s.planSha256)
    && s'.executorPrincipals == s.executorPrincipals && s'.boundAgentId == DropEmpty(s.boundAgentId)
    && s'.blockedFrom == (if event.QuestionAnswer? then None else s.blockedFrom)
    && s'.executionAcknowledged == s.executionAcknowledged && s'.boundRunId == DropEmpty(s.boundRunId)
    && s'.latestReviewOutcome == DropEmpty(s.latestReviewOutcome)
    && (r'.status.Planning? ==> event.QuestionAnswer? || r.status.Planning?)
  }

  lemma QuietlyTells(r: Record, r': Record, event: LifecycleEvent)
    requires QuietlyAdvanced(r, r', event) && TellsRows(r)
    requires DropEmpty(CurrentSnapshot(r).boundRunId) == CurrentSnapshot(r).boundRunId
    ensures TellsRows(r')
  {
    EventsOfExtension(r.ledger, r'.ledger);
    QuestionOpenOfAppend(Events(r.ledger), event);
  }

  lemma BrokerEventKeeps(status: WorkStatus, s: Snapshot, event: LifecycleEvent, actor: string, message: string,
                         ds: seq<StoredDecision>, expected: Option<int>, planId: Option<string>,
                         planSha: Option<string>, now: int, t: Transition)
    requires ApplyBrokerEvent(status, s, event, actor, message, ds, expected, planId, planSha, now) == Ok(t)
    requires PlainBrokerEvent(event) || IsDispatchEvent(event)
    ensures t.event == event
    ensures t.snapshot.planId == s.planId && t.snapshot.planSha256 == s.planSha256
    ensures t.snapshot.executorPrincipals == s.executorPrincipals && t.snapshot.boundAgentId == s.boundAgentId
    ensures t.snapshot.blockedFrom == if event.QuestionAnswer? then None else s.blockedFrom
    ensures t.snapshot.executionAcknowledged == s.executionAcknowledged && t.snapshot.boundRunId == s.boundRunId
    ensures t.snapshot.latestReviewOutcome == s.latestReviewOutcome
    ensures !event.QuestionAnswer? ==> !t.status.Planning?
  {
  }

  lemma BrokerStepTells(r: Record, r': Record, t: Transition, event: LifecycleEvent, actor: string, message: string,
                        expected: Option<int>, planId: Option<string>, planSha: Option<string>, now: int)
    requires SnapshotTracksLedger(r) && SnapshotTracksLedger(r') && TellsRows(r) && Advanced(r, r', t, message)
    requires PlainBrokerEvent(event) || IsDispatchEvent(event)
    requires ApplyBrokerEvent(r.status, CurrentSnapshot(r), event, actor, message, Decisions(r.decisions),
                              expected, planId, planSha, now) == Ok(t)
    requires r'.responses == r.responses
    ensures TellsRows(r')
  {
    BrokerEventKeeps(r.status, CurrentSnapshot(r), event, actor, message, Decisions(r.decisions), expected, planId, planSha,
                     now, t);
    ReadBackSnapshot(r, r', t, message);
    SnapshotIsPersisted(r);
    QuietlyTells(r, r', event);
  }

  lemma MessageTells(r: Record, step: Step)
    requires SnapshotTracksLedger(r) && TellsRows(r) && step.BrokerMessage?
    ensures TellsRows(Apply(r, step))
  {
    MessageShape(r, step);
    if Apply(r, step) != r {
      MessageTracks(r, step);
      BrokerStepTells(r, Apply(r, step), MessageTransition(r, step).value, step.event, step.actor, step.messageId,
                      step.expectedVersion, None, None, step.now);
    }
  }

  lemma IntendTells(r: Record, step: Step)
    requires SnapshotTracksLedger(r) && TellsRows(r) && step.Intend?
    ensures TellsRows(Apply(r, step))
  {
    IntendShape(r, step);
    if Apply(r, step) != r {
      IntendTracks(r, step);
      var q, s := step.intent, CurrentSnapshot(r);
      BrokerStepTells(r, Apply(r, step), IntendTransition(r, step).value, q.event, q.actor, step.dispatchId,
                      q.expectedVersion, RequestedPlan(q, s), RequestedSha(q, s), step.now);
    }
  }

  lemma DecisionKeepsSnapshot(status: WorkStatus, s: Snapshot, event: LifecycleEvent, d: StoredDecision,
                              expected: Option<int>, now: int, t: Transition)
    requires ApplyDecision(status, s, event, d, expected, now) == Ok(t)
    ensures t.event == event && IsDecisionEvent(event) && t.snapshot == s.(version := s.version + 1) && !t.status.Planning?
  {
  }

  lemma DecideTells(r: Record, step: Step)
    requires SnapshotTracksLedger(r) && TellsRows(r) && step.Decide?
    ensures TellsRows(Apply(r, step))
  {
    var r' := Apply(r, step);
    DecideShape(r, step);
    if r' != r {
      var t, event := DecideTransition(r, step).value, DecisionEvent(step.request.decisionType).value;
      DecisionKeepsSnapshot(r.status, CurrentSnapshot(r), event, DecisionOf(r, step.request, step.decisionId, step.now),
                            step.expectedVersion, step.now, t);
      DecideTracks(r, step);
      ReadBackSnapshot(r, r', t, CurrentSnapshot(r).currentParentId);
      SnapshotIsPersisted(r);
      DecideKeepsResponses(r, step);
      QuietlyTells(r, r', event);
    }
  }

  lemma DecideKeepsResponses(r: Record, step: Step)
    requires step.Decide?
    ensures Apply(r, step).responses == r.responses
  {
    DecideShape(r, step);
  }

  lemma PlanTells(r: Record, write: PlanningWrite)
    requires PlanInvariant(r) && TellsRows(r)
    ensures TellsRows(Apply(r, Step.Plan(write)))
  {
    PlanningLeavesKernel(r, write);
    PlanningOnlyTells(r, ApplyPlanning(r, write).0);
  }

  lemma PlanningOnlyTells(r: Record, r': Record)
    requires PlanningOnly(r, r') && PlanInvariant(r) && TellsRows(r)
    ensures TellsRows(r')
  {
    QuietExtension(r.workOrderId, r.ledger, r'.ledger);
  }

  lemma StepTells(r: Record, step: Step)
    requires SnapshotTracksLedger(r) && PlanInvariant(r) && TellsRows(r)
    ensures TellsRows(Apply(r, step))
  {
    match step
    case Respond(_, _, _, _, _) => RespondTells(r, step);
    case Decide(_, _, _, _, _) => DecideTells(r, step);
    case BrokerMessage(_, _, _, _, _) => MessageTells(r, step);
    case Intend(_, _, _, _) => IntendTells(r, step);
    case Plan(write) => PlanTells(r, write);
    case _ => DispatchWritesOnlyDispatches(r, step);
  }

  lemma InitialTells(start: Record)
    requires Initial(start)
    ensures TellsRows(start)
  {
    QuietExtension(start.workOrderId, [], start.ledger);
  }

  // ---------------------------------------------------------------- over runs

  /** Everything the kernel reads in the snapshot is told by the rows and the ledger. */
  ghost predicate Told(r: Record) {
    SnapshotTracksLedger(r) && PlanInvariant(r) && TellsRows(r)
  }

  lemma {:induction false} ToldOverRuns(start: Record, steps: seq<Step>)
    requires Initial(start)
    ensures Told(Run(start, steps))
  {
    PlanInvariantOverRuns(start, steps);
    if steps == [] {
      InitialTells(start);
    } else {
      ToldOverRuns(start, steps[..|steps| - 1]);
      StepTells(Run(start, steps[..|steps| - 1]), steps[|steps| - 1]);
    }
  }
}
