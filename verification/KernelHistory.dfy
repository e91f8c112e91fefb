/** The kernel over its snapshot accepts and does exactly what the documented lifecycle reads off the rows. */
module KernelHistory {
  import opened Wrappers
  import opened Packets
  import opened Lifecycle
  import opened Broker
  import opened Planning
  import opened Runs
  import opened Chain
  import opened PlanAuthority
  import opened BoundRun
  import opened History
  import Text

  // ---------------------------------------------------------------- the kernel, field by field

  lemma BareIsRemovePrefix(s: string)
    ensures Text.RemovePrefix(s, "sha256:") == Bare(s)
  {
  }

  lemma ReplyEdges(status: WorkStatus, packet: ResponsePacket, to: WorkStatus)
    requires ResponseEvent(packet.responseType).Ok?
    ensures Edge(status, InputOf(packet), to) <==>
            ResponseTarget(status, ResponseEvent(packet.responseType).value, packet) == Ok(to)
    ensures SameName(packet.responseType, ResponseEvent(packet.responseType).value)
  {
    if packet.responseType.ReviewCompleted? {
      ReviewEdges(status, packet, to);
    } else {
      PlainReplyEdges(status, packet.responseType, to);
    }
  }

  lemma PlainReplyEdges(status: WorkStatus, t: ResponseType, to: WorkStatus)
    requires ResponseEvent(t).Ok? && !t.ReviewCompleted?
    ensures Edge(status, Reply(t), to) <==>
            !Terminal(status) && NextState(status, ResponseEvent(t).value) == Ok(to)
  {
  }

  lemma ReviewEdges(status: WorkStatus, packet: ResponsePacket, to: WorkStatus)
    requires packet.responseType.ReviewCompleted?
    ensures Edge(status, InputOf(packet), to) <==>
            ResponseTarget(status, LifecycleEvent.ReviewCompleted, packet) == Ok(to)
  {
    assert "None" != "APPROVED" && "None" != "REJECTED" && "None" != "REVISE" by { assert |"None"| == 4; }
  }

  lemma NoReplyEdge(status: WorkStatus, packet: ResponsePacket, to: WorkStatus)
    requires ResponseEvent(packet.responseType).Err?
    ensures !Edge(status, InputOf(packet), to)
  {
  }

  predicate TakesAddress(s: Snapshot, packet: ResponsePacket, actor: string, expected: Option<int>) {
    && actor != "" && actor in s.participants && (expected.Some? ==> expected.value == s.version)
    && packet.workOrderId == s.workOrderId && packet.inReplyTo == s.currentParentId
    && packet.sourceInputSha256 == s.sourceInputSha256
    && (Filled(packet.actor) ==> packet.actor.value == actor)
  }

  predicate TakesRun(s: Snapshot, packet: ResponsePacket) {
    packet.responseType.ExecutionProgress? || packet.responseType.ExecutionCompleted? || packet.responseType.ExecutionFailed?
    ==> s.executionAcknowledged && RunNamed(packet) == s.boundRunId
  }

  /** What apply_response asks, in the fields of the snapshot. */
  predicate Takes(status: WorkStatus, s: Snapshot, packet: ResponsePacket, actor: string,
                  ds: seq<StoredDecision>, expected: Option<int>, now: int, to: WorkStatus) {
    && TakesAddress(s, packet, actor, expected)
    && Edge(status, InputOf(packet), to)
    && (packet.responseType.ExecutionAcknowledged? ==>
          MatchingPlanApproval(ds, Or(s.planId, ""), Or(s.planSha256, ""), now).Ok?)
    && TakesRun(s, packet)
  }

  lemma ReportedIsNamed(packet: ResponsePacket)
    ensures ReportedRun(packet) == RunNamed(packet)
  {
  }

  /** apply_response as one condition. */
  predicate ResponseConditions(status: WorkStatus, s: Snapshot, packet: ResponsePacket, actor: string,
                               ds: seq<StoredDecision>, expected: Option<int>, now: int, to: WorkStatus)
    requires ResponseEvent(packet.responseType).Ok?
  {
    && TakesAddress(s, packet, actor, expected)
    && ResponseTarget(status, ResponseEvent(packet.responseType).value, packet) == Ok(to)
    && (packet.responseType.ExecutionAcknowledged? ==>
          MatchingPlanApproval(ds, Or(s.planId, ""), Or(s.planSha256, ""), now).Ok?)
    && (NeedsBoundRun(packet.responseType) ==> s.executionAcknowledged && ReportedRun(packet) == s.boundRunId)
  }

  lemma ResponseIsConditions(status: WorkStatus, s: Snapshot, packet: ResponsePacket, actor: string,
                             ds: seq<StoredDecision>, expected: Option<int>, now: int, to: WorkStatus)
    requires ResponseEvent(packet.responseType).Ok?
    ensures
      var t := ApplyResponse(status, s, packet, actor, ds, expected, now);
      && (t.Ok? && t.value.status == to <==> ResponseConditions(status, s, packet, actor, ds, expected, now, to))
      && (t.Ok? ==> t.value.event == ResponseEvent(packet.responseType).value)
  {
  }

  lemma TakesIsConditions(status: WorkStatus, s: Snapshot, packet: ResponsePacket, actor: string,
                          ds: seq<StoredDecision>, expected: Option<int>, now: int, to: WorkStatus)
    requires ResponseEvent(packet.responseType).Ok?
    ensures Takes(status, s, packet, actor, ds, expected, now, to) <==>
            ResponseConditions(status, s, packet, actor, ds, expected, now, to)
  {
    ReplyEdges(status, packet, to);
    ReportedIsNamed(packet);
  }

  lemma UnknownReplyIsRefused(status: WorkStatus, s: Snapshot, packet: ResponsePacket, actor: string,
                              ds: seq<StoredDecision>, expected: Option<int>, now: int)
    requires ResponseEvent(packet.responseType).Err?
    ensures ApplyResponse(status, s, packet, actor, ds, expected, now).Err?
  {
  }

  lemma KernelTakesResponse(status: WorkStatus, s: Snapshot, packet: ResponsePacket, actor: string,
                            ds: seq<StoredDecision>, expected: Option<int>, now: int, to: WorkStatus)
    ensures
      var t := ApplyResponse(status, s, packet, actor, ds, expected, now);
      && (Takes(status, s, packet, actor, ds, expected, now, to) <==> t.Ok? && t.value.status == to)
      && (t.Ok? ==> SameName(packet.responseType, t.value.event))
  {
    if ResponseEvent(packet.responseType).Ok? {
      ReplyEdges(status, packet, to);
      TakesIsConditions(status, s, packet, actor, ds, expected, now, to);
      ResponseIsConditions(status, s, packet, actor, ds, expected, now, to);
    } else {
      NoReplyEdge(status, packet, to);
      UnknownReplyIsRefused(status, s, packet, actor, ds, expected, now);
    }
  }

  // ---------------------------------------------------------------- decisions and messages, field by field

  lemma NoHumanEdge(status: WorkStatus, t: DecisionType, to: WorkStatus)
    requires DecisionEvent(t).None?
    ensures !Edge(status, Human(t), to) && !t.CancelDecision?
  {
  }

  lemma ApprovalNamesPlan(s: Snapshot, d: StoredDecision)
    requires d.decisionType.ApprovePlanDecision?
    ensures CheckPlanApproval(s, d).Ok? <==>
            && Filled(s.planId) && Filled(s.planSha256) && d.targetId == s.planId.value
            && Bare(d.targetSha256) == Bare(s.planSha256.value)
  {
    BareIsRemovePrefix(d.targetSha256);
    if s.planSha256.Some? { BareIsRemovePrefix(s.planSha256.value); }
  }

  /** The part of apply_decision that asks who decides and when. */
  predicate MayDecide(s: Snapshot, d: StoredDecision, expected: Option<int>, now: int) {
    && d.actor != "" && d.actor in s.participants && (expected.Some? ==> expected.value == s.version)
    && Some(d.actor) != s.boundAgentId && d.actor !in s.executorPrincipals && d.actor in s.decisionPrincipals
    && Live(d, now) && Text.Strip(d.rationale) != "" && d.workOrderId == s.workOrderId
  }

  /** apply_decision as one condition. */
  predicate DecisionConditions(status: WorkStatus, s: Snapshot, event: LifecycleEvent, d: StoredDecision,
                               expected: Option<int>, now: int, to: WorkStatus) {
    && MayDecide(s, d, expected, now)
    && (s.blockedFrom.Some? ==> !event.AcceptCompletion? && !event.RequestRevision?)
    && (event.ApprovePlan? ==> CheckPlanApproval(s, d).Ok?)
    && NextState(status, event) == Ok(to)
  }

  lemma DecisionIsConditions(status: WorkStatus, s: Snapshot, event: LifecycleEvent, d: StoredDecision, expected: Option<int>,
                             now: int, to: WorkStatus)
    requires IsDecisionEvent(event)
    ensures
      var t := ApplyDecision(status, s, event, d, expected, now);
      && (t.Ok? && t.value.status == to <==> DecisionConditions(status, s, event, d, expected, now, to))
      && (t.Ok? ==> t.value.event == event && t.value.snapshot == s.(version := s.version + 1))
  {
  }

  predicate NamesPlanOf(s: Snapshot, d: StoredDecision) {
    && Filled(s.planId) && Filled(s.planSha256) && d.targetId == s.planId.value
    && Bare(d.targetSha256) == Bare(s.planSha256.value)
  }

  /** What apply_decision asks, in the fields of the snapshot. */
  predicate Decides(status: WorkStatus, s: Snapshot, d: StoredDecision, expected: Option<int>, now: int, to: WorkStatus) {
    && MayDecide(s, d, expected, now)
    && (s.blockedFrom.Some? ==> !d.decisionType.AcceptCompletionDecision? && !d.decisionType.RequestRevisionDecision?)
    && (d.decisionType.ApprovePlanDecision? ==> NamesPlanOf(s, d))
    && (Edge(status, Human(d.decisionType), to)
        || (d.decisionType.CancelDecision? && MayBeCancelled(status) && to.Cancelled?))
  }

  lemma ApprovalConditions(status: WorkStatus, s: Snapshot, d: StoredDecision, expected: Option<int>, now: int, to: WorkStatus)
    requires d.decisionType.ApprovePlanDecision?
    ensures Decides(status, s, d, expected, now, to) <==> DecisionConditions(status, s, ApprovePlan, d, expected, now, to)
  {
    ApprovalNamesPlan(s, d);
  }

  lemma RejectionConditions(status: WorkStatus, s: Snapshot, d: StoredDecision, expected: Option<int>, now: int, to: WorkStatus)
    requires d.decisionType.RejectPlanDecision?
    ensures Decides(status, s, d, expected, now, to) <==> DecisionConditions(status, s, RejectPlan, d, expected, now, to)
  {
  }

  lemma AcceptanceConditions(status: WorkStatus, s: Snapshot, d: StoredDecision, expected: Option<int>, now: int, to: WorkStatus)
    requires d.decisionType.AcceptCompletionDecision?
    ensures Decides(status, s, d, expected, now, to) <==> DecisionConditions(status, s, AcceptCompletion, d, expected, now, to)
  {
  }

  lemma RevisionConditions(status: WorkStatus, s: Snapshot, d: StoredDecision, expected: Option<int>, now: int, to: WorkStatus)
    requires d.decisionType.RequestRevisionDecision?
    ensures Decides(status, s, d, expected, now, to) <==> DecisionConditions(status, s, RequestRevision, d, expected, now, to)
  {
  }

  lemma CancellationConditions(status: WorkStatus, s: Snapshot, d: StoredDecision, expected: Option<int>, now: int, to: WorkStatus)
    requires d.decisionType.CancelDecision?
    ensures Decides(status, s, d, expected, now, to) <==> DecisionConditions(status, s, Cancel, d, expected, now, to)
  {
  }

  lemma KernelTakesDecision(status: WorkStatus, s: Snapshot, d: StoredDecision, expected: Option<int>, now: int, to: WorkStatus)
    requires DecisionEvent(d.decisionType).Some?
    ensures
      var t := ApplyDecision(status, s, DecisionEvent(d.decisionType).value, d, expected, now);
      Decides(status, s, d, expected, now, to) <==> t.Ok? && t.value.status == to
  {
    match d.decisionType {
      case ApprovePlanDecision => ApprovalConditions(status, s, d, expected, now, to);
      case RejectPlanDecision => RejectionConditions(status, s, d, expected, now, to);
      case AcceptCompletionDecision => AcceptanceConditions(status, s, d, expected, now, to);
      case RequestRevisionDecision => RevisionConditions(status, s, d, expected, now, to);
      case CancelDecision => CancellationConditions(status, s, d, expected, now, to);
    }
    DecisionIsConditions(status, s, DecisionEvent(d.decisionType).value, d, expected, now, to);
  }

  lemma KernelTakesMessage(status: WorkStatus, s: Snapshot, event: LifecycleEvent, actor: string, message: string,
                           ds: seq<StoredDecision>, expected: Option<int>, now: int, to: WorkStatus)
    requires PlainBrokerEvent(event)
    ensures
      var t := ApplyBrokerEvent(status, s, event, actor, message, ds, expected, None, None, now);
      && (t.Ok? && t.value.status == to <==>
            && actor != "" && actor in s.participants && (expected.Some? ==> expected.value == s.version)
            && (if event.QuestionAnswer? then status.WaitingForInput? && s.blockedFrom == Some(to)
                else Edge(status, Message(event), to)))
      && (t.Ok? ==> t.value.event == event)
  {
  }

  /** The authority a dispatch needs: nothing else than the stored plan may be named, and it must be approved. */
  lemma KernelTakesDispatch(status: WorkStatus, s: Snapshot, event: LifecycleEvent, actor: string, message: string,
                            ds: seq<StoredDecision>, expected: Option<int>, plan: Option<string>, sha: Option<string>,
                            now: int, to: WorkStatus)
    requires IsDispatchEvent(event) && Filled(plan) && Filled(sha) && Filled(s.planId) && Filled(s.planSha256)
    requires s.originalLineage != []
    ensures
      var t := ApplyBrokerEvent(status, s, event, actor, message, ds, expected, plan, sha, now);
      && (t.Ok? && t.value.status == to <==>
            && actor != "" && actor in s.participants && (expected.Some? ==> expected.value == s.version)
            && plan == s.planId && sha == s.planSha256
            && MatchingPlanApproval(ds, s.planId.value, s.planSha256.value, now).Ok?
            && Edge(status, Message(event), to))
      && (t.Ok? ==> t.value.event == event && t.value.snapshot.planId == s.planId && t.value.snapshot.planSha256 == s.planSha256)
  {
  }
}
