/** An accepted approval names the stored plan, and nothing runs without one. */
module Approvals {
  import opened Wrappers
  import opened Packets
  import opened Lifecycle
  import opened Broker
  import opened Planning
  import opened Runs
  import opened Chain
  import opened PlanAuthority
  import opened History
  import opened KernelHistory
  import opened SnapshotHistory
  import opened Reference

  /** The decision names this plan packet by its id and its digest. */
  predicate Names(d: StoredDecision, plan: StoredResponse) {
    d.targetId == PlanName(plan.packet) && Bare(d.targetSha256) == Bare(plan.contentSha256)
  }

  /** Every stored approval names the one stored plan. */
  predicate ApprovalsNamePlan(r: Record) {
    forall row <- r.decisions :: row.decision.decisionType.ApprovePlanDecision? ==>
      StoredPlan(r).Some? && Names(row.decision, StoredPlan(r).value)
  }

  predicate HasApproval(r: Record) {
    StoredPlan(r).Some? && exists row <- r.decisions ::
      row.decision.decisionType.ApprovePlanDecision? && Names(row.decision, StoredPlan(r).value)
  }

  // ---------------------------------------------------------------- one decision

  /** The request names this plan packet. */
  predicate Requests(q: DecisionRequest, plan: StoredResponse) {
    q.targetId == PlanName(plan.packet) && Bare(Bare(q.targetSha256)) == Bare(plan.contentSha256)
  }

  lemma ApprovalStep(r: Record, q: DecisionRequest, expected: Option<int>, id: string, clash: bool, now: int)
    requires Told(r) && q.decisionType.ApprovePlanDecision? && Apply(r, Decide(q, expected, id, clash, now)) != r
    ensures
      var r', plan := Apply(r, Decide(q, expected, id, clash, now)), LastOf(r.responses, ResponseType.PlanCompleted);
      && plan.Some? && Requests(q, plan.value) && r'.status.ReadyForExecution?
      && |r'.decisions| == |r.decisions| + 1 && Names(r'.decisions[|r.decisions|].decision, plan.value)
  {
    StoredDecisionMoves(r, q, expected, id, clash, now);
    ApprovalMoved(r, Apply(r, Decide(q, expected, id, clash, now)), q, expected, id, now);
  }

  lemma ApprovalMoved(r: Record, r': Record, q: DecisionRequest, expected: Option<int>, id: string, now: int)
    requires q.decisionType.ApprovePlanDecision? && DecisionMoved(r, r', q, expected, id, now)
    ensures StoredPlan(r).Some? && Requests(q, StoredPlan(r).value) && r'.status.ReadyForExecution?
    ensures Names(r'.decisions[|r.decisions|].decision, StoredPlan(r).value)
  {
  }

  /**
   Main result. An approval that a decision stores, in any reachable record, has the id and the digest of the
   last stored plan.completed; with any other target the decision leaves the record as it was.
   */
  lemma StoredApprovalNamesLastPlan(start: Record, steps: seq<Step>, q: DecisionRequest, expected: Option<int>, id: string,
                                    clash: bool, now: int)
    requires Initial(start) && q.decisionType.ApprovePlanDecision?
    ensures
      var r := Run(start, steps);
      var r', plan := Apply(r, Decide(q, expected, id, clash, now)), LastOf(r.responses, ResponseType.PlanCompleted);
      if plan.Some? && Requests(q, plan.value) then
        r' != r ==> |r'.decisions| == |r.decisions| + 1 && Names(r'.decisions[|r.decisions|].decision, plan.value)
      else
        r' == r
  {
    ToldOverRuns(start, steps);
    if Apply(Run(start, steps), Decide(q, expected, id, clash, now)) != Run(start, steps) {
      ApprovalStep(Run(start, steps), q, expected, id, clash, now);
    }
  }

  // ---------------------------------------------------------------- over runs

  predicate Approved(r: Record) {
    ApprovalsNamePlan(r) && (r.status.ReadyForExecution? ==> HasApproval(r))
  }

  /** Whatever a step does, the plan of the record stays; and an approval is what leads to READY_FOR_EXECUTION. */
  lemma StepKeepsApprovals(r: Record, step: Step)
    requires Told(r) && Approved(r)
    ensures Approved(Apply(r, step))
  {
    match step
    case Respond(_, _, _, _, _) => RespondKeepsApprovals(r, step);
    case Decide(_, _, _, _, _) => DecideKeepsApprovals(r, step);
    case BrokerMessage(_, _, _, _, _) => SendKeepsApprovals(r, step);
    case Intend(q, id, wrapper, now) => IntentKeepsApprovals(r, q, id, wrapper, now);
    case Plan(write) => PlanningLeavesKernel(r, write);
    case _ => DispatchWritesOnlyDispatches(r, step);
  }

  lemma RespondKeepsApprovals(r: Record, step: Step)
    requires Told(r) && Approved(r) && step.Respond?
    ensures Approved(Apply(r, step))
  {
    StoredResponseMoves(r, step.packet, step.actor, step.expectedVersion, step.clash, step.now);
    if Apply(r, step) != r { ResponseKeepsApprovals(r, Apply(r, step), step.packet, step.actor, step.expectedVersion, step.now); }
  }

  lemma DecideKeepsApprovals(r: Record, step: Step)
    requires Told(r) && Approved(r) && step.Decide?
    ensures Approved(Apply(r, step))
  {
    StoredDecisionMoves(r, step.request, step.expectedVersion, step.decisionId, step.clash, step.now);
    if Apply(r, step) != r {
      DecisionKeepsApprovals(r, Apply(r, step), step.request, step.expectedVersion, step.decisionId, step.now);
    }
  }

  lemma SendKeepsApprovals(r: Record, step: Step)
    requires Told(r) && Approved(r) && step.BrokerMessage?
    ensures Approved(Apply(r, step))
  {
    StoredMessageMoves(r, step.event, step.actor, step.messageId, step.expectedVersion, step.now);
    if Apply(r, step) != r {
      MessageKeepsApprovals(r, Apply(r, step), step.event, step.actor, step.messageId, step.expectedVersion);
    }
  }

  lemma PlanIsStoredOnce(r: Record, packet: ResponsePacket, actor: string, expected: Option<int>, now: int, to: WorkStatus)
    requires Told(r) && ResponseLeads(r, packet, actor, expected, now, to) && packet.responseType.PlanCompleted?
    ensures StoredPlan(r).None?
  {
  }

  lemma ResponseKeepsApprovals(r: Record, r': Record, packet: ResponsePacket, actor: string, expected: Option<int>, now: int)
    requires Told(r) && ApprovalsNamePlan(r) && ResponseMoved(r, r', packet, actor, expected, now)
    ensures ApprovalsNamePlan(r') && !r'.status.ReadyForExecution?
  {
    LastOfAppend(r.responses, r'.responses[|r.responses|], ResponseType.PlanCompleted);
    if packet.responseType.PlanCompleted? {
      PlanIsStoredOnce(r, packet, actor, expected, now, r'.status);
    }
  }

  lemma DecisionKeepsApprovals(r: Record, r': Record, q: DecisionRequest, expected: Option<int>, id: string, now: int)
    requires ApprovalsNamePlan(r) && DecisionMoved(r, r', q, expected, id, now)
    ensures Approved(r')
  {
    var row := r'.decisions[|r.decisions|];
    assert row in r'.decisions && r'.decisions == r.decisions + [row];
  }

  lemma MessageKeepsApprovals(r: Record, r': Record, event: LifecycleEvent, actor: string, message: string, expected: Option<int>)
    requires ApprovalsNamePlan(r) && MessageMoved(r, r', event, actor, message, expected)
    ensures ApprovalsNamePlan(r') && !r'.status.ReadyForExecution?
  {
  }

  lemma IntentKeepsApprovals(r: Record, q: IntentRequest, id: string, wrapper: string, now: int)
    requires Approved(r)
    ensures Approved(Apply(r, Intend(q, id, wrapper, now)))
  {
    var r', s := Apply(r, Intend(q, id, wrapper, now)), CurrentSnapshot(r);
    IntendShape(r, Intend(q, id, wrapper, now));
    if r' != r {
      DispatchLeadsToDispatched(r.status, s, q.event, q.actor, id, Decisions(r.decisions), q.expectedVersion,
                                RequestedPlan(q, s), RequestedSha(q, s), now);
    }
  }

  lemma {:induction false} ApprovalsOverRuns(start: Record, steps: seq<Step>)
    requires Initial(start)
    ensures Approved(Run(start, steps))
  {
    if steps != [] {
      var before := steps[..|steps| - 1];
      ApprovalsOverRuns(start, before);
      ToldOverRuns(start, before);
      StepKeepsApprovals(Run(start, before), steps[|steps| - 1]);
    }
  }

  /**
   Main result. In every reachable record each stored approve_plan names the one stored plan, and
   READY_FOR_EXECUTION has an approval that names the plan of the snapshot.
   */
  lemma ReadyMeansApproved(start: Record, steps: seq<Step>)
    requires Initial(start)
    ensures
      var r := Run(start, steps);
      && (forall row <- r.decisions :: row.decision.decisionType.ApprovePlanDecision? ==>
            StoredPlan(r).Some? && Names(row.decision, StoredPlan(r).value))
      && (r.status.ReadyForExecution? ==>
            exists row <- r.decisions ::
              && row.decision.decisionType.ApprovePlanDecision?
              && CurrentSnapshot(r).planId == Some(row.decision.targetId)
              && CurrentSnapshot(r).planSha256.Some?
              && Bare(CurrentSnapshot(r).planSha256.value) == Bare(row.decision.targetSha256))
  {
    var r := Run(start, steps);
    ApprovalsOverRuns(start, steps);
    ToldOverRuns(start, steps);
    if r.status.ReadyForExecution? {
      var row :| row in r.decisions && row.decision.decisionType.ApprovePlanDecision? && Names(row.decision, StoredPlan(r).value);
      assert CurrentSnapshot(r).planId == Some(row.decision.targetId);
    }
  }
}
