/** Execution is always covered by a stored approval of the one plan fingerprint of the run. */
module PlanAuthority {
  import opened Wrappers
  import opened Packets
  import opened Lifecycle
  import opened Broker
  import opened Planning
  import opened Runs
  import opened Chain

  predicate PlanFixed(s: Snapshot) {
    Truthy(s.planId) && Truthy(s.planSha256)
  }

  /** From EXECUTION_DISPATCHED through COMPLETE, including a question asked while executing. */
  predicate InExecution(status: WorkStatus, s: Snapshot) {
    match status
    case ExecutionDispatched | Executing | CompletionReady | PlannerReviewing | RevisionRequired
       | WaitingForHumanReview | Complete => true
    case WaitingForInput => s.blockedFrom == Some(Executing)
    case _ => false
  }

  /** The plan can still be written: PLANNING, or a question asked while planning. */
  predicate PlanOpen(status: WorkStatus, s: Snapshot) {
    status.Planning? || (status.WaitingForInput? && s.blockedFrom == Some(WorkStatus.Planning))
  }

  ghost predicate StatusFitsPlan(status: WorkStatus, s: Snapshot) {
    && (Truthy(s.planId) <==> Truthy(s.planSha256))
    && (PlanOpen(status, s) ==> !PlanFixed(s))
    && (status.WaitingForInput? ==> s.blockedFrom == Some(WorkStatus.Planning) || s.blockedFrom == Some(Executing))
    && (status.ReadyForExecution? ==> PlanFixed(s))
    && (InExecution(status, s) ==> PlanFixed(s))
  }

  ghost predicate Approved(rows: seq<DecisionRow>, s: Snapshot) {
    PlanFixed(s) && exists row <- rows :: ApprovesPlan(row.decision, s.planId.value, s.planSha256.value)
  }

  /** The fingerprint is the digest of a stored plan.completed packet. */
  ghost predicate FingerprintStored(rows: seq<StoredResponse>, s: Snapshot) {
    exists row <- rows ::
      && row.packet.responseType.PlanCompleted?
      && s.planSha256 == Some(row.contentSha256) && s.planId == Some(PlanIdOf(row.packet))
  }

  ghost predicate PlanInvariant(r: Record) {
    var s := CurrentSnapshot(r);
    && StatusFitsPlan(r.status, s)
    && (InExecution(r.status, s) ==> Approved(r.decisions, s))
    && (PlanFixed(s) ==> FingerprintStored(r.responses, s))
    && Count(Events(r.ledger), {LifecycleEvent.PlanCompleted}) == (if PlanFixed(s) then 1 else 0)
    && (exists e <- r.ledger :: e.body.ExecutorAcknowledged?)
  }

  // ---------------------------------------------------------------- kernel facts

  predicate SamePlan(s: Snapshot, s': Snapshot) {
    s'.planId == s.planId && s'.planSha256 == s.planSha256
  }

  lemma ResponseKeepsFit(status: WorkStatus, s: Snapshot, packet: ResponsePacket, actor: string,
                         ds: seq<StoredDecision>, expected: Option<int>, now: int, t: Transition)
    requires ApplyResponse(status, s, packet, actor, ds, expected, now) == Ok(t)
    requires StatusFitsPlan(status, s) && Truthy(packet.contentSha256)
    ensures StatusFitsPlan(t.status, t.snapshot)
    ensures t.event.PlanCompleted? <==> packet.responseType.PlanCompleted?
    ensures t.event.PlanCompleted? ==>
              !PlanFixed(s) && PlanFixed(t.snapshot) && !InExecution(t.status, t.snapshot)
              && t.snapshot.planSha256 == packet.contentSha256 && t.snapshot.planId == Some(PlanIdOf(packet))
    ensures !t.event.PlanCompleted? ==> SamePlan(s, t.snapshot)
    ensures InExecution(t.status, t.snapshot) ==> InExecution(status, s)
  {
    AcceptedResponse(status, s, packet, actor, ds, expected, now, t);
    ResponseMoveKeepsFit(status, s, packet, actor, t);
  }

  lemma AcceptedResponse(status: WorkStatus, s: Snapshot, packet: ResponsePacket, actor: string,
                         ds: seq<StoredDecision>, expected: Option<int>, now: int, t: Transition)
    requires ApplyResponse(status, s, packet, actor, ds, expected, now) == Ok(t)
    ensures ResponseEvent(packet.responseType) == Ok(t.event)
    ensures ResponseTarget(status, t.event, packet) == Ok(t.status)
    ensures t.snapshot == ResponseSnapshot(status, s, packet, actor)
  {
  }

  lemma ResponseMoveKeepsFit(status: WorkStatus, s: Snapshot, packet: ResponsePacket, actor: string, t: Transition)
    requires ResponseEvent(packet.responseType) == Ok(t.event) && ResponseTarget(status, t.event, packet) == Ok(t.status)
    requires t.snapshot == ResponseSnapshot(status, s, packet, actor)
    requires StatusFitsPlan(status, s) && Truthy(packet.contentSha256)
    ensures StatusFitsPlan(t.status, t.snapshot)
    ensures t.event.PlanCompleted? <==> packet.responseType.PlanCompleted?
    ensures t.event.PlanCompleted? ==>
              !PlanFixed(s) && PlanFixed(t.snapshot) && !InExecution(t.status, t.snapshot)
              && t.snapshot.planSha256 == packet.contentSha256 && t.snapshot.planId == Some(PlanIdOf(packet))
    ensures !t.event.PlanCompleted? ==> SamePlan(s, t.snapshot)
    ensures InExecution(t.status, t.snapshot) ==> InExecution(status, s)
  {
  }

  lemma BrokerEventKeepsFit(status: WorkStatus, s: Snapshot, event: LifecycleEvent, actor: string, message: string,
                            ds: seq<StoredDecision>, expected: Option<int>, planId: Option<string>, planSha: Option<string>,
                            now: int, t: Transition)
    requires ApplyBrokerEvent(status, s, event, actor, message, ds, expected, planId, planSha, now) == Ok(t)
    requires StatusFitsPlan(status, s)
    requires PlainBrokerEvent(event) || IsDispatchEvent(event)
    ensures StatusFitsPlan(t.status, t.snapshot)
    ensures SamePlan(s, t.snapshot) && t.event == event
    ensures InExecution(t.status, t.snapshot) && !InExecution(status, s) ==>
              exists d <- ds :: ApprovesPlan(d, s.planId.value, s.planSha256.value)
  {
    if event.PlanExecute? {
      var d := MatchingPlanApproval(ds, Or(planId, Or(s.planId, "")), Or(planSha, Or(s.planSha256, "")), now).value;
      assert ApprovesPlan(d, s.planId.value, s.planSha256.value);
    }
  }

  lemma DecisionKeepsFit(status: WorkStatus, s: Snapshot, event: LifecycleEvent, d: StoredDecision,
                         expected: Option<int>, now: int, t: Transition)
    requires ApplyDecision(status, s, event, d, expected, now) == Ok(t)
    requires StatusFitsPlan(status, s)
    ensures StatusFitsPlan(t.status, t.snapshot)
    ensures SamePlan(s, t.snapshot) && t.event == event && IsDecisionEvent(event)
    ensures InExecution(t.status, t.snapshot) ==> InExecution(status, s)
  {
  }

  // ---------------------------------------------------------------- one step

  lemma PersistedKeepsPlan(s: Snapshot, parent: string)
    requires Truthy(s.planId) <==> Truthy(s.planSha256)
    ensures PlanFixed(Persisted(s.(currentParentId := parent))) == PlanFixed(s)
    ensures PlanFixed(s) ==> SamePlan(s, Persisted(s.(currentParentId := parent)))
    ensures forall status :: StatusFitsPlan(status, s) ==> StatusFitsPlan(status, Persisted(s.(currentParentId := parent)))
  {
  }

  lemma AdvanceKeepsInvariant(r: Record, r': Record, t: Transition, parent: string)
    requires SnapshotTracksLedger(r) && SnapshotTracksLedger(r') && PlanInvariant(r) && Advanced(r, r', t, parent)
    requires StatusFitsPlan(t.status, t.snapshot)
    requires r.responses <= r'.responses && r.decisions <= r'.decisions
    requires if t.event.PlanCompleted?
             then !PlanFixed(CurrentSnapshot(r)) && PlanFixed(t.snapshot) && !InExecution(t.status, t.snapshot)
                  && FingerprintStored(r'.responses, t.snapshot)
             else SamePlan(CurrentSnapshot(r), t.snapshot)
    requires InExecution(t.status, t.snapshot) && !InExecution(r.status, CurrentSnapshot(r)) ==>
               Approved(r.decisions, t.snapshot)
    ensures PlanInvariant(r')
  {
    PersistedKeepsPlan(t.snapshot, parent);
    EventsOfExtension(r.ledger, r'.ledger);
    CountOfAppend(Events(r.ledger), t.event, {LifecycleEvent.PlanCompleted});
    var s, s' := CurrentSnapshot(r), CurrentSnapshot(r');
    assert InExecution(r'.status, s') == InExecution(t.status, t.snapshot);
    if PlanFixed(s) && SamePlan(s, s') {
      var row :| row in r.responses && row.packet.responseType.PlanCompleted?
                 && s.planSha256 == Some(row.contentSha256) && s.planId == Some(PlanIdOf(row.packet));
      assert row in r'.responses;
    }
    if InExecution(r'.status, s') {
      assert Approved(r.decisions, s');
      var row :| row in r.decisions && ApprovesPlan(row.decision, s'.planId.value, s'.planSha256.value);
      assert row in r'.decisions;
    }
    var e :| e in r.ledger && e.body.ExecutorAcknowledged?;
    assert e in r'.ledger;
  }

  lemma RespondKeepsPlan(r: Record, step: Step)
    requires SnapshotTracksLedger(r) && PlanInvariant(r) && step.Respond?
    ensures PlanInvariant(Apply(r, step))
  {
    var r' := Apply(r, step);
    RespondShape(r, step);
    if r' != r {
      var t := RespondTransition(r, step).value;
      StepTracks(r, step);
      ResponseKeepsFit(r.status, CurrentSnapshot(r), step.packet, step.actor, Decisions(r.decisions),
                       step.expectedVersion, step.now, t);
      if t.event.PlanCompleted? {
        var row := r'.responses[|r.responses|];
        assert row in r'.responses && row.packet == step.packet && Some(row.contentSha256) == step.packet.contentSha256;
      }
      AdvanceKeepsInvariant(r, r', t, MessageId(step.packet));
    }
  }

  lemma DecideKeepsPlan(r: Record, step: Step)
    requires SnapshotTracksLedger(r) && PlanInvariant(r) && step.Decide?
    ensures PlanInvariant(Apply(r, step))
  {
    var r' := Apply(r, step);
    DecideShape(r, step);
    if r' != r {
      var t := DecideTransition(r, step).value;
      StepTracks(r, step);
      DecisionKeepsFit(r.status, CurrentSnapshot(r), DecisionEvent(step.request.decisionType).value,
                       DecisionOf(r, step.request, step.decisionId, step.now), step.expectedVersion, step.now, t);
      AdvanceKeepsInvariant(r, r', t, CurrentSnapshot(r).currentParentId);
    }
  }

  lemma BrokerAdvanceKeepsPlan(r: Record, r': Record, t: Transition, event: LifecycleEvent, actor: string, message: string,
                               expected: Option<int>, planId: Option<string>, planSha: Option<string>, now: int)
    requires SnapshotTracksLedger(r) && SnapshotTracksLedger(r') && PlanInvariant(r) && Advanced(r, r', t, message)
    requires PlainBrokerEvent(event) || IsDispatchEvent(event)
    requires ApplyBrokerEvent(r.status, CurrentSnapshot(r), event, actor, message, Decisions(r.decisions),
                              expected, planId, planSha, now) == Ok(t)
    requires r'.responses == r.responses && r'.decisions == r.decisions
    ensures PlanInvariant(r')
  {
    var s := CurrentSnapshot(r);
    BrokerEventKeepsFit(r.status, s, event, actor, message, Decisions(r.decisions), expected, planId, planSha, now, t);
    if InExecution(t.status, t.snapshot) && !InExecution(r.status, s) {
      var d :| d in Decisions(r.decisions) && ApprovesPlan(d, s.planId.value, s.planSha256.value);
      var i :| 0 <= i < |r.decisions| && r.decisions[i].decision == d;
      assert r.decisions[i] in r.decisions;
    }
    AdvanceKeepsInvariant(r, r', t, message);
  }

  lemma MessageKeepsPlan(r: Record, step: Step)
    requires SnapshotTracksLedger(r) && PlanInvariant(r) && step.BrokerMessage?
    ensures PlanInvariant(Apply(r, step))
  {
    var r' := Apply(r, step);
    MessageShape(r, step);
    StepTracks(r, step);
    if r' != r {
      BrokerAdvanceKeepsPlan(r, r', MessageTransition(r, step).value, step.event, step.actor, step.messageId,
                             step.expectedVersion, None, None, step.now);
    }
  }

  lemma IntendKeepsPlan(r: Record, step: Step)
    requires SnapshotTracksLedger(r) && PlanInvariant(r) && step.Intend?
    ensures PlanInvariant(Apply(r, step))
  {
    var r' := Apply(r, step);
    IntendShape(r, step);
    StepTracks(r, step);
    if r' != r {
      var plan, sha := RequestedPlan(step.intent, CurrentSnapshot(r)), RequestedSha(step.intent, CurrentSnapshot(r));
      BrokerAdvanceKeepsPlan(r, r', IntendTransition(r, step).value, step.intent.event, step.intent.actor,
                             step.dispatchId, step.intent.expectedVersion, plan, sha, step.now);
    }
  }

  lemma PlanningKeepsPlan(r: Record, r': Record)
    requires PlanInvariant(r) && PlanningOnly(r, r')
    ensures PlanInvariant(r')
  {
    QuietExtension(r.workOrderId, r.ledger, r'.ledger);
    var e :| e in r.ledger && e.body.ExecutorAcknowledged?;
    assert e in r'.ledger;
  }

  lemma StepKeepsPlan(r: Record, step: Step)
    requires SnapshotTracksLedger(r) && PlanInvariant(r)
    ensures PlanInvariant(Apply(r, step))
  {
    match step
    case Respond(_, _, _, _, _) => RespondKeepsPlan(r, step);
    case Decide(_, _, _, _, _) => DecideKeepsPlan(r, step);
    case BrokerMessage(_, _, _, _, _) => MessageKeepsPlan(r, step);
    case Intend(_, _, _, _) => IntendKeepsPlan(r, step);
    case Plan(write) => PlanningLeavesKernel(r, write); PlanningKeepsPlan(r, Apply(r, step));
    case _ => DispatchWritesOnlyDispatches(r, step);
  }

  // ---------------------------------------------------------------- over runs

  lemma InitialPlan(start: Record)
    requires Initial(start)
    ensures PlanInvariant(start)
  {
    QuietExtension(start.workOrderId, [], start.ledger);
  }

  lemma {:induction false} PlanInvariantOverRuns(start: Record, steps: seq<Step>)
    requires Initial(start)
    ensures SnapshotTracksLedger(Run(start, steps)) && PlanInvariant(Run(start, steps))
  {
    ChainOverRuns(start, steps);
    if steps == [] {
      InitialPlan(start);
    } else {
      var before := steps[..|steps| - 1];
      PlanInvariantOverRuns(start, before);
      StepKeepsPlan(Run(start, before), steps[|steps| - 1]);
    }
  }

  /**
   Main result. In every reachable record from EXECUTION_DISPATCHED through COMPLETE, the store
   holds an approve_plan decision of kind plan for exactly the snapshot's fingerprint, that
   fingerprint is the digest of a stored plan.completed packet, and the run wrote it once.
   */
  lemma ExecutionIsApproved(start: Record, steps: seq<Step>)
    requires Initial(start)
    requires InExecution(Run(start, steps).status, CurrentSnapshot(Run(start, steps)))
    ensures
      var r := Run(start, steps);
      var s := CurrentSnapshot(r);
      && PlanFixed(s)
      && (exists row <- r.decisions :: ApprovesPlan(row.decision, s.planId.value, s.planSha256.value))
      && FingerprintStored(r.responses, s)
      && Count(Events(r.ledger), {LifecycleEvent.PlanCompleted}) == 1
  {
    PlanInvariantOverRuns(start, steps);
  }

  /** Once written, the fingerprint never changes again, whatever happens later. */
  lemma {:induction false} FingerprintIsFinal(start: Record, steps: seq<Step>, later: seq<Step>)
    requires Initial(start)
    requires PlanFixed(CurrentSnapshot(Run(start, steps)))
    ensures SamePlan(CurrentSnapshot(Run(start, steps)), CurrentSnapshot(Run(Run(start, steps), later)))
  {
    var r := Run(start, steps);
    if later != [] {
      var before, last := later[..|later| - 1], later[|later| - 1];
      FingerprintIsFinal(start, steps, before);
      RunOfConcat(start, steps, before);
      PlanInvariantOverRuns(start, steps + before);
      StepKeepsFingerprint(Run(r, before), last);
    }
  }

  lemma RespondKeepsFingerprint(r: Record, step: Step)
    requires PlanInvariant(r) && PlanFixed(CurrentSnapshot(r)) && step.Respond?
    ensures SamePlan(CurrentSnapshot(r), CurrentSnapshot(Apply(r, step)))
  {
    RespondShape(r, step);
    if Apply(r, step) != r {
      ResponseKeepsFit(r.status, CurrentSnapshot(r), step.packet, step.actor, Decisions(r.decisions),
                       step.expectedVersion, step.now, RespondTransition(r, step).value);
    }
  }

  lemma DecideKeepsFingerprint(r: Record, step: Step)
    requires PlanInvariant(r) && PlanFixed(CurrentSnapshot(r)) && step.Decide?
    ensures SamePlan(CurrentSnapshot(r), CurrentSnapshot(Apply(r, step)))
  {
    DecideShape(r, step);
  }

  lemma AdvanceKeepsFingerprint(r: Record, r': Record, t: Transition, parent: string)
    requires Advanced(r, r', t, parent) && PlanFixed(CurrentSnapshot(r)) && SamePlan(CurrentSnapshot(r), t.snapshot)
    ensures SamePlan(CurrentSnapshot(r), CurrentSnapshot(r'))
  {
  }

  lemma MessageKeepsFingerprint(r: Record, step: Step)
    requires PlanInvariant(r) && PlanFixed(CurrentSnapshot(r)) && step.BrokerMessage?
    ensures SamePlan(CurrentSnapshot(r), CurrentSnapshot(Apply(r, step)))
  {
    MessageShape(r, step);
    if Apply(r, step) != r {
      var t := MessageTransition(r, step).value;
      BrokerEventKeepsFit(r.status, CurrentSnapshot(r), step.event, step.actor, step.messageId, Decisions(r.decisions),
                          step.expectedVersion, None, None, step.now, t);
      AdvanceKeepsFingerprint(r, Apply(r, step), t, step.messageId);
    }
  }

  lemma IntendKeepsFingerprint(r: Record, step: Step)
    requires PlanInvariant(r) && PlanFixed(CurrentSnapshot(r)) && step.Intend?
    ensures SamePlan(CurrentSnapshot(r), CurrentSnapshot(Apply(r, step)))
  {
    IntendShape(r, step);
    if Apply(r, step) != r {
      var t := IntendTransition(r, step).value;
      var plan, sha := RequestedPlan(step.intent, CurrentSnapshot(r)), RequestedSha(step.intent, CurrentSnapshot(r));
      BrokerEventKeepsFit(r.status, CurrentSnapshot(r), step.intent.event, step.intent.actor, step.dispatchId,
                          Decisions(r.decisions), step.intent.expectedVersion, plan, sha, step.now, t);
      AdvanceKeepsFingerprint(r, Apply(r, step), t, step.dispatchId);
    }
  }

  lemma StepKeepsFingerprint(r: Record, step: Step)
    requires SnapshotTracksLedger(r) && PlanInvariant(r) && PlanFixed(CurrentSnapshot(r))
    ensures SamePlan(CurrentSnapshot(r), CurrentSnapshot(Apply(r, step)))
  {
    match step
    case Respond(_, _, _, _, _) => RespondKeepsFingerprint(r, step);
    case Decide(_, _, _, _, _) => DecideKeepsFingerprint(r, step);
    case BrokerMessage(_, _, _, _, _) => MessageKeepsFingerprint(r, step);
    case Intend(_, _, _, _) => IntendKeepsFingerprint(r, step);
    case Plan(write) => PlanningLeavesKernel(r, write);
    case _ => DispatchWritesOnlyDispatches(r, step);
  }
}
