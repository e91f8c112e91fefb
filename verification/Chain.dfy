/** The message chain, the version counter and the principals, over every run. */
module Chain {
  import opened Wrappers
  import opened Packets
  import opened Lifecycle
  import opened Broker
  import opened Planning
  import opened Runs

  // ---------------------------------------------------------------- what the transactions can do

  predicate SameIdentity(r: Record, r': Record) {
    r'.workOrderId == r.workOrderId && r'.sender == r.sender && r'.recipient == r.recipient
    && r'.contentSha256 == r.contentSha256
  }

  /** Nothing the kernel governs moved: no snapshot, no response, no decision. */
  predicate KernelUntouched(r: Record, r': Record) {
    && SameIdentity(r, r')
    && r'.snapshot == r.snapshot && r'.responses == r.responses && r'.decisions == r.decisions
    && r.ledger <= r'.ledger
    && (forall i :: |r.ledger| <= i < |r'.ledger| ==> !IsLifecycleEntry(r'.ledger[i]))
  }

  ghost predicate PlanningOnly(r: Record, r': Record) {
    && KernelUntouched(r, r')
    && r'.dispatches == r.dispatches
    && (r'.status == r.status || r'.status.PlanReady? || r'.status.Failed? || r'.status.Routed? || r'.status.Planning?)
    && (r'.status.Planning? && !r.status.Planning? ==> forall e <- r.ledger :: !e.body.ExecutorAcknowledged?)
  }

  lemma CommitLeavesKernel(r: Record)
    ensures PlanningOnly(r, CommitExistingPlan(r).0)
    ensures CommitExistingPlan(r).1.None? ==> CommitExistingPlan(r).0 == r
  {
  }

  lemma ReceiveLeavesKernel(r: Record, run: PlanningRun)
    ensures PlanningOnly(r, ReceivePlan(r, run).0)
  {
    CommitLeavesKernel(r);
  }

  lemma RunReportsLeaveKernel(r: Record, executor: string, runStatus: string)
    ensures PlanningOnly(r, NoteRunStatus(r, executor, runStatus).0)
    ensures PlanningOnly(r, FailPlanning(r, executor).0)
  {
    CommitLeavesKernel(r);
  }

  lemma RoutingLeavesKernel(r: Record, executor: string, agentId: string, runId: string)
    ensures PlanningOnly(r, EnsureRouted(r))
    ensures PlanningOnly(r, SubmissionRaised(r, executor))
    ensures PlanningOnly(r, SubmissionRejected(r, executor))
    ensures PlanningOnly(r, SubmissionAcknowledged(r, executor, agentId, runId))
  {
  }

  /** Planning transactions never touch what the kernel governs, but may overwrite the status. */
  lemma PlanningLeavesKernel(r: Record, write: PlanningWrite)
    ensures PlanningOnly(r, ApplyPlanning(r, write).0)
  {
    match write
    case ReadPlan =>
    case CommitPlan => CommitLeavesKernel(r);
    case Receive(run) => ReceiveLeavesKernel(r, run);
    case NoteStatus(executor, runStatus) => RunReportsLeaveKernel(r, executor, runStatus);
    case FailRun(executor) => RunReportsLeaveKernel(r, executor, "");
    case Route => RoutingLeavesKernel(r, "", "", "");
    case Raised(executor) => RoutingLeavesKernel(r, executor, "", "");
    case Rejected(executor) => RoutingLeavesKernel(r, executor, "", "");
    case PlanningAcknowledged(executor, agentId, runId) => RoutingLeavesKernel(r, executor, agentId, runId);
  }

  predicate IsDispatchWrite(step: Step) {
    step.Claim? || step.PersistRun? || step.Settle? || step.Reconcile? || step.Remember?
  }

  lemma DispatchWritesOnlyDispatches(r: Record, step: Step)
    requires IsDispatchWrite(step)
    ensures Apply(r, step) == r.(dispatches := Apply(r, step).dispatches)
    ensures |Apply(r, step).dispatches| == |r.dispatches|
  {
  }

  /** The steps that go through the kernel. */
  predicate IsKernelStep(step: Step) {
    step.Respond? || step.Decide? || step.BrokerMessage? || step.Intend?
  }

  /** The record changed by one accepted kernel transition. */
  predicate Advanced(r: Record, r': Record, t: Transition, parent: string) {
    && SameIdentity(r, r')
    && r'.status == t.status
    && r'.snapshot == Some(Persisted(t.snapshot.(currentParentId := parent)))
    && |r'.ledger| == |r.ledger| + 1 && r.ledger <= r'.ledger
    && IsLifecycleEntry(r'.ledger[|r.ledger|])
    && r'.ledger[|r.ledger|].body.event == t.event
  }

  function RespondTransition(r: Record, step: Step): Result<Transition, LifecycleError>
    requires step.Respond?
  {
    ApplyResponse(r.status, CurrentSnapshot(r), step.packet, step.actor, Decisions(r.decisions), step.expectedVersion, step.now)
  }

  function DecideTransition(r: Record, step: Step): Result<Transition, LifecycleError>
    requires step.Decide? && DecisionEvent(step.request.decisionType).Some?
  {
    ApplyDecision(r.status, CurrentSnapshot(r), DecisionEvent(step.request.decisionType).value,
                  DecisionOf(r, step.request, step.decisionId, step.now), step.expectedVersion, step.now)
  }

  function MessageTransition(r: Record, step: Step): Result<Transition, LifecycleError>
    requires step.BrokerMessage?
  {
    ApplyBrokerEvent(r.status, CurrentSnapshot(r), step.event, step.actor, step.messageId,
                     Decisions(r.decisions), step.expectedVersion, None, None, step.now)
  }

  function IntendTransition(r: Record, step: Step): Result<Transition, LifecycleError>
    requires step.Intend?
  {
    ApplyBrokerEvent(r.status, CurrentSnapshot(r), step.intent.event, step.intent.actor, step.dispatchId,
                     Decisions(r.decisions), step.intent.expectedVersion,
                     RequestedPlan(step.intent, CurrentSnapshot(r)), RequestedSha(step.intent, CurrentSnapshot(r)), step.now)
  }

  /** A changed record means the kernel accepted, and the record is exactly the stored transition. */
  lemma RespondShape(r: Record, step: Step)
    requires step.Respond?
    ensures
      var r' := Apply(r, step);
      r' == r ||
      (&& RespondTransition(r, step).Ok?
       && Advanced(r, r', RespondTransition(r, step).value, MessageId(step.packet))
       && r'.ledger[|r.ledger|].body ==
          ResponseEntry(RespondTransition(r, step).value.event, MessageId(step.packet), Digest(step.packet))
       && r'.ledger[|r.ledger|].actor == step.actor
       && r' == StoreResponse(r, step.packet, step.actor, RespondTransition(r, step).value).0
       && Truthy(step.packet.contentSha256)
       && (forall row <- r.responses :: row.packetId != MessageId(step.packet))
       && FindResponse(r.responses, step.actor, step.packet.responseType, step.packet.idempotencyKey).None?)
  {
  }

  /** Only a stored response changes the record. */
  lemma SubmitStoresOrNothing(r: Record, packet: ResponsePacket, actor: string, expected: Option<int>, clash: bool, now: int)
    ensures
      var (r', outcome) := SubmitResponse(r, packet, actor, expected, clash, now);
      if outcome.Stored? then r' != r else r' == r
  {
    RespondShape(r, Respond(packet, actor, expected, clash, now));
  }

  /** What a stored transition leaves in the snapshot. */
  lemma AdvancedSnapshot(r: Record, r': Record, t: Transition, parent: string)
    requires Advanced(r, r', t, parent)
    ensures CurrentSnapshot(r').boundRunId == DropEmpty(t.snapshot.boundRunId)
  {
  }

  lemma DecideShape(r: Record, step: Step)
    requires step.Decide?
    ensures
      var r' := Apply(r, step);
      r' == r ||
      (&& DecisionEvent(step.request.decisionType).Some?
       && DecideTransition(r, step).Ok?
       && Advanced(r, r', DecideTransition(r, step).value, CurrentSnapshot(r).currentParentId)
       && r'.ledger[|r.ledger|].body.DecisionEntry?
       && r' == StoreDecision(r, DecisionOf(r, step.request, step.decisionId, step.now), DecideTransition(r, step).value).0
       && FindDecision(r.decisions, step.request.actor, step.request.decisionType, step.request.idempotencyKey).None?)
  {
    if Apply(r, step) != r {
      var t := DecideTransition(r, step).value;
      assert t.snapshot.(currentParentId := CurrentSnapshot(r).currentParentId) == t.snapshot;
    }
  }

  lemma MessageShape(r: Record, step: Step)
    requires step.BrokerMessage?
    ensures
      var r' := Apply(r, step);
      r' == r ||
      (&& PlainBrokerEvent(step.event)
       && MessageTransition(r, step).Ok?
       && Advanced(r, r', MessageTransition(r, step).value, step.messageId)
       && r'.ledger[|r.ledger|].body == BrokerEntry(step.event, step.messageId)
       && r'.responses == r.responses && r'.decisions == r.decisions && r'.dispatches == r.dispatches)
  {
    if Apply(r, step) != r {
      var t := MessageTransition(r, step).value;
      assert t.snapshot.(currentParentId := step.messageId) == t.snapshot;
    }
  }

  lemma IntendShape(r: Record, step: Step)
    requires step.Intend?
    ensures
      var r' := Apply(r, step);
      r' == r ||
      (&& IsDispatchEvent(step.intent.event)
       && IntendTransition(r, step).Ok?
       && Advanced(r, r', IntendTransition(r, step).value, step.dispatchId)
       && r'.ledger[|r.ledger|].body == IntentEntry(step.intent.event, step.dispatchId, MaxAttempt(r.dispatches) + 1)
       && r'.responses == r.responses && r'.decisions == r.decisions
       && |r'.dispatches| == |r.dispatches| + 1 && r.dispatches <= r'.dispatches
       && !(PendingDispatch(r.dispatches).Some? && r.status.ExecutionDispatched?))
  {
    if Apply(r, step) != r {
      var t := IntendTransition(r, step).value;
      assert t.snapshot.(currentParentId := step.dispatchId) == t.snapshot;
    }
  }

  // ---------------------------------------------------------------- trace algebra

  lemma EventsOfExtension(ledger: seq<LedgerEntry>, longer: seq<LedgerEntry>)
    requires ledger <= longer && |longer| == |ledger| + 1
    ensures Events(longer) ==
              Events(ledger) + if IsLifecycleEntry(longer[|ledger|]) then [longer[|ledger|].body.event] else []
  {
    assert longer[..|longer| - 1] == ledger;
  }

  lemma {:induction false} QuietExtension(workOrderId: string, ledger: seq<LedgerEntry>, longer: seq<LedgerEntry>)
    requires ledger <= longer
    requires forall i :: |ledger| <= i < |longer| ==> !IsLifecycleEntry(longer[i])
    ensures Events(longer) == Events(ledger)
    ensures Tip(workOrderId, longer) == Tip(workOrderId, ledger)
    decreases |longer|
  {
    if |longer| == |ledger| {
      assert longer == ledger;
    } else {
      var shorter := longer[..|longer| - 1];
      QuietExtension(workOrderId, ledger, shorter);
    }
  }

  // ---------------------------------------------------------------- the invariant

  ghost predicate SnapshotTracksLedger(r: Record) {
    var s := CurrentSnapshot(r);
    && s.workOrderId == r.workOrderId
    && s.sourceInputSha256 == r.contentSha256
    && s.participants == {r.sender, r.recipient, "broker:awr"}
    && s.decisionPrincipals == {r.sender}
    && r.recipient in s.executorPrincipals
    && s.originalLineage == [r.workOrderId]
    && s.version == 1 + |Events(r.ledger)|
    && s.currentParentId == Tip(r.workOrderId, r.ledger)
    && (r.snapshot.Some? ==> r.snapshot.value.decisionPrincipals != {} && r.snapshot.value.executorPrincipals != {})
    && (r.snapshot.Some? ==> Persisted(r.snapshot.value) == r.snapshot.value)
  }

  /** Row `row` is the packet ledger entry `i` announces, and it answers the message before it. */
  ghost predicate AnswersPrevious(r: Record, i: nat, row: StoredResponse)
    requires i < |r.ledger| && r.ledger[i].body.ResponseEntry?
  {
    && row.packetId == r.ledger[i].body.messageId
    && row.packet.inReplyTo == Tip(r.workOrderId, r.ledger[..i])
    && row.actor == r.ledger[i].actor
    && row.contentSha256 == r.ledger[i].body.contentSha256
  }

  ghost predicate UnbrokenChain(r: Record) {
    && (forall i :: 0 <= i < |r.ledger| && r.ledger[i].body.ResponseEntry? ==>
          exists row <- r.responses :: AnswersPrevious(r, i, row))
    && (forall i, j :: 0 <= i < j < |r.responses| ==> r.responses[i].packetId != r.responses[j].packetId)
  }

  lemma AdvanceKeepsSnapshot(r: Record, r': Record, t: Transition, parent: string)
    requires SnapshotTracksLedger(r) && Advanced(r, r', t, parent)
    requires t.snapshot.version == CurrentSnapshot(r).version + 1
    requires t.snapshot.workOrderId == r.workOrderId && t.snapshot.sourceInputSha256 == r.contentSha256
    requires t.snapshot.participants == CurrentSnapshot(r).participants
    requires t.snapshot.decisionPrincipals == CurrentSnapshot(r).decisionPrincipals
    requires CurrentSnapshot(r).executorPrincipals <= t.snapshot.executorPrincipals
    requires t.snapshot.originalLineage == [r.workOrderId]
    requires parent == Tip(r.workOrderId, r'.ledger)
    ensures SnapshotTracksLedger(r')
  {
    EventsOfExtension(r.ledger, r'.ledger);
  }

  lemma TipOfExtension(workOrderId: string, ledger: seq<LedgerEntry>, longer: seq<LedgerEntry>)
    requires ledger <= longer && |longer| == |ledger| + 1
    ensures
      match longer[|ledger|].body
      case ResponseEntry(_, messageId, _) => Tip(workOrderId, longer) == messageId
      case BrokerEntry(_, messageId) => Tip(workOrderId, longer) == messageId
      case IntentEntry(_, dispatchId, _) => Tip(workOrderId, longer) == dispatchId
      case _ => Tip(workOrderId, longer) == Tip(workOrderId, ledger)
  {
    assert longer[..|longer| - 1] == ledger;
  }

  /** What an accepted response keeps and moves in the snapshot. */
  lemma ResponseMovesSnapshot(status: WorkStatus, s: Snapshot, packet: ResponsePacket, actor: string,
                              ds: seq<StoredDecision>, expected: Option<int>, now: int, t: Transition)
    requires ApplyResponse(status, s, packet, actor, ds, expected, now) == Ok(t)
    ensures t.snapshot == ResponseSnapshot(status, s, packet, actor)
    ensures packet.inReplyTo == s.currentParentId
  {
  }

  lemma ResponseSnapshotKeeps(status: WorkStatus, s: Snapshot, packet: ResponsePacket, actor: string)
    requires s.originalLineage != []
    ensures
      var s' := ResponseSnapshot(status, s, packet, actor);
      && s'.version == s.version + 1 && s'.workOrderId == s.workOrderId && s'.sourceInputSha256 == s.sourceInputSha256
      && s'.participants == s.participants && s'.decisionPrincipals == s.decisionPrincipals
      && s.executorPrincipals <= s'.executorPrincipals && s'.originalLineage == s.originalLineage
  {
  }

  lemma RespondTracks(r: Record, step: Step)
    requires SnapshotTracksLedger(r) && step.Respond?
    ensures SnapshotTracksLedger(Apply(r, step))
  {
    var r' := Apply(r, step);
    RespondShape(r, step);
    if r' != r {
      ResponseMovesSnapshot(r.status, CurrentSnapshot(r), step.packet, step.actor, Decisions(r.decisions),
                            step.expectedVersion, step.now, RespondTransition(r, step).value);
      ResponseSnapshotKeeps(r.status, CurrentSnapshot(r), step.packet, step.actor);
      TipOfExtension(r.workOrderId, r.ledger, r'.ledger);
      AdvanceKeepsSnapshot(r, r', RespondTransition(r, step).value, MessageId(step.packet));
    }
  }

  lemma DecideTracks(r: Record, step: Step)
    requires SnapshotTracksLedger(r) && step.Decide?
    ensures SnapshotTracksLedger(Apply(r, step))
  {
    var r' := Apply(r, step);
    DecideShape(r, step);
    if r' != r {
      TipOfExtension(r.workOrderId, r.ledger, r'.ledger);
      AdvanceKeepsSnapshot(r, r', DecideTransition(r, step).value, CurrentSnapshot(r).currentParentId);
    }
  }

  lemma BrokerEventTracks(r: Record, r': Record, t: Transition, event: LifecycleEvent, actor: string, message: string,
                          expected: Option<int>, planId: Option<string>, planSha: Option<string>, now: int)
    requires SnapshotTracksLedger(r)
    requires ApplyBrokerEvent(r.status, CurrentSnapshot(r), event, actor, message, Decisions(r.decisions),
                              expected, planId, planSha, now) == Ok(t)
    requires Advanced(r, r', t, message)
    requires Tip(r.workOrderId, r'.ledger) == message
    ensures SnapshotTracksLedger(r')
  {
    AdvanceKeepsSnapshot(r, r', t, message);
  }

  lemma MessageTracks(r: Record, step: Step)
    requires SnapshotTracksLedger(r) && step.BrokerMessage?
    ensures SnapshotTracksLedger(Apply(r, step))
  {
    var r' := Apply(r, step);
    MessageShape(r, step);
    if r' != r {
      TipOfExtension(r.workOrderId, r.ledger, r'.ledger);
      BrokerEventTracks(r, r', MessageTransition(r, step).value, step.event, step.actor, step.messageId,
                        step.expectedVersion, None, None, step.now);
    }
  }

  lemma IntendTracks(r: Record, step: Step)
    requires SnapshotTracksLedger(r) && step.Intend?
    ensures SnapshotTracksLedger(Apply(r, step))
  {
    var r' := Apply(r, step);
    IntendShape(r, step);
    if r' != r {
      TipOfExtension(r.workOrderId, r.ledger, r'.ledger);
      var plan, sha := RequestedPlan(step.intent, CurrentSnapshot(r)), RequestedSha(step.intent, CurrentSnapshot(r));
      BrokerEventTracks(r, r', IntendTransition(r, step).value, step.intent.event, step.intent.actor, step.dispatchId,
                        step.intent.expectedVersion, plan, sha, step.now);
    }
  }

  lemma StepTracks(r: Record, step: Step)
    requires SnapshotTracksLedger(r)
    ensures SnapshotTracksLedger(Apply(r, step))
  {
    match step
    case Respond(_, _, _, _, _) => RespondTracks(r, step);
    case Decide(_, _, _, _, _) => DecideTracks(r, step);
    case BrokerMessage(_, _, _, _, _) => MessageTracks(r, step);
    case Intend(_, _, _, _) => IntendTracks(r, step);
    case Plan(write) =>
      PlanningLeavesKernel(r, write);
      QuietExtension(r.workOrderId, r.ledger, Apply(r, step).ledger);
    case _ => DispatchWritesOnlyDispatches(r, step);
  }

  lemma OldEntriesStillAnswered(r: Record, r': Record)
    requires UnbrokenChain(r)
    requires SameIdentity(r, r') && r.ledger <= r'.ledger && r.responses <= r'.responses
    ensures forall i :: 0 <= i < |r.ledger| && r'.ledger[i].body.ResponseEntry? ==>
              exists row <- r'.responses :: AnswersPrevious(r', i, row)
  {
    forall i | 0 <= i < |r.ledger| && r'.ledger[i].body.ResponseEntry?
      ensures exists row <- r'.responses :: AnswersPrevious(r', i, row)
    {
      assert r'.ledger[..i] == r.ledger[..i];
      var row :| row in r.responses && AnswersPrevious(r, i, row);
      assert row in r'.responses && AnswersPrevious(r', i, row);
    }
  }

  lemma RespondKeepsChain(r: Record, step: Step)
    requires SnapshotTracksLedger(r) && UnbrokenChain(r) && step.Respond?
    ensures UnbrokenChain(Apply(r, step))
  {
    var r' := Apply(r, step);
    RespondShape(r, step);
    if r' != r {
      ResponseMovesSnapshot(r.status, CurrentSnapshot(r), step.packet, step.actor, Decisions(r.decisions),
                            step.expectedVersion, step.now, RespondTransition(r, step).value);
      ResponseRowAnswers(r, r', step);
    }
  }

  lemma ResponseRowAnswers(r: Record, r': Record, step: Step)
    requires UnbrokenChain(r) && step.Respond? && SameIdentity(r, r')
    requires r.ledger <= r'.ledger && |r'.ledger| == |r.ledger| + 1
    requires r'.ledger[|r.ledger|].body.ResponseEntry? && r'.ledger[|r.ledger|].actor == step.actor
    requires r'.ledger[|r.ledger|].body.messageId == MessageId(step.packet)
    requires r'.ledger[|r.ledger|].body.contentSha256 == Digest(step.packet)
    requires |r'.responses| == |r.responses| + 1 && r.responses <= r'.responses
    requires
      var row := r'.responses[|r.responses|];
      && row.packetId == MessageId(step.packet) && row.actor == step.actor
      && row.contentSha256 == Digest(step.packet) && row.packet == step.packet
    requires step.packet.inReplyTo == Tip(r.workOrderId, r.ledger)
    requires forall row <- r.responses :: row.packetId != MessageId(step.packet)
    ensures UnbrokenChain(r')
  {
    OldEntriesStillAnswered(r, r');
    var last := r'.responses[|r.responses|];
    assert r'.ledger[..|r.ledger|] == r.ledger;
    assert last in r'.responses && AnswersPrevious(r', |r.ledger|, last);
  }

  /** A step that stores no response leaves the chain as it is. */
  lemma QuietStepKeepsChain(r: Record, r': Record)
    requires UnbrokenChain(r) && SameIdentity(r, r') && r.ledger <= r'.ledger && r'.responses == r.responses
    requires forall i :: |r.ledger| <= i < |r'.ledger| ==> !r'.ledger[i].body.ResponseEntry?
    ensures UnbrokenChain(r')
  {
    OldEntriesStillAnswered(r, r');
  }

  lemma KernelStepKeepsChain(r: Record, step: Step)
    requires SnapshotTracksLedger(r) && UnbrokenChain(r) && (step.Decide? || step.BrokerMessage? || step.Intend?)
    ensures UnbrokenChain(Apply(r, step))
  {
    match step {
      case Decide(_, _, _, _, _) => DecideShape(r, step);
      case BrokerMessage(_, _, _, _, _) => MessageShape(r, step);
      case Intend(_, _, _, _) => IntendShape(r, step);
    }
    if Apply(r, step) != r {
      QuietStepKeepsChain(r, Apply(r, step));
    }
  }

  lemma StepKeepsChain(r: Record, step: Step)
    requires SnapshotTracksLedger(r) && UnbrokenChain(r)
    ensures UnbrokenChain(Apply(r, step))
  {
    match step
    case Respond(_, _, _, _, _) => RespondKeepsChain(r, step);
    case Plan(write) => PlanningLeavesKernel(r, write); QuietStepKeepsChain(r, Apply(r, step));
    case Decide(_, _, _, _, _) => KernelStepKeepsChain(r, step);
    case BrokerMessage(_, _, _, _, _) => KernelStepKeepsChain(r, step);
    case Intend(_, _, _, _) => KernelStepKeepsChain(r, step);
    case _ => DispatchWritesOnlyDispatches(r, step); QuietStepKeepsChain(r, Apply(r, step));
  }

  lemma InitialTracks(start: Record)
    requires Initial(start)
    ensures SnapshotTracksLedger(start) && UnbrokenChain(start)
  {
    QuietExtension(start.workOrderId, [], start.ledger);
  }

  /**
   In every reachable record: each stored response replies to the latest response, broker message
   or dispatch before it; the snapshot names that latest message; the version is one more than
   the number of accepted lifecycle steps; the sender is the only decision principal.
   */
  lemma {:induction false} ChainOverRuns(start: Record, steps: seq<Step>)
    requires Initial(start)
    ensures SnapshotTracksLedger(Run(start, steps)) && UnbrokenChain(Run(start, steps))
    ensures SameIdentity(start, Run(start, steps))
  {
    if steps == [] {
      InitialTracks(start);
    } else {
      var before := steps[..|steps| - 1];
      ChainOverRuns(start, before);
      StepTracks(Run(start, before), steps[|steps| - 1]);
      StepKeepsChain(Run(start, before), steps[|steps| - 1]);
      StepKeepsIdentity(Run(start, before), steps[|steps| - 1]);
    }
  }

  lemma StepKeepsIdentity(r: Record, step: Step)
    ensures SameIdentity(r, Apply(r, step))
  {
    match step
    case Respond(_, _, _, _, _) => RespondShape(r, step);
    case Decide(_, _, _, _, _) => DecideShape(r, step);
    case BrokerMessage(_, _, _, _, _) => MessageShape(r, step);
    case Intend(_, _, _, _) => IntendShape(r, step);
    case Plan(write) => PlanningLeavesKernel(r, write);
    case _ => DispatchWritesOnlyDispatches(r, step);
  }
}
