/** The broker over one work order (src/awr/service.py). Each method is one or more transactions. */
module BrokerService {
  import opened Wrappers
  import opened Packets
  import opened Lifecycle
  import B = Broker
  import opened Broker
  import opened Planning
  import opened Runs
  import opened Chain
  import opened Dispatches
  import opened Outbox
  import opened Refresh
  import opened Replay
  import P = PlanningOutcomes
  import opened Store

  lemma RunOfAppend(start: Record, steps: seq<Step>, step: Step)
    ensures Run(start, steps + [step]) == Apply(Run(start, steps), step)
  {
    assert (steps + [step])[..|steps|] == steps;
  }

  /** The in-memory provider: one run per idempotency key (src/awr/executors/recording_cursor.py). */
  class RecordingExecutor {
    var runs: map<ProviderKey, ProviderAck>
    var accepted: seq<Dispatch>
    var failSubmit: bool
    var forceAmbiguous: bool

    function View(): Provider
      reads this
    {
      Provider(runs, accepted, failSubmit, forceAmbiguous)
    }

    ghost predicate Valid()
      reads this
    {
      Keyed(View())
    }

    constructor (failSubmit: bool, forceAmbiguous: bool)
      ensures Valid() && View() == Provider(map[], [], failSubmit, forceAmbiguous)
    {
      runs, accepted := map[], [];
      this.failSubmit, this.forceAmbiguous := failSubmit, forceAmbiguous;
    }

    method Submit(d: Dispatch, keyText: string) returns (answer: Submission)
      requires Valid()
      modifies this`runs, this`accepted
      ensures Valid()
      ensures (View(), answer) == SubmitForExecution(old(View()), d, keyText)
    {
      SubmissionIsKeyed(View(), d, keyText);
      if failSubmit {
        return TimedOut;
      }
      if forceAmbiguous {
        return Ambiguous;
      }
      if d.providerKey in runs {
        return RunTaken(runs[d.providerKey]);
      }
      accepted := accepted + [d];
      var ack := RunNamed(d, keyText);
      runs := runs[d.providerKey := ack];
      return RunTaken(ack);
    }

    method Recover(d: Dispatch) returns (found: Option<ProviderAck>)
      ensures found == RecoverSubmission(View(), d)
    {
      if d.providerKey in runs {
        return Some(runs[d.providerKey]);
      }
      return None;
    }
  }

  /** What the planning run reported: still going, ended without a result, or finished with a plan. */
  datatype PlanningPoll =
    | Going(executor: string, runStatus: string)
    | Ended(executor: string)
    | Finished(run: PlanningRun)

  /** What the report of a planning run leads to while there is no plan. */
  predicate PollIsRecorded(r: Record, r': Record, poll: PlanningPoll, plan: Option<PlanPacket>) {
    match poll
    case Going(executor, runStatus) => P.Noted(r, r', executor, runStatus, plan)
    case Ended(executor) => P.MarkedFailed(r, r', executor, plan)
    case Finished(run) => P.ReceivedAndPublished(r, r', run, plan)
  }

  /** A plan that awaits publication is published; without one, the report is recorded if the run was acknowledged. */
  ghost predicate PlanningRefreshed(r: Record, r': Record, poll: PlanningPoll, plan: Option<PlanPacket>) {
    && (forall received :: P.AwaitsPublication(r.ledger, received) ==> P.Published(r, r', received, plan))
    && (P.NoPlanYet(r.ledger) ==>
          if P.Acknowledged(r.ledger) then PollIsRecorded(r, r', poll, plan) else r' == r && plan.None?)
  }

  lemma RefreshIsRecorded(r: Record, poll: PlanningPoll)
    ensures
      var (r1, plan) := ApplyPlanning(r, CommitPlan);
      if plan.Some? then PlanFromLedger(r).Some? || PlanningRefreshed(r, r1, poll, plan)
      else if P.Acknowledged(r.ledger) then
        var (r2, plan2) := ApplyPlanning(r1, PollWrite(poll));
        PlanningRefreshed(r, r2, poll, plan2)
      else PlanningRefreshed(r, r1, poll, plan)
  {
    forall received | P.AwaitsPublication(r.ledger, received)
      ensures P.Published(r, ApplyPlanning(r, CommitPlan).0, received, ApplyPlanning(r, CommitPlan).1)
    {
      P.PublicationComesFirst(r, CommitPlan, received);
    }
    if P.NoPlanYet(r.ledger) {
      P.NothingToCommit(r);
      match poll
      case Going(executor, runStatus) => P.NoteOutcome(r, executor, runStatus);
      case Ended(executor) => P.FailOutcome(r, executor);
      case Finished(run) => P.ReceiveOutcome(r, run);
    }
  }

  function PollWrite(poll: PlanningPoll): PlanningWrite {
    match poll
    case Going(executor, runStatus) => NoteStatus(executor, runStatus)
    case Ended(executor) => FailRun(executor)
    case Finished(run) => Receive(run)
  }

  /** What a planning transaction of a refresh returns is what the ledger shows afterwards. */
  lemma PollOutcome(r: Record, write: PlanningWrite)
    requires PlanLedgerOk(r.ledger) && (write.CommitPlan? || write.Receive? || write.NoteStatus? || write.FailRun?)
    ensures
      var (r', plan) := ApplyPlanning(r, write);
      && PlanLedgerOk(r'.ledger) && PlanFromLedger(r') == plan
      && (plan.None? && write.CommitPlan? ==> r' == r)
      && (write.Receive? ==> plan.Some?)
  {
    PlanningIsPlanStep(r, write);
    var (r1, committed) := CommitExistingPlan(r);
    match write
    case NoteStatus(executor, runStatus) =>
      PlanEntriesOfAppend(r1.ledger, LedgerEntry(NextSequence(r1.ledger), executor, ExecutorStatus(runStatus)));
    case FailRun(executor) =>
      PlanEntriesOfAppend(r1.ledger, LedgerEntry(NextSequence(r1.ledger), executor, ExecutorFailed));
    case _ =>
  }

  class Service {
    const session: WorkOrderSession
    const executor: RecordingExecutor
    ghost const start: Record
    ghost var history: seq<Step>

    /** The rows are what the recorded history of transactions made of a newly planned work order. */
    ghost predicate Valid()
      reads this, session, executor
    {
      && Initial(start)
      && session.View() == Run(start, history)
      && executor.Valid()
    }

    constructor (r: Record, executor: RecordingExecutor)
      requires Initial(r) && executor.Valid()
      ensures Valid() && session.View() == r && this.executor == executor && fresh(session)
    {
      session := new WorkOrderSession(r);
      this.executor := executor;
      start, history := r, [];
    }

    // -------------------------------------------------------------- responses and decisions

    method SubmitResponse(packet: ResponsePacket, actor: string, expectedVersion: Option<int>, clash: bool, now: int)
      returns (outcome: Outcome)
      requires Valid()
      modifies session, this`history
      ensures Valid() && history == old(history) + [Respond(packet, actor, expectedVersion, clash, now)]
      ensures (session.View(), outcome) ==
                B.SubmitResponse(old(session.View()), packet, actor, expectedVersion, clash, now)
    {
      RunOfAppend(start, history, Respond(packet, actor, expectedVersion, clash, now));
      history := history + [Respond(packet, actor, expectedVersion, clash, now)];
      if packet.authority != REPORT_ONLY || packet.workOrderId != session.workOrderId || !Truthy(packet.contentSha256) {
        return Refused(Invalid);
      }
      var before := session.View();
      var existing := FindResponse(session.responses, actor, packet.responseType, packet.idempotencyKey);
      if existing.Some? {
        if existing.value.contentSha256 != Digest(packet) {
          return Refused(Kernel(IdempotencyConflict));
        }
        return Replayed(existing.value.receipt);
      }
      var result := ApplyResponse(
        session.status, CurrentSnapshot(before), packet, actor, Decisions(session.decisions), expectedVersion, now);
      if result.Err? {
        return Refused(Kernel(result.error));
      }
      var message, t := MessageId(packet), result.value;
      session.UpdateStatus(t.status);
      var entry := session.AppendLedger(actor, ResponseEntry(t.event, message, Digest(packet)));
      session.PutLifecycle(t.snapshot.(currentParentId := message));
      var receipt := ResponseReceipt(packet.responseType, Digest(packet), message, t.status, entry.sequence);
      var inserted := session.PutResponse(StoredResponse(message, actor, Digest(packet), packet, receipt), clash);
      if !inserted {
        session.Rollback(before);
        return Refused(UniqueConstraint);
      }
      return Stored(receipt);
    }

    method RecordDecision(q: DecisionRequest, expectedVersion: Option<int>, decisionId: string, clash: bool, now: int)
      returns (outcome: Outcome)
      requires Valid()
      modifies session, this`history
      ensures Valid() && history == old(history) + [Decide(q, expectedVersion, decisionId, clash, now)]
      ensures (session.View(), outcome) ==
                B.RecordDecision(old(session.View()), q, expectedVersion, decisionId, clash, now)
    {
      RunOfAppend(start, history, Decide(q, expectedVersion, decisionId, clash, now));
      history := history + [Decide(q, expectedVersion, decisionId, clash, now)];
      var event := DecisionEvent(q.decisionType);
      if event.None? || !CompactRationale(q.rationale) {
        return Refused(Invalid);
      }
      var before := session.View();
      var decision := DecisionOf(before, q, decisionId, now);
      var fingerprint := FingerprintDecision(decision);
      var existing := FindDecision(session.decisions, q.actor, q.decisionType, q.idempotencyKey);
      if existing.Some? {
        if existing.value.fingerprint != fingerprint {
          return Refused(Kernel(IdempotencyConflict));
        }
        return Replayed(existing.value.receipt);
      }
      var result := ApplyDecision(session.status, CurrentSnapshot(before), event.value, decision, expectedVersion, now);
      if result.Err? {
        return Refused(Kernel(result.error));
      }
      var t := result.value;
      session.UpdateStatus(t.status);
      var entry := session.AppendLedger(decision.actor, DecisionEntry(t.event, decision));
      session.PutLifecycle(t.snapshot);
      var receipt := DecisionReceipt(decision.decisionId, decision.decisionType, t.status, entry.sequence, fingerprint);
      var inserted := session.PutDecision(DecisionRow(decision, fingerprint, receipt), clash);
      if !inserted {
        session.Rollback(before);
        return Refused(UniqueConstraint);
      }
      return Stored(receipt);
    }

    // -------------------------------------------------------------- broker messages and intents

    method ApplyBroker(event: LifecycleEvent, actor: string, messageId: string, expectedVersion: Option<int>, now: int)
      returns (outcome: Outcome)
      requires Valid()
      modifies session, this`history
      ensures Valid() && history == old(history) + [BrokerMessage(event, actor, messageId, expectedVersion, now)]
      ensures (session.View(), outcome) ==
                B.ApplyBroker(old(session.View()), event, actor, messageId, expectedVersion, now)
    {
      RunOfAppend(start, history, BrokerMessage(event, actor, messageId, expectedVersion, now));
      history := history + [BrokerMessage(event, actor, messageId, expectedVersion, now)];
      if !PlainBrokerEvent(event) {
        return Refused(Invalid);
      }
      var result := ApplyBrokerEvent(
        session.status, CurrentSnapshot(session.View()), event, actor, messageId,
        Decisions(session.decisions), expectedVersion, None, None, now);
      if result.Err? {
        return Refused(Kernel(result.error));
      }
      var t := result.value;
      session.UpdateStatus(t.status);
      var entry := session.AppendLedger(actor, BrokerEntry(event, messageId));
      session.PutLifecycle(t.snapshot);
      return Stored(BrokerReceipt(event, t.status, entry.sequence, messageId));
    }

    method CommitExecutionIntent(q: IntentRequest, dispatchId: string, wrapperSha256: string, now: int)
      returns (outcome: Outcome)
      requires Valid()
      modifies session, this`history
      ensures Valid() && history == old(history) + [Intend(q, dispatchId, wrapperSha256, now)]
      ensures (session.View(), outcome) == CommitIntent(old(session.View()), q, dispatchId, wrapperSha256, now)
    {
      RunOfAppend(start, history, Intend(q, dispatchId, wrapperSha256, now));
      history := history + [Intend(q, dispatchId, wrapperSha256, now)];
      outcome := DecideExecutionIntent(q, dispatchId, wrapperSha256, now);
    }

    /** The checks of the intent transaction, up to its writes. */
    method DecideExecutionIntent(q: IntentRequest, dispatchId: string, wrapperSha256: string, now: int)
      returns (outcome: Outcome)
      modifies session
      ensures (session.View(), outcome) == CommitIntent(old(session.View()), q, dispatchId, wrapperSha256, now)
    {
      if CarriesArtifacts(session.ledger) {
        return Refused(DeliveryUnsupported);
      }
      if !IsDispatchEvent(q.event) {
        return Refused(Invalid);
      }
      var snapshot, decisions := CurrentSnapshot(session.View()), Decisions(session.decisions);
      var pending := PendingDispatch(session.dispatches);
      if pending.Some? && session.status.ExecutionDispatched? {
        return Replayed(pending.value.receipt);
      }
      var planId, planSha := RequestedPlan(q, snapshot), RequestedSha(q, snapshot);
      if !Truthy(planId) || !Truthy(planSha) {
        return Refused(Invalid);
      }
      var result := ApplyBrokerEvent(
        session.status, snapshot, q.event, q.actor, dispatchId, decisions, q.expectedVersion, planId, planSha, now);
      if result.Err? {
        return Refused(Kernel(result.error));
      }
      var t := result.value;
      var approval := MatchingPlanApproval(
        decisions, Or(t.snapshot.planId, planId.value), Or(t.snapshot.planSha256, planSha.value), now);
      if approval.Err? {
        return Refused(Kernel(approval.error));
      }
      outcome := StoreExecutionIntent(q, dispatchId, wrapperSha256, planId.value, planSha.value, approval.value.decisionId, t);
    }

    /** The writes of an accepted intent, rolled back when the dispatch row breaks a unique constraint. */
    method StoreExecutionIntent(
      q: IntentRequest, dispatchId: string, wrapperSha256: string,
      planId: string, planSha: string, approvalId: string, t: Transition)
      returns (outcome: Outcome)
      modifies session
      ensures
        var r := old(session.View());
        (session.View(), outcome) ==
        if exists d <- r.dispatches ::
             d.dispatchId == dispatchId || d.providerKey == ProviderKey(MaxAttempt(r.dispatches) + 1, planSha, wrapperSha256)
        then (r, Refused(UniqueConstraint))
        else StoreIntent(r, q, dispatchId, wrapperSha256, planId, planSha, approvalId, t)
    {
      var before := session.View();
      var attempt := MaxAttempt(session.dispatches) + 1;
      var agent := PlanningAgent(session.ledger);
      MaxAttemptBounds(session.dispatches);
      session.UpdateStatus(t.status);
      var entry := session.AppendLedger(q.actor, IntentEntry(q.event, dispatchId, attempt));
      session.PutLifecycle(t.snapshot);
      var receipt := IntentReceipt(q.event, t.status, entry.sequence, dispatchId, attempt);
      var inserted := session.PutDispatch(Dispatch(
        dispatchId, attempt, planId, planSha, approvalId, ProviderKey(attempt, planSha, wrapperSha256), agent,
        DispatchState.Pending, 0, None, None, None, None, None, receipt));
      if !inserted {
        session.Rollback(before);
        return Refused(UniqueConstraint);
      }
      return Stored(receipt);
    }

    // -------------------------------------------------------------- the outbox

    method ClaimExecutionLease(dispatchId: string, owner: string, now: int) returns (claimed: Option<Dispatch>)
      requires Valid()
      modifies session, this`history
      ensures Valid() && history == old(history) + [Claim(dispatchId, owner, now)]
      ensures (session.View(), claimed) == ClaimLease(old(session.View()), dispatchId, owner, now)
    {
      RunOfAppend(start, history, Claim(dispatchId, owner, now));
      history := history + [Claim(dispatchId, owner, now)];
      var found := FindDispatch(session.dispatches, dispatchId);
      if found.None? {
        return None;
      }
      var d := found.value;
      if Settled(d.state) {
        return Some(d);
      }
      if LeasedElsewhere(d, owner, now) {
        return None;
      }
      d := d.(state := Leased, leaseOwner := Some(owner), leaseExpiresAt := Some(now + LEASE_TTL),
              attemptCount := d.attemptCount + 1);
      session.UpdateDispatch(d);
      return Some(d);
    }

    method PersistProviderAcceptance(claimed: Dispatch, run: ProviderAck) returns (current: Dispatch)
      requires Valid()
      modifies session, this`history
      ensures Valid() && history == old(history) + [PersistRun(claimed, run.agentId, run.runId)]
      ensures (session.View(), current) == PersistAcceptance(old(session.View()), claimed, run.agentId, run.runId)
    {
      RunOfAppend(start, history, PersistRun(claimed, run.agentId, run.runId));
      history := history + [PersistRun(claimed, run.agentId, run.runId)];
      current := FindDispatch(session.dispatches, claimed.dispatchId).GetOr(claimed);
      if current.state.Acknowledged? {
        return;
      }
      current := current.(
        state := ProviderAccepted, providerAgentId := Some(run.agentId), providerRunId := Some(run.runId));
      session.UpdateDispatch(current);
    }

    method MarkReconciliationRequired(claimed: Dispatch, code: string)
      requires Valid()
      modifies session, this`history
      ensures Valid() && history == old(history) + [Reconcile(claimed, code)]
      ensures session.View() == MarkReconciliation(old(session.View()), claimed, code)
    {
      RunOfAppend(start, history, Reconcile(claimed, code));
      history := history + [Reconcile(claimed, code)];
      var current := FindDispatch(session.dispatches, claimed.dispatchId).GetOr(claimed);
      session.UpdateDispatch(current.(
        state := ReconciliationRequired, lastFailureCode := Some(code), leaseOwner := None, leaseExpiresAt := None));
    }

    method SettleDispatch(claimed: Dispatch, receipt: Receipt)
      requires Valid()
      modifies session, this`history
      ensures Valid() && history == old(history) + [Settle(claimed, receipt)]
      ensures session.View() == MarkAcknowledged(old(session.View()), claimed, receipt)
    {
      RunOfAppend(start, history, Settle(claimed, receipt));
      history := history + [Settle(claimed, receipt)];
      var current := FindDispatch(session.dispatches, claimed.dispatchId).GetOr(claimed);
      session.UpdateDispatch(current.(
        state := Acknowledged, providerAgentId := claimed.providerAgentId, providerRunId := claimed.providerRunId,
        receipt := receipt, leaseOwner := None, leaseExpiresAt := None));
    }

    method PersistExecutionAck(claimed: Dispatch, ack: AckInput) returns (outcome: RefreshOutcome)
      requires Valid()
      modifies session, this`history
      ensures Valid() && old(history) <= history
      ensures (session.View(), outcome) == PersistAck(old(session.View()), claimed, ack)
    {
      var packet := AckPacket(session.View(), claimed, ack.executor, ack.digest, ack.createdAt);
      var submitted := SubmitResponse(packet, session.recipient, None, ack.clash, ack.now);
      if !submitted.Refused? {
        SettleDispatch(claimed, submitted.receipt);
      }
      return Acknowledgement(submitted);
    }

    method ObtainExecutionRun(claimed: Dispatch, keyText: string) returns (run: Option<ProviderAck>)
      requires executor.Valid()
      modifies executor
      ensures executor.Valid()
      ensures (executor.View(), run) == ObtainRun(old(executor.View()), claimed, keyText)
    {
      if claimed.state.ReconciliationRequired? || FollowUpRetry(claimed) {
        run := executor.Recover(claimed);
        return;
      }
      var answer := executor.Submit(claimed, keyText);
      match answer
      case RunTaken(ack) => return Some(ack);
      case Ambiguous => return None;
      case TimedOut => run := executor.Recover(claimed);
    }

    method AdvanceExecutionDispatch(dispatchId: string, owner: string, now: int, keyText: string, ack: AckInput)
      returns (outcome: RefreshOutcome)
      requires Valid()
      modifies session, executor, this`history
      ensures Valid() && old(history) <= history
      ensures (session.View(), executor.View(), outcome) ==
                AdvanceDispatch(old(session.View()), old(executor.View()), dispatchId, owner, now, keyText, ack)
    {
      var current := FindDispatch(session.dispatches, dispatchId);
      if current.None? {
        return UnknownDispatch;
      }
      if current.value.state.Acknowledged? {
        return Duplicate(current.value.receipt);
      }
      var claimed := ClaimExecutionLease(dispatchId, owner, now);
      if claimed.None? {
        return Duplicate(current.value.receipt);
      }
      if claimed.value.state.Acknowledged? {
        return Duplicate(claimed.value.receipt);
      }
      if Truthy(claimed.value.providerRunId) {
        outcome := PersistExecutionAck(claimed.value, ack);
        return;
      }
      outcome := AttemptExecution(claimed.value, keyText, ack);
    }

    /** The rest of the refresh of a claimed row that has no run yet. */
    method AttemptExecution(claimed: Dispatch, keyText: string, ack: AckInput) returns (outcome: RefreshOutcome)
      requires Valid()
      modifies session, executor, this`history
      ensures Valid() && old(history) <= history
      ensures (session.View(), executor.View(), outcome) ==
                AfterAttempt(old(session.View()), old(executor.View()), claimed, keyText, ack)
    {
      var run := ObtainExecutionRun(claimed, keyText);
      if run.None? {
        MarkReconciliationRequired(claimed, "RECONCILIATION_REQUIRED");
        return NeedsReconciliation;
      }
      var accepted := PersistProviderAcceptance(claimed, run.value);
      outcome := PersistExecutionAck(accepted, ack);
    }

    // -------------------------------------------------------------- planning

    /** _commit_existing_plan, inside a transaction. */
    method PublishExistingPlan() returns (plan: Option<PlanPacket>)
      modifies session
      ensures (session.View(), plan) == CommitExistingPlan(old(session.View()))
    {
      plan := PlanFromLedger(session.View());
      if plan.Some? {
        return;
      }
      var received := LatestReceived(session.ledger);
      if received.None? {
        return None;
      }
      plan := PublishPlan(received.value);
    }

    method PublishPlan(received: LedgerEntry) returns (plan: Option<PlanPacket>)
      requires received.body.PlanReceived?
      modifies session
      ensures (session.View(), plan) == PublishReceived(old(session.View()), received)
    {
      session.UpdateStatus(PlanReady);
      var available := session.AppendLedger(
        "broker:awr", PlanAvailable(received.body.planId, received.body.run.contentSha256, received.sequence));
      return Some(PacketOf(session.workOrderId, received, available));
    }

    method WriteRunStatus(executor: string, runStatus: string) returns (plan: Option<PlanPacket>)
      modifies session
      ensures (session.View(), plan) == NoteRunStatus(old(session.View()), executor, runStatus)
    {
      plan := PublishExistingPlan();
      if plan.None? && LatestRunStatus(session.ledger) != Some(runStatus) {
        var _ := session.AppendLedger(executor, ExecutorStatus(runStatus));
      }
    }

    method WriteFailure(executor: string) returns (plan: Option<PlanPacket>)
      modifies session
      ensures (session.View(), plan) == FailPlanning(old(session.View()), executor)
    {
      plan := PublishExistingPlan();
      if plan.None? && !HasEntry(session.ledger, ExecutorFailed) {
        session.UpdateStatus(Failed);
        var _ := session.AppendLedger(executor, ExecutorFailed);
      }
    }

    method WritePlan(run: PlanningRun) returns (plan: Option<PlanPacket>)
      modifies session
      ensures (session.View(), plan) == ReceivePlan(old(session.View()), run)
    {
      plan := PublishExistingPlan();
      if plan.Some? {
        return;
      }
      var received := session.AppendLedger(run.executor, PlanReceived(PlanIdFor(run.contentSha256), run));
      plan := PublishPlan(received);
    }

    /** The last transaction of refresh_planning for what the planning run reported. */
    method WritePoll(poll: PlanningPoll) returns (plan: Option<PlanPacket>)
      modifies session
      ensures (session.View(), plan) == ApplyPlanning(old(session.View()), PollWrite(poll))
    {
      match poll
      case Going(executor, runStatus) => plan := WriteRunStatus(executor, runStatus);
      case Ended(executor) => plan := WriteFailure(executor);
      case Finished(run) => plan := WritePlan(run);
    }

    method RecordPlanningPoll(poll: PlanningPoll) returns (plan: Option<PlanPacket>)
      requires Valid()
      modifies session, this`history
      ensures Valid() && history == old(history) + [Plan(PollWrite(poll))]
      ensures (session.View(), plan) == ApplyPlanning(old(session.View()), PollWrite(poll))
    {
      RunOfAppend(start, history, Plan(PollWrite(poll)));
      history := history + [Plan(PollWrite(poll))];
      plan := WritePoll(poll);
    }

    /** get_plan and the first transaction of refresh_planning. */
    method CommitPlanIfReceived() returns (plan: Option<PlanPacket>)
      requires Valid()
      modifies session, this`history
      ensures Valid() && history == old(history) + [Plan(CommitPlan)]
      ensures (session.View(), plan) == ApplyPlanning(old(session.View()), CommitPlan)
    {
      RunOfAppend(start, history, Plan(CommitPlan));
      history := history + [Plan(CommitPlan)];
      plan := PublishExistingPlan();
    }

    /**
     refresh_planning. Whatever the ledger held, afterwards each plan event is recorded at most
     once, and a plan that is returned is the one the ledger shows.
     */
    method RefreshPlanning(poll: PlanningPoll) returns (plan: Option<PlanPacket>)
      requires Valid() && PlanLedgerOk(session.ledger)
      modifies session, this`history
      ensures Valid() && old(history) <= history
      ensures PlanLedgerOk(session.ledger)
      ensures plan.Some? ==> PlanFromLedger(session.View()) == plan
      ensures old(PlanFromLedger(session.View())).Some? ==>
                plan == old(PlanFromLedger(session.View())) && session.View() == old(session.View())
      ensures plan.None? ==> PlanFromLedger(session.View()).None?
      ensures poll.Finished? && HasEntry(old(session.ledger), EntryBody.ExecutorAcknowledged("", "")) ==> plan.Some?
      ensures old(PlanFromLedger(session.View())).None? ==> PlanningRefreshed(old(session.View()), session.View(), poll, plan)
    {
      RefreshIsRecorded(session.View(), poll);
      plan := PlanFromLedger(session.View());
      if plan.Some? {
        return;
      }
      PollOutcome(session.View(), CommitPlan);
      plan := CommitPlanIfReceived();
      if plan.Some? {
        return;
      }
      if !HasEntry(session.ledger, EntryBody.ExecutorAcknowledged("", "")) {
        return;
      }
      PollOutcome(session.View(), PollWrite(poll));
      plan := RecordPlanningPoll(poll);
    }
  }
}
