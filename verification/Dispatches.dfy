/** Dispatch rows over every run of one work order. */
module Dispatches {
  import opened Wrappers
  import opened Packets
  import opened Lifecycle
  import opened Broker
  import opened Planning
  import opened Runs
  import opened Chain

  const DISPATCH_EVENTS: set<LifecycleEvent> := {PlanExecute, ImplementationRefine}

  /** The columns UPDATE never touches. */
  predicate SameDispatch(d: Dispatch, d': Dispatch) {
    && d'.dispatchId == d.dispatchId && d'.attempt == d.attempt
    && d'.providerKey == d.providerKey && d'.existingAgentId == d.existingAgentId
  }

  /** Rows keep their place and identity, and a claim count never goes down. */
  ghost predicate DispatchesGrow(ds: seq<Dispatch>, ds': seq<Dispatch>) {
    && |ds| <= |ds'|
    && forall i :: 0 <= i < |ds| ==> SameDispatch(ds[i], ds'[i]) && ds[i].attemptCount <= ds'[i].attemptCount
  }

  /** Attempts are 1, 2, 3, ... in row order; ids are distinct; nothing is ever abandoned. */
  ghost predicate NumberedAttempts(ds: seq<Dispatch>) {
    && (forall i :: 0 <= i < |ds| ==> ds[i].attempt == i + 1 && ds[i].providerKey.attempt == i + 1 && !ds[i].state.Abandoned?)
    && (forall i, j :: 0 <= i < j < |ds| ==> ds[i].dispatchId != ds[j].dispatchId)
    && (forall i :: 0 <= i < |ds| ==> ds[i].existingAgentId.Some? ==> Truthy(ds[i].existingAgentId))
  }

  /** One row per plan.execute or implementation.refine entry. */
  ghost predicate DispatchesMatchLedger(r: Record) {
    && NumberedAttempts(r.dispatches)
    && |r.dispatches| == Count(Events(r.ledger), DISPATCH_EVENTS)
  }

  lemma {:induction false} MaxOfNumbered(ds: seq<Dispatch>)
    requires NumberedAttempts(ds)
    ensures MaxAttempt(ds) == |ds|
  {
    if ds != [] {
      MaxOfNumbered(ds[..|ds| - 1]);
    }
  }

  lemma {:induction false} FoundDispatch(ds: seq<Dispatch>, id: string)
    ensures
      match FindDispatch(ds, id)
      case Some(d) => d in ds && d.dispatchId == id
      case None => forall d <- ds :: d.dispatchId != id
  {
    if ds != [] {
      FoundDispatch(ds[1..], id);
    }
  }

  lemma RewriteKeepsRows(ds: seq<Dispatch>, d: Dispatch, d': Dispatch)
    requires NumberedAttempts(ds) && d in ds && SameDispatch(d, d') && d.attemptCount <= d'.attemptCount
    requires !d'.state.Abandoned?
    ensures NumberedAttempts(WithDispatch(ds, d')) && DispatchesGrow(ds, WithDispatch(ds, d'))
  {
  }

  lemma ClaimKeepsRows(r: Record, id: string, owner: string, now: int)
    requires NumberedAttempts(r.dispatches)
    ensures NumberedAttempts(ClaimLease(r, id, owner, now).0.dispatches)
    ensures DispatchesGrow(r.dispatches, ClaimLease(r, id, owner, now).0.dispatches)
  {
    FoundDispatch(r.dispatches, id);
    if ClaimLease(r, id, owner, now).0 != r {
      RewriteKeepsRows(r.dispatches, FindDispatch(r.dispatches, id).value, ClaimLease(r, id, owner, now).1.value);
    }
  }

  lemma AcceptanceKeepsRows(r: Record, c: Dispatch, agentId: string, runId: string)
    requires NumberedAttempts(r.dispatches)
    ensures NumberedAttempts(PersistAcceptance(r, c, agentId, runId).0.dispatches)
    ensures DispatchesGrow(r.dispatches, PersistAcceptance(r, c, agentId, runId).0.dispatches)
  {
    FoundDispatch(r.dispatches, c.dispatchId);
    if FindDispatch(r.dispatches, c.dispatchId).Some? {
      var d := FindDispatch(r.dispatches, c.dispatchId).value;
      RewriteKeepsRows(r.dispatches, d,
                       d.(state := ProviderAccepted, providerAgentId := Some(agentId), providerRunId := Some(runId)));
    } else {
      assert PersistAcceptance(r, c, agentId, runId).0.dispatches == r.dispatches;
    }
  }

  lemma SettleKeepsRows(r: Record, c: Dispatch, receipt: Receipt)
    requires NumberedAttempts(r.dispatches)
    ensures NumberedAttempts(MarkAcknowledged(r, c, receipt).dispatches)
    ensures DispatchesGrow(r.dispatches, MarkAcknowledged(r, c, receipt).dispatches)
  {
    FoundDispatch(r.dispatches, c.dispatchId);
    if FindDispatch(r.dispatches, c.dispatchId).Some? {
      var d := FindDispatch(r.dispatches, c.dispatchId).value;
      RewriteKeepsRows(r.dispatches, d, d.(
        state := Acknowledged, providerAgentId := c.providerAgentId, providerRunId := c.providerRunId,
        receipt := receipt, leaseOwner := None, leaseExpiresAt := None));
    } else {
      assert MarkAcknowledged(r, c, receipt).dispatches == r.dispatches;
    }
  }

  lemma ReconcileKeepsRows(r: Record, c: Dispatch, code: string)
    requires NumberedAttempts(r.dispatches)
    ensures NumberedAttempts(MarkReconciliation(r, c, code).dispatches)
    ensures DispatchesGrow(r.dispatches, MarkReconciliation(r, c, code).dispatches)
  {
    FoundDispatch(r.dispatches, c.dispatchId);
    if FindDispatch(r.dispatches, c.dispatchId).Some? {
      var d := FindDispatch(r.dispatches, c.dispatchId).value;
      RewriteKeepsRows(r.dispatches, d, d.(
        state := ReconciliationRequired, lastFailureCode := Some(code), leaseOwner := None, leaseExpiresAt := None));
    } else {
      assert MarkReconciliation(r, c, code).dispatches == r.dispatches;
    }
  }

  lemma RememberKeepsRows(r: Record, id: string, receipt: Receipt)
    requires NumberedAttempts(r.dispatches)
    ensures NumberedAttempts(RememberReceipt(r, id, receipt).dispatches)
    ensures DispatchesGrow(r.dispatches, RememberReceipt(r, id, receipt).dispatches)
  {
    FoundDispatch(r.dispatches, id);
    if FindDispatch(r.dispatches, id).Some? {
      var d := FindDispatch(r.dispatches, id).value;
      RewriteKeepsRows(r.dispatches, d, d.(receipt := receipt));
    }
  }

  lemma DispatchWriteKeepsRows(r: Record, step: Step)
    requires NumberedAttempts(r.dispatches) && IsDispatchWrite(step)
    ensures NumberedAttempts(Apply(r, step).dispatches) && DispatchesGrow(r.dispatches, Apply(r, step).dispatches)
  {
    match step
    case Claim(id, owner, now) => ClaimKeepsRows(r, id, owner, now);
    case PersistRun(c, agentId, runId) => AcceptanceKeepsRows(r, c, agentId, runId);
    case Settle(c, receipt) => SettleKeepsRows(r, c, receipt);
    case Reconcile(c, code) => ReconcileKeepsRows(r, c, code);
    case Remember(id, receipt) => RememberKeepsRows(r, id, receipt);
  }

  lemma {:induction false} AgentIsTruthy(ledger: seq<LedgerEntry>)
    ensures PlanningAgent(ledger).Some? ==> Truthy(PlanningAgent(ledger))
  {
    if ledger != [] {
      AgentIsTruthy(ledger[..|ledger| - 1]);
    }
  }

  lemma StoredIntentRow(r: Record, q: IntentRequest, dispatchId: string, wrapper: string, planId: string, planSha: string,
                        approvalId: string, t: Transition)
    requires NumberedAttempts(r.dispatches) && forall d <- r.dispatches :: d.dispatchId != dispatchId
    ensures
      var ds' := StoreIntent(r, q, dispatchId, wrapper, planId, planSha, approvalId, t).0.dispatches;
      var d := ds'[|r.dispatches|];
      && |ds'| == |r.dispatches| + 1 && r.dispatches <= ds'
      && d.dispatchId == dispatchId && d.attempt == |r.dispatches| + 1 && d.attemptCount == 0
      && d.state.Pending? && d.providerRunId.None?
      && NumberedAttempts(ds')
  {
    MaxOfNumbered(r.dispatches);
    AgentIsTruthy(r.ledger);
  }

  lemma IntendIsStoreIntent(r: Record, step: Step)
    requires step.Intend? && Apply(r, step) != r
    ensures forall d <- r.dispatches :: d.dispatchId != step.dispatchId
    ensures exists planId, planSha, approvalId, t ::
              Apply(r, step) == StoreIntent(r, step.intent, step.dispatchId, step.wrapperSha256, planId, planSha, approvalId, t).0
  {
    var t := IntendTransition(r, step).value;
    var planId, planSha := RequestedPlan(step.intent, CurrentSnapshot(r)), RequestedSha(step.intent, CurrentSnapshot(r));
    var approval := MatchingPlanApproval(
      Decisions(r.decisions), Or(t.snapshot.planId, planId.value), Or(t.snapshot.planSha256, planSha.value), step.now).value;
    assert Apply(r, step) == StoreIntent(r, step.intent, step.dispatchId, step.wrapperSha256, planId.value, planSha.value,
                                         approval.decisionId, t).0;
  }

  lemma IntendAddsRow(r: Record, step: Step)
    requires step.Intend? && NumberedAttempts(r.dispatches) && Apply(r, step) != r
    ensures
      var r' := Apply(r, step);
      var d := r'.dispatches[|r.dispatches|];
      && |r'.dispatches| == |r.dispatches| + 1 && r.dispatches <= r'.dispatches
      && d.dispatchId == step.dispatchId && d.attempt == |r.dispatches| + 1 && d.attemptCount == 0
      && d.state.Pending? && d.providerRunId.None?
      && NumberedAttempts(r'.dispatches)
  {
    IntendIsStoreIntent(r, step);
    var planId, planSha, approvalId, t :|
      Apply(r, step) == StoreIntent(r, step.intent, step.dispatchId, step.wrapperSha256, planId, planSha, approvalId, t).0;
    StoredIntentRow(r, step.intent, step.dispatchId, step.wrapperSha256, planId, planSha, approvalId, t);
  }

  lemma RespondKeepsDispatches(r: Record, step: Step)
    requires DispatchesMatchLedger(r) && step.Respond?
    ensures DispatchesMatchLedger(Apply(r, step)) && Apply(r, step).dispatches == r.dispatches
  {
    RespondShape(r, step);
    OtherEventsUncounted(r, Apply(r, step));
  }

  lemma DecideKeepsDispatches(r: Record, step: Step)
    requires DispatchesMatchLedger(r) && step.Decide?
    ensures DispatchesMatchLedger(Apply(r, step)) && Apply(r, step).dispatches == r.dispatches
  {
    DecideShape(r, step);
    OtherEventsUncounted(r, Apply(r, step));
  }

  lemma MessageKeepsDispatches(r: Record, step: Step)
    requires DispatchesMatchLedger(r) && step.BrokerMessage?
    ensures DispatchesMatchLedger(Apply(r, step)) && Apply(r, step).dispatches == r.dispatches
  {
    MessageShape(r, step);
    OtherEventsUncounted(r, Apply(r, step));
  }

  lemma IntendKeepsDispatches(r: Record, step: Step)
    requires DispatchesMatchLedger(r) && step.Intend?
    ensures DispatchesMatchLedger(Apply(r, step)) && r.dispatches <= Apply(r, step).dispatches
  {
    var r' := Apply(r, step);
    IntendShape(r, step);
    if r' != r {
      IntendAddsRow(r, step);
      EventsOfExtension(r.ledger, r'.ledger);
      CountOfAppend(Events(r.ledger), step.intent.event, DISPATCH_EVENTS);
    }
  }

  lemma StepKeepsDispatches(r: Record, step: Step)
    requires DispatchesMatchLedger(r)
    ensures DispatchesMatchLedger(Apply(r, step)) && DispatchesGrow(r.dispatches, Apply(r, step).dispatches)
  {
    match step
    case Respond(_, _, _, _, _) => RespondKeepsDispatches(r, step);
    case Decide(_, _, _, _, _) => DecideKeepsDispatches(r, step);
    case BrokerMessage(_, _, _, _, _) => MessageKeepsDispatches(r, step);
    case Intend(_, _, _, _) => IntendKeepsDispatches(r, step);
    case Plan(write) => PlanningKeepsDispatches(r, write);
    case _ => DispatchWriteKeepsRows(r, step); DispatchWritesOnlyDispatches(r, step);
  }

  lemma PlanningKeepsDispatches(r: Record, write: PlanningWrite)
    requires DispatchesMatchLedger(r)
    ensures DispatchesMatchLedger(Apply(r, Plan(write))) && Apply(r, Plan(write)).dispatches == r.dispatches
  {
    PlanningLeavesKernel(r, write);
    QuietExtension(r.workOrderId, r.ledger, Apply(r, Plan(write)).ledger);
  }

  lemma OtherEventsUncounted(r: Record, r': Record)
    requires DispatchesMatchLedger(r) && r'.dispatches == r.dispatches
    requires r' == r || (r.ledger <= r'.ledger && |r'.ledger| == |r.ledger| + 1
                         && IsLifecycleEntry(r'.ledger[|r.ledger|]) && !IsDispatchEvent(r'.ledger[|r.ledger|].body.event))
    ensures DispatchesMatchLedger(r')
  {
    if r' != r {
      EventsOfExtension(r.ledger, r'.ledger);
      CountOfAppend(Events(r.ledger), r'.ledger[|r.ledger|].body.event, DISPATCH_EVENTS);
    }
  }

  lemma NoDispatchEvents(start: Record)
    requires Initial(start)
    ensures DispatchesMatchLedger(start)
  {
    QuietExtension(start.workOrderId, [], start.ledger);
  }

  /** In every reachable record the attempts are exactly 1..n, n the number of dispatch entries. */
  lemma {:induction false} AttemptsOverRuns(start: Record, steps: seq<Step>)
    requires Initial(start)
    ensures DispatchesMatchLedger(Run(start, steps))
  {
    if steps == [] {
      NoDispatchEvents(start);
    } else {
      AttemptsOverRuns(start, steps[..|steps| - 1]);
      StepKeepsDispatches(Run(start, steps[..|steps| - 1]), steps[|steps| - 1]);
    }
  }
}
