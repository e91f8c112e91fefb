/** Idempotent replay of responses, decisions and plans, over every later run. */
module Replay {
  import opened Wrappers
  import opened Packets
  import opened Lifecycle
  import opened Broker
  import opened Planning
  import opened Runs
  import opened Chain

  // ---------------------------------------------------------------- rows are never removed

  lemma StepKeepsRows(r: Record, step: Step)
    ensures r.responses <= Apply(r, step).responses && r.decisions <= Apply(r, step).decisions
    ensures Apply(r, step).workOrderId == r.workOrderId
  {
    match step
    case Respond(_, _, _, _, _) => RespondShape(r, step);
    case Decide(_, _, _, _, _) => DecideShape(r, step);
    case BrokerMessage(_, _, _, _, _) => MessageShape(r, step);
    case Intend(_, _, _, _) => IntendShape(r, step);
    case Plan(write) => PlanningLeavesKernel(r, write);
    case _ => DispatchWritesOnlyDispatches(r, step);
  }

  lemma {:induction false} RunKeepsRows(r: Record, steps: seq<Step>)
    ensures r.responses <= Run(r, steps).responses && r.decisions <= Run(r, steps).decisions
    ensures Run(r, steps).workOrderId == r.workOrderId
  {
    if steps != [] {
      RunKeepsRows(r, steps[..|steps| - 1]);
      StepKeepsRows(Run(r, steps[..|steps| - 1]), steps[|steps| - 1]);
    }
  }

  lemma {:induction false} FoundResponseStays(
    rows: seq<StoredResponse>, more: seq<StoredResponse>, actor: string, responseType: ResponseType, key: string)
    requires rows <= more
    ensures FindResponse(rows, actor, responseType, key).Some? ==>
              FindResponse(more, actor, responseType, key) == FindResponse(rows, actor, responseType, key)
  {
    if rows != [] {
      assert rows[0] == more[0] && rows[1..] <= more[1..];
      FoundResponseStays(rows[1..], more[1..], actor, responseType, key);
    }
  }

  lemma {:induction false} FoundRowMatches(rows: seq<StoredResponse>, actor: string, kind: ResponseType, key: string)
    ensures FindResponse(rows, actor, kind, key).Some? <==>
              exists row <- rows :: row.actor == actor && row.packet.responseType == kind && row.packet.idempotencyKey == key
  {
    if rows != [] {
      FoundRowMatches(rows[1..], actor, kind, key);
      assert rows == [rows[0]] + rows[1..];
    }
  }

  lemma {:induction false} FoundDecisionMatches(rows: seq<DecisionRow>, actor: string, kind: DecisionType, key: string)
    ensures FindDecision(rows, actor, kind, key).Some? <==>
              exists row <- rows ::
                row.decision.actor == actor && row.decision.decisionType == kind && row.decision.idempotencyKey == key
  {
    if rows != [] {
      FoundDecisionMatches(rows[1..], actor, kind, key);
      assert rows == [rows[0]] + rows[1..];
    }
  }

  lemma {:induction false} AppendedResponseIsFound(rows: seq<StoredResponse>, row: StoredResponse)
    requires FindResponse(rows, row.actor, row.packet.responseType, row.packet.idempotencyKey).None?
    ensures FindResponse(rows + [row], row.actor, row.packet.responseType, row.packet.idempotencyKey) == Some(row)
  {
    if rows != [] {
      assert (rows + [row])[1..] == rows[1..] + [row];
      AppendedResponseIsFound(rows[1..], row);
    }
  }

  lemma {:induction false} FoundDecisionStays(
    rows: seq<DecisionRow>, more: seq<DecisionRow>, actor: string, decisionType: DecisionType, key: string)
    requires rows <= more
    ensures FindDecision(rows, actor, decisionType, key).Some? ==>
              FindDecision(more, actor, decisionType, key) == FindDecision(rows, actor, decisionType, key)
  {
    if rows != [] {
      assert rows[0] == more[0] && rows[1..] <= more[1..];
      FoundDecisionStays(rows[1..], more[1..], actor, decisionType, key);
    }
  }

  lemma {:induction false} AppendedDecisionIsFound(rows: seq<DecisionRow>, row: DecisionRow)
    requires FindDecision(rows, row.decision.actor, row.decision.decisionType, row.decision.idempotencyKey).None?
    ensures FindDecision(rows + [row], row.decision.actor, row.decision.decisionType, row.decision.idempotencyKey) == Some(row)
  {
    if rows != [] {
      assert (rows + [row])[1..] == rows[1..] + [row];
      AppendedDecisionIsFound(rows[1..], row);
    }
  }

  // ---------------------------------------------------------------- responses

  /**
   After a response is stored, whatever happens next, submitting a packet under the same
   (actor, type, key) changes nothing: the same digest gets the identical receipt, any other
   digest is refused as a conflict.
   */
  lemma StoredResponseReplays(
    r: Record, packet: ResponsePacket, actor: string, expected: Option<int>, clash: bool, now: int,
    later: seq<Step>, again: ResponsePacket, expected': Option<int>, clash': bool, now': int)
    requires SubmitResponse(r, packet, actor, expected, clash, now).1.Stored?
    requires again.authority == REPORT_ONLY && again.workOrderId == r.workOrderId && Truthy(again.contentSha256)
    requires again.responseType == packet.responseType && again.idempotencyKey == packet.idempotencyKey
    ensures
      var (stored, outcome) := SubmitResponse(r, packet, actor, expected, clash, now);
      var after := Run(stored, later);
      SubmitResponse(after, again, actor, expected', clash', now') ==
        (after,
         if again.contentSha256 == packet.contentSha256 then Replayed(outcome.receipt)
         else Refused(Kernel(IdempotencyConflict)))
  {
    var step := Respond(packet, actor, expected, clash, now);
    var (stored, outcome) := SubmitResponse(r, packet, actor, expected, clash, now);
    RespondShape(r, step);
    var row := stored.responses[|r.responses|];
    AppendedResponseIsFound(r.responses, row);
    assert stored.responses == r.responses + [row];
    RunKeepsRows(stored, later);
    FoundResponseStays(stored.responses, Run(stored, later).responses, actor, packet.responseType, packet.idempotencyKey);
  }

  // ---------------------------------------------------------------- decisions

  lemma StoredDecisionReplays(
    r: Record, q: DecisionRequest, expected: Option<int>, id: string, clash: bool, now: int,
    later: seq<Step>, again: DecisionRequest, expected': Option<int>, id': string, clash': bool, now': int)
    requires RecordDecision(r, q, expected, id, clash, now).1.Stored?
    requires CompactRationale(again.rationale)
    requires again.actor == q.actor && again.decisionType == q.decisionType && again.idempotencyKey == q.idempotencyKey
    ensures
      var (stored, outcome) := RecordDecision(r, q, expected, id, clash, now);
      var after := Run(stored, later);
      RecordDecision(after, again, expected', id', clash', now') ==
        (after,
         if FingerprintDecision(DecisionOf(r, again, id', now')) == FingerprintDecision(DecisionOf(r, q, id, now))
         then Replayed(outcome.receipt)
         else Refused(Kernel(IdempotencyConflict)))
  {
    var step := Decide(q, expected, id, clash, now);
    var (stored, outcome) := RecordDecision(r, q, expected, id, clash, now);
    DecideShape(r, step);
    var row := stored.decisions[|r.decisions|];
    AppendedDecisionIsFound(r.decisions, row);
    assert stored.decisions == r.decisions + [row];
    RunKeepsRows(stored, later);
    FoundDecisionStays(stored.decisions, Run(stored, later).decisions, q.actor, q.decisionType, q.idempotencyKey);
  }

  // ---------------------------------------------------------------- plans

  function ReceivedCount(ledger: seq<LedgerEntry>): nat {
    if ledger == [] then 0
    else ReceivedCount(ledger[..|ledger| - 1]) + if ledger[|ledger| - 1].body.PlanReceived? then 1 else 0
  }

  function AvailableCount(ledger: seq<LedgerEntry>): nat {
    if ledger == [] then 0
    else AvailableCount(ledger[..|ledger| - 1]) + if ledger[|ledger| - 1].body.PlanAvailable? then 1 else 0
  }

  /** plan.available describes this plan.received */
  predicate PointsAt(available: LedgerEntry, received: LedgerEntry) {
    && received.body.PlanReceived?
    && available.body == PlanAvailable(received.body.planId, received.body.run.contentSha256, received.sequence)
  }

  /** At most one of each event, and plan.available never without the plan.received it points at. */
  ghost predicate PlanLedgerOk(ledger: seq<LedgerEntry>) {
    && ReceivedCount(ledger) <= 1 && AvailableCount(ledger) <= 1
    && (LatestAvailable(ledger).Some? ==>
          LatestReceived(ledger).Some? && PointsAt(LatestAvailable(ledger).value, LatestReceived(ledger).value))
  }

  lemma PlanEntriesOfAppend(ledger: seq<LedgerEntry>, e: LedgerEntry)
    ensures ReceivedCount(ledger + [e]) == ReceivedCount(ledger) + if e.body.PlanReceived? then 1 else 0
    ensures AvailableCount(ledger + [e]) == AvailableCount(ledger) + if e.body.PlanAvailable? then 1 else 0
    ensures LatestReceived(ledger + [e]) == if e.body.PlanReceived? then Some(e) else LatestReceived(ledger)
    ensures LatestAvailable(ledger + [e]) == if e.body.PlanAvailable? then Some(e) else LatestAvailable(ledger)
  {
    assert (ledger + [e])[..|ledger|] == ledger;
  }

  lemma {:induction false} CountsMatchLatest(ledger: seq<LedgerEntry>)
    ensures LatestReceived(ledger).None? <==> ReceivedCount(ledger) == 0
    ensures LatestAvailable(ledger).None? <==> AvailableCount(ledger) == 0
  {
    if ledger != [] {
      CountsMatchLatest(ledger[..|ledger| - 1]);
    }
  }

  /** What a transaction does to the plan: keep a committed one, or commit the one it returns. */
  ghost predicate PlanStep(r: Record, r': Record, returned: Option<PlanPacket>) {
    && (PlanLedgerOk(r.ledger) ==> PlanLedgerOk(r'.ledger))
    && (PlanFromLedger(r).Some? ==> PlanFromLedger(r') == PlanFromLedger(r))
    && (returned.Some? ==> PlanFromLedger(r') == returned)
  }

  lemma QuietEntryKeepsPlan(r: Record, r': Record, e: LedgerEntry)
    requires r'.ledger == r.ledger + [e] && !e.body.PlanReceived? && !e.body.PlanAvailable?
    requires r'.workOrderId == r.workOrderId
    ensures PlanStep(r, r', None)
  {
    PlanEntriesOfAppend(r.ledger, e);
  }

  lemma CommitIsPlanStep(r: Record)
    ensures PlanStep(r, CommitExistingPlan(r).0, CommitExistingPlan(r).1)
  {
    CountsMatchLatest(r.ledger);
    if PlanFromLedger(r).None? && LatestReceived(r.ledger).Some? {
      var received := LatestReceived(r.ledger).value;
      var r' := PublishReceived(r, received).0;
      PlanEntriesOfAppend(r.ledger, r'.ledger[|r.ledger|]);
    }
  }

  /** Appending plan.received and then publishing it, on a ledger that holds neither event. */
  lemma PublishIsPlanStep(r: Record, r2: Record, received: LedgerEntry)
    requires ReceivedCount(r.ledger) == 0 && AvailableCount(r.ledger) == 0
    requires r2.ledger == r.ledger + [received] && received.body.PlanReceived?
    ensures PlanLedgerOk(PublishReceived(r2, received).0.ledger)
    ensures PlanFromLedger(PublishReceived(r2, received).0) == PublishReceived(r2, received).1
  {
    PlanEntriesOfAppend(r.ledger, received);
    var r3 := PublishReceived(r2, received).0;
    PlanEntriesOfAppend(r2.ledger, r3.ledger[|r2.ledger|]);
  }

  lemma ReceiveIsPlanStep(r: Record, run: PlanningRun)
    requires PlanLedgerOk(r.ledger)
    ensures PlanStep(r, ReceivePlan(r, run).0, ReceivePlan(r, run).1)
  {
    CommitIsPlanStep(r);
    CountsMatchLatest(r.ledger);
    if CommitExistingPlan(r).1.None? {
      var r2 := Appended(r, run.executor, PlanReceived(PlanIdFor(run.contentSha256), run));
      PublishIsPlanStep(r, r2, r2.ledger[|r.ledger|]);
    }
  }

  lemma ReportsArePlanSteps(r: Record, executor: string, runStatus: string)
    ensures PlanStep(r, NoteRunStatus(r, executor, runStatus).0, NoteRunStatus(r, executor, runStatus).1)
    ensures PlanStep(r, FailPlanning(r, executor).0, FailPlanning(r, executor).1)
  {
    CommitIsPlanStep(r);
    if CommitExistingPlan(r).1.None? {
      PlanEntriesOfAppend(r.ledger, LedgerEntry(NextSequence(r.ledger), executor, ExecutorStatus(runStatus)));
      PlanEntriesOfAppend(r.ledger, LedgerEntry(NextSequence(r.ledger), executor, ExecutorFailed));
    }
  }

  lemma RoutingIsPlanStep(r: Record)
    ensures PlanStep(r, EnsureRouted(r), None)
  {
    if !HasEntry(r.ledger, WorkOrderRouted) {
      QuietEntryKeepsPlan(r, EnsureRouted(r), LedgerEntry(NextSequence(r.ledger), "broker:awr", WorkOrderRouted));
    }
  }

  lemma SubmissionIsPlanStep(r: Record, executor: string, agentId: string, runId: string)
    ensures PlanStep(r, SubmissionRaised(r, executor), None)
    ensures PlanStep(r, SubmissionRejected(r, executor), None)
    ensures PlanStep(r, SubmissionAcknowledged(r, executor, agentId, runId), None)
  {
    var n := NextSequence(r.ledger);
    if SubmissionRaised(r, executor) != r {
      QuietEntryKeepsPlan(r, SubmissionRaised(r, executor), LedgerEntry(n, executor, ExecutorFailed));
    }
    if SubmissionRejected(r, executor) != r {
      QuietEntryKeepsPlan(r, SubmissionRejected(r, executor), LedgerEntry(n, executor, ExecutorRejected));
    }
    if SubmissionAcknowledged(r, executor, agentId, runId) != r {
      QuietEntryKeepsPlan(r, SubmissionAcknowledged(r, executor, agentId, runId),
                          LedgerEntry(n, executor, EntryBody.ExecutorAcknowledged(agentId, runId)));
    }
  }

  /** The packet a step returns to its caller; only planning transactions return one. */
  function Returned(r: Record, step: Step): Option<PlanPacket> {
    if step.Plan? then ApplyPlanning(r, step.write).1 else None
  }

  lemma KernelStepKeepsPlanEntries(r: Record, step: Step)
    requires !step.Plan?
    ensures PlanStep(r, Apply(r, step), None)
  {
    var r' := Apply(r, step);
    match step {
      case Respond(_, _, _, _, _) => RespondShape(r, step);
      case Decide(_, _, _, _, _) => DecideShape(r, step);
      case BrokerMessage(_, _, _, _, _) => MessageShape(r, step);
      case Intend(_, _, _, _) => IntendShape(r, step);
      case _ => DispatchWritesOnlyDispatches(r, step);
    }
    if r'.ledger != r.ledger {
      assert r'.ledger == r.ledger + [r'.ledger[|r.ledger|]];
      QuietEntryKeepsPlan(r, r', r'.ledger[|r.ledger|]);
    }
  }

  lemma StepIsPlanStep(r: Record, step: Step)
    requires PlanLedgerOk(r.ledger)
    ensures PlanStep(r, Apply(r, step), Returned(r, step))
  {
    if step.Plan? {
      PlanningIsPlanStep(r, step.write);
    } else {
      KernelStepKeepsPlanEntries(r, step);
    }
  }

  lemma PlanningIsPlanStep(r: Record, write: PlanningWrite)
    requires PlanLedgerOk(r.ledger)
    ensures PlanStep(r, ApplyPlanning(r, write).0, ApplyPlanning(r, write).1)
  {
    match write
    case ReadPlan =>
    case CommitPlan => CommitIsPlanStep(r);
    case Receive(run) => ReceiveIsPlanStep(r, run);
    case NoteStatus(executor, runStatus) => ReportsArePlanSteps(r, executor, runStatus);
    case FailRun(executor) => ReportsArePlanSteps(r, executor, "");
    case Route => RoutingIsPlanStep(r);
    case Raised(executor) => SubmissionIsPlanStep(r, executor, "", "");
    case Rejected(executor) => SubmissionIsPlanStep(r, executor, "", "");
    case PlanningAcknowledged(executor, agentId, runId) => SubmissionIsPlanStep(r, executor, agentId, runId);
  }

  lemma {:induction false} PlanSurvives(r: Record, steps: seq<Step>)
    requires PlanLedgerOk(r.ledger)
    ensures PlanLedgerOk(Run(r, steps).ledger)
    ensures PlanFromLedger(r).Some? ==> PlanFromLedger(Run(r, steps)) == PlanFromLedger(r)
  {
    if steps != [] {
      PlanSurvives(r, steps[..|steps| - 1]);
      StepIsPlanStep(Run(r, steps[..|steps| - 1]), steps[|steps| - 1]);
    }
  }

  lemma HandedOutPlanStays(r: Record, step: Step, later: seq<Step>)
    requires PlanLedgerOk(r.ledger) && Returned(r, step).Some?
    ensures PlanLedgerOk(Run(Apply(r, step), later).ledger)
    ensures PlanFromLedger(Run(Apply(r, step), later)) == Returned(r, step)
  {
    var r' := Apply(r, step);
    StepIsPlanStep(r, step);
    PlanSurvives(r', later);
  }

  lemma RunThroughStep(start: Record, steps: seq<Step>, i: nat)
    requires i < |steps|
    ensures Run(start, steps) == Run(Apply(Run(start, steps[..i]), steps[i]), steps[i + 1..])
  {
    var upTo := steps[..i + 1];
    assert upTo[..|upTo| - 1] == steps[..i];
    assert steps == upTo + steps[i + 1..];
    RunOfConcat(start, upTo, steps[i + 1..]);
  }

  /**
   From any ledger that may already hold plan.received without plan.available, over any
   interleaving: each event is recorded at most once, plan.available points at that
   plan.received, and every plan packet ever handed out is the one the final ledger shows.
   */
  lemma ReturnedPlanIsFinal(start: Record, steps: seq<Step>, i: nat)
    requires PlanLedgerOk(start.ledger) && i < |steps|
    requires Returned(Run(start, steps[..i]), steps[i]).Some?
    ensures PlanLedgerOk(Run(start, steps).ledger)
    ensures PlanFromLedger(Run(start, steps)) == Returned(Run(start, steps[..i]), steps[i])
  {
    PlanSurvives(start, steps[..i]);
    RunThroughStep(start, steps, i);
    HandedOutPlanStays(Run(start, steps[..i]), steps[i], steps[i + 1..]);
  }

  lemma EveryReturnedPlanIsTheSame(start: Record, steps: seq<Step>, i: nat, j: nat)
    requires PlanLedgerOk(start.ledger) && i < |steps| && j < |steps|
    requires Returned(Run(start, steps[..i]), steps[i]).Some?
    requires Returned(Run(start, steps[..j]), steps[j]).Some?
    ensures Returned(Run(start, steps[..i]), steps[i]) == Returned(Run(start, steps[..j]), steps[j])
  {
    ReturnedPlanIsFinal(start, steps, i);
    ReturnedPlanIsFinal(start, steps, j);
  }
}
