/** Runs of one work order: any sequence of transactions by any callers. */
module Runs {
  import opened Wrappers
  import opened Packets
  import opened Lifecycle
  import opened Broker
  import opened Planning

  datatype Step =
    | Respond(packet: ResponsePacket, actor: string, expectedVersion: Option<int>, clash: bool, now: int)
    | Decide(request: DecisionRequest, expectedVersion: Option<int>, decisionId: string, clash: bool, now: int)
    | BrokerMessage(event: LifecycleEvent, actor: string, messageId: string, expectedVersion: Option<int>, now: int)
    | Intend(intent: IntentRequest, dispatchId: string, wrapperSha256: string, now: int)
    | Claim(dispatchId: string, owner: string, now: int)
    | PersistRun(claimed: Dispatch, agentId: string, runId: string)
    | Settle(claimed: Dispatch, receipt: Receipt)
    | Reconcile(claimed: Dispatch, code: string)
    | Remember(dispatchId: string, receipt: Receipt)
    | Plan(write: PlanningWrite)

  function Apply(r: Record, step: Step): Record {
    match step
    case Respond(packet, actor, expected, clash, now) => SubmitResponse(r, packet, actor, expected, clash, now).0
    case Decide(request, expected, decisionId, clash, now) => RecordDecision(r, request, expected, decisionId, clash, now).0
    case BrokerMessage(event, actor, messageId, expected, now) => ApplyBroker(r, event, actor, messageId, expected, now).0
    case Intend(intent, dispatchId, wrapper, now) => CommitIntent(r, intent, dispatchId, wrapper, now).0
    case Claim(dispatchId, owner, now) => ClaimLease(r, dispatchId, owner, now).0
    case PersistRun(claimed, agentId, runId) => PersistAcceptance(r, claimed, agentId, runId).0
    case Settle(claimed, receipt) => MarkAcknowledged(r, claimed, receipt)
    case Reconcile(claimed, code) => MarkReconciliation(r, claimed, code)
    case Remember(dispatchId, receipt) => RememberReceipt(r, dispatchId, receipt)
    case Plan(write) => ApplyPlanning(r, write).0
  }

  function Run(r: Record, steps: seq<Step>): Record {
    if steps == [] then r else Apply(Run(r, steps[..|steps| - 1]), steps[|steps| - 1])
  }

  /** A work order whose planning run has just been acknowledged: status PLANNING, nothing stored yet. */
  predicate Initial(r: Record) {
    && r.status.Planning?
    && r.snapshot.None?
    && r.responses == [] && r.decisions == [] && r.dispatches == []
    && (forall e <- r.ledger :: !IsLifecycleEntry(e))
    && (exists e <- r.ledger :: e.body.ExecutorAcknowledged?)
    && r.sender != "" && r.recipient != "" && r.workOrderId != ""
  }

  predicate Reachable(r: Record, start: Record, steps: seq<Step>) {
    Initial(start) && r == Run(start, steps)
  }

  // ---------------------------------------------------------------- the lifecycle trace

  predicate IsLifecycleEntry(e: LedgerEntry) {
    e.body.ResponseEntry? || e.body.DecisionEntry? || e.body.BrokerEntry? || e.body.IntentEntry?
  }

  /** The lifecycle events of a ledger, oldest first. */
  function Events(ledger: seq<LedgerEntry>): seq<LifecycleEvent> {
    if ledger == [] then []
    else
      var last := ledger[|ledger| - 1];
      Events(ledger[..|ledger| - 1]) + if IsLifecycleEntry(last) then [last.body.event] else []
  }

  /** The id of the latest message of the chain: a response packet, a broker message or a dispatch. */
  function Tip(workOrderId: string, ledger: seq<LedgerEntry>): string {
    if ledger == [] then workOrderId
    else
      match ledger[|ledger| - 1].body
      case ResponseEntry(_, messageId, _) => messageId
      case BrokerEntry(_, messageId) => messageId
      case IntentEntry(_, dispatchId, _) => dispatchId
      case _ => Tip(workOrderId, ledger[..|ledger| - 1])
  }

  /** How many of the events belong to `kinds`. */
  function Count(events: seq<LifecycleEvent>, kinds: set<LifecycleEvent>): nat {
    if events == [] then 0
    else Count(events[..|events| - 1], kinds) + if events[|events| - 1] in kinds then 1 else 0
  }

  lemma CountOfAppend(events: seq<LifecycleEvent>, last: LifecycleEvent, kinds: set<LifecycleEvent>)
    ensures Count(events + [last], kinds) == Count(events, kinds) + if last in kinds then 1 else 0
  {
    assert (events + [last])[..|events|] == events;
  }

  lemma {:induction false} RunOfConcat(r: Record, first: seq<Step>, second: seq<Step>)
    ensures Run(r, first + second) == Run(Run(r, first), second)
  {
    if second == [] {
      assert first + second == first;
    } else {
      var all := first + second;
      assert all[..|all| - 1] == first + second[..|second| - 1];
      RunOfConcat(r, first, second[..|second| - 1]);
    }
  }
}
