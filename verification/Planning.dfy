/**
 The planning transactions (refresh_planning, get_plan, _route_and_dispatch in src/awr/service.py).
 They write the status outside the lifecycle kernel.
 */
module Planning {
  import opened Wrappers
  import opened Packets
  import opened Lifecycle
  import opened Broker

  datatype PlanPacket = PlanPacket(
    planId: string,
    workOrderId: string,
    run: PlanningRun,
    ledgerSequence: int)

  // ---------------------------------------------------------------- reading the ledger

  function LatestReceived(ledger: seq<LedgerEntry>): (e: Option<LedgerEntry>)
    ensures e.Some? ==> e.value in ledger && e.value.body.PlanReceived?
    ensures e.None? ==> forall x <- ledger :: !x.body.PlanReceived?
  {
    if ledger == [] then None
    else if ledger[|ledger| - 1].body.PlanReceived? then Some(ledger[|ledger| - 1])
    else LatestReceived(ledger[..|ledger| - 1])
  }

  function LatestAvailable(ledger: seq<LedgerEntry>): (e: Option<LedgerEntry>)
    ensures e.Some? ==> e.value in ledger && e.value.body.PlanAvailable?
    ensures e.None? ==> forall x <- ledger :: !x.body.PlanAvailable?
  {
    if ledger == [] then None
    else if ledger[|ledger| - 1].body.PlanAvailable? then Some(ledger[|ledger| - 1])
    else LatestAvailable(ledger[..|ledger| - 1])
  }

  function LatestRunStatus(ledger: seq<LedgerEntry>): Option<string> {
    if ledger == [] then None
    else
      match ledger[|ledger| - 1].body
      case ExecutorStatus(runStatus) => Some(runStatus)
      case _ => LatestRunStatus(ledger[..|ledger| - 1])
  }

  predicate HasEntry(ledger: seq<LedgerEntry>, like: EntryBody) {
    exists e <- ledger ::
      || (like.WorkOrderRouted? && e.body.WorkOrderRouted?)
      || (like.ExecutorAcknowledged? && e.body.ExecutorAcknowledged?)
      || (like.ExecutorFailed? && e.body.ExecutorFailed?)
      || (like.ExecutorRejected? && e.body.ExecutorRejected?)
  }

  /** _plan_packet */
  function PacketOf(workOrderId: string, received: LedgerEntry, available: LedgerEntry): PlanPacket
    requires received.body.PlanReceived?
  {
    PlanPacket(received.body.planId, workOrderId, received.body.run, available.sequence)
  }

  /** _plan_from_entries */
  function PlanFromLedger(r: Record): Option<PlanPacket> {
    match (LatestReceived(r.ledger), LatestAvailable(r.ledger))
    case (Some(received), Some(available)) => Some(PacketOf(r.workOrderId, received, available))
    case _ => None
  }

  // ---------------------------------------------------------------- transactions

  function PublishReceived(r: Record, received: LedgerEntry): (Record, Option<PlanPacket>)
    requires received.body.PlanReceived?
  {
    var body := PlanAvailable(received.body.planId, received.body.run.contentSha256, received.sequence);
    var r' := Appended(r, "broker:awr", body).(status := PlanReady);
    (r', Some(PacketOf(r.workOrderId, received, r'.ledger[|r.ledger|])))
  }

  /** _commit_existing_plan */
  function CommitExistingPlan(r: Record): (Record, Option<PlanPacket>) {
    if PlanFromLedger(r).Some? then (r, PlanFromLedger(r))
    else
      match LatestReceived(r.ledger)
      case None => (r, None)
      case Some(received) => PublishReceived(r, received)
  }

  function PlanIdFor(contentSha256: string): string {
    "PLAN-" + if |contentSha256| >= 24 then contentSha256[..24] else contentSha256
  }

  /** The last transaction of refresh_planning, for a finished run with a result. */
  function ReceivePlan(r: Record, run: PlanningRun): (Record, Option<PlanPacket>) {
    var (r1, committed) := CommitExistingPlan(r);
    if committed.Some? then (r1, committed)
    else
      var r2 := Appended(r1, run.executor, PlanReceived(PlanIdFor(run.contentSha256), run));
      PublishReceived(r2, r2.ledger[|r1.ledger|])
  }

  /** A run that is still going: note a changed run status. */
  function NoteRunStatus(r: Record, executor: string, runStatus: string): (Record, Option<PlanPacket>) {
    var (r1, committed) := CommitExistingPlan(r);
    if committed.Some? || LatestRunStatus(r1.ledger) == Some(runStatus) then (r1, committed)
    else (Appended(r1, executor, ExecutorStatus(runStatus)), None)
  }

  /** A run that ended without a plan. */
  function FailPlanning(r: Record, executor: string): (Record, Option<PlanPacket>) {
    var (r1, committed) := CommitExistingPlan(r);
    if committed.Some? || HasEntry(r1.ledger, ExecutorFailed) then (r1, committed)
    else (Appended(r1, executor, ExecutorFailed).(status := Failed), None)
  }

  /** _ensure_routed */
  function EnsureRouted(r: Record): Record {
    if HasEntry(r.ledger, WorkOrderRouted) then
      if r.status.Accepted? || r.status.Failed? then r.(status := Routed) else r
    else Appended(r, "broker:awr", WorkOrderRouted).(status := Routed)
  }

  /** The executor raised while the planning run was submitted. */
  function SubmissionRaised(r: Record, executor: string): Record {
    if HasEntry(r.ledger, EntryBody.ExecutorAcknowledged("", "")) then r
    else Appended(r, executor, ExecutorFailed).(status := Failed)
  }

  function SubmissionRejected(r: Record, executor: string): Record {
    if HasEntry(r.ledger, ExecutorRejected) then r
    else Appended(r, executor, ExecutorRejected).(status := Failed)
  }

  function SubmissionAcknowledged(r: Record, executor: string, agentId: string, runId: string): Record {
    if HasEntry(r.ledger, EntryBody.ExecutorAcknowledged("", "")) then r
    else Appended(r, executor, EntryBody.ExecutorAcknowledged(agentId, runId)).(status := WorkStatus.Planning)
  }

  datatype PlanningWrite =
    | ReadPlan
    | CommitPlan
    | Receive(run: PlanningRun)
    | NoteStatus(executor: string, runStatus: string)
    | FailRun(executor: string)
    | Route
    | Raised(executor: string)
    | Rejected(executor: string)
    | PlanningAcknowledged(executor: string, agentId: string, runId: string)

  /** The guard of the one branch that writes PLAN_READY: a plan to publish, and none published yet. */
  predicate PublishesPlan(r: Record, write: PlanningWrite) {
    && PlanFromLedger(r).None?
    && (write.Receive?
        || ((write.CommitPlan? || write.NoteStatus? || write.FailRun?) && LatestReceived(r.ledger).Some?))
  }

  /** One planning transaction and the plan packet it hands out, if any. */
  function ApplyPlanning(r: Record, write: PlanningWrite): (Record, Option<PlanPacket>) {
    match write
    case ReadPlan => (r, PlanFromLedger(r))
    case CommitPlan => CommitExistingPlan(r)
    case Receive(run) => ReceivePlan(r, run)
    case NoteStatus(executor, runStatus) => NoteRunStatus(r, executor, runStatus)
    case FailRun(executor) => FailPlanning(r, executor)
    case Route => (EnsureRouted(r), None)
    case Raised(executor) => (SubmissionRaised(r, executor), None)
    case Rejected(executor) => (SubmissionRejected(r, executor), None)
    case PlanningAcknowledged(executor, agentId, runId) => (SubmissionAcknowledged(r, executor, agentId, runId), None)
  }
}
