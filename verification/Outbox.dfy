/**
 The execution dispatch outbox as a state machine (refresh_external_run and what it calls in
 src/awr/service.py). Any number of workers interleave at transaction granularity. A worker may
 stop for ever at any point, which is a crash; a request may be accepted by the provider at any
 time after it was sent, also when its sender has already given up.
 */
module Outbox {
  import opened Wrappers
  import opened Packets
  import opened Lifecycle
  import opened Broker
  import opened Planning
  import opened Runs

  /** One submit_for_execution call, and the provider run it led to once the provider accepted it. */
  datatype Request = Request(dispatchId: string, key: ProviderKey, agentId: Option<string>, run: Option<string>)

  /** A worker inside _advance_execution_dispatch; `claimed` is its local copy of the row. */
  datatype Worker =
    | Reading(owner: string, dispatchId: string)
    | Claiming(owner: string, dispatchId: string)
    | Deciding(claimed: Dispatch)
    | Awaiting(claimed: Dispatch, request: nat)
    | Recovering(claimed: Dispatch)
    | HoldingRun(claimed: Dispatch, agentId: string, runId: string)
    | Preparing(claimed: Dispatch)
    | Sending(claimed: Dispatch, packet: ResponsePacket)
    | Settling(claimed: Dispatch, receipt: Receipt)
    | Reconciling(claimed: Dispatch)
    | Stopped

  datatype System = System(rec: Record, requests: seq<Request>, workers: map<nat, Worker>)

  datatype Move =
    | Environment(step: Step)
    | Begin(w: nat, owner: string, dispatchId: string)
    | ReadRow(w: nat)
    | ClaimRow(w: nat, now: int)
    | Choose(w: nat)
    | ProviderAccepts(request: nat, runId: string)
    | ReplyAccepted(w: nat, agentId: string)
    | ReplyAmbiguous(w: nat)
    | ReplyTimeout(w: nat)
    | ReplyError(w: nat)
    | RecoverFound(w: nat, request: nat, agentId: string)
    | RecoverNothing(w: nat)
    | Persist(w: nat)
    | Prepare(w: nat, digest: string, createdAt: string)
    | Send(w: nat, clash: bool, now: int)
    | Finish(w: nat)
    | Reconciled(w: nat)

  // ---------------------------------------------------------------- the provider

  /** Client-keyed creation: the run a key already leads to. */
  function RunOfKey(requests: seq<Request>, key: ProviderKey): Option<string> {
    if requests == [] then None
    else if requests[0].agentId.None? && requests[0].key == key && requests[0].run.Some? then requests[0].run
    else RunOfKey(requests[1..], key)
  }

  predicate KnownRun(requests: seq<Request>, run: string) {
    exists q <- requests :: q.run == Some(run)
  }

  /**
   The provider takes up a pending request. Creating an agent is idempotent in the key; a
   follow-up on an existing agent starts a new run every time.
   */
  function ProviderStep(requests: seq<Request>, i: nat, newRun: string): seq<Request> {
    if i >= |requests| || requests[i].run.Some? then requests
    else if requests[i].agentId.None? && RunOfKey(requests, requests[i].key).Some? then
      requests[i := requests[i].(run := RunOfKey(requests, requests[i].key))]
    else if newRun == "" || KnownRun(requests, newRun) then requests
    else requests[i := requests[i].(run := Some(newRun))]
  }

  // ---------------------------------------------------------------- the acknowledgement packet

  const ACK_PREFIX := "exec-ack-"

  function AckKey(dispatchId: string): string {
    ACK_PREFIX + dispatchId
  }

  /** _trusted_response for execution.acknowledged, from the snapshot as it is now. */
  function AckPacket(r: Record, claimed: Dispatch, executor: string, digest: string, createdAt: string): ResponsePacket {
    var s := CurrentSnapshot(r);
    var run := claimed.providerRunId.GetOr("None");
    ResponsePacket(
      "awr.response/v1", ResponseType.ExecutionAcknowledged, r.workOrderId, s.currentParentId,
      AckKey(claimed.dispatchId), s.sourceInputSha256, createdAt, REPORT_ONLY,
      [Field("executor", Str(executor)), Field("executor_run_id", Str(run))],
      [], None, None, Some(run), None, Some(digest))
  }

  // ---------------------------------------------------------------- worker moves

  function With(s: System, w: nat, worker: Worker): System {
    s.(workers := s.workers[w := worker])
  }

  function At(s: System, w: nat): Worker {
    if w in s.workers then s.workers[w] else Stopped
  }

  function AfterRead(s: System, w: nat, owner: string, dispatchId: string): System {
    match FindDispatch(s.rec.dispatches, dispatchId)
    case None => With(s, w, Stopped)
    case Some(d) => if d.state.Acknowledged? then With(s, w, Stopped) else With(s, w, Claiming(owner, dispatchId))
  }

  function AfterClaim(s: System, w: nat, owner: string, dispatchId: string, now: int): System {
    var (rec, claimed) := ClaimLease(s.rec, dispatchId, owner, now);
    match claimed
    case None => With(s, w, Stopped)
    case Some(d) =>
      if d.state.Acknowledged? then With(s, w, Stopped) else With(s.(rec := rec), w, Deciding(d))
  }

  predicate FollowUpRetry(claimed: Dispatch) {
    Truthy(claimed.existingAgentId) && claimed.attemptCount > 1 && !Truthy(claimed.providerRunId)
  }

  function AfterChoice(s: System, w: nat, claimed: Dispatch): System {
    if Truthy(claimed.providerRunId) then With(s, w, Preparing(claimed))
    else if claimed.state.ReconciliationRequired? || FollowUpRetry(claimed) then With(s, w, Recovering(claimed))
    else
      With(s.(requests := s.requests + [Request(claimed.dispatchId, claimed.providerKey, claimed.existingAgentId, None)]),
           w, Awaiting(claimed, |s.requests|))
  }

  function AfterPersist(s: System, w: nat, claimed: Dispatch, agentId: string, runId: string): System {
    var (rec, current) := PersistAcceptance(s.rec, claimed, agentId, runId);
    With(s.(rec := rec), w, Preparing(current))
  }

  function AfterSend(s: System, w: nat, claimed: Dispatch, packet: ResponsePacket, clash: bool, now: int): System {
    var (rec, outcome) := SubmitResponse(s.rec, packet, s.rec.recipient, None, clash, now);
    match outcome
    case Stored(receipt) => With(s.(rec := rec), w, Settling(claimed, receipt))
    case Replayed(receipt) => With(s.(rec := rec), w, Settling(claimed, receipt))
    case Refused(_) => With(s.(rec := rec), w, Stopped)
  }

  /** The transactions of callers that are not refresh workers. */
  predicate IsEnvironment(step: Step) {
    !step.Claim? && !step.PersistRun? && !step.Settle? && !step.Reconcile?
  }

  /** A move that its worker is not ready for leaves the system as it is. */
  function Advance(s: System, move: Move): System {
    match move
    case Environment(step) => if IsEnvironment(step) then s.(rec := Apply(s.rec, step)) else s
    case Begin(w, owner, dispatchId) => if At(s, w).Stopped? then With(s, w, Reading(owner, dispatchId)) else s
    case ProviderAccepts(i, newRun) => s.(requests := ProviderStep(s.requests, i, newRun))
    case _ => WorkerMove(s, move, At(s, move.w))
  }

  function WorkerMove(s: System, move: Move, worker: Worker): System
    requires !move.Environment? && !move.Begin? && !move.ProviderAccepts?
  {
    match (move, worker)
    case (ReadRow(w), Reading(owner, id)) => AfterRead(s, w, owner, id)
    case (ClaimRow(w, now), Claiming(owner, id)) => AfterClaim(s, w, owner, id, now)
    case (Choose(w), Deciding(c)) => AfterChoice(s, w, c)
    case (ReplyAccepted(w, agentId), Awaiting(c, i)) =>
      if i < |s.requests| && s.requests[i].run.Some? then With(s, w, HoldingRun(c, agentId, s.requests[i].run.value)) else s
    case (ReplyAmbiguous(w), Awaiting(c, _)) => With(s, w, Reconciling(c))
    case (ReplyTimeout(w), Awaiting(c, _)) => With(s, w, Recovering(c))
    case (ReplyError(w), Awaiting(_, _)) => With(s, w, Stopped)
    case (RecoverFound(w, i, agentId), Recovering(c)) =>
      if i < |s.requests| && s.requests[i].key == c.providerKey && s.requests[i].run.Some?
      then With(s, w, HoldingRun(c, agentId, s.requests[i].run.value)) else s
    case (RecoverNothing(w), Recovering(c)) => With(s, w, Reconciling(c))
    case (Persist(w), HoldingRun(c, agentId, runId)) => AfterPersist(s, w, c, agentId, runId)
    case (Prepare(w, digest, createdAt), Preparing(c)) =>
      With(s, w, Sending(c, AckPacket(s.rec, c, "executor", digest, createdAt)))
    case (Send(w, clash, now), Sending(c, packet)) => AfterSend(s, w, c, packet, clash, now)
    case (Finish(w), Settling(c, receipt)) => With(s.(rec := MarkAcknowledged(s.rec, c, receipt)), w, Stopped)
    case (Reconciled(w), Reconciling(c)) =>
      With(s.(rec := MarkReconciliation(s.rec, c, "RECONCILIATION_REQUIRED")), w, Stopped)
    case _ => s
  }

  function Play(s: System, moves: seq<Move>): System {
    if moves == [] then s else Advance(Play(s, moves[..|moves| - 1]), moves[|moves| - 1])
  }

  /** A newly planned work order, no request sent and no worker started. */
  predicate Quiet(s: System) {
    Initial(s.rec) && s.requests == [] && s.workers == map[]
  }
}
