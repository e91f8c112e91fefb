/** EXECUTING is bound to the run of the latest attempt, also when workers of earlier attempts resume. */
module OutboxBinding {
  import opened Wrappers
  import opened Packets
  import opened Lifecycle
  import opened Broker
  import opened Planning
  import opened Runs
  import opened Chain
  import opened PlanAuthority
  import opened Milestones
  import opened Replay
  import opened Dispatches
  import opened Outbox
  import opened OutboxSafety

  // ---------------------------------------------------------------- an interleaving is a run

  /** The record transaction a move performs, if any. */
  function RecordStep(s: System, move: Move): seq<Step> {
    match move
    case Environment(step) => if IsEnvironment(step) then [step] else []
    case Begin(_, _, _) => []
    case ProviderAccepts(_, _) => []
    case _ =>
      match (move, At(s, move.w))
      case (ClaimRow(_, now), Claiming(owner, id)) => [Claim(id, owner, now)]
      case (Persist(_), HoldingRun(c, agentId, runId)) => [PersistRun(c, agentId, runId)]
      case (Send(_, clash, now), Sending(_, packet)) => [Respond(packet, s.rec.recipient, None, clash, now)]
      case (Finish(_), Settling(c, receipt)) => [Settle(c, receipt)]
      case (Reconciled(_), Reconciling(c)) => [Reconcile(c, "RECONCILIATION_REQUIRED")]
      case _ => []
  }

  lemma MoveIsRun(s: System, move: Move)
    ensures Advance(s, move).rec == Run(s.rec, RecordStep(s, move))
  {
    var steps := RecordStep(s, move);
    MoveWrites(s, move);
    if |steps| == 1 {
      assert steps[..0] == [];
      assert Run(s.rec, steps) == Apply(s.rec, steps[0]);
    }
  }

  /** The record after at most one transaction. */
  predicate WritesStep(rec: Record, steps: seq<Step>, rec': Record) {
    |steps| <= 1 && rec' == if steps == [] then rec else Apply(rec, steps[0])
  }

  lemma MoveWrites(s: System, move: Move)
    ensures WritesStep(s.rec, RecordStep(s, move), Advance(s, move).rec)
  {
    if move.Environment? || move.Begin? || move.ProviderAccepts? {
      OuterMoveWrites(s, move);
    } else if move.Persist? || move.Finish? || move.Reconciled? {
      WriteMoveShape(s, move, At(s, move.w));
    } else if move.Send? && At(s, move.w).Sending? {
      var worker := At(s, move.w);
      var _ := SendOutcome(s, move.w, worker.claimed, worker.packet, move.clash, move.now);
    } else if move.ClaimRow? && At(s, move.w).Claiming? {
      ClaimWrites(s, move.w, At(s, move.w).owner, At(s, move.w).dispatchId, move.now);
    } else {
      LocalMoveWrites(s, move);
    }
  }

  lemma OuterMoveWrites(s: System, move: Move)
    requires move.Environment? || move.Begin? || move.ProviderAccepts?
    ensures WritesStep(s.rec, RecordStep(s, move), Advance(s, move).rec)
  {
  }

  lemma ClaimWrites(s: System, w: nat, owner: string, id: string, now: int)
    ensures AfterClaim(s, w, owner, id, now).rec == Apply(s.rec, Claim(id, owner, now))
  {
  }

  lemma LocalMoveWrites(s: System, move: Move)
    requires !move.Environment? && !move.Begin? && !move.ProviderAccepts?
    requires !move.Persist? && !move.Finish? && !move.Reconciled?
    requires !(move.Send? && At(s, move.w).Sending?) && !(move.ClaimRow? && At(s, move.w).Claiming?)
    ensures WritesStep(s.rec, RecordStep(s, move), Advance(s, move).rec)
  {
  }

  /** Everything proved of record runs holds of the record in every interleaving. */
  lemma {:induction false} PlayIsRun(start: System, moves: seq<Move>) returns (steps: seq<Step>)
    ensures Play(start, moves).rec == Run(start.rec, steps)
  {
    if moves == [] {
      steps := [];
    } else {
      var before := moves[..|moves| - 1];
      var s := Play(start, before);
      steps := PlayIsRun(start, before);
      MoveIsRun(s, moves[|moves| - 1]);
      RunOfConcat(start.rec, steps, RecordStep(s, moves[|moves| - 1]));
      steps := steps + RecordStep(s, moves[|moves| - 1]);
    }
  }

  // ---------------------------------------------------------------- acknowledgement rows

  predicate AckStored(r: Record, dispatchId: string) {
    FindResponse(r.responses, r.recipient, ResponseType.ExecutionAcknowledged, AckKey(dispatchId)).Some?
  }

  /** The latest dispatch has not been acknowledged. */
  predicate OpenDispatch(r: Record) {
    r.dispatches != [] && !AckStored(r, r.dispatches[|r.dispatches| - 1].dispatchId)
  }

  lemma AckKeyInjective(a: string, b: string)
    requires AckKey(a) == AckKey(b)
    ensures a == b
  {
    assert AckKey(a)[|ACK_PREFIX|..] == a && AckKey(b)[|ACK_PREFIX|..] == b;
  }

  // ---------------------------------------------------------------- the invariant

  /** Acknowledgements answer dispatches of this work order. */
  ghost predicate AcksAreOurs(r: Record) {
    forall row <- r.responses :: row.packet.responseType.ExecutionAcknowledged? ==>
      exists d <- r.dispatches :: row.packet.idempotencyKey == AckKey(d.dispatchId)
  }

  ghost predicate EarlierAttemptsAcked(r: Record) {
    forall i :: 0 <= i < |r.dispatches| - 1 ==> AckStored(r, r.dispatches[i].dispatchId)
  }

  /** Where a work order can stand while its latest dispatch is open. */
  predicate OpenStatus(status: WorkStatus) {
    status.ExecutionDispatched? || status.Failed? || status.Cancelled? || status.Routed?
  }

  ghost predicate BoundToLatest(r: Record, requests: seq<Request>) {
    && r.dispatches != []
    && CurrentSnapshot(r).boundRunId.Some?
    && IsRunOf(requests, r.dispatches[|r.dispatches| - 1].dispatchId, CurrentSnapshot(r).boundRunId.value)
  }

  ghost predicate Bound(s: System) {
    && AcksAreOurs(s.rec)
    && EarlierAttemptsAcked(s.rec)
    && (OpenDispatch(s.rec) ==> OpenStatus(s.rec.status))
    && (s.rec.status.ExecutionDispatched? ==> OpenDispatch(s.rec))
    && (s.rec.dispatches != [] && !OpenDispatch(s.rec) ==> BoundToLatest(s.rec, s.requests))
  }

  /**
   Acknowledgements come only from refresh workers, and no planning transaction publishes a plan
   while the latest dispatch is open: plan.available is in the ledger, or there is nothing to publish.
   */
  predicate Disciplined(s: System, move: Move) {
    && AckFromWorker(move)
    && (move.Environment? && move.step.Plan? && OpenDispatch(s.rec) ==> !PublishesPlan(s.rec, move.step.write))
  }

  predicate AckFromWorker(move: Move) {
    move.Environment? && move.step.Respond? ==> !move.step.packet.responseType.ExecutionAcknowledged?
  }

  /** No move of the run is an acknowledgement from anybody but a worker. */
  predicate WorkersAcknowledge(moves: seq<Move>) {
    forall m <- moves :: AckFromWorker(m)
  }

  predicate AllDisciplined(start: System, moves: seq<Move>) {
    forall i :: 0 <= i < |moves| ==> Disciplined(Play(start, moves[..i]), moves[i])
  }

  // ---------------------------------------------------------------- record steps

  /** Same dispatch rows up to their mutable columns. */
  ghost predicate SameRows(r: Record, r': Record) {
    |r'.dispatches| == |r.dispatches| && forall i :: 0 <= i < |r.dispatches| ==> SameDispatch(r.dispatches[i], r'.dispatches[i])
  }

  /** Acknowledgement rows and the binding are untouched. */
  ghost predicate AcksUntouched(r: Record, r': Record) {
    && r'.recipient == r.recipient && r.responses <= r'.responses
    && (forall i :: |r.responses| <= i < |r'.responses| ==> !r'.responses[i].packet.responseType.ExecutionAcknowledged?)
    && CurrentSnapshot(r').boundRunId == CurrentSnapshot(r).boundRunId
  }

  lemma AcksPreserved(r: Record, r': Record, id: string)
    requires AcksUntouched(r, r')
    ensures AckStored(r', id) == AckStored(r, id)
  {
    FoundRowMatches(r.responses, r.recipient, ResponseType.ExecutionAcknowledged, AckKey(id));
    FoundRowMatches(r'.responses, r.recipient, ResponseType.ExecutionAcknowledged, AckKey(id));
    assert r'.responses == r.responses + r'.responses[|r.responses|..];
  }

  lemma QuietStepKeepsBound(s: System, rec: Record)
    requires Bound(s) && AcksUntouched(s.rec, rec) && SameRows(s.rec, rec)
    requires rec.status.ExecutionDispatched? ==> s.rec.status.ExecutionDispatched?
    requires OpenStatus(s.rec.status) && OpenDispatch(s.rec) ==> OpenStatus(rec.status)
    ensures Bound(s.(rec := rec))
  {
    forall id ensures AckStored(rec, id) == AckStored(s.rec, id) { AcksPreserved(s.rec, rec, id); }
    forall row <- rec.responses | row.packet.responseType.ExecutionAcknowledged?
      ensures exists d <- rec.dispatches :: row.packet.idempotencyKey == AckKey(d.dispatchId)
    {
      assert row in s.rec.responses;
      var i :| 0 <= i < |s.rec.dispatches| && row.packet.idempotencyKey == AckKey(s.rec.dispatches[i].dispatchId);
      assert rec.dispatches[i] in rec.dispatches;
    }
  }

  lemma ResponseIsQuiet(status: WorkStatus, s: Snapshot, packet: ResponsePacket, actor: string,
                        ds: seq<StoredDecision>, expected: Option<int>, now: int, t: Transition)
    requires ApplyResponse(status, s, packet, actor, ds, expected, now) == Ok(t)
    ensures !t.status.ExecutionDispatched?
    ensures OpenStatus(status) ==> packet.responseType.ExecutionAcknowledged? && status.ExecutionDispatched?
    ensures packet.responseType.ExecutionAcknowledged? ==> status.ExecutionDispatched? && t.status.Executing?
    ensures !packet.responseType.ExecutionAcknowledged? ==> t.snapshot.boundRunId == s.boundRunId
    ensures packet.responseType.ExecutionAcknowledged? && Truthy(packet.executorRunId) ==>
              t.snapshot.boundRunId == packet.executorRunId
  {
    AcceptedResponse(status, s, packet, actor, ds, expected, now, t);
    ResponseMoveIsQuiet(status, s, packet, actor, t);
  }

  lemma ResponseMoveIsQuiet(status: WorkStatus, s: Snapshot, packet: ResponsePacket, actor: string, t: Transition)
    requires ResponseEvent(packet.responseType) == Ok(t.event) && ResponseTarget(status, t.event, packet) == Ok(t.status)
    requires t.snapshot == ResponseSnapshot(status, s, packet, actor)
    ensures !t.status.ExecutionDispatched?
    ensures OpenStatus(status) ==> packet.responseType.ExecutionAcknowledged? && status.ExecutionDispatched?
    ensures packet.responseType.ExecutionAcknowledged? ==> status.ExecutionDispatched? && t.status.Executing?
    ensures !packet.responseType.ExecutionAcknowledged? ==> t.snapshot.boundRunId == s.boundRunId
    ensures packet.responseType.ExecutionAcknowledged? && Truthy(packet.executorRunId) ==>
              t.snapshot.boundRunId == packet.executorRunId
  {
  }

  lemma DecisionIsQuiet(status: WorkStatus, s: Snapshot, event: LifecycleEvent, d: StoredDecision,
                        expected: Option<int>, now: int, t: Transition)
    requires ApplyDecision(status, s, event, d, expected, now) == Ok(t)
    ensures !t.status.ExecutionDispatched?
    ensures OpenStatus(status) ==> t.status.Cancelled?
    ensures t.snapshot.boundRunId == s.boundRunId
  {
  }

  lemma BrokerEventIsQuiet(status: WorkStatus, s: Snapshot, event: LifecycleEvent, actor: string, message: string,
                           ds: seq<StoredDecision>, expected: Option<int>, planId: Option<string>,
                           planSha: Option<string>, now: int, t: Transition)
    requires ApplyBrokerEvent(status, s, event, actor, message, ds, expected, planId, planSha, now) == Ok(t)
    requires StatusFitsPlan(status, s)
    requires PlainBrokerEvent(event) || IsDispatchEvent(event)
    ensures t.status.ExecutionDispatched? <==> IsDispatchEvent(event)
    ensures !OpenStatus(status)
    ensures t.snapshot.boundRunId == s.boundRunId
  {
  }

  /** What the binding argument uses of the record: it is a reachable one. */
  ghost predicate Sound(s: System) {
    Safe(s) && SnapshotTracksLedger(s.rec) && PlanInvariant(s.rec)
    && CurrentSnapshot(s.rec).boundRunId == DropEmpty(CurrentSnapshot(s.rec).boundRunId)
  }

  lemma EnvironmentRespondKeepsBound(s: System, step: Step)
    requires Sound(s) && Bound(s) && step.Respond? && !step.packet.responseType.ExecutionAcknowledged?
    ensures Bound(s.(rec := Apply(s.rec, step)))
  {
    var rec := Apply(s.rec, step);
    RespondShape(s.rec, step);
    if rec != s.rec {
      ResponseIsQuiet(s.rec.status, CurrentSnapshot(s.rec), step.packet, step.actor, Decisions(s.rec.decisions),
                      step.expectedVersion, step.now, RespondTransition(s.rec, step).value);
      AdvancedSnapshot(s.rec, rec, RespondTransition(s.rec, step).value, MessageId(step.packet));
      QuietStepKeepsBound(s, rec);
    }
  }

  lemma EnvironmentDecideKeepsBound(s: System, step: Step)
    requires Sound(s) && Bound(s) && step.Decide?
    ensures Bound(s.(rec := Apply(s.rec, step)))
  {
    var rec := Apply(s.rec, step);
    DecideShape(s.rec, step);
    if rec != s.rec {
      DecisionIsQuiet(s.rec.status, CurrentSnapshot(s.rec), DecisionEvent(step.request.decisionType).value,
                      DecisionOf(s.rec, step.request, step.decisionId, step.now), step.expectedVersion, step.now,
                      DecideTransition(s.rec, step).value);
      AdvancedSnapshot(s.rec, rec, DecideTransition(s.rec, step).value, CurrentSnapshot(s.rec).currentParentId);
      QuietStepKeepsBound(s, rec);
    }
  }

  lemma EnvironmentMessageKeepsBound(s: System, step: Step)
    requires Sound(s) && Bound(s) && step.BrokerMessage?
    ensures Bound(s.(rec := Apply(s.rec, step)))
  {
    var rec := Apply(s.rec, step);
    if rec != s.rec {
      MessageIsQuiet(s.rec, step);
      QuietStepKeepsBound(s, rec);
    }
  }

  lemma MessageIsQuiet(r: Record, step: Step)
    requires StatusFitsPlan(r.status, CurrentSnapshot(r)) && step.BrokerMessage? && Apply(r, step) != r
    requires CurrentSnapshot(r).boundRunId == DropEmpty(CurrentSnapshot(r).boundRunId)
    ensures AcksUntouched(r, Apply(r, step)) && Apply(r, step).dispatches == r.dispatches
    ensures !Apply(r, step).status.ExecutionDispatched? && !OpenStatus(r.status)
  {
    var t := MessageTransition(r, step).value;
    MessageShape(r, step);
    BrokerEventIsQuiet(r.status, CurrentSnapshot(r), step.event, step.actor, step.messageId, Decisions(r.decisions),
                       step.expectedVersion, None, None, step.now, t);
    AdvancedSnapshot(r, Apply(r, step), t, step.messageId);
  }

  lemma IntendOpensLatest(s: System, step: Step)
    requires Sound(s) && Bound(s) && step.Intend? && Apply(s.rec, step) != s.rec
    ensures
      var rec := Apply(s.rec, step);
      && rec.status.ExecutionDispatched? && !OpenDispatch(s.rec)
      && rec.responses == s.rec.responses && rec.recipient == s.rec.recipient
  {
    IntendShape(s.rec, step);
    var q, snapshot := step.intent, CurrentSnapshot(s.rec);
    BrokerEventIsQuiet(s.rec.status, snapshot, q.event, q.actor, step.dispatchId, Decisions(s.rec.decisions),
                       q.expectedVersion, RequestedPlan(q, snapshot), RequestedSha(q, snapshot), step.now,
                       IntendTransition(s.rec, step).value);
  }

  lemma EnvironmentIntendKeepsBound(s: System, step: Step)
    requires Sound(s) && Bound(s) && step.Intend?
    ensures Bound(s.(rec := Apply(s.rec, step)))
  {
    var rec := Apply(s.rec, step);
    if rec != s.rec {
      IntendOpensLatest(s, step);
      IntendAddsRow(s.rec, step);
      NewDispatchIsOpen(s.rec, rec);
    }
  }

  lemma NewDispatchIsOpen(r: Record, r': Record)
    requires NumberedAttempts(r'.dispatches) && AcksAreOurs(r) && EarlierAttemptsAcked(r) && !OpenDispatch(r)
    requires r'.responses == r.responses && r'.recipient == r.recipient
    requires r.dispatches <= r'.dispatches && |r'.dispatches| == |r.dispatches| + 1
    ensures OpenDispatch(r') && EarlierAttemptsAcked(r') && AcksAreOurs(r')
  {
    var last := r'.dispatches[|r.dispatches|];
    FoundRowMatches(r.responses, r.recipient, ResponseType.ExecutionAcknowledged, AckKey(last.dispatchId));
    if AckStored(r', last.dispatchId) {
      var row :| row in r.responses && row.packet.responseType.ExecutionAcknowledged?
                 && row.packet.idempotencyKey == AckKey(last.dispatchId);
      var d :| d in r.dispatches && row.packet.idempotencyKey == AckKey(d.dispatchId);
      AckKeyInjective(d.dispatchId, last.dispatchId);
    }
    forall row <- r'.responses | row.packet.responseType.ExecutionAcknowledged?
      ensures exists d <- r'.dispatches :: row.packet.idempotencyKey == AckKey(d.dispatchId)
    {
      var d :| d in r.dispatches && row.packet.idempotencyKey == AckKey(d.dispatchId);
      assert d in r'.dispatches;
    }
  }

  /** The guard is exact: planning puts a work order to PLAN_READY when it publishes, and only then. */
  lemma PublishingWritesPlanReady(r: Record, write: PlanningWrite)
    requires !r.status.PlanReady?
    ensures ApplyPlanning(r, write).0.status.PlanReady? <==> PublishesPlan(r, write)
  {
  }

  lemma EnvironmentPlanKeepsBound(s: System, write: PlanningWrite)
    requires Sound(s) && Bound(s)
    requires OpenDispatch(s.rec) ==> !PublishesPlan(s.rec, write)
    ensures Bound(s.(rec := ApplyPlanning(s.rec, write).0))
  {
    PlanningLeavesKernel(s.rec, write);
    if !s.rec.status.PlanReady? {
      PublishingWritesPlanReady(s.rec, write);
    }
    QuietStepKeepsBound(s, ApplyPlanning(s.rec, write).0);
  }

  lemma RowWriteKeepsBound(s: System, step: Step)
    requires Sound(s) && Bound(s) && IsDispatchWrite(step)
    ensures Bound(s.(rec := Apply(s.rec, step)))
  {
    DispatchWriteKeepsRows(s.rec, step);
    DispatchWritesOnlyDispatches(s.rec, step);
    QuietStepKeepsBound(s, Apply(s.rec, step));
  }

  lemma EnvironmentKeepsBound(s: System, step: Step)
    requires Sound(s) && Bound(s) && IsEnvironment(step) && Disciplined(s, Environment(step))
    ensures Bound(s.(rec := Apply(s.rec, step)))
  {
    match step
    case Respond(_, _, _, _, _) => EnvironmentRespondKeepsBound(s, step);
    case Decide(_, _, _, _, _) => EnvironmentDecideKeepsBound(s, step);
    case BrokerMessage(_, _, _, _, _) => EnvironmentMessageKeepsBound(s, step);
    case Intend(_, _, _, _) => EnvironmentIntendKeepsBound(s, step);
    case Plan(write) => EnvironmentPlanKeepsBound(s, write);
    case Remember(_, _) => RowWriteKeepsBound(s, step);
  }

  // ---------------------------------------------------------------- the acknowledgement

  /** A stored acknowledgement is for a dispatch without one; while the rest are acked, that is the latest. */
  lemma AckedDispatchIsLatest(s: System, c: Dispatch)
    requires Sound(s) && Bound(s) && CopyOk(s.rec.dispatches, s.requests, c)
    requires !AckStored(s.rec, c.dispatchId)
    ensures s.rec.dispatches != [] && s.rec.dispatches[|s.rec.dispatches| - 1].dispatchId == c.dispatchId
  {
    var i :| 0 <= i < |s.rec.dispatches| && SameDispatch(s.rec.dispatches[i], c);
    assert forall k :: 0 <= k < |s.rec.dispatches| - 1 ==> s.rec.dispatches[k].dispatchId != c.dispatchId;
  }

  /** What storing a worker's acknowledgement does to the record. */
  lemma AckShape(s: System, c: Dispatch, packet: ResponsePacket, clash: bool, now: int)
    requires Sound(s) && IsAckFor(packet, c) && CopyOk(s.rec.dispatches, s.requests, c)
    requires SubmitResponse(s.rec, packet, s.rec.recipient, None, clash, now).1.Stored?
    ensures
      var rec := SubmitResponse(s.rec, packet, s.rec.recipient, None, clash, now).0;
      && s.rec.status.ExecutionDispatched? && rec.status.Executing?
      && !AckStored(s.rec, c.dispatchId)
      && CurrentSnapshot(rec).boundRunId == c.providerRunId
      && rec.dispatches == s.rec.dispatches && rec.recipient == s.rec.recipient
      && |rec.responses| == |s.rec.responses| + 1 && s.rec.responses <= rec.responses
      && rec.responses[|s.rec.responses|].packet == packet
      && rec.responses[|s.rec.responses|].actor == s.rec.recipient
  {
    var step := Respond(packet, s.rec.recipient, None, clash, now);
    var rec := SubmitResponse(s.rec, packet, s.rec.recipient, None, clash, now).0;
    SubmitStoresOrNothing(s.rec, packet, s.rec.recipient, None, clash, now);
    RespondShape(s.rec, step);
    var t := RespondTransition(s.rec, step).value;
    ResponseIsQuiet(s.rec.status, CurrentSnapshot(s.rec), packet, s.rec.recipient, Decisions(s.rec.decisions), None, now, t);
    AdvancedSnapshot(s.rec, rec, t, MessageId(packet));
  }

  lemma AckKeepsBound(s: System, c: Dispatch, packet: ResponsePacket, clash: bool, now: int)
    requires Sound(s) && Bound(s) && IsAckFor(packet, c) && CopyOk(s.rec.dispatches, s.requests, c)
    ensures Bound(s.(rec := SubmitResponse(s.rec, packet, s.rec.recipient, None, clash, now).0))
  {
    var (rec, outcome) := SubmitResponse(s.rec, packet, s.rec.recipient, None, clash, now);
    SubmitStoresOrNothing(s.rec, packet, s.rec.recipient, None, clash, now);
    if outcome.Stored? {
      AckShape(s, c, packet, clash, now);
      AckedDispatchIsLatest(s, c);
      StoredAckClosesLatest(s, rec, c, packet);
    }
  }

  lemma StoredAckClosesLatest(s: System, rec: Record, c: Dispatch, packet: ResponsePacket)
    requires Sound(s) && Bound(s) && IsAckFor(packet, c) && CopyOk(s.rec.dispatches, s.requests, c)
    requires rec.dispatches == s.rec.dispatches && rec.recipient == s.rec.recipient && rec.status.Executing?
    requires |rec.responses| == |s.rec.responses| + 1 && s.rec.responses <= rec.responses
    requires rec.responses[|s.rec.responses|].packet == packet && rec.responses[|s.rec.responses|].actor == rec.recipient
    requires CurrentSnapshot(rec).boundRunId == c.providerRunId
    requires rec.dispatches != [] && rec.dispatches[|rec.dispatches| - 1].dispatchId == c.dispatchId
    ensures Bound(s.(rec := rec))
  {
    var row := rec.responses[|s.rec.responses|];
    FoundRowMatches(rec.responses, rec.recipient, ResponseType.ExecutionAcknowledged, AckKey(c.dispatchId));
    assert row in rec.responses;
    forall i | 0 <= i < |rec.dispatches| - 1 ensures AckStored(rec, rec.dispatches[i].dispatchId) {
      FoundResponseStays(s.rec.responses, rec.responses, rec.recipient, ResponseType.ExecutionAcknowledged,
                         AckKey(rec.dispatches[i].dispatchId));
    }
    forall x <- rec.responses | x.packet.responseType.ExecutionAcknowledged?
      ensures exists d <- rec.dispatches :: x.packet.idempotencyKey == AckKey(d.dispatchId)
    {
      if x in s.rec.responses {
      } else {
        assert x == row;
        assert rec.dispatches[|rec.dispatches| - 1] in rec.dispatches;
      }
    }
  }

  // ---------------------------------------------------------------- moves

  lemma LaterRequestsKeepBound(s: System, requests: seq<Request>)
    requires Bound(s)
    requires forall id, run :: IsRunOf(s.requests, id, run) ==> IsRunOf(requests, id, run)
    ensures Bound(s.(requests := requests))
  {
  }

  lemma ProviderKeepsRuns(requests: seq<Request>, i: nat, newRun: string, id: string, run: string)
    requires IsRunOf(requests, id, run)
    ensures IsRunOf(ProviderStep(requests, i, newRun), id, run)
  {
    var requests' := ProviderStep(requests, i, newRun);
    var k :| 0 <= k < |requests| && requests[k].dispatchId == id && requests[k].run == Some(run);
    assert requests'[k] == requests[k] && requests'[k] in requests';
  }

  lemma SendShape(s: System, w: nat, c: Dispatch, packet: ResponsePacket, clash: bool, now: int)
    ensures
      var s' := AfterSend(s, w, c, packet, clash, now);
      && s'.rec == SubmitResponse(s.rec, packet, s.rec.recipient, None, clash, now).0
      && s'.requests == s.requests
  {
  }

  lemma SameRecordSameBound(s: System, s': System)
    requires s'.rec == s.rec && s'.requests == s.requests
    ensures Bound(s') == Bound(s)
  {
  }

  lemma SendKeepsBound(s: System, w: nat, c: Dispatch, packet: ResponsePacket, clash: bool, now: int)
    requires Sound(s) && Bound(s) && w in s.workers && s.workers[w] == Sending(c, packet)
    ensures Bound(AfterSend(s, w, c, packet, clash, now))
  {
    assert WorkerOk(s.rec.dispatches, s.requests, s.workers[w]);
    SendShape(s, w, c, packet, clash, now);
    AckKeepsBound(s, c, packet, clash, now);
    var s' := AfterSend(s, w, c, packet, clash, now);
    SameRecordSameBound(s.(rec := s'.rec), s');
  }

  lemma ClaimKeepsBound(s: System, w: nat, owner: string, id: string, now: int)
    requires Sound(s) && Bound(s)
    ensures Bound(AfterClaim(s, w, owner, id, now))
  {
    var s' := AfterClaim(s, w, owner, id, now);
    if s'.rec == s.rec {
      SameRecordSameBound(s, s');
    } else {
      assert s'.rec == Apply(s.rec, Claim(id, owner, now));
      RowWriteKeepsBound(s, Claim(id, owner, now));
      SameRecordSameBound(s.(rec := s'.rec), s');
    }
  }

  lemma WriteKeepsBound(s: System, s': System, step: Step)
    requires Sound(s) && Bound(s) && IsDispatchWrite(step)
    requires s'.rec == Apply(s.rec, step) && s'.requests == s.requests
    ensures Bound(s')
  {
    RowWriteKeepsBound(s, step);
    SameRecordSameBound(s.(rec := s'.rec), s');
  }

  lemma ClaimMoveKeepsBound(s: System, move: Move, worker: Worker)
    requires Sound(s) && Bound(s) && move.ClaimRow? && worker == At(s, move.w)
    ensures Bound(WorkerMove(s, move, worker))
  {
    if worker.Claiming? {
      ClaimKeepsBound(s, move.w, worker.owner, worker.dispatchId, move.now);
    }
  }

  lemma SendMoveKeepsBound(s: System, move: Move, worker: Worker)
    requires Sound(s) && Bound(s) && move.Send? && worker == At(s, move.w)
    ensures Bound(WorkerMove(s, move, worker))
  {
    if worker.Sending? {
      SendKeepsBound(s, move.w, worker.claimed, worker.packet, move.clash, move.now);
    }
  }

  /** What a row write by a worker that is ready for it does to the system. */
  lemma WriteMoveShape(s: System, move: Move, worker: Worker)
    requires move.Persist? || move.Finish? || move.Reconciled?
    ensures WorkerMove(s, move, worker).requests == s.requests
    ensures move.Persist? && worker.HoldingRun? ==>
              WorkerMove(s, move, worker).rec == Apply(s.rec, PersistRun(worker.claimed, worker.agentId, worker.runId))
    ensures move.Finish? && worker.Settling? ==>
              WorkerMove(s, move, worker).rec == Apply(s.rec, Settle(worker.claimed, worker.receipt))
    ensures move.Reconciled? && worker.Reconciling? ==>
              WorkerMove(s, move, worker).rec == Apply(s.rec, Reconcile(worker.claimed, "RECONCILIATION_REQUIRED"))
    ensures
      || (move.Persist? && worker.HoldingRun?)
      || (move.Finish? && worker.Settling?)
      || (move.Reconciled? && worker.Reconciling?)
      || WorkerMove(s, move, worker) == s
  {
    match move
    case Persist(w) => if worker.HoldingRun? { PersistShape(s, w, worker); }
    case Finish(w) => if worker.Settling? { FinishShape(s, w, worker); }
    case Reconciled(w) => if worker.Reconciling? { ReconciledShape(s, w, worker); }
  }

  lemma PersistShape(s: System, w: nat, worker: Worker)
    requires worker.HoldingRun?
    ensures
      var s' := WorkerMove(s, Persist(w), worker);
      s'.requests == s.requests && s'.rec == Apply(s.rec, PersistRun(worker.claimed, worker.agentId, worker.runId))
  {
  }

  lemma FinishShape(s: System, w: nat, worker: Worker)
    requires worker.Settling?
    ensures
      var s' := WorkerMove(s, Finish(w), worker);
      s'.requests == s.requests && s'.rec == Apply(s.rec, Settle(worker.claimed, worker.receipt))
  {
  }

  lemma ReconciledShape(s: System, w: nat, worker: Worker)
    requires worker.Reconciling?
    ensures
      var s' := WorkerMove(s, Reconciled(w), worker);
      s'.requests == s.requests && s'.rec == Apply(s.rec, Reconcile(worker.claimed, "RECONCILIATION_REQUIRED"))
  {
  }

  lemma WriteMoveKeepsBound(s: System, move: Move, worker: Worker)
    requires Sound(s) && Bound(s) && (move.Persist? || move.Finish? || move.Reconciled?)
    ensures Bound(WorkerMove(s, move, worker))
  {
    WriteMoveShape(s, move, worker);
    if move.Persist? && worker.HoldingRun? {
      WriteKeepsBound(s, WorkerMove(s, move, worker), PersistRun(worker.claimed, worker.agentId, worker.runId));
    } else if move.Finish? && worker.Settling? {
      WriteKeepsBound(s, WorkerMove(s, move, worker), Settle(worker.claimed, worker.receipt));
    } else if move.Reconciled? && worker.Reconciling? {
      WriteKeepsBound(s, WorkerMove(s, move, worker), Reconcile(worker.claimed, "RECONCILIATION_REQUIRED"));
    }
  }

  lemma WorkerMoveKeepsBound(s: System, move: Move)
    requires Sound(s) && Bound(s)
    requires move.ClaimRow? || move.Send? || move.Persist? || move.Finish? || move.Reconciled?
    ensures Bound(WorkerMove(s, move, At(s, move.w)))
  {
    if move.ClaimRow? {
      ClaimMoveKeepsBound(s, move, At(s, move.w));
    } else if move.Send? {
      SendMoveKeepsBound(s, move, At(s, move.w));
    } else {
      WriteMoveKeepsBound(s, move, At(s, move.w));
    }
  }

  lemma ChooseKeepsBound(s: System, move: Move)
    requires Bound(s) && move.Choose?
    ensures Bound(Advance(s, move))
  {
    var s' := Advance(s, move);
    forall id, run | IsRunOf(s.requests, id, run) ensures IsRunOf(s'.requests, id, run) {
      var q :| q in s.requests && q.dispatchId == id && q.run == Some(run);
      assert q in s'.requests;
    }
    LaterRequestsKeepBound(s, s'.requests);
    assert Bound(s.(requests := s'.requests));
  }

  lemma AdvanceKeepsBound(s: System, move: Move)
    requires Sound(s) && Bound(s) && Disciplined(s, move)
    ensures Bound(Advance(s, move))
  {
    if move.Environment? {
      if IsEnvironment(move.step) { EnvironmentKeepsBound(s, move.step); }
    } else if move.ProviderAccepts? {
      forall id, run | IsRunOf(s.requests, id, run)
        ensures IsRunOf(ProviderStep(s.requests, move.request, move.runId), id, run)
      {
        ProviderKeepsRuns(s.requests, move.request, move.runId, id, run);
      }
      LaterRequestsKeepBound(s, ProviderStep(s.requests, move.request, move.runId));
    } else if move.Choose? {
      ChooseKeepsBound(s, move);
    } else if move.ClaimRow? || move.Send? || move.Persist? || move.Finish? || move.Reconciled? {
      WorkerMoveKeepsBound(s, move);
    } else {
      var s' := Advance(s, move);
      assert s'.rec == s.rec && s'.requests == s.requests;
    }
  }

  // ---------------------------------------------------------------- over all interleavings

  lemma SoundAlways(start: System, moves: seq<Move>)
    requires Quiet(start)
    ensures Sound(Play(start, moves)) && RecordOnTrack(Play(start, moves).rec)
  {
    SafeAlways(start, moves);
    var steps := PlayIsRun(start, moves);
    PlanInvariantOverRuns(start.rec, steps);
    TrackOverRuns(start.rec, steps);
  }

  lemma {:induction false} BoundAlways(start: System, moves: seq<Move>)
    requires Quiet(start) && AllDisciplined(start, moves)
    ensures Bound(Play(start, moves))
  {
    if moves != [] {
      var before := moves[..|moves| - 1];
      forall i | 0 <= i < |before| ensures Disciplined(Play(start, before[..i]), before[i]) {
        assert before[..i] == moves[..i];
      }
      BoundAlways(start, before);
      SoundAlways(start, before);
      AdvanceKeepsBound(Play(start, before), moves[|moves| - 1]);
    }
  }

  lemma {:induction false} CountedOnce(trace: seq<LifecycleEvent>, e: LifecycleEvent, kinds: set<LifecycleEvent>)
    requires e in trace && e in kinds
    ensures Count(trace, kinds) >= 1
  {
    if trace[|trace| - 1] != e {
      CountedOnce(trace[..|trace| - 1], e, kinds);
    }
  }

  /**
   Main result. In every disciplined interleaving the dispatch attempts are exactly 1..n, n the
   number of plan.execute and implementation.refine entries, and while EXECUTING the bound run is
   a run the provider started for attempt n, even if delayed workers of earlier attempts resume.
   */
  lemma ExecutingIsBoundToLatestAttempt(start: System, moves: seq<Move>)
    requires Quiet(start) && AllDisciplined(start, moves)
    requires Play(start, moves).rec.status.Executing?
    ensures
      var s := Play(start, moves);
      var n := Count(Events(s.rec.ledger), DISPATCH_EVENTS);
      && n == |s.rec.dispatches| && n >= 1
      && (forall i :: 0 <= i < n ==> s.rec.dispatches[i].attempt == i + 1)
      && BoundToLatest(s.rec, s.requests)
  {
    BoundAlways(start, moves);
    SoundAlways(start, moves);
    var trace := Events(Play(start, moves).rec.ledger);
    var e :| e in trace && IsDispatchEvent(e);
    CountedOnce(trace, e, DISPATCH_EVENTS);
  }

  lemma StoredAckBindsOwnRun(s: System, w: nat, c: Dispatch, packet: ResponsePacket, clash: bool, now: int)
    requires Sound(s) && w in s.workers && s.workers[w] == Sending(c, packet)
    requires SubmitResponse(s.rec, packet, s.rec.recipient, None, clash, now).1.Stored?
    ensures
      var rec := AfterSend(s, w, c, packet, clash, now).rec;
      && rec.status.Executing? && rec.dispatches == s.rec.dispatches && rec.dispatches != []
      && CurrentSnapshot(rec).boundRunId == c.providerRunId && c.providerRunId.Some?
      && CopyOk(s.rec.dispatches, s.requests, c)
  {
    assert WorkerOk(s.rec.dispatches, s.requests, s.workers[w]);
    SendShape(s, w, c, packet, clash, now);
    AckShape(s, c, packet, clash, now);
  }

  lemma StoredAckBindsLatest(s: System, w: nat, c: Dispatch, packet: ResponsePacket, clash: bool, now: int)
    requires Sound(s) && w in s.workers && s.workers[w] == Sending(c, packet)
    requires SubmitResponse(s.rec, packet, s.rec.recipient, None, clash, now).1.Stored?
    ensures
      var rec := AfterSend(s, w, c, packet, clash, now).rec;
      && rec.status.Executing? && rec.dispatches != []
      && (BoundToLatest(rec, s.requests) <==> c.dispatchId == rec.dispatches[|rec.dispatches| - 1].dispatchId)
  {
    StoredAckBindsOwnRun(s, w, c, packet, clash, now);
    LatestRunIff(s, c);
  }

  /**
   Without the discipline this can fail, and exactly one guard decides it: an acknowledgement
   that is stored binds the run of the latest attempt if and only if its worker holds that attempt.
   */
  lemma StoredAckBindsLatestIff(start: System, moves: seq<Move>, s: System, w: nat, clash: bool, now: int)
    requires Quiet(start) && s == Play(start, moves)
    requires w in s.workers && s.workers[w].Sending?
    requires SubmitResponse(s.rec, s.workers[w].packet, s.rec.recipient, None, clash, now).1.Stored?
    ensures
      var c := s.workers[w].claimed;
      var rec := AfterSend(s, w, c, s.workers[w].packet, clash, now).rec;
      && rec.status.Executing? && rec.dispatches != []
      && (BoundToLatest(rec, s.requests) <==> c.dispatchId == rec.dispatches[|rec.dispatches| - 1].dispatchId)
  {
    SoundAlways(start, moves);
    StoredAckBindsLatest(s, w, s.workers[w].claimed, s.workers[w].packet, clash, now);
  }

  /** A recorded run belongs to the latest dispatch exactly when its row is the latest. */
  lemma LatestRunIff(s: System, c: Dispatch)
    requires Safe(s) && CopyOk(s.rec.dispatches, s.requests, c) && c.providerRunId.Some?
    ensures s.rec.dispatches != []
    ensures IsRunOf(s.requests, s.rec.dispatches[|s.rec.dispatches| - 1].dispatchId, c.providerRunId.value) <==>
            c.dispatchId == s.rec.dispatches[|s.rec.dispatches| - 1].dispatchId
  {
    var last := s.rec.dispatches[|s.rec.dispatches| - 1].dispatchId;
    var run := c.providerRunId.value;
    if IsRunOf(s.requests, last, run) {
      var i :| 0 <= i < |s.requests| && s.requests[i].dispatchId == last && s.requests[i].run == Some(run);
      var j :| 0 <= j < |s.requests| && s.requests[j].dispatchId == c.dispatchId && s.requests[j].run == Some(run);
    }
  }
}
