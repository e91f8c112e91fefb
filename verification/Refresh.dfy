/**
 One uninterrupted refresh of a dispatched work order (_advance_execution_dispatch in
 src/awr/service.py) against a provider that keys its runs (src/awr/executors/recording_cursor.py).
 */
module Refresh {
  import opened Wrappers
  import opened Packets
  import opened Lifecycle
  import opened Broker
  import opened Runs
  import opened Chain
  import opened Dispatches
  import opened Outbox
  import opened OutboxBinding

  // ---------------------------------------------------------------- the provider

  datatype ProviderAck = ProviderAck(agentId: string, runId: string)

  /** What the executor remembers: the run each key led to, and the dispatches it acted on. */
  datatype Provider = Provider(
    runs: map<ProviderKey, ProviderAck>,
    accepted: seq<Dispatch>,
    failSubmit: bool,
    forceAmbiguous: bool)

  datatype Submission = RunTaken(ack: ProviderAck) | TimedOut | Ambiguous

  /** The run id never is empty, whatever the key prints as. */
  function RunNamed(d: Dispatch, keyText: string): (ack: ProviderAck)
    ensures ack.runId != "" && ack.agentId != ""
  {
    ProviderAck(Or(d.existingAgentId, "cursor-exec-" + keyText), "cursor-xrun-" + keyText)
  }

  function SubmitForExecution(p: Provider, d: Dispatch, keyText: string): (Provider, Submission) {
    if p.failSubmit then (p, TimedOut)
    else if p.forceAmbiguous then (p, Ambiguous)
    else if d.providerKey in p.runs then (p, RunTaken(p.runs[d.providerKey]))
    else
      var ack := RunNamed(d, keyText);
      (p.(runs := p.runs[d.providerKey := ack], accepted := p.accepted + [d]), RunTaken(ack))
  }

  function RecoverSubmission(p: Provider, d: Dispatch): Option<ProviderAck> {
    if d.providerKey in p.runs then Some(p.runs[d.providerKey]) else None
  }

  /** One remembered run per accepted dispatch, under its key. */
  ghost predicate Keyed(p: Provider) {
    && (forall k <- p.runs :: p.runs[k].runId != "" && exists d <- p.accepted :: d.providerKey == k)
    && (forall d <- p.accepted :: d.providerKey in p.runs)
    && (forall i, j :: 0 <= i < j < |p.accepted| ==> p.accepted[i].providerKey != p.accepted[j].providerKey)
  }

  /** A key never starts a second run, however often it is submitted, and never loses the first. */
  lemma SubmissionIsKeyed(p: Provider, d: Dispatch, keyText: string)
    requires Keyed(p)
    ensures
      var (p', answer) := SubmitForExecution(p, d, keyText);
      && Keyed(p')
      && (forall k <- p.runs :: k in p'.runs && p'.runs[k] == p.runs[k])
      && (answer.RunTaken? ==> RecoverSubmission(p', d) == Some(answer.ack))
      && |p'.accepted| <= |p.accepted| + if d.providerKey in p.runs then 0 else 1
  {
    var (p', answer) := SubmitForExecution(p, d, keyText);
    if p' != p {
      assert d in p'.accepted;
      forall k <- p'.runs ensures exists e <- p'.accepted :: e.providerKey == k {
        if k in p.runs {
          var e :| e in p.accepted && e.providerKey == k;
          assert e in p'.accepted;
        }
      }
    }
  }

  // ---------------------------------------------------------------- the refresh

  datatype RefreshOutcome =
    | Acknowledgement(outcome: Outcome)
    | Duplicate(receipt: Receipt)
    | NeedsReconciliation
    | UnknownDispatch

  /** The try block: a recovery for a follow-up that was sent before, a submission otherwise. */
  function ObtainRun(p: Provider, claimed: Dispatch, keyText: string): (Provider, Option<ProviderAck>) {
    if claimed.state.ReconciliationRequired? || FollowUpRetry(claimed) then (p, RecoverSubmission(p, claimed))
    else
      var (p', answer) := SubmitForExecution(p, claimed, keyText);
      match answer
      case RunTaken(ack) => (p', Some(ack))
      case TimedOut => (p', RecoverSubmission(p', claimed))
      case Ambiguous => (p', None)
  }

  /** What the broker puts into the acknowledgement besides the dispatch, and the clock of its submission. */
  datatype AckInput = AckInput(executor: string, digest: string, createdAt: string, clash: bool, now: int)

  /** _persist_execution_ack */
  function PersistAck(r: Record, claimed: Dispatch, ack: AckInput): (Record, RefreshOutcome) {
    var packet := AckPacket(r, claimed, ack.executor, ack.digest, ack.createdAt);
    var (submitted, outcome) := SubmitResponse(r, packet, r.recipient, None, ack.clash, ack.now);
    match outcome
    case Refused(_) => (submitted, Acknowledgement(outcome))
    case Stored(receipt) => (MarkAcknowledged(submitted, claimed, receipt), Acknowledgement(outcome))
    case Replayed(receipt) => (MarkAcknowledged(submitted, claimed, receipt), Acknowledgement(outcome))
  }

  /** _advance_execution_dispatch */
  function AdvanceDispatch(
    r: Record, p: Provider, dispatchId: string, owner: string, now: int, keyText: string, ack: AckInput)
    : (Record, Provider, RefreshOutcome)
  {
    match FindDispatch(r.dispatches, dispatchId)
    case None => (r, p, UnknownDispatch)
    case Some(current) =>
      if current.state.Acknowledged? then (r, p, Duplicate(current.receipt))
      else
        var (r1, claim) := ClaimLease(r, dispatchId, owner, now);
        if claim.None? then (r1, p, Duplicate(current.receipt))
        else if claim.value.state.Acknowledged? then (r1, p, Duplicate(claim.value.receipt))
        else if Truthy(claim.value.providerRunId) then
          var (r2, outcome) := PersistAck(r1, claim.value, ack);
          (r2, p, outcome)
        else AfterAttempt(r1, p, claim.value, keyText, ack)
  }

  function AfterAttempt(r: Record, p: Provider, claimed: Dispatch, keyText: string, ack: AckInput)
    : (Record, Provider, RefreshOutcome)
  {
    var (p', obtained) := ObtainRun(p, claimed, keyText);
    match obtained
    case None => (MarkReconciliation(r, claimed, "RECONCILIATION_REQUIRED"), p', NeedsReconciliation)
    case Some(run) =>
      var (r1, accepted) := PersistAcceptance(r, claimed, run.agentId, run.runId);
      var (r2, outcome) := PersistAck(r1, accepted, ack);
      (r2, p', outcome)
  }

  // ---------------------------------------------------------------- when it reaches EXECUTING

  predicate Claimable(d: Dispatch, owner: string, now: int) {
    !Settled(d.state) && !LeasedElsewhere(d, owner, now)
  }

  /** The refresh can learn of a run: it is recorded, or recovery finds it, or the provider takes a submission. */
  predicate RunObtainable(d: Dispatch, p: Provider) {
    if Truthy(d.providerRunId) then true
    else if Truthy(d.existingAgentId) && d.attemptCount > 0 then d.providerKey in p.runs
    else if p.failSubmit then d.providerKey in p.runs
    else !p.forceAmbiguous
  }

  predicate ApprovalLive(r: Record, now: int) {
    var s := CurrentSnapshot(r);
    MatchingPlanApproval(Decisions(r.decisions), Or(s.planId, ""), Or(s.planSha256, ""), now).Ok?
  }

  /** No row holds the acknowledgement's key or its digest yet. */
  predicate AckUnused(r: Record, dispatchId: string, ack: AckInput) {
    && ack.digest != "" && !ack.clash
    && FindResponse(r.responses, r.recipient, ResponseType.ExecutionAcknowledged, AckKey(dispatchId)).None?
    && forall row <- r.responses :: row.packetId != ack.digest
  }

  /** The record differs only in its dispatch rows, which the acknowledgement does not look at. */
  predicate SameButRows(r: Record, r': Record) {
    r' == r.(dispatches := r'.dispatches)
  }

  lemma AckIsStoredIff(r: Record, claimed: Dispatch, ack: AckInput)
    requires SnapshotTracksLedger(r) && r.status.ExecutionDispatched? && r.recipient != ""
    ensures
      var packet := AckPacket(r, claimed, ack.executor, ack.digest, ack.createdAt);
      var (r', outcome) := SubmitResponse(r, packet, r.recipient, None, ack.clash, ack.now);
      && (outcome.Stored? <==> ApprovalLive(r, ack.now) && AckUnused(r, claimed.dispatchId, ack))
      && (outcome.Stored? ==> r'.status.Executing? && r'.dispatches == r.dispatches)
      && (!outcome.Stored? ==> r' == r)
  {
    var packet, s := AckPacket(r, claimed, ack.executor, ack.digest, ack.createdAt), CurrentSnapshot(r);
    AckAcceptedIff(s, packet, r.recipient, Decisions(r.decisions), ack.now);
    SubmitStoresIff(r, packet, r.recipient, ack.clash, ack.now);
  }

  /** In EXECUTION_DISPATCHED a well-addressed acknowledgement needs nothing but a live approval. */
  lemma AckAcceptedIff(s: Snapshot, packet: ResponsePacket, actor: string, ds: seq<StoredDecision>, now: int)
    requires packet.responseType.ExecutionAcknowledged? && packet.actor.None? && KnownActor(actor, s)
    requires packet.workOrderId == s.workOrderId && packet.inReplyTo == s.currentParentId
    requires packet.sourceInputSha256 == s.sourceInputSha256
    ensures
      var t := ApplyResponse(ExecutionDispatched, s, packet, actor, ds, None, now);
      && (t.Ok? <==> MatchingPlanApproval(ds, Or(s.planId, ""), Or(s.planSha256, ""), now).Ok?)
      && (t.Ok? ==> t.value.status.Executing?)
  {
  }

  /** A response is stored exactly when it is new, fits the table and the kernel accepts it. */
  lemma SubmitStoresIff(r: Record, packet: ResponsePacket, actor: string, clash: bool, now: int)
    requires packet.authority == REPORT_ONLY && packet.workOrderId == r.workOrderId
    ensures
      var (r', outcome) := SubmitResponse(r, packet, actor, None, clash, now);
      var t := ApplyResponse(r.status, CurrentSnapshot(r), packet, actor, Decisions(r.decisions), None, now);
      && (outcome.Stored? <==>
            && Truthy(packet.contentSha256) && !clash && t.Ok?
            && FindResponse(r.responses, actor, packet.responseType, packet.idempotencyKey).None?
            && forall row <- r.responses :: row.packetId != MessageId(packet))
      && (outcome.Stored? ==> r'.status == t.value.status && r'.dispatches == r.dispatches)
      && (!outcome.Stored? ==> r' == r)
  {
  }

  lemma AckBinds(r: Record, claimed: Dispatch, ack: AckInput)
    requires Truthy(claimed.providerRunId)
    ensures
      var packet := AckPacket(r, claimed, ack.executor, ack.digest, ack.createdAt);
      var (r', outcome) := SubmitResponse(r, packet, r.recipient, None, ack.clash, ack.now);
      outcome.Stored? ==> CurrentSnapshot(r').boundRunId == claimed.providerRunId
  {
    var packet := AckPacket(r, claimed, ack.executor, ack.digest, ack.createdAt);
    var step := Respond(packet, r.recipient, None, ack.clash, ack.now);
    var (r', outcome) := SubmitResponse(r, packet, r.recipient, None, ack.clash, ack.now);
    if outcome.Stored? {
      RespondShape(r, step);
      SubmitStoresOrNothing(r, packet, r.recipient, None, ack.clash, ack.now);
      AdvancedSnapshot(r, r', RespondTransition(r, step).value, MessageId(packet));
    }
  }

  // ---------------------------------------------------------------- the two outcomes

  ghost predicate AtRow(r: Record, i: nat, d: Dispatch) {
    i < |r.dispatches| && r.dispatches[i] == d && NumberedAttempts(r.dispatches)
  }

  lemma RowIsFound(r: Record, i: nat, d: Dispatch)
    requires AtRow(r, i, d)
    ensures FindDispatch(r.dispatches, d.dispatchId) == Some(d)
  {
    FoundDispatch(r.dispatches, d.dispatchId);
  }

  /** Writing a row's new image puts it at its place and leaves the rest of the record alone. */
  lemma RowIsWritten(r: Record, i: nat, d: Dispatch, d': Dispatch)
    requires AtRow(r, i, d) && d'.dispatchId == d.dispatchId && d'.attempt == d.attempt
    requires d'.providerKey == d.providerKey && d'.existingAgentId == d.existingAgentId && !d'.state.Abandoned?
    ensures AtRow(r.(dispatches := WithDispatch(r.dispatches, d')), i, d')
  {
  }

  predicate Bindable(r: Record) {
    r.status.ExecutionDispatched? && r.recipient != ""
  }

  /** Acknowledging a row that holds a run: stored exactly when the approval lives and the key is unused. */
  lemma PersistAckOutcome(r: Record, i: nat, c: Dispatch, ack: AckInput)
    requires SnapshotTracksLedger(r) && Bindable(r) && AtRow(r, i, c) && Truthy(c.providerRunId)
    ensures
      var (r', outcome) := PersistAck(r, c, ack);
      if ApprovalLive(r, ack.now) && AckUnused(r, c.dispatchId, ack) then
        && r'.status.Executing?
        && CurrentSnapshot(r').boundRunId == c.providerRunId
        && i < |r'.dispatches| && r'.dispatches[i].state.Acknowledged? && r'.dispatches[i].providerRunId == c.providerRunId
        && r'.dispatches[i].providerAgentId == c.providerAgentId
      else
        r'.status.ExecutionDispatched?
  {
    AckIsStoredIff(r, c, ack);
    AckBinds(r, c, ack);
    RowIsFound(r, i, c);
  }

  lemma RowWritesKeepTracking(r: Record, r': Record, id: string, ack: AckInput)
    requires SameButRows(r, r') && SnapshotTracksLedger(r) && Bindable(r)
    ensures SnapshotTracksLedger(r') && Bindable(r')
    ensures ApprovalLive(r', ack.now) == ApprovalLive(r, ack.now)
    ensures AckUnused(r', id, ack) == AckUnused(r, id, ack)
  {
  }

  /** What the work order has become when the acknowledgement of row `i` went through, or did not. */
  predicate Reached(r': Record, i: nat, agent: Option<string>, run: Option<string>, executing: bool) {
    if executing then
      && r'.status.Executing? && CurrentSnapshot(r').boundRunId == run && Truthy(run)
      && i < |r'.dispatches| && r'.dispatches[i].state.Acknowledged?
      && r'.dispatches[i].providerAgentId == agent && r'.dispatches[i].providerRunId == run
    else
      r'.status.ExecutionDispatched?
  }

  /** The provider leaves no run behind that it cannot name. */
  ghost predicate Names(p: Provider) {
    forall k <- p.runs :: p.runs[k].runId != ""
  }

  lemma ObtainedIff(p: Provider, c: Dispatch, keyText: string)
    requires Names(p) && c.state.Leased? && c.attemptCount > 0 && !Truthy(c.providerRunId)
    ensures
      var (p', obtained) := ObtainRun(p, c, keyText);
      && (obtained.Some? <==> RunObtainable(c.(attemptCount := c.attemptCount - 1), p))
      && (obtained.Some? ==> obtained.value.runId != "" && RecoverSubmission(p', c) == obtained)
      && (obtained.None? ==> p' == p)
      && (FollowUpRetry(c) ==> p' == p)
  {
  }

  lemma AttemptOutcome(r: Record, p: Provider, i: nat, c: Dispatch, keyText: string, ack: AckInput)
    requires SnapshotTracksLedger(r) && Bindable(r) && AtRow(r, i, c) && Names(p)
    requires c.state.Leased? && c.attemptCount > 0 && !Truthy(c.providerRunId)
    ensures
      var (r', p', outcome) := AfterAttempt(r, p, c, keyText, ack);
      var obtainable := RunObtainable(c.(attemptCount := c.attemptCount - 1), p);
      if obtainable then
        && c.providerKey in p'.runs
        && Reached(r', i, Some(p'.runs[c.providerKey].agentId), Some(p'.runs[c.providerKey].runId),
                   ApprovalLive(r, ack.now) && AckUnused(r, c.dispatchId, ack))
      else
        && outcome.NeedsReconciliation? && p' == p
        && r' == r.(dispatches := r'.dispatches)
        && i < |r'.dispatches| && r'.dispatches[i].state.ReconciliationRequired?
  {
    ObtainedIff(p, c, keyText);
    RowIsFound(r, i, c);
    var (p', obtained) := ObtainRun(p, c, keyText);
    if obtained.Some? {
      var (r1, accepted) := PersistAcceptance(r, c, obtained.value.agentId, obtained.value.runId);
      RowIsWritten(r, i, c, accepted);
      RowWritesKeepTracking(r, r1, c.dispatchId, ack);
      PersistAckOutcome(r1, i, accepted, ack);
    }
  }

  /**
   Main result. From every reachable EXECUTION_DISPATCHED state, one uninterrupted refresh of
   row `i` whose lease it can claim: if a run can be obtained, the work order reaches EXECUTING,
   bound to that run and with the row ACKNOWLEDGED, exactly when a live approval covers the plan
   and no stored response holds the acknowledgement's key or digest. If none can be obtained the
   row is RECONCILIATION_REQUIRED, nothing else changed and the provider saw no submission it
   acted on.
   */
  lemma RefreshOutcomeIff(
    start: Record, steps: seq<Step>, r: Record, p: Provider, i: nat, owner: string, now: int, keyText: string, ack: AckInput)
    requires Reachable(r, start, steps) && r.status.ExecutionDispatched? && Names(p)
    requires i < |r.dispatches| && Claimable(r.dispatches[i], owner, now)
    ensures
      var d := r.dispatches[i];
      var (r', p', outcome) := AdvanceDispatch(r, p, d.dispatchId, owner, now, keyText, ack);
      var executing := ApprovalLive(r, ack.now) && AckUnused(r, d.dispatchId, ack);
      if !RunObtainable(d, p) then
        && outcome.NeedsReconciliation? && p' == p
        && r' == r.(dispatches := r'.dispatches)
        && i < |r'.dispatches| && r'.dispatches[i].state.ReconciliationRequired?
      else if Truthy(d.providerRunId) then p' == p && Reached(r', i, d.providerAgentId, d.providerRunId, executing)
      else
        && d.providerKey in p'.runs
        && Reached(r', i, Some(p'.runs[d.providerKey].agentId), Some(p'.runs[d.providerKey].runId), executing)
  {
    ChainOverRuns(start, steps);
    AttemptsOverRuns(start, steps);
    var d := r.dispatches[i];
    RowIsFound(r, i, d);
    var (r1, claim) := ClaimLease(r, d.dispatchId, owner, now);
    var c := claim.value;
    RowIsWritten(r, i, d, c);
    RowWritesKeepTracking(r, r1, d.dispatchId, ack);
    if Truthy(d.providerRunId) {
      PersistAckOutcome(r1, i, c, ack);
    } else {
      assert RunObtainable(c.(attemptCount := c.attemptCount - 1), p) == RunObtainable(d, p);
      AttemptOutcome(r1, p, i, c, keyText, ack);
    }
  }

  /** A refresh of a settled row, or of one that somebody else leases, answers the row's receipt and does nothing. */
  lemma HeldRowIsLeftAlone(
    start: Record, steps: seq<Step>, r: Record, p: Provider, i: nat, owner: string, now: int, keyText: string, ack: AckInput)
    requires Reachable(r, start, steps) && i < |r.dispatches|
    requires
      var d := r.dispatches[i];
      || d.state.Acknowledged?
      || (d.state.Leased? && d.leaseOwner != Some(owner) && d.leaseExpiresAt.Some? && now < d.leaseExpiresAt.value)
    ensures AdvanceDispatch(r, p, r.dispatches[i].dispatchId, owner, now, keyText, ack) ==
              (r, p, Duplicate(r.dispatches[i].receipt))
  {
    AttemptsOverRuns(start, steps);
    RowIsFound(r, i, r.dispatches[i]);
  }

  /** The acknowledgement of this dispatch that is stored already. */
  predicate AckIsStored(r: Record, dispatchId: string, existing: StoredResponse) {
    FindResponse(r.responses, r.recipient, ResponseType.ExecutionAcknowledged, AckKey(dispatchId)) == Some(existing)
  }

  lemma RepeatedAck(r: Record, claimed: Dispatch, ack: AckInput, existing: StoredResponse)
    requires AckIsStored(r, claimed.dispatchId, existing) && ack.digest != ""
    ensures
      PersistAck(r, claimed, ack) ==
      if existing.contentSha256 == ack.digest
      then (MarkAcknowledged(r, claimed, existing.receipt), Acknowledgement(Replayed(existing.receipt)))
      else (r, Acknowledgement(Refused(Kernel(IdempotencyConflict))))
  {
  }

  /**
   Main result. When an earlier worker stored the acknowledgement and stopped before it settled the row, a later
   refresh settles it, with the stored receipt, if and only if its packet has the stored digest; otherwise it is refused
   and the row stays leased to it. The work order itself is not touched.
   */
  lemma RepeatedAckIff(
    start: Record, steps: seq<Step>, r: Record, p: Provider, i: nat, owner: string, now: int, keyText: string, ack: AckInput,
    existing: StoredResponse)
    requires Reachable(r, start, steps) && i < |r.dispatches| && Claimable(r.dispatches[i], owner, now)
    requires Truthy(r.dispatches[i].providerRunId) && ack.digest != ""
    requires AckIsStored(r, r.dispatches[i].dispatchId, existing)
    ensures
      var d := r.dispatches[i];
      var (r', p', outcome) := AdvanceDispatch(r, p, d.dispatchId, owner, now, keyText, ack);
      && p' == p && SameButRows(r, r') && |r'.dispatches| == |r.dispatches|
      && (forall j :: 0 <= j < |r.dispatches| && j != i ==> r'.dispatches[j] == r.dispatches[j])
      && (if existing.contentSha256 == ack.digest then
            && outcome == Acknowledgement(Replayed(existing.receipt))
            && r'.dispatches[i] == d.(state := Acknowledged, receipt := existing.receipt, attemptCount := d.attemptCount + 1,
                                      leaseOwner := None, leaseExpiresAt := None)
          else
            && outcome == Acknowledgement(Refused(Kernel(IdempotencyConflict)))
            && r'.dispatches[i] == d.(state := Leased, attemptCount := d.attemptCount + 1,
                                      leaseOwner := Some(owner), leaseExpiresAt := Some(now + 30_000_000)))
  {
    AttemptsOverRuns(start, steps);
    var d := r.dispatches[i];
    RowIsFound(r, i, d);
    var (r1, claim) := ClaimLease(r, d.dispatchId, owner, now);
    RowIsWritten(r, i, d, claim.value);
    RowIsFound(r1, i, claim.value);
    RepeatedAck(r1, claim.value, ack, existing);
  }

  /** A latest dispatch whose acknowledgement key is free reaches EXECUTING. */
  lemma OpenRefreshReachesExecuting(
    start: Record, steps: seq<Step>, r: Record, p: Provider, owner: string, now: int, keyText: string, ack: AckInput)
    requires Reachable(r, start, steps) && r.status.ExecutionDispatched? && Names(p) && OpenDispatch(r)
    ensures
      var d := r.dispatches[|r.dispatches| - 1];
      Claimable(d, owner, now) && RunObtainable(d, p) && ApprovalLive(r, ack.now)
      && ack.digest != "" && !ack.clash && (forall row <- r.responses :: row.packetId != ack.digest)
      ==> AdvanceDispatch(r, p, d.dispatchId, owner, now, keyText, ack).0.status.Executing?
  {
    if Claimable(r.dispatches[|r.dispatches| - 1], owner, now) {
      RefreshOutcomeIff(start, steps, r, p, |r.dispatches| - 1, owner, now, keyText, ack);
    }
  }

  /**
   With acknowledgements from refresh workers only, nobody can have taken the key of the latest
   dispatch: a live approval, an obtainable run and a new digest are enough to reach EXECUTING.
   */
  lemma DisciplinedRefreshReachesExecuting(
    start: System, moves: seq<Move>, p: Provider, owner: string, now: int, keyText: string, ack: AckInput)
    requires Quiet(start) && AllDisciplined(start, moves) && Names(p)
    requires Play(start, moves).rec.status.ExecutionDispatched?
    ensures
      var r := Play(start, moves).rec;
      && r.dispatches != []
      && (var d := r.dispatches[|r.dispatches| - 1];
          Claimable(d, owner, now) && RunObtainable(d, p) && ApprovalLive(r, ack.now)
          && ack.digest != "" && !ack.clash && (forall row <- r.responses :: row.packetId != ack.digest)
          ==> AdvanceDispatch(r, p, d.dispatchId, owner, now, keyText, ack).0.status.Executing?)
  {
    var r := Play(start, moves).rec;
    BoundAlways(start, moves);
    var steps := PlayIsRun(start, moves);
    OpenRefreshReachesExecuting(start.rec, steps, r, p, owner, now, keyText, ack);
  }
}
