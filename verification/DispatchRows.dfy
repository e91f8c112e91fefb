/** What becomes of a dispatch row in every interleaving: who writes it, and what is never lost. */
module DispatchRows {
  import opened Wrappers
  import opened Packets
  import opened Lifecycle
  import opened Broker
  import opened Planning
  import opened Runs
  import opened Chain
  import opened Dispatches
  import opened Replay
  import opened Outbox
  import opened OutboxSafety
  import opened OutboxBinding
  import opened Leases

  // ---------------------------------------------------------------- one move, row by row

  /** Steps 4 and 6 of the safe dispatch sequence: what a worker that holds a copy of this row may write. */
  predicate WorkerWrites(move: Move, worker: Worker, d: Dispatch, d': Dispatch) {
    match (move, worker)
    case (ClaimRow(_, now), Claiming(owner, id)) =>
      if id == d.dispatchId && Free(d, owner, now) then TakenBy(d, d', owner, now) else d' == d
    case (Persist(_), HoldingRun(c, agentId, runId)) =>
      if c.dispatchId == d.dispatchId && !d.state.Acknowledged?
      then d' == d.(state := ProviderAccepted, providerAgentId := Some(agentId), providerRunId := Some(runId))
      else d' == d
    case (Finish(_), Settling(c, receipt)) =>
      if c.dispatchId == d.dispatchId
      then d' == d.(state := Acknowledged, providerAgentId := c.providerAgentId, providerRunId := c.providerRunId,
                    receipt := receipt, leaseOwner := None, leaseExpiresAt := None)
      else d' == d
    case (Reconciled(_), Reconciling(c)) =>
      if c.dispatchId == d.dispatchId
      then d' == d.(state := ReconciliationRequired, lastFailureCode := Some("RECONCILIATION_REQUIRED"),
                    leaseOwner := None, leaseExpiresAt := None)
      else d' == d
    case _ => d' == d
  }

  /** Other callers add rows and replace receipts. */
  predicate CallerWrites(step: Step, d: Dispatch, d': Dispatch) {
    if step.Remember? && step.dispatchId == d.dispatchId then d' == d.(receipt := step.receipt) else d' == d
  }

  predicate Writes(s: System, move: Move, d: Dispatch, d': Dispatch) {
    match move
    case Environment(step) => CallerWrites(step, d, d')
    case Begin(_, _, _) => d' == d
    case ProviderAccepts(_, _) => d' == d
    case _ => WorkerWrites(move, At(s, move.w), d, d')
  }

  ghost predicate AllWritten(s: System, move: Move, ds': seq<Dispatch>) {
    && |s.rec.dispatches| <= |ds'|
    && (forall i :: 0 <= i < |s.rec.dispatches| ==> Writes(s, move, s.rec.dispatches[i], ds'[i]))
  }

  // ---------------------------------------------------------------- one transaction, row by row

  /** What each transaction makes of a row. */
  predicate StepWrites(step: Step, d: Dispatch, d': Dispatch) {
    match step
    case Claim(id, owner, now) =>
      if id == d.dispatchId && Free(d, owner, now) then TakenBy(d, d', owner, now) else d' == d
    case PersistRun(c, agentId, runId) =>
      if c.dispatchId == d.dispatchId && !d.state.Acknowledged?
      then d' == d.(state := ProviderAccepted, providerAgentId := Some(agentId), providerRunId := Some(runId))
      else d' == d
    case Settle(c, receipt) =>
      if c.dispatchId == d.dispatchId
      then d' == d.(state := Acknowledged, providerAgentId := c.providerAgentId, providerRunId := c.providerRunId,
                    receipt := receipt, leaseOwner := None, leaseExpiresAt := None)
      else d' == d
    case Reconcile(c, code) =>
      if c.dispatchId == d.dispatchId
      then d' == d.(state := ReconciliationRequired, lastFailureCode := Some(code), leaseOwner := None, leaseExpiresAt := None)
      else d' == d
    case _ => CallerWrites(step, d, d')
  }

  ghost predicate RowsWritten(ds: seq<Dispatch>, step: Step, ds': seq<Dispatch>) {
    |ds| <= |ds'| && forall i :: 0 <= i < |ds| ==> StepWrites(step, ds[i], ds'[i])
  }

  lemma ClaimWritesRows(r: Record, id: string, owner: string, now: int)
    requires NumberedAttempts(r.dispatches)
    ensures RowsWritten(r.dispatches, Claim(id, owner, now), ClaimLease(r, id, owner, now).0.dispatches)
  {
    FoundDispatch(r.dispatches, id);
  }

  lemma AcceptanceWritesRows(r: Record, c: Dispatch, agentId: string, runId: string)
    requires NumberedAttempts(r.dispatches)
    ensures RowsWritten(r.dispatches, PersistRun(c, agentId, runId), PersistAcceptance(r, c, agentId, runId).0.dispatches)
  {
    FoundDispatch(r.dispatches, c.dispatchId);
  }

  lemma SettleWritesRows(r: Record, c: Dispatch, receipt: Receipt)
    requires NumberedAttempts(r.dispatches)
    ensures RowsWritten(r.dispatches, Settle(c, receipt), MarkAcknowledged(r, c, receipt).dispatches)
  {
    FoundDispatch(r.dispatches, c.dispatchId);
  }

  lemma ReconcileWritesRows(r: Record, c: Dispatch, code: string)
    requires NumberedAttempts(r.dispatches)
    ensures RowsWritten(r.dispatches, Reconcile(c, code), MarkReconciliation(r, c, code).dispatches)
  {
    FoundDispatch(r.dispatches, c.dispatchId);
  }

  lemma RememberWritesRows(r: Record, id: string, receipt: Receipt)
    requires NumberedAttempts(r.dispatches)
    ensures RowsWritten(r.dispatches, Remember(id, receipt), RememberReceipt(r, id, receipt).dispatches)
  {
    FoundDispatch(r.dispatches, id);
    var found := FindDispatch(r.dispatches, id);
    if found.Some? {
      assert RememberReceipt(r, id, receipt).dispatches == WithDispatch(r.dispatches, found.value.(receipt := receipt));
    }
  }

  /** The other transactions write no row; an intent adds one, and it is not settled. */
  lemma OtherStepsWriteNoRow(r: Record, step: Step)
    requires DispatchesMatchLedger(r)
    requires step.Respond? || step.Decide? || step.BrokerMessage? || step.Intend? || step.Plan?
    ensures r.dispatches <= Apply(r, step).dispatches
    ensures forall i :: |r.dispatches| <= i < |Apply(r, step).dispatches| ==> !Apply(r, step).dispatches[i].state.Acknowledged?
  {
    match step
    case Respond(_, _, _, _, _) => RespondKeepsDispatches(r, step);
    case Decide(_, _, _, _, _) => DecideKeepsDispatches(r, step);
    case BrokerMessage(_, _, _, _, _) => MessageKeepsDispatches(r, step);
    case Intend(_, _, _, _) => if Apply(r, step) != r { IntendAddsRow(r, step); }
    case Plan(write) => PlanningLeavesKernel(r, write);
  }

  predicate NoneSettled(ds: seq<Dispatch>, from: nat) {
    forall i :: from <= i < |ds| ==> !ds[i].state.Acknowledged?
  }

  lemma StepWritesRows(r: Record, step: Step)
    requires DispatchesMatchLedger(r)
    ensures RowsWritten(r.dispatches, step, Apply(r, step).dispatches)
    ensures NoneSettled(Apply(r, step).dispatches, |r.dispatches|)
  {
    match step
    case Claim(id, owner, now) => ClaimWritesRows(r, id, owner, now);
    case PersistRun(c, agentId, runId) => AcceptanceWritesRows(r, c, agentId, runId);
    case Settle(c, receipt) => SettleWritesRows(r, c, receipt);
    case Reconcile(c, code) => ReconcileWritesRows(r, c, code);
    case Remember(id, receipt) => RememberWritesRows(r, id, receipt);
    case _ => OtherStepsWriteNoRow(r, step);
  }

  lemma StepOfMove(s: System, move: Move, d: Dispatch, d': Dispatch)
    requires if RecordStep(s, move) == [] then d' == d else StepWrites(RecordStep(s, move)[0], d, d')
    ensures Writes(s, move, d, d')
  {
  }

  lemma MoveWritesRows(s: System, move: Move)
    requires DispatchesMatchLedger(s.rec)
    ensures AllWritten(s, move, Advance(s, move).rec.dispatches)
    ensures NoneSettled(Advance(s, move).rec.dispatches, |s.rec.dispatches|)
  {
    MoveWrites(s, move);
    StepsWriteRows(s, move, Advance(s, move).rec);
  }

  lemma StepsWriteRows(s: System, move: Move, rec: Record)
    requires DispatchesMatchLedger(s.rec) && WritesStep(s.rec, RecordStep(s, move), rec)
    ensures AllWritten(s, move, rec.dispatches) && NoneSettled(rec.dispatches, |s.rec.dispatches|)
  {
    if RecordStep(s, move) != [] { StepWritesRows(s.rec, RecordStep(s, move)[0]); }
    forall i | 0 <= i < |s.rec.dispatches| ensures Writes(s, move, s.rec.dispatches[i], rec.dispatches[i]) {
      StepOfMove(s, move, s.rec.dispatches[i], rec.dispatches[i]);
    }
  }

  /**
   Main result. In every interleaving, whatever moves next, each row is afterwards exactly what the dispatch
   protocol makes of it: a claim, an accepted run, an acknowledgement or a reconciliation by the worker that
   stands there, a remembered receipt, and nothing else.
   */
  lemma RowsFollowTheProtocol(start: System, moves: seq<Move>, move: Move)
    requires Quiet(start)
    ensures
      var s := Play(start, moves);
      AllWritten(s, move, Advance(s, move).rec.dispatches)
  {
    SafeAlways(start, moves);
    MoveWritesRows(Play(start, moves), move);
  }

  // ---------------------------------------------------------------- the recorded run is final

  ghost predicate RunsKept(ds: seq<Dispatch>, ds': seq<Dispatch>) {
    |ds| <= |ds'| && forall i :: 0 <= i < |ds| ==>
      ds'[i].dispatchId == ds[i].dispatchId && (ds[i].providerRunId.Some? ==> ds'[i].providerRunId == ds[i].providerRunId)
  }

  /** Two runs started for one dispatch are one. */
  lemma OneRunOfDispatch(s: System, id: string, run: string, other: string)
    requires Safe(s) && IsRunOf(s.requests, id, run) && IsRunOf(s.requests, id, other)
    ensures run == other
  {
  }

  lemma WorkerKeepsRun(s: System, move: Move, d: Dispatch, d': Dispatch)
    requires Safe(s) && d in s.rec.dispatches && d.providerRunId.Some? && Writes(s, move, d, d')
    ensures d'.dispatchId == d.dispatchId && d'.providerRunId == d.providerRunId
  {
    if move.Persist? && At(s, move.w).HoldingRun? && At(s, move.w).claimed.dispatchId == d.dispatchId {
      OneRunOfDispatch(s, d.dispatchId, d.providerRunId.value, At(s, move.w).runId);
    } else if move.Finish? && At(s, move.w).Settling? && At(s, move.w).claimed.dispatchId == d.dispatchId {
      OneRunOfDispatch(s, d.dispatchId, d.providerRunId.value, At(s, move.w).claimed.providerRunId.value);
    }
  }

  lemma WrittenRowsKeepRuns(s: System, move: Move, ds': seq<Dispatch>)
    requires Safe(s) && AllWritten(s, move, ds')
    ensures RunsKept(s.rec.dispatches, ds')
  {
    var ds := s.rec.dispatches;
    forall i | 0 <= i < |ds|
      ensures ds'[i].dispatchId == ds[i].dispatchId && (ds[i].providerRunId.Some? ==> ds'[i].providerRunId == ds[i].providerRunId)
    {
      assert Writes(s, move, ds[i], ds'[i]);
      if ds[i].providerRunId.Some? { WorkerKeepsRun(s, move, ds[i], ds'[i]); }
    }
  }

  lemma MoveKeepsRuns(s: System, move: Move)
    requires Safe(s)
    ensures RunsKept(s.rec.dispatches, Advance(s, move).rec.dispatches)
  {
    MoveWritesRows(s, move);
    WrittenRowsKeepRuns(s, move, Advance(s, move).rec.dispatches);
  }

  lemma RunsKeptTwice(a: seq<Dispatch>, b: seq<Dispatch>, c: seq<Dispatch>)
    requires RunsKept(a, b) && RunsKept(b, c)
    ensures RunsKept(a, c)
  {
  }

  /**
   Main result. Once a row names its provider run it names that run for ever, whichever workers crash, time out
   or come back late.
   */
  lemma {:induction false} RecordedRunIsFinal(start: System, moves: seq<Move>, more: seq<Move>)
    requires Quiet(start)
    ensures RunsKept(Play(start, moves).rec.dispatches, Play(start, moves + more).rec.dispatches)
    decreases |more|
  {
    if more == [] {
      assert moves + more == moves;
    } else {
      var all, before := moves + more, more[..|more| - 1];
      assert all[..|all| - 1] == moves + before && all[|all| - 1] == more[|more| - 1];
      RecordedRunIsFinal(start, moves, before);
      SafeAlways(start, moves + before);
      MoveKeepsRuns(Play(start, moves + before), more[|more| - 1]);
      RunsKeptTwice(Play(start, moves).rec.dispatches, Play(start, moves + before).rec.dispatches, Play(start, all).rec.dispatches);
    }
  }

  // ---------------------------------------------------------------- a settled row is answered

  /** The acknowledgement of this dispatch is stored. */
  ghost predicate Answered(r: Record, id: string) {
    exists row <- r.responses ::
      && row.actor == r.recipient && row.packet.responseType.ExecutionAcknowledged?
      && row.packet.idempotencyKey == "exec-ack-" + id
  }

  ghost predicate SettledIsAnswered(s: System) {
    && (forall d <- s.rec.dispatches :: d.state.Acknowledged? ==>
          Answered(s.rec, d.dispatchId) && d.leaseOwner.None? && d.leaseExpiresAt.None?)
    && (forall w | w in s.workers :: s.workers[w].Settling? ==> Answered(s.rec, s.workers[w].claimed.dispatchId))
  }

  lemma AnsweredStays(r: Record, r': Record, id: string)
    requires Answered(r, id) && r.responses <= r'.responses && r'.recipient == r.recipient
    ensures Answered(r', id)
  {
    var row :| row in r.responses && row.actor == r.recipient && row.packet.responseType.ExecutionAcknowledged?
               && row.packet.idempotencyKey == "exec-ack-" + id;
    assert row in r'.responses;
  }

  lemma {:induction false} FoundIsStored(rows: seq<StoredResponse>, actor: string, t: ResponseType, key: string)
    requires FindResponse(rows, actor, t, key).Some?
    ensures
      var row := FindResponse(rows, actor, t, key).value;
      row in rows && row.actor == actor && row.packet.responseType == t && row.packet.idempotencyKey == key
  {
    if !(rows[0].actor == actor && rows[0].packet.responseType == t && rows[0].packet.idempotencyKey == key) {
      FoundIsStored(rows[1..], actor, t, key);
    }
  }

  /** An acknowledgement that was stored or replayed is among the rows. */
  lemma SentIsAnswered(r: Record, packet: ResponsePacket, id: string, clash: bool, now: int)
    requires packet.responseType.ExecutionAcknowledged? && packet.idempotencyKey == AckKey(id)
    requires !SubmitResponse(r, packet, r.recipient, None, clash, now).1.Refused?
    ensures Answered(SubmitResponse(r, packet, r.recipient, None, clash, now).0, id)
  {
    var (r', outcome) := SubmitResponse(r, packet, r.recipient, None, clash, now);
    if outcome.Replayed? {
      FoundIsStored(r.responses, r.recipient, packet.responseType, packet.idempotencyKey);
    } else {
      SubmitStoresOrNothing(r, packet, r.recipient, None, clash, now);
      assert r'.responses[|r.responses|] in r'.responses;
    }
  }

  lemma RecordKeepsAnswers(s: System, move: Move, id: string)
    requires Answered(s.rec, id)
    ensures Answered(Advance(s, move).rec, id)
  {
    MoveWrites(s, move);
    if RecordStep(s, move) != [] {
      StepKeepsRows(s.rec, RecordStep(s, move)[0]);
      StepKeepsIdentity(s.rec, RecordStep(s, move)[0]);
      AnsweredStays(s.rec, Advance(s, move).rec, id);
    }
  }

  /** Only the worker that got a receipt for its acknowledgement settles its row. */
  lemma SettlesWithReceipt(s: System, move: Move, d: Dispatch, d': Dispatch)
    requires SettledIsAnswered(s) && d in s.rec.dispatches && Writes(s, move, d, d') && d'.state.Acknowledged?
    ensures Answered(s.rec, d'.dispatchId) && d'.leaseOwner.None? && d'.leaseExpiresAt.None?
  {
  }

  lemma SettlingIsAnswered(s: System, move: Move, w: nat)
    requires Safe(s) && SettledIsAnswered(s)
    requires w in Advance(s, move).workers && Advance(s, move).workers[w].Settling?
    ensures Answered(Advance(s, move).rec, Advance(s, move).workers[w].claimed.dispatchId)
  {
    if At(s, w) == Advance(s, move).workers[w] {
      RecordKeepsAnswers(s, move, At(s, w).claimed.dispatchId);
    } else {
      SendLeadsToSettling(s, move, w);
      assert WorkerOk(s.rec.dispatches, s.requests, At(s, w));
      SentIsAnswered(s.rec, At(s, w).packet, At(s, w).claimed.dispatchId, move.clash, move.now);
    }
  }

  lemma OnlySendSettles(s: System, move: Move, w: nat)
    requires w in Advance(s, move).workers && Advance(s, move).workers[w].Settling? && At(s, w) != Advance(s, move).workers[w]
    ensures move.Send? && move.w == w && At(s, w).Sending?
  {
  }

  /** A worker starts settling only with the receipt of the acknowledgement it sent. */
  lemma SendLeadsToSettling(s: System, move: Move, w: nat)
    requires w in Advance(s, move).workers && Advance(s, move).workers[w].Settling? && At(s, w) != Advance(s, move).workers[w]
    ensures move.Send? && move.w == w && At(s, w).Sending? && At(s, w).claimed == Advance(s, move).workers[w].claimed
    ensures !SubmitResponse(s.rec, At(s, w).packet, s.rec.recipient, None, move.clash, move.now).1.Refused?
    ensures Advance(s, move).rec == SubmitResponse(s.rec, At(s, w).packet, s.rec.recipient, None, move.clash, move.now).0
  {
    OnlySendSettles(s, move, w);
    SentOutcome(s, w, At(s, w).claimed, At(s, w).packet, move.clash, move.now);
  }

  lemma SentOutcome(s: System, w: nat, c: Dispatch, packet: ResponsePacket, clash: bool, now: int)
    ensures
      var s', (rec, outcome) := AfterSend(s, w, c, packet, clash, now), SubmitResponse(s.rec, packet, s.rec.recipient, None, clash, now);
      && w in s'.workers && s'.rec == rec
      && (s'.workers[w].Settling? ==> s'.workers[w].claimed == c && !outcome.Refused?)
  {
  }

  /** The part of the invariant about rows, over any rows that the move may write. */
  lemma SettledRowsAreAnswered(s: System, move: Move, ds': seq<Dispatch>)
    requires SettledIsAnswered(s) && AllWritten(s, move, ds') && NoneSettled(ds', |s.rec.dispatches|)
    ensures forall d <- ds' :: d.state.Acknowledged? ==>
              Answered(s.rec, d.dispatchId) && d.leaseOwner.None? && d.leaseExpiresAt.None?
  {
    forall i | 0 <= i < |ds'| && ds'[i].state.Acknowledged?
      ensures Answered(s.rec, ds'[i].dispatchId) && ds'[i].leaseOwner.None? && ds'[i].leaseExpiresAt.None?
    {
      SettlesWithReceipt(s, move, s.rec.dispatches[i], ds'[i]);
    }
  }

  lemma MoveKeepsAnswered(s: System, move: Move)
    requires Safe(s) && SettledIsAnswered(s)
    ensures SettledIsAnswered(Advance(s, move))
  {
    var s' := Advance(s, move);
    MoveWritesRows(s, move);
    SettledRowsAreAnswered(s, move, s'.rec.dispatches);
    forall d <- s'.rec.dispatches | d.state.Acknowledged? ensures Answered(s'.rec, d.dispatchId) {
      RecordKeepsAnswers(s, move, d.dispatchId);
    }
    forall w | w in s'.workers && s'.workers[w].Settling? ensures Answered(s'.rec, s'.workers[w].claimed.dispatchId) {
      SettlingIsAnswered(s, move, w);
    }
  }

  /**
   Main result. In every interleaving an ACKNOWLEDGED row holds no lease, and the acknowledgement of its
   dispatch is stored: a row is settled only after its acknowledgement is durable.
   */
  lemma {:induction false} AcknowledgedIsDurable(start: System, moves: seq<Move>)
    requires Quiet(start)
    ensures SettledIsAnswered(Play(start, moves))
  {
    if moves != [] {
      var before := moves[..|moves| - 1];
      AcknowledgedIsDurable(start, before);
      SafeAlways(start, before);
      MoveKeepsAnswered(Play(start, before), moves[|moves| - 1]);
    }
  }
}
