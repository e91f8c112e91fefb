/** EXECUTING is bound to the dispatch that the last stored acknowledgement answers, in every interleaving. */
module LatestAck {
  import opened Wrappers
  import opened Packets
  import opened Lifecycle
  import opened Broker
  import opened Planning
  import opened Runs
  import opened Chain
  import opened BoundRun
  import opened Replay
  import opened Dispatches
  import opened Outbox
  import opened OutboxSafety
  import opened OutboxBinding

  /** The acknowledgement answers this dispatch and names a run the provider started for it. */
  ghost predicate Answers(row: StoredResponse, d: Dispatch, requests: seq<Request>) {
    && row.packet.idempotencyKey == AckKey(d.dispatchId)
    && AckedRun(row.packet).Some? && IsRunOf(requests, d.dispatchId, AckedRun(row.packet).value)
  }

  ghost predicate LastAckAnswered(rows: seq<StoredResponse>, ds: seq<Dispatch>, requests: seq<Request>) {
    LastAck(rows).Some? ==> exists d <- ds :: Answers(LastAck(rows).value, d, requests)
  }

  // ---------------------------------------------------------------- what a move changes

  lemma RunsStay(s: System, move: Move, id: string, run: string)
    requires IsRunOf(s.requests, id, run)
    ensures IsRunOf(Advance(s, move).requests, id, run)
  {
    if move.ProviderAccepts? {
      ProviderKeepsRuns(s.requests, move.request, move.runId, id, run);
    } else {
      RequestsOnlyGrow(s, move);
      var q :| q in s.requests && q.dispatchId == id && q.run == Some(run);
      assert q in Advance(s, move).requests;
    }
  }

  lemma RequestsOnlyGrow(s: System, move: Move)
    requires !move.ProviderAccepts?
    ensures s.requests <= Advance(s, move).requests
  {
  }

  lemma OtherStepsKeepResponses(r: Record, step: Step)
    requires !step.Respond?
    ensures Apply(r, step).responses == r.responses || step.Decide?
  {
    match step
    case Decide(_, _, _, _, _) =>
    case BrokerMessage(_, _, _, _, _) => MessageShape(r, step);
    case Intend(_, _, _, _) => IntendShape(r, step);
    case Plan(write) => PlanningLeavesKernel(r, write);
    case _ => DispatchWritesOnlyDispatches(r, step);
  }

  lemma DecisionsKeepResponses(r: Record, step: Step)
    requires step.Decide?
    ensures Apply(r, step).responses == r.responses
  {
    DecideShape(r, step);
  }

  lemma OnlyAcksMoveLastAck(r: Record, step: Step)
    requires step.Respond? ==> !step.packet.responseType.ExecutionAcknowledged?
    ensures LastAck(Apply(r, step).responses) == LastAck(r.responses)
  {
    if step.Respond? {
      RespondShape(r, step);
      if Apply(r, step) != r {
        var row := Apply(r, step).responses[|r.responses|];
        assert Apply(r, step).responses == r.responses + [row] && row.packet == step.packet;
        LastAckOfAppend(r.responses, row);
      }
    } else if step.Decide? {
      DecisionsKeepResponses(r, step);
    } else {
      OtherStepsKeepResponses(r, step);
    }
  }

  lemma AnswerSurvives(row: StoredResponse, ds: seq<Dispatch>, ds': seq<Dispatch>, requests: seq<Request>,
                       requests': seq<Request>)
    requires DispatchesGrow(ds, ds') && exists d <- ds :: Answers(row, d, requests)
    requires forall id, run :: IsRunOf(requests, id, run) ==> IsRunOf(requests', id, run)
    ensures exists d <- ds' :: Answers(row, d, requests')
  {
    var i :| 0 <= i < |ds| && Answers(row, ds[i], requests);
    assert SameDispatch(ds[i], ds'[i]) && ds'[i] in ds';
  }

  /** A stored acknowledgement of a worker answers the worker's dispatch. */
  lemma WorkerAckAnswers(s: System, w: nat, clash: bool, now: int)
    requires Safe(s) && w in s.workers && s.workers[w].Sending?
    requires
      var rec := SubmitResponse(s.rec, s.workers[w].packet, s.rec.recipient, None, clash, now).0;
      rec != s.rec
    ensures
      var rec := SubmitResponse(s.rec, s.workers[w].packet, s.rec.recipient, None, clash, now).0;
      LastAckAnswered(rec.responses, rec.dispatches, s.requests)
  {
    var c, packet := s.workers[w].claimed, s.workers[w].packet;
    var step := Respond(packet, s.rec.recipient, None, clash, now);
    var rec := Apply(s.rec, step);
    assert WorkerOk(s.rec.dispatches, s.requests, s.workers[w]);
    var d :| d in s.rec.dispatches && SameDispatch(d, c);
    RespondKeepsDispatches(s.rec, step);
    RespondShape(s.rec, step);
    var row := rec.responses[|s.rec.responses|];
    assert rec.responses == s.rec.responses + [row] && row.packet == packet;
    LastAckOfAppend(s.rec.responses, row);
    assert Answers(row, d, s.requests);
  }

  // ---------------------------------------------------------------- one move

  lemma MoveKeepsAnswer(s: System, move: Move)
    requires Safe(s) && LastAckAnswered(s.rec.responses, s.rec.dispatches, s.requests)
    requires var steps := RecordStep(s, move);
             steps != [] && steps[0].Respond? ==> !steps[0].packet.responseType.ExecutionAcknowledged?
    ensures var s' := Advance(s, move);
            LastAckAnswered(s'.rec.responses, s'.rec.dispatches, s'.requests)
  {
    var s', steps := Advance(s, move), RecordStep(s, move);
    MoveWrites(s, move);
    if steps != [] {
      StepKeepsDispatches(s.rec, steps[0]);
      OnlyAcksMoveLastAck(s.rec, steps[0]);
    }
    forall id, run | IsRunOf(s.requests, id, run) ensures IsRunOf(s'.requests, id, run) { RunsStay(s, move, id, run); }
    if LastAck(s.rec.responses).Some? {
      AnswerSurvives(LastAck(s.rec.responses).value, s.rec.dispatches, s'.rec.dispatches, s.requests, s'.requests);
    }
  }

  lemma SendKeepsRequests(s: System, w: nat, clash: bool, now: int)
    requires w in s.workers && s.workers[w].Sending?
    ensures Advance(s, Send(w, clash, now)).requests == s.requests
  {
    var _ := SendOutcome(s, w, s.workers[w].claimed, s.workers[w].packet, clash, now);
  }

  lemma SendKeepsAnswer(s: System, w: nat, clash: bool, now: int)
    requires Safe(s) && LastAckAnswered(s.rec.responses, s.rec.dispatches, s.requests)
    requires w in s.workers && s.workers[w].Sending?
    ensures var s' := Advance(s, Send(w, clash, now));
            LastAckAnswered(s'.rec.responses, s'.rec.dispatches, s'.requests)
  {
    MoveWrites(s, Send(w, clash, now));
    SendKeepsRequests(s, w, clash, now);
    if Apply(s.rec, Respond(s.workers[w].packet, s.rec.recipient, None, clash, now)) != s.rec {
      WorkerAckAnswers(s, w, clash, now);
    }
  }

  lemma AdvanceKeepsAnswer(s: System, move: Move)
    requires Safe(s) && LastAckAnswered(s.rec.responses, s.rec.dispatches, s.requests) && AckFromWorker(move)
    ensures var s' := Advance(s, move);
            LastAckAnswered(s'.rec.responses, s'.rec.dispatches, s'.requests)
  {
    if move.Send? && At(s, move.w).Sending? {
      SendKeepsAnswer(s, move.w, move.clash, move.now);
    } else {
      MoveKeepsAnswer(s, move);
    }
  }

  lemma {:induction false} AnsweredAlways(start: System, moves: seq<Move>)
    requires Quiet(start) && WorkersAcknowledge(moves)
    ensures
      var s := Play(start, moves);
      LastAckAnswered(s.rec.responses, s.rec.dispatches, s.requests)
  {
    if moves != [] {
      var before := moves[..|moves| - 1];
      SafeAlways(start, before);
      AnsweredAlways(start, before);
      AdvanceKeepsAnswer(Play(start, before), moves[|moves| - 1]);
    }
  }

  // ---------------------------------------------------------------- main results

  lemma RunDecidesDispatch(requests: seq<Request>, a: string, b: string, run: string)
    requires OneRunEach(requests) && IsRunOf(requests, a, run) && IsRunOf(requests, b, run)
    ensures a == b
  {
    var i :| 0 <= i < |requests| && requests[i].dispatchId == a && requests[i].run == Some(run);
    var j :| 0 <= j < |requests| && requests[j].dispatchId == b && requests[j].run == Some(run);
  }

  /** The binding is to the latest attempt exactly when the last acknowledgement answers the last row. */
  ghost predicate BoundAsAnswered(s: System) {
    var r := s.rec;
    && LastAck(r.responses).Some? && r.dispatches != []
    && (BoundToLatest(r, s.requests) <==>
          LastAck(r.responses).value.packet.idempotencyKey == AckKey(r.dispatches[|r.dispatches| - 1].dispatchId))
  }

  /**
   Main result. In every interleaving whose acknowledgements come from workers, and whatever planning
   does meanwhile, a work order in EXECUTING is bound to a run of its latest attempt if and only if
   the last stored acknowledgement answers the last dispatch row.
   */
  lemma ExecutingBoundToLatestIff(start: System, moves: seq<Move>)
    requires Quiet(start) && WorkersAcknowledge(moves) && Play(start, moves).rec.status.Executing?
    ensures BoundAsAnswered(Play(start, moves))
  {
    SafeAlways(start, moves);
    AnsweredAlways(start, moves);
    BindingAlways(start, moves);
    BoundIffAnswered(Play(start, moves));
  }

  lemma BindingAlways(start: System, moves: seq<Move>)
    requires Quiet(start)
    ensures BindingTracked(Play(start, moves).rec)
  {
    var steps := PlayIsRun(start, moves);
    BindingOverRuns(start.rec, steps);
  }

  lemma BoundIffAnswered(s: System)
    requires Safe(s) && BindingTracked(s.rec) && s.rec.status.Executing?
    requires LastAckAnswered(s.rec.responses, s.rec.dispatches, s.requests)
    ensures BoundAsAnswered(s)
  {
    ExecutingHasAck(s.rec);
    BoundIffAnswersLast(s, LastAck(s.rec.responses).value);
  }

  lemma ExecutingHasAck(r: Record)
    requires BindingTracked(r) && r.status.Executing?
    ensures LastAck(r.responses).Some? && CurrentSnapshot(r).boundRunId == AckedRun(LastAck(r.responses).value.packet)
  {
  }

  lemma BoundIffAnswersLast(s: System, row: StoredResponse)
    requires Safe(s) && CurrentSnapshot(s.rec).boundRunId == AckedRun(row.packet)
    requires exists d <- s.rec.dispatches :: Answers(row, d, s.requests)
    ensures s.rec.dispatches != []
    ensures BoundToLatest(s.rec, s.requests) <==>
            row.packet.idempotencyKey == AckKey(s.rec.dispatches[|s.rec.dispatches| - 1].dispatchId)
  {
    var d :| d in s.rec.dispatches && Answers(row, d, s.requests);
    var last, run := s.rec.dispatches[|s.rec.dispatches| - 1].dispatchId, AckedRun(row.packet).value;
    if BoundToLatest(s.rec, s.requests) {
      RunDecidesDispatch(s.requests, d.dispatchId, last, run);
    }
    if row.packet.idempotencyKey == AckKey(last) {
      AckKeyInjective(d.dispatchId, last);
    }
  }

  /** Once the plan is published, planning has nothing left to publish and no discipline is needed. */
  lemma PublishedPlanIsDisciplined(start: System, moves: seq<Move>)
    requires Quiet(start) && WorkersAcknowledge(moves)
    requires PlanLedgerOk(start.rec.ledger) && PlanFromLedger(start.rec).Some?
    ensures AllDisciplined(start, moves)
  {
    forall i | 0 <= i < |moves| ensures Disciplined(Play(start, moves[..i]), moves[i]) {
      var steps := PlayIsRun(start, moves[..i]);
      PlanSurvives(start.rec, steps);
    }
  }
}
