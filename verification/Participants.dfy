/** Who may decide, and what a blocking question preserves. */
module Participants {
  import opened Wrappers
  import opened Packets
  import opened Lifecycle
  import opened Broker
  import opened Planning
  import opened Runs
  import opened Chain
  import opened PlanAuthority

  // ---------------------------------------------------------------- executor principals only grow

  lemma AcknowledgementAddsExecutor(s: Snapshot, status: WorkStatus, packet: ResponsePacket, actor: string)
    requires Truthy(packet.actor) ==> packet.actor.value == actor
    ensures
      var s' := ResponseSnapshot(status, s, packet, actor);
      && s.executorPrincipals <= s'.executorPrincipals
      && (packet.responseType.ExecutionAcknowledged? ==> actor in s'.executorPrincipals)
  {
  }

  lemma AcceptedActor(status: WorkStatus, s: Snapshot, packet: ResponsePacket, actor: string,
                      ds: seq<StoredDecision>, expected: Option<int>, now: int)
    requires ApplyResponse(status, s, packet, actor, ds, expected, now).Ok?
    ensures Truthy(packet.actor) ==> packet.actor.value == actor
  {
  }

  lemma AdvancedExecutors(r: Record, r': Record, t: Transition, parent: string)
    requires Advanced(r, r', t, parent) && SnapshotTracksLedger(r')
    ensures CurrentSnapshot(r').executorPrincipals == t.snapshot.executorPrincipals
  {
  }

  lemma RespondGrowsExecutors(r: Record, step: Step)
    requires SnapshotTracksLedger(r) && step.Respond?
    ensures CurrentSnapshot(r).executorPrincipals <= CurrentSnapshot(Apply(r, step)).executorPrincipals
    ensures Apply(r, step) != r && step.packet.responseType.ExecutionAcknowledged? ==>
              step.actor in CurrentSnapshot(Apply(r, step)).executorPrincipals
  {
    var r' := Apply(r, step);
    RespondShape(r, step);
    if r' != r {
      var t, s := RespondTransition(r, step).value, CurrentSnapshot(r);
      ResponseMovesSnapshot(r.status, s, step.packet, step.actor, Decisions(r.decisions), step.expectedVersion, step.now, t);
      AcceptedActor(r.status, s, step.packet, step.actor, Decisions(r.decisions), step.expectedVersion, step.now);
      AcknowledgementAddsExecutor(s, r.status, step.packet, step.actor);
      RespondTracks(r, step);
      AdvancedExecutors(r, r', t, MessageId(step.packet));
    }
  }

  lemma OthersGrowExecutors(r: Record, r': Record, t: Transition, parent: string)
    requires Advanced(r, r', t, parent) && t.snapshot.executorPrincipals == CurrentSnapshot(r).executorPrincipals
    requires SnapshotTracksLedger(r) && SnapshotTracksLedger(r')
    ensures CurrentSnapshot(r').executorPrincipals == CurrentSnapshot(r).executorPrincipals
  {
  }

  lemma BrokerEventKeepsExecutors(status: WorkStatus, s: Snapshot, event: LifecycleEvent, actor: string, message: string,
                                  ds: seq<StoredDecision>, expected: Option<int>, planId: Option<string>,
                                  planSha: Option<string>, now: int, t: Transition)
    requires ApplyBrokerEvent(status, s, event, actor, message, ds, expected, planId, planSha, now) == Ok(t)
    ensures t.snapshot.executorPrincipals == s.executorPrincipals
  {
  }

  lemma StepGrowsExecutors(r: Record, step: Step)
    requires SnapshotTracksLedger(r)
    ensures CurrentSnapshot(r).executorPrincipals <= CurrentSnapshot(Apply(r, step)).executorPrincipals
  {
    if step.Respond? {
      RespondGrowsExecutors(r, step);
    } else if step.Decide? {
      DecideGrowsExecutors(r, step);
    } else if step.BrokerMessage? {
      MessageGrowsExecutors(r, step);
    } else if step.Intend? {
      IntendGrowsExecutors(r, step);
    } else if step.Plan? {
      PlanningLeavesKernel(r, step.write);
    } else {
      DispatchWritesOnlyDispatches(r, step);
    }
  }

  lemma DecisionKeepsExecutors(status: WorkStatus, s: Snapshot, event: LifecycleEvent, d: StoredDecision,
                               expected: Option<int>, now: int, t: Transition)
    requires ApplyDecision(status, s, event, d, expected, now) == Ok(t)
    ensures t.snapshot.executorPrincipals == s.executorPrincipals
  {
  }

  lemma DecideGrowsExecutors(r: Record, step: Step)
    requires SnapshotTracksLedger(r) && step.Decide?
    ensures CurrentSnapshot(r).executorPrincipals <= CurrentSnapshot(Apply(r, step)).executorPrincipals
  {
    var r' := Apply(r, step);
    DecideTracks(r, step);
    DecideShape(r, step);
    if r' != r {
      var t := DecideTransition(r, step).value;
      DecisionKeepsExecutors(r.status, CurrentSnapshot(r), DecisionEvent(step.request.decisionType).value,
                             DecisionOf(r, step.request, step.decisionId, step.now), step.expectedVersion, step.now, t);
      OthersGrowExecutors(r, r', t, CurrentSnapshot(r).currentParentId);
    }
  }

  lemma MessageGrowsExecutors(r: Record, step: Step)
    requires SnapshotTracksLedger(r) && step.BrokerMessage?
    ensures CurrentSnapshot(r).executorPrincipals <= CurrentSnapshot(Apply(r, step)).executorPrincipals
  {
    var r' := Apply(r, step);
    MessageTracks(r, step);
    MessageShape(r, step);
    if r' != r {
      var t := MessageTransition(r, step).value;
      BrokerEventKeepsExecutors(r.status, CurrentSnapshot(r), step.event, step.actor, step.messageId, Decisions(r.decisions),
                                step.expectedVersion, None, None, step.now, t);
      OthersGrowExecutors(r, r', t, step.messageId);
    }
  }

  lemma IntendGrowsExecutors(r: Record, step: Step)
    requires SnapshotTracksLedger(r) && step.Intend?
    ensures CurrentSnapshot(r).executorPrincipals <= CurrentSnapshot(Apply(r, step)).executorPrincipals
  {
    var r' := Apply(r, step);
    IntendTracks(r, step);
    IntendShape(r, step);
    if r' != r {
      var t := IntendTransition(r, step).value;
      var plan, sha := RequestedPlan(step.intent, CurrentSnapshot(r)), RequestedSha(step.intent, CurrentSnapshot(r));
      BrokerEventKeepsExecutors(r.status, CurrentSnapshot(r), step.intent.event, step.intent.actor, step.dispatchId,
                                Decisions(r.decisions), step.intent.expectedVersion, plan, sha, step.now, t);
      OthersGrowExecutors(r, r', t, step.dispatchId);
    }
  }

  lemma {:induction false} RunGrowsExecutors(start: Record, steps: seq<Step>, later: seq<Step>)
    requires Initial(start)
    ensures CurrentSnapshot(Run(start, steps)).executorPrincipals
            <= CurrentSnapshot(Run(Run(start, steps), later)).executorPrincipals
  {
    if later != [] {
      var before := later[..|later| - 1];
      RunGrowsExecutors(start, steps, before);
      RunOfConcat(start, steps, before);
      ChainOverRuns(start, steps + before);
      StepGrowsExecutors(Run(Run(start, steps), before), later[|later| - 1]);
    }
  }

  lemma ExecutorDecisionRefused(r: Record, q: DecisionRequest, expected: Option<int>, id: string, clash: bool, now: int)
    requires q.actor in CurrentSnapshot(r).executorPrincipals
    ensures !RecordDecision(r, q, expected, id, clash, now).1.Stored?
  {
  }

  /** Once an actor's execution.acknowledged is stored, no decision by that actor is ever stored again. */
  lemma AcknowledgersNeverDecide(
    start: Record, steps: seq<Step>, ack: Step, later: seq<Step>,
    q: DecisionRequest, expected: Option<int>, id: string, clash: bool, now: int)
    requires Initial(start)
    requires ack.Respond? && ack.packet.responseType.ExecutionAcknowledged?
    requires Apply(Run(start, steps), ack) != Run(start, steps)
    requires q.actor == ack.actor
    ensures !RecordDecision(Run(Run(start, steps + [ack]), later), q, expected, id, clash, now).1.Stored?
  {
    var all := steps + [ack];
    assert all[..|all| - 1] == steps;
    ChainOverRuns(start, steps);
    RespondGrowsExecutors(Run(start, steps), ack);
    RunGrowsExecutors(start, all, later);
    ExecutorDecisionRefused(Run(Run(start, all), later), q, expected, id, clash, now);
  }

  /** Only the sender ever decides; a work order addressed to its own sender gets no decision at all. */
  lemma OnlySenderDecides(
    start: Record, steps: seq<Step>, q: DecisionRequest, expected: Option<int>, id: string, clash: bool, now: int)
    requires Initial(start)
    requires RecordDecision(Run(start, steps), q, expected, id, clash, now).1.Stored?
    ensures q.actor == start.sender && start.sender != start.recipient
  {
    ChainOverRuns(start, steps);
    DeciderIsPrincipal(Run(start, steps), q, expected, id, clash, now);
  }

  lemma DeciderIsPrincipal(r: Record, q: DecisionRequest, expected: Option<int>, id: string, clash: bool, now: int)
    requires RecordDecision(r, q, expected, id, clash, now).1.Stored?
    ensures q.actor in CurrentSnapshot(r).decisionPrincipals && q.actor !in CurrentSnapshot(r).executorPrincipals
  {
  }

  // ---------------------------------------------------------------- blocking questions

  predicate SameBindings(s: Snapshot, s': Snapshot) {
    && SamePlan(s, s')
    && s'.boundRunId == s.boundRunId && s'.boundAgentId == s.boundAgentId
    && s'.executionAcknowledged == s.executionAcknowledged
    && s'.latestReviewOutcome == s.latestReviewOutcome
  }

  /** No response, decision or dispatch keeps a work order waiting, and an answer leaves it too. */
  lemma ResponseRefusedWhileWaiting(s: Snapshot, packet: ResponsePacket, actor: string, ds: seq<StoredDecision>,
                                    expected: Option<int>, now: int)
    ensures ApplyResponse(WaitingForInput, s, packet, actor, ds, expected, now).Err?
  {
  }

  lemma BrokerEventEndsWaiting(s: Snapshot, event: LifecycleEvent, actor: string, message: string, ds: seq<StoredDecision>,
                               expected: Option<int>, planId: Option<string>, planSha: Option<string>, now: int, t: Transition)
    requires ApplyBrokerEvent(WaitingForInput, s, event, actor, message, ds, expected, planId, planSha, now) == Ok(t)
    requires PlainBrokerEvent(event) || IsDispatchEvent(event)
    requires StatusFitsPlan(WaitingForInput, s)
    ensures !t.status.WaitingForInput?
  {
  }

  lemma DecisionEndsWaiting(s: Snapshot, event: LifecycleEvent, d: StoredDecision, expected: Option<int>, now: int, t: Transition)
    requires ApplyDecision(WaitingForInput, s, event, d, expected, now) == Ok(t)
    ensures t.status.Cancelled?
  {
  }

  lemma KernelStepEndsWaiting(r: Record, step: Step)
    requires PlanInvariant(r) && r.status.WaitingForInput? && IsKernelStep(step)
    requires Apply(r, step).status.WaitingForInput?
    ensures Apply(r, step) == r
  {
    var s, ds := CurrentSnapshot(r), Decisions(r.decisions);
    match step {
      case Respond(packet, actor, expected, _, now) =>
        ResponseRefusedWhileWaiting(s, packet, actor, ds, expected, now);
        RespondShape(r, step);
      case Decide(q, expected, id, _, now) =>
        DecideShape(r, step);
        if Apply(r, step) != r {
          DecisionEndsWaiting(s, DecisionEvent(q.decisionType).value, DecisionOf(r, q, id, now), expected, now,
                              DecideTransition(r, step).value);
        }
      case BrokerMessage(event, actor, messageId, expected, now) =>
        MessageShape(r, step);
        if Apply(r, step) != r {
          BrokerEventEndsWaiting(s, event, actor, messageId, ds, expected, None, None, now, MessageTransition(r, step).value);
        }
      case Intend(q, dispatchId, _, now) =>
        IntendShape(r, step);
        if Apply(r, step) != r {
          BrokerEventEndsWaiting(s, q.event, q.actor, dispatchId, ds, q.expectedVersion, RequestedPlan(q, s),
                                 RequestedSha(q, s), now, IntendTransition(r, step).value);
        }
    }
  }

  /** While a question is open, a step that leaves it open leaves the snapshot alone. */
  lemma WaitingIsQuiet(r: Record, step: Step)
    requires PlanInvariant(r)
    requires r.status.WaitingForInput? && Apply(r, step).status.WaitingForInput?
    ensures CurrentSnapshot(Apply(r, step)) == CurrentSnapshot(r)
  {
    if IsKernelStep(step) {
      KernelStepEndsWaiting(r, step);
    } else if step.Plan? {
      PlanningLeavesKernel(r, step.write);
    } else {
      DispatchWritesOnlyDispatches(r, step);
    }
  }

  lemma {:induction false} WaitingRunIsQuiet(start: Record, steps: seq<Step>, waiting: seq<Step>)
    requires Initial(start)
    requires forall i :: 0 <= i <= |waiting| ==> Run(Run(start, steps), waiting[..i]).status.WaitingForInput?
    ensures CurrentSnapshot(Run(Run(start, steps), waiting)) == CurrentSnapshot(Run(start, steps))
  {
    if waiting != [] {
      var before := waiting[..|waiting| - 1];
      assert waiting[..|waiting|] == waiting;
      forall i | 0 <= i <= |before| ensures Run(Run(start, steps), before[..i]).status.WaitingForInput? {
        assert before[..i] == waiting[..i];
      }
      WaitingRunIsQuiet(start, steps, before);
      RunOfConcat(start, steps, before);
      PlanInvariantOverRuns(start, steps + before);
      WaitingIsQuiet(Run(Run(start, steps), before), waiting[|waiting| - 1]);
    }
  }

  lemma QuestionRecordsOrigin(r: Record, ask: Step)
    requires SnapshotTracksLedger(r) && ask.Respond? && ask.packet.responseType.QuestionBlocked?
    requires Apply(r, ask) != r
    ensures r.status.Planning? || r.status.Executing?
    ensures Apply(r, ask).status.WaitingForInput?
    ensures CurrentSnapshot(Apply(r, ask)).blockedFrom == Some(r.status)
    ensures SameBindings(CurrentSnapshot(r), CurrentSnapshot(Apply(r, ask)))
  {
    RespondShape(r, ask);
  }

  lemma AnswerUsesOrigin(r: Record, answer: Step)
    requires SnapshotTracksLedger(r) && answer.BrokerMessage? && answer.event.QuestionAnswer?
    requires Apply(r, answer) != r
    ensures CurrentSnapshot(r).blockedFrom == Some(Apply(r, answer).status)
    ensures CurrentSnapshot(Apply(r, answer)).blockedFrom == None
    ensures SameBindings(CurrentSnapshot(r), CurrentSnapshot(Apply(r, answer)))
  {
    MessageShape(r, answer);
  }

  /**
   A question can only be asked while PLANNING or EXECUTING. If the work order then stays in
   WAITING_FOR_INPUT until question.answer, it returns to the state the question interrupted,
   with the plan, the bound run and agent, and the last review outcome as they were.
   */
  lemma AnswerRestores(start: Record, steps: seq<Step>, ask: Step, waiting: seq<Step>, answer: Step)
    requires Initial(start)
    requires ask.Respond? && ask.packet.responseType.QuestionBlocked?
    requires Apply(Run(start, steps), ask) != Run(start, steps)
    requires forall i :: 0 <= i <= |waiting| ==> Run(Run(start, steps + [ask]), waiting[..i]).status.WaitingForInput?
    requires answer.BrokerMessage? && answer.event.QuestionAnswer?
    requires Apply(Run(Run(start, steps + [ask]), waiting), answer) != Run(Run(start, steps + [ask]), waiting)
    ensures
      var r := Run(start, steps);
      var r' := Apply(Run(Run(start, steps + [ask]), waiting), answer);
      && (r.status.Planning? || r.status.Executing?)
      && r'.status == r.status
      && SameBindings(CurrentSnapshot(r), CurrentSnapshot(r'))
      && CurrentSnapshot(r').blockedFrom == None
  {
    var r := Run(start, steps);
    var asked := steps + [ask];
    assert asked[..|asked| - 1] == steps;
    ChainOverRuns(start, steps);
    QuestionRecordsOrigin(r, ask);
    WaitingRunIsQuiet(start, asked, waiting);
    RunOfConcat(start, asked, waiting);
    ChainOverRuns(start, asked + waiting);
    AnswerUsesOrigin(Run(Run(start, asked), waiting), answer);
  }
}
