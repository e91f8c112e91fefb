/** What a review's outcome leads to, and what must lie between a request for changes and completion. */
module Reviews {
  import opened Wrappers
  import opened Packets
  import opened Lifecycle
  import opened Broker
  import opened Planning
  import opened Runs
  import opened Chain
  import opened PlanAuthority
  import opened History
  import opened KernelHistory
  import opened SnapshotHistory
  import opened Replay
  import opened Reference

  function LastReview(r: Record): Option<StoredResponse> {
    LastOf(r.responses, ResponseType.ReviewCompleted)
  }

  predicate Favourable(packet: ResponsePacket) {
    TextField(packet, "outcome") == Some("APPROVED") || TextField(packet, "outcome") == Some("REJECTED")
  }

  // ---------------------------------------------------------------- one review

  lemma ReviewStep(r: Record, packet: ResponsePacket, actor: string, expected: Option<int>, clash: bool, now: int)
    requires Told(r) && packet.responseType.ReviewCompleted?
    ensures
      var r' := Apply(r, Respond(packet, actor, expected, clash, now));
      r' != r ==>
        && r.status.PlannerReviewing?
        && (r'.status.RevisionRequired? <==> TextField(packet, "outcome") == Some("REVISE"))
        && (r'.status.WaitingForHumanReview? <==> Favourable(packet))
        && (r'.status.RevisionRequired? || r'.status.WaitingForHumanReview?)
        && |r'.responses| == |r.responses| + 1 && r'.responses[|r.responses|].packet == packet
  {
    var r' := Apply(r, Respond(packet, actor, expected, clash, now));
    StoredResponseMoves(r, packet, actor, expected, clash, now);
    if r' != r { ReviewMoved(r, r', packet, actor, expected, now); }
  }

  lemma ReviewMoved(r: Record, r': Record, packet: ResponsePacket, actor: string, expected: Option<int>, now: int)
    requires ResponseMoved(r, r', packet, actor, expected, now) && packet.responseType.ReviewCompleted?
    ensures r.status.PlannerReviewing?
    ensures r'.status.RevisionRequired? <==> TextField(packet, "outcome") == Some("REVISE")
    ensures r'.status.WaitingForHumanReview? <==> Favourable(packet)
    ensures r'.status.RevisionRequired? || r'.status.WaitingForHumanReview?
    ensures r'.responses[|r.responses|].packet == packet
  {
  }

  /**
   Main result. A stored review reporting REVISE moves the work order to REVISION_REQUIRED, one reporting
   APPROVED or REJECTED to WAITING_FOR_HUMAN_REVIEW, and no other is stored.
   */
  lemma ReviewOutcomeLeads(start: Record, steps: seq<Step>, packet: ResponsePacket, actor: string, expected: Option<int>,
                           clash: bool, now: int)
    requires Initial(start) && packet.responseType.ReviewCompleted?
    ensures
      var r := Run(start, steps);
      var r' := Apply(r, Respond(packet, actor, expected, clash, now));
      r' != r ==>
        && r.status.PlannerReviewing?
        && (r'.status.RevisionRequired? <==> TextField(packet, "outcome") == Some("REVISE"))
        && (r'.status.WaitingForHumanReview? <==> Favourable(packet))
        && (r'.status.RevisionRequired? || r'.status.WaitingForHumanReview?)
  {
    ToldOverRuns(start, steps);
    ReviewStep(Run(start, steps), packet, actor, expected, clash, now);
  }

  // ---------------------------------------------------------------- the last review of a completed run

  predicate ReviewFits(r: Record) {
    r.status.WaitingForHumanReview? || r.status.Complete? ==> LastReview(r).Some? && Favourable(LastReview(r).value.packet)
  }

  lemma ResponseKeepsReview(r: Record, r': Record, packet: ResponsePacket, actor: string, expected: Option<int>, now: int)
    requires ReviewFits(r) && ResponseMoved(r, r', packet, actor, expected, now)
    ensures ReviewFits(r')
  {
    LastOfAppend(r.responses, r'.responses[|r.responses|], ResponseType.ReviewCompleted);
  }

  lemma DecisionKeepsReview(r: Record, r': Record, q: DecisionRequest, expected: Option<int>, id: string, now: int)
    requires ReviewFits(r) && DecisionMoved(r, r', q, expected, id, now)
    ensures ReviewFits(r')
  {
  }

  /** A question is asked while planning or executing, so its answer leads to no review. */
  lemma MessageKeepsReview(r: Record, r': Record, event: LifecycleEvent, actor: string, message: string, expected: Option<int>)
    requires ReviewFits(r) && MessageMoved(r, r', event, actor, message, expected)
    ensures ReviewFits(r')
  {
  }

  lemma StepKeepsReview(r: Record, step: Step)
    requires Told(r) && ReviewFits(r)
    ensures ReviewFits(Apply(r, step))
  {
    var r' := Apply(r, step);
    match step
    case Respond(packet, actor, expected, clash, now) =>
      StoredResponseMoves(r, packet, actor, expected, clash, now);
      if r' != r { ResponseKeepsReview(r, r', packet, actor, expected, now); }
    case Decide(q, expected, id, clash, now) =>
      StoredDecisionMoves(r, q, expected, id, clash, now);
      if r' != r { DecisionKeepsReview(r, r', q, expected, id, now); }
    case BrokerMessage(event, actor, message, expected, now) =>
      StoredMessageMoves(r, event, actor, message, expected, now);
      if r' != r { MessageKeepsReview(r, r', event, actor, message, expected); }
    case Intend(q, id, wrapper, now) => IntentKeepsReview(r, q, id, wrapper, now);
    case Plan(write) => PlanningLeavesKernel(r, write);
    case _ => DispatchWritesOnlyDispatches(r, step);
  }

  lemma IntentKeepsReview(r: Record, q: IntentRequest, id: string, wrapper: string, now: int)
    requires ReviewFits(r)
    ensures ReviewFits(Apply(r, Intend(q, id, wrapper, now)))
  {
    var r' := Apply(r, Intend(q, id, wrapper, now));
    IntendShape(r, Intend(q, id, wrapper, now));
    if r' != r {
      var s := CurrentSnapshot(r);
      DispatchLeadsToDispatched(r.status, s, q.event, q.actor, id, Decisions(r.decisions), q.expectedVersion,
                                RequestedPlan(q, s), RequestedSha(q, s), now);
    }
  }

  lemma {:induction false} ReviewsOverRuns(start: Record, steps: seq<Step>)
    requires Initial(start)
    ensures ReviewFits(Run(start, steps))
  {
    if steps != [] {
      ReviewsOverRuns(start, steps[..|steps| - 1]);
      ToldOverRuns(start, steps[..|steps| - 1]);
      StepKeepsReview(Run(start, steps[..|steps| - 1]), steps[|steps| - 1]);
    }
  }

  /** Main result. A completed run's last stored review reports APPROVED or REJECTED, never REVISE. */
  lemma CompletedReviewIsFavourable(start: Record, steps: seq<Step>)
    requires Initial(start) && Run(start, steps).status.Complete?
    ensures
      var review := LastOf(Run(start, steps).responses, ResponseType.ReviewCompleted);
      && review.Some?
      && (TextField(review.value.packet, "outcome") == Some("APPROVED")
          || TextField(review.value.packet, "outcome") == Some("REJECTED"))
  {
    ReviewsOverRuns(start, steps);
  }

  // ---------------------------------------------------------------- after a request for changes

  predicate Refines(e: LedgerEntry) {
    e.body.IntentEntry? && e.body.event.ImplementationRefine?
  }

  predicate RefinedSince(ledger: seq<LedgerEntry>, n: nat) {
    exists j :: n <= j < |ledger| && Refines(ledger[j])
  }

  predicate PublishedSince(ledger: seq<LedgerEntry>, n: nat) {
    exists j :: n <= j < |ledger| && ledger[j].body.PlanAvailable?
  }

  predicate DispatchedSince(ledger: seq<LedgerEntry>, n: nat) {
    exists j :: n <= j < |ledger| && ledger[j].body.IntentEntry?
  }

  /** Where a work order stands that has been sent back and not dispatched again. */
  predicate SentBack(status: WorkStatus) {
    status.RevisionRequired? || status.Cancelled? || status.Failed? || status.Routed?
  }

  predicate NotDispatched(status: WorkStatus) {
    SentBack(status) || status.PlanReady? || status.WaitingForPlanApproval? || status.ReadyForExecution?
  }

  /** Since ledger length n: refined, or else published, or else still sent back; and dispatched or not yet. */
  predicate Reworked(r: Record, n: nat) {
    && n <= |r.ledger|
    && (RefinedSince(r.ledger, n) || PublishedSince(r.ledger, n) || SentBack(r.status))
    && (DispatchedSince(r.ledger, n) || NotDispatched(r.status))
  }

  lemma EntriesStay(ledger: seq<LedgerEntry>, longer: seq<LedgerEntry>, n: nat)
    requires ledger <= longer
    ensures RefinedSince(ledger, n) ==> RefinedSince(longer, n)
    ensures PublishedSince(ledger, n) ==> PublishedSince(longer, n)
    ensures DispatchedSince(ledger, n) ==> DispatchedSince(longer, n)
  {
    if RefinedSince(ledger, n) {
      var j :| n <= j < |ledger| && Refines(ledger[j]);
      assert longer[j] == ledger[j];
    }
    if PublishedSince(ledger, n) {
      var j :| n <= j < |ledger| && ledger[j].body.PlanAvailable?;
      assert longer[j] == ledger[j];
    }
    if DispatchedSince(ledger, n) {
      var j :| n <= j < |ledger| && ledger[j].body.IntentEntry?;
      assert longer[j] == ledger[j];
    }
  }

  lemma ResponseKeepsReworked(r: Record, r': Record, packet: ResponsePacket, actor: string, expected: Option<int>, now: int, n: nat)
    requires Reworked(r, n) && ResponseMoved(r, r', packet, actor, expected, now)
    ensures Reworked(r', n)
  {
    EntriesStay(r.ledger, r'.ledger, n);
  }

  lemma DecisionKeepsReworked(r: Record, r': Record, q: DecisionRequest, expected: Option<int>, id: string, now: int, n: nat)
    requires Reworked(r, n) && DecisionMoved(r, r', q, expected, id, now)
    ensures Reworked(r', n)
  {
    EntriesStay(r.ledger, r'.ledger, n);
  }

  lemma MessageKeepsReworked(r: Record, r': Record, event: LifecycleEvent, actor: string, message: string, expected: Option<int>, n: nat)
    requires Reworked(r, n) && MessageMoved(r, r', event, actor, message, expected)
    ensures Reworked(r', n)
  {
    EntriesStay(r.ledger, r'.ledger, n);
  }

  lemma DispatchShape(r: Record, q: IntentRequest, id: string, wrapper: string, now: int)
    requires Apply(r, Intend(q, id, wrapper, now)) != r
    ensures
      var r' := Apply(r, Intend(q, id, wrapper, now));
      && r.ledger <= r'.ledger && |r'.ledger| == |r.ledger| + 1
      && r'.ledger[|r.ledger|].body.IntentEntry? && r'.ledger[|r.ledger|].body.event == q.event
      && (q.event.PlanExecute? || q.event.ImplementationRefine?)
      && r'.status.ExecutionDispatched? && Edge(r.status, Message(q.event), ExecutionDispatched)
  {
    var s := CurrentSnapshot(r);
    IntendShape(r, Intend(q, id, wrapper, now));
    DispatchLeadsToDispatched(r.status, s, q.event, q.actor, id, Decisions(r.decisions), q.expectedVersion,
                              RequestedPlan(q, s), RequestedSha(q, s), now);
    DispatchEdge(r.status, s, q.event, q.actor, id, Decisions(r.decisions), q.expectedVersion,
                 RequestedPlan(q, s), RequestedSha(q, s), now);
  }

  lemma DispatchEdge(status: WorkStatus, s: Snapshot, event: LifecycleEvent, actor: string, message: string,
                     ds: seq<StoredDecision>, expected: Option<int>, plan: Option<string>, sha: Option<string>, now: int)
    requires IsDispatchEvent(event)
    requires ApplyBrokerEvent(status, s, event, actor, message, ds, expected, plan, sha, now).Ok?
    ensures Edge(status, Message(event), ExecutionDispatched)
  {
  }

  lemma IntentKeepsReworked(r: Record, q: IntentRequest, id: string, wrapper: string, now: int, n: nat)
    requires Reworked(r, n)
    ensures Reworked(Apply(r, Intend(q, id, wrapper, now)), n)
  {
    var r' := Apply(r, Intend(q, id, wrapper, now));
    if r' != r {
      DispatchShape(r, q, id, wrapper, now);
      EntriesStay(r.ledger, r'.ledger, n);
      assert r'.ledger[|r.ledger|].body.IntentEntry?;
      assert r.status.RevisionRequired? ==> Refines(r'.ledger[|r.ledger|]);
    }
  }

  /** Planning publishes, fails the order, routes it again or leaves its status alone. */
  lemma PlanningStatus(r: Record, write: PlanningWrite)
    requires exists e <- r.ledger :: e.body.ExecutorAcknowledged?
    ensures
      var r' := ApplyPlanning(r, write).0;
      && r.ledger <= r'.ledger
      && (r'.status == r.status || r'.status.Failed? || r'.status.Routed?
          || (PublishesPlan(r, write) && r'.status.PlanReady? && PublishedSince(r'.ledger, |r.ledger|)))
  {
    PlanningLeavesKernel(r, write);
    var r' := ApplyPlanning(r, write).0;
    if PublishesPlan(r, write) {
      assert r'.ledger[|r'.ledger| - 1].body.PlanAvailable?;
    }
  }

  lemma PlanningKeepsReworked(r: Record, write: PlanningWrite, n: nat)
    requires Told(r) && Reworked(r, n)
    ensures Reworked(Apply(r, Step.Plan(write)), n)
  {
    var r' := Apply(r, Step.Plan(write));
    PlanningStatus(r, write);
    EntriesStay(r.ledger, r'.ledger, n);
    if PublishedSince(r'.ledger, |r.ledger|) {
      var j :| |r.ledger| <= j < |r'.ledger| && r'.ledger[j].body.PlanAvailable?;
      assert PublishedSince(r'.ledger, n);
    }
  }

  lemma StepKeepsReworked(r: Record, step: Step, n: nat)
    requires Told(r) && Reworked(r, n)
    ensures Reworked(Apply(r, step), n)
  {
    var r' := Apply(r, step);
    match step
    case Respond(packet, actor, expected, clash, now) =>
      StoredResponseMoves(r, packet, actor, expected, clash, now);
      if r' != r { ResponseKeepsReworked(r, r', packet, actor, expected, now, n); }
    case Decide(q, expected, id, clash, now) =>
      StoredDecisionMoves(r, q, expected, id, clash, now);
      if r' != r { DecisionKeepsReworked(r, r', q, expected, id, now, n); }
    case BrokerMessage(event, actor, message, expected, now) =>
      StoredMessageMoves(r, event, actor, message, expected, now);
      if r' != r { MessageKeepsReworked(r, r', event, actor, message, expected, n); }
    case Intend(q, id, wrapper, now) => IntentKeepsReworked(r, q, id, wrapper, now, n);
    case Plan(write) => PlanningKeepsReworked(r, write, n);
    case _ => DispatchWritesOnlyDispatches(r, step);
  }

  lemma {:induction false} ReworkedOverRuns(start: Record, steps: seq<Step>, later: seq<Step>, n: nat)
    requires Initial(start) && Reworked(Run(start, steps), n)
    ensures Reworked(Run(Run(start, steps), later), n)
  {
    if later != [] {
      var before := later[..|later| - 1];
      ReworkedOverRuns(start, steps, before, n);
      RunOfConcat(start, steps, before);
      ToldOverRuns(start, steps + before);
      StepKeepsReworked(Run(Run(start, steps), before), later[|later| - 1], n);
    }
  }

  lemma AcceptanceNeedsReview(r: Record, accept: Step)
    requires Told(r) && accept.Decide? && accept.request.decisionType.AcceptCompletionDecision? && Apply(r, accept) != r
    ensures r.status.WaitingForHumanReview?
  {
    StoredDecisionMoves(r, accept.request, accept.expectedVersion, accept.decisionId, accept.clash, accept.now);
  }

  lemma RequestSendsBack(r: Record, review: Step)
    requires Told(r) && review.Respond? && review.packet.responseType.ReviewCompleted?
    requires TextField(review.packet, "outcome") == Some("REVISE") && Apply(r, review) != r
    ensures Reworked(Apply(r, review), |Apply(r, review).ledger|)
  {
    ReviewStep(r, review.packet, review.actor, review.expectedVersion, review.clash, review.now);
  }

  /**
   Main result. Between a stored REVISE review and any later stored accept_completion the work order was
   dispatched again, and by implementation.refine unless planning published a plan in between.
   */
  lemma RevisionIsReworked(start: Record, steps: seq<Step>, review: Step, later: seq<Step>, accept: Step)
    requires Initial(start)
    requires review.Respond? && review.packet.responseType.ReviewCompleted?
    requires TextField(review.packet, "outcome") == Some("REVISE") && Apply(Run(start, steps), review) != Run(start, steps)
    requires accept.Decide? && accept.request.decisionType.AcceptCompletionDecision?
    requires Apply(Run(Run(start, steps + [review]), later), accept) != Run(Run(start, steps + [review]), later)
    ensures
      var n, ledger := |Run(start, steps + [review]).ledger|, Run(Run(start, steps + [review]), later).ledger;
      DispatchedSince(ledger, n) && (RefinedSince(ledger, n) || PublishedSince(ledger, n))
  {
    var all := steps + [review];
    assert all[..|steps|] == steps;
    ToldOverRuns(start, steps);
    RequestSendsBack(Run(start, steps), review);
    ReworkedOverRuns(start, all, later, |Run(start, all).ledger|);
    RunOfConcat(start, all, later);
    ToldOverRuns(start, all + later);
    AcceptanceNeedsReview(Run(Run(start, all), later), accept);
  }

  /** Once a plan is published, no planning transaction publishes another: then it was implementation.refine. */
  lemma PublishedPlanIsNotPublishedAgain(start: Record, steps: seq<Step>, later: seq<Step>)
    requires Initial(start) && PlanLedgerOk(start.ledger) && PlanFromLedger(Run(start, steps)).Some?
    ensures !PublishedSince(Run(Run(start, steps), later).ledger, |Run(start, steps).ledger|)
  {
    PlanSurvives(start, steps);
    PlanSurvives(Run(start, steps), later);
    LedgerGrows(Run(start, steps), later);
    OneAvailable(Run(start, steps).ledger, Run(Run(start, steps), later).ledger);
  }

  lemma StepGrowsLedger(r: Record, step: Step)
    ensures r.ledger <= Apply(r, step).ledger
  {
    match step
    case Respond(_, _, _, _, _) => RespondShape(r, step);
    case Decide(_, _, _, _, _) => DecideShape(r, step);
    case BrokerMessage(_, _, _, _, _) => MessageShape(r, step);
    case Intend(_, _, _, _) => IntendShape(r, step);
    case Plan(write) => PlanningLeavesKernel(r, write);
    case _ => DispatchWritesOnlyDispatches(r, step);
  }

  lemma {:induction false} LedgerGrows(r: Record, later: seq<Step>)
    ensures r.ledger <= Run(r, later).ledger
  {
    if later != [] {
      LedgerGrows(r, later[..|later| - 1]);
      StepGrowsLedger(Run(r, later[..|later| - 1]), later[|later| - 1]);
    }
  }

  lemma {:induction false} OneAvailable(ledger: seq<LedgerEntry>, longer: seq<LedgerEntry>)
    requires ledger <= longer && LatestAvailable(ledger).Some? && AvailableCount(longer) <= 1
    ensures !PublishedSince(longer, |ledger|)
    decreases |longer|
  {
    if |longer| > |ledger| {
      var front := longer[..|longer| - 1];
      OneAvailable(ledger, front);
      AvailableOfExtension(ledger, front);
      assert !longer[|longer| - 1].body.PlanAvailable?;
      forall j | |ledger| <= j < |longer| ensures !longer[j].body.PlanAvailable? {
        assert j < |front| ==> longer[j] == front[j];
      }
    }
  }

  lemma {:induction false} AvailableOfExtension(ledger: seq<LedgerEntry>, longer: seq<LedgerEntry>)
    requires ledger <= longer && LatestAvailable(ledger).Some?
    ensures AvailableCount(longer) >= 1
    decreases |longer|
  {
    CountsMatchLatest(ledger);
    if |longer| == |ledger| {
      assert longer == ledger;
    } else {
      AvailableOfExtension(ledger, longer[..|longer| - 1]);
    }
  }
}
