/**
 The transactions of the broker against the documented lifecycle: in every reachable record each of them
 stores exactly what the rows admit, and stores it in full.
 */
module Reference {
  import opened Wrappers
  import opened Packets
  import opened Lifecycle
  import opened Broker
  import opened Planning
  import opened Runs
  import opened Chain
  import opened PlanAuthority
  import opened Replay
  import opened Dispatches
  import opened History
  import opened KernelHistory
  import opened SnapshotHistory
  import Text

  // ---------------------------------------------------------------- approvals

  lemma CoversIsApproves(d: StoredDecision, plan: StoredResponse)
    ensures Covers(d, plan) <==> ApprovesPlan(d, PlanName(plan.packet), plan.contentSha256)
    ensures forall now :: Live(d, now) <==> !DecisionExpired(d, now)
  {
    BareIsRemovePrefix(d.targetSha256);
    BareIsRemovePrefix(plan.contentSha256);
  }

  /** The kernel looks for exactly the approvals that the rows tell. */
  lemma ApprovalIsMatching(r: Record, now: int)
    requires TellsPlan(r) && StoredPlan(r).Some?
    ensures
      var s := CurrentSnapshot(r);
      PlanIsApproved(r, now) <==> MatchingPlanApproval(Decisions(r.decisions), s.planId.value, s.planSha256.value, now).Ok?
  {
    var s, ds := CurrentSnapshot(r), Decisions(r.decisions);
    forall i | 0 <= i < |r.decisions|
      ensures Covers(ds[i], StoredPlan(r).value) <==> ApprovesPlan(ds[i], s.planId.value, s.planSha256.value)
      ensures Live(ds[i], now) <==> !DecisionExpired(ds[i], now)
    {
      CoversIsApproves(ds[i], StoredPlan(r).value);
    }
    if PlanIsApproved(r, now) {
      var i :| 0 <= i < |r.decisions| && Covers(r.decisions[i].decision, StoredPlan(r).value) && Live(r.decisions[i].decision, now);
      assert ds[i] in ds;
    }
  }

  // ---------------------------------------------------------------- responses

  lemma DispatchedHasPlan(r: Record)
    requires Told(r) && r.status.ExecutionDispatched?
    ensures StoredPlan(r).Some?
  {
  }

  lemma AcknowledgementEdge(r: Record, packet: ResponsePacket, to: WorkStatus)
    requires packet.responseType.ExecutionAcknowledged? && Edge(r.status, InputOf(packet), to)
    ensures r.status.ExecutionDispatched?
  {
  }

  lemma SnapshotIdentity(r: Record)
    requires SnapshotTracksLedger(r)
    ensures
      var s := CurrentSnapshot(r);
      && s.workOrderId == r.workOrderId && s.sourceInputSha256 == r.contentSha256
      && s.participants == {r.sender, r.recipient, "broker:awr"} && s.decisionPrincipals == {r.sender}
      && s.version == 1 + |Events(r.ledger)| && s.currentParentId == Tip(r.workOrderId, r.ledger)
      && s.originalLineage != []
  {
  }

  lemma AddressIsTaken(r: Record, packet: ResponsePacket, actor: string, expected: Option<int>)
    requires SnapshotTracksLedger(r)
    ensures Addressed(r, packet, actor, expected) <==> TakesAddress(CurrentSnapshot(r), packet, actor, expected)
  {
    SnapshotIdentity(r);
  }

  lemma RunIsTaken(r: Record, packet: ResponsePacket)
    requires TellsRun(r)
    ensures RunIsKept(r, packet) <==> TakesRun(CurrentSnapshot(r), packet)
  {
  }

  /** Read off the rows or off the snapshot, a response fits or it does not. */
  lemma LeadsIffTakes(r: Record, packet: ResponsePacket, actor: string, expected: Option<int>, now: int, to: WorkStatus)
    requires Told(r)
    ensures ResponseLeads(r, packet, actor, expected, now, to) <==>
            Takes(r.status, CurrentSnapshot(r), packet, actor, Decisions(r.decisions), expected, now, to)
  {
    AddressIsTaken(r, packet, actor, expected);
    RunIsTaken(r, packet);
    if packet.responseType.ExecutionAcknowledged? && Edge(r.status, InputOf(packet), to) {
      AcknowledgementEdge(r, packet, to);
      DispatchedHasPlan(r);
      ApprovalIsMatching(r, now);
    }
  }

  /** submit_response as one condition. */
  lemma SubmitConditions(r: Record, packet: ResponsePacket, actor: string, expected: Option<int>, clash: bool, now: int)
    ensures
      var (r', outcome) := SubmitResponse(r, packet, actor, expected, clash, now);
      var t := ApplyResponse(r.status, CurrentSnapshot(r), packet, actor, Decisions(r.decisions), expected, now);
      && (outcome.Stored? <==>
            && packet.authority == "report_only" && packet.workOrderId == r.workOrderId && Filled(packet.contentSha256) && !clash
            && FindResponse(r.responses, actor, packet.responseType, packet.idempotencyKey).None?
            && (forall row <- r.responses :: row.packetId != MessageId(packet)) && t.Ok?)
      && (outcome.Stored? ==> (r', outcome) == StoreResponse(r, packet, actor, t.value))
      && (!outcome.Stored? ==> r' == r)
  {
  }

  lemma NewIffUnfound(r: Record, packet: ResponsePacket, actor: string)
    ensures ResponseIsNew(r, packet, actor) <==>
            && FindResponse(r.responses, actor, packet.responseType, packet.idempotencyKey).None?
            && forall row <- r.responses :: row.packetId != MessageId(packet)
  {
    FoundRowMatches(r.responses, actor, packet.responseType, packet.idempotencyKey);
    assert MessageId(packet) == MessageOf(packet);
  }

  lemma StoreIsStored(r: Record, packet: ResponsePacket, actor: string, t: Transition)
    requires Filled(packet.contentSha256) && SameName(packet.responseType, t.event)
    ensures
      var (r', outcome) := StoreResponse(r, packet, actor, t);
      outcome.Stored? && ResponseIsStored(r, r', packet, actor, t.status, outcome.receipt)
  {
    assert MessageId(packet) == MessageOf(packet);
  }

  lemma SubmissionAdmits(r: Record, packet: ResponsePacket, actor: string, expected: Option<int>, clash: bool, now: int,
                         to: WorkStatus)
    requires Told(r)
    ensures
      var (r', outcome) := SubmitResponse(r, packet, actor, expected, clash, now);
      ResponseAdmitted(r, packet, actor, expected, clash, now, to) <==> outcome.Stored? && r'.status == to
  {
    SubmitConditions(r, packet, actor, expected, clash, now);
    NewIffUnfound(r, packet, actor);
    LeadsIffTakes(r, packet, actor, expected, now, to);
    KernelTakesResponse(r.status, CurrentSnapshot(r), packet, actor, Decisions(r.decisions), expected, now, to);
  }

  lemma SubmissionIsStored(r: Record, packet: ResponsePacket, actor: string, expected: Option<int>, clash: bool, now: int)
    ensures
      var (r', outcome) := SubmitResponse(r, packet, actor, expected, clash, now);
      if outcome.Stored? then ResponseIsStored(r, r', packet, actor, r'.status, outcome.receipt) else r' == r
  {
    SubmitConditions(r, packet, actor, expected, clash, now);
    var (r', outcome) := SubmitResponse(r, packet, actor, expected, clash, now);
    if outcome.Stored? {
      var t := ApplyResponse(r.status, CurrentSnapshot(r), packet, actor, Decisions(r.decisions), expected, now).value;
      KernelTakesResponse(r.status, CurrentSnapshot(r), packet, actor, Decisions(r.decisions), expected, now, t.status);
      StoreIsStored(r, packet, actor, t);
    }
  }

  /**
   Main result. In every reachable record a response is stored, and moves the work order to `to`, if and
   only if the rows admit it with that edge; then its row, its entry and its receipt say what was stored,
   and otherwise nothing changes.
   */
  lemma ResponseIsStoredIff(start: Record, steps: seq<Step>, packet: ResponsePacket, actor: string, expected: Option<int>,
                            clash: bool, now: int, to: WorkStatus)
    requires Initial(start)
    ensures
      var r := Run(start, steps);
      var (r', outcome) := SubmitResponse(r, packet, actor, expected, clash, now);
      && (ResponseAdmitted(r, packet, actor, expected, clash, now, to) <==> outcome.Stored? && r'.status == to)
      && (if outcome.Stored? then ResponseIsStored(r, r', packet, actor, r'.status, outcome.receipt) else r' == r)
  {
    ToldOverRuns(start, steps);
    SubmissionAdmits(Run(start, steps), packet, actor, expected, clash, now, to);
    SubmissionIsStored(Run(start, steps), packet, actor, expected, clash, now);
  }

  // ---------------------------------------------------------------- decisions

  lemma DecisionIsRequest(r: Record, q: DecisionRequest, decisionId: string, now: int)
    ensures IsDecisionFor(DecisionOf(r, q, decisionId, now), r, q, decisionId, now)
  {
    BareIsRemovePrefix(q.targetSha256);
  }

  /** The transition of a decision that record_decision may store. */
  function DecisionTransition(r: Record, q: DecisionRequest, expected: Option<int>, id: string, now: int)
    : Result<Transition, LifecycleError>
    requires DecisionEvent(q.decisionType).Some?
  {
    ApplyDecision(r.status, CurrentSnapshot(r), DecisionEvent(q.decisionType).value, DecisionOf(r, q, id, now), expected, now)
  }

  /** record_decision as one condition. */
  predicate RecordTakes(r: Record, q: DecisionRequest, expected: Option<int>, id: string, clash: bool, now: int) {
    && DecisionEvent(q.decisionType).Some? && !clash
    && Text.Strip(q.rationale) != "" && Text.Utf8Length(Text.Strip(q.rationale)) <= 512
    && FindDecision(r.decisions, q.actor, q.decisionType, q.idempotencyKey).None?
    && (forall row <- r.decisions :: row.decision.decisionId != id)
    && DecisionTransition(r, q, expected, id, now).Ok?
  }

  lemma RecordConditions(r: Record, q: DecisionRequest, expected: Option<int>, id: string, clash: bool, now: int)
    ensures
      var (r', outcome) := RecordDecision(r, q, expected, id, clash, now);
      && (outcome.Stored? <==> RecordTakes(r, q, expected, id, clash, now))
      && (outcome.Stored? ==>
            (r', outcome) == StoreDecision(r, DecisionOf(r, q, id, now), DecisionTransition(r, q, expected, id, now).value))
      && (!outcome.Stored? ==> r' == r)
  {
  }

  lemma NewDecisionIffUnfound(r: Record, q: DecisionRequest, id: string)
    ensures DecisionIsNew(r, q, id) <==>
            && FindDecision(r.decisions, q.actor, q.decisionType, q.idempotencyKey).None?
            && forall row <- r.decisions :: row.decision.decisionId != id
  {
    FoundDecisionMatches(r.decisions, q.actor, q.decisionType, q.idempotencyKey);
  }

  /** A rationale that is trimmed stays as it is when it is trimmed again. */
  lemma TrimmedTwice(rationale: string)
    ensures Text.Strip(Text.Strip(rationale)) == Text.Strip(rationale)
  {
    var a, b := Text.TrimIsStretch(rationale, Text.Whitespace);
    Text.TrimOfStripped(Text.Strip(rationale), Text.Whitespace);
  }

  /** Who may decide, read off the rows or off the snapshot. */
  predicate DeciderFits(r: Record, q: DecisionRequest, expected: Option<int>, now: int) {
    && q.actor != "" && q.actor == r.sender && q.actor !in Executors(r) && AtVersion(r, expected)
    && (q.expiresAt.Some? ==> now < q.expiresAt.value)
  }

  lemma DeciderIsTaken(r: Record, q: DecisionRequest, expected: Option<int>, id: string, now: int)
    requires Told(r) && Text.Strip(q.rationale) != ""
    ensures DeciderFits(r, q, expected, now) <==> MayDecide(CurrentSnapshot(r), DecisionOf(r, q, id, now), expected, now)
  {
    SnapshotIdentity(r);
    TrimmedTwice(q.rationale);
    assert CurrentSnapshot(r).executorPrincipals == Executors(r);
  }

  lemma TargetIsTaken(r: Record, q: DecisionRequest, id: string, now: int)
    requires TellsPlan(r)
    ensures
      NamesPlanOf(CurrentSnapshot(r), DecisionOf(r, q, id, now)) <==>
      && StoredPlan(r).Some? && q.targetId == PlanName(StoredPlan(r).value.packet)
      && Bare(Bare(q.targetSha256)) == Bare(StoredPlan(r).value.contentSha256)
  {
    BareIsRemovePrefix(q.targetSha256);
  }

  lemma DecisionLeadsIffDecides(r: Record, q: DecisionRequest, expected: Option<int>, id: string, now: int, to: WorkStatus)
    requires Told(r) && Text.Strip(q.rationale) != ""
    ensures DecisionLeads(r, q, expected, now, to) <==>
            Decides(r.status, CurrentSnapshot(r), DecisionOf(r, q, id, now), expected, now, to)
  {
    DeciderIsTaken(r, q, expected, id, now);
    TargetIsTaken(r, q, id, now);
    assert CurrentSnapshot(r).blockedFrom.Some? <==> QuestionOpen(Events(r.ledger));
  }

  lemma UnknownDecisionLeadsNowhere(r: Record, q: DecisionRequest, expected: Option<int>, now: int, to: WorkStatus)
    requires DecisionEvent(q.decisionType).None?
    ensures !DecisionLeads(r, q, expected, now, to)
  {
    NoHumanEdge(r.status, q.decisionType, to);
  }

  /** What the rows admit is what record_decision takes. */
  lemma AdmittedIffTaken(r: Record, q: DecisionRequest, expected: Option<int>, id: string, clash: bool, now: int, to: WorkStatus)
    requires Told(r)
    ensures DecisionAdmitted(r, q, expected, id, clash, now, to) <==>
            && RecordTakes(r, q, expected, id, clash, now)
            && DecisionTransition(r, q, expected, id, now).value.status == to
  {
    NewDecisionIffUnfound(r, q, id);
    if DecisionEvent(q.decisionType).None? {
      UnknownDecisionLeadsNowhere(r, q, expected, now, to);
    } else if Text.Strip(q.rationale) != "" {
      DecisionLeadsIffDecides(r, q, expected, id, now, to);
      KernelTakesDecision(r.status, CurrentSnapshot(r), DecisionOf(r, q, id, now), expected, now, to);
    }
  }

  lemma RecordAdmits(r: Record, q: DecisionRequest, expected: Option<int>, id: string, clash: bool, now: int, to: WorkStatus)
    requires Told(r)
    ensures
      var (r', outcome) := RecordDecision(r, q, expected, id, clash, now);
      DecisionAdmitted(r, q, expected, id, clash, now, to) <==> outcome.Stored? && r'.status == to
  {
    RecordConditions(r, q, expected, id, clash, now);
    AdmittedIffTaken(r, q, expected, id, clash, now, to);
  }

  lemma StoreDecisionIsStored(r: Record, q: DecisionRequest, id: string, now: int, t: Transition)
    requires DecisionName(q.decisionType, t.event)
    ensures
      var (r', outcome) := StoreDecision(r, DecisionOf(r, q, id, now), t);
      outcome.Stored? && DecisionIsStored(r, r', q, id, now, t.status, outcome.receipt)
  {
    DecisionIsRequest(r, q, id, now);
  }

  lemma DecisionEventIsNamed(t: DecisionType)
    requires DecisionEvent(t).Some?
    ensures DecisionName(t, DecisionEvent(t).value) && IsDecisionEvent(DecisionEvent(t).value)
  {
  }

  lemma TransitionIsNamed(r: Record, q: DecisionRequest, expected: Option<int>, id: string, now: int)
    requires DecisionEvent(q.decisionType).Some? && DecisionTransition(r, q, expected, id, now).Ok?
    ensures DecisionName(q.decisionType, DecisionTransition(r, q, expected, id, now).value.event)
  {
    DecisionEventIsNamed(q.decisionType);
    DecisionIsConditions(r.status, CurrentSnapshot(r), DecisionEvent(q.decisionType).value, DecisionOf(r, q, id, now),
                         expected, now, DecisionTransition(r, q, expected, id, now).value.status);
  }

  lemma RecordIsStored(r: Record, q: DecisionRequest, expected: Option<int>, id: string, clash: bool, now: int)
    ensures
      var (r', outcome) := RecordDecision(r, q, expected, id, clash, now);
      if outcome.Stored? then DecisionIsStored(r, r', q, id, now, r'.status, outcome.receipt) else r' == r
  {
    RecordConditions(r, q, expected, id, clash, now);
    var (r', outcome) := RecordDecision(r, q, expected, id, clash, now);
    if outcome.Stored? {
      var t := DecisionTransition(r, q, expected, id, now).value;
      TransitionIsNamed(r, q, expected, id, now);
      StoreDecisionIsStored(r, q, id, now, t);
    }
  }

  /**
   Main result. In every reachable record a decision is stored, and moves the work order to `to`, if and
   only if the rows admit it with that edge: the sender decides and never executed, an approval names the
   stored plan, no question is open at the end. Then row, entry and receipt say what was decided.
   */
  lemma DecisionIsStoredIff(start: Record, steps: seq<Step>, q: DecisionRequest, expected: Option<int>, id: string,
                            clash: bool, now: int, to: WorkStatus)
    requires Initial(start)
    ensures
      var r := Run(start, steps);
      var (r', outcome) := RecordDecision(r, q, expected, id, clash, now);
      && (DecisionAdmitted(r, q, expected, id, clash, now, to) <==> outcome.Stored? && r'.status == to)
      && (if outcome.Stored? then DecisionIsStored(r, r', q, id, now, r'.status, outcome.receipt) else r' == r)
  {
    ToldOverRuns(start, steps);
    RecordAdmits(Run(start, steps), q, expected, id, clash, now, to);
    RecordIsStored(Run(start, steps), q, expected, id, clash, now);
  }

  /** The same decision asked for again: all but its own id and time; the digest may carry its prefix or not. */
  predicate SameRequest(q: DecisionRequest, again: DecisionRequest) {
    && again.targetKind == q.targetKind && again.targetId == q.targetId
    && Bare(Bare(again.targetSha256)) == Bare(Bare(q.targetSha256))
    && again.permittedAction == q.permittedAction && again.scope == q.scope
    && Text.Strip(again.rationale) == Text.Strip(q.rationale) && again.expiresAt == q.expiresAt
  }

  lemma FingerprintTellsRequest(r: Record, q: DecisionRequest, id: string, now: int, again: DecisionRequest, id': string, now': int)
    requires again.actor == q.actor && again.decisionType == q.decisionType && again.idempotencyKey == q.idempotencyKey
    ensures SameRequest(q, again) <==>
            FingerprintDecision(DecisionOf(r, again, id', now')) == FingerprintDecision(DecisionOf(r, q, id, now))
  {
    BareIsRemovePrefix(q.targetSha256);
    BareIsRemovePrefix(Bare(q.targetSha256));
    BareIsRemovePrefix(again.targetSha256);
    BareIsRemovePrefix(Bare(again.targetSha256));
  }

  /**
   Main result. Whatever happened since a decision was stored, a request under its actor, type and key gets the
   stored receipt if and only if it asks for the same decision, is a conflict otherwise, and changes nothing.
   */
  lemma RepeatedDecisionIff(
    r: Record, q: DecisionRequest, expected: Option<int>, id: string, clash: bool, now: int,
    later: seq<Step>, again: DecisionRequest, expected': Option<int>, id': string, clash': bool, now': int)
    requires RecordDecision(r, q, expected, id, clash, now).1.Stored?
    requires Text.Strip(again.rationale) != "" && Text.Utf8Length(Text.Strip(again.rationale)) <= 512
    requires again.actor == q.actor && again.decisionType == q.decisionType && again.idempotencyKey == q.idempotencyKey
    ensures
      var (stored, outcome) := RecordDecision(r, q, expected, id, clash, now);
      var after := Run(stored, later);
      RecordDecision(after, again, expected', id', clash', now') ==
        (after, if SameRequest(q, again) then Replayed(outcome.receipt) else Refused(Kernel(IdempotencyConflict)))
  {
    StoredDecisionReplays(r, q, expected, id, clash, now, later, again, expected', id', clash', now');
    FingerprintTellsRequest(r, q, id, now, again, id', now');
  }

  // ---------------------------------------------------------------- broker messages

  lemma MessageConditions(r: Record, event: LifecycleEvent, actor: string, message: string, expected: Option<int>, now: int)
    ensures
      var (r', outcome) := ApplyBroker(r, event, actor, message, expected, now);
      var t := ApplyBrokerEvent(r.status, CurrentSnapshot(r), event, actor, message, Decisions(r.decisions), expected,
                                None, None, now);
      && (outcome.Stored? <==> PlainBrokerEvent(event) && t.Ok?)
      && (outcome.Stored? ==> MessageIsStored(r, r', event, actor, message, t.value.status, outcome.receipt))
      && (!outcome.Stored? ==> r' == r)
  {
  }

  lemma MessageAdmits(r: Record, event: LifecycleEvent, actor: string, message: string, expected: Option<int>, now: int,
                      to: WorkStatus)
    requires Told(r)
    ensures
      var (r', outcome) := ApplyBroker(r, event, actor, message, expected, now);
      MessageLeads(r, event, actor, expected, to) <==> outcome.Stored? && r'.status == to
  {
    MessageConditions(r, event, actor, message, expected, now);
    SnapshotIdentity(r);
    if PlainBrokerEvent(event) {
      KernelTakesMessage(r.status, CurrentSnapshot(r), event, actor, message, Decisions(r.decisions), expected, now, to);
    }
  }

  /** Main result. The same for broker messages; an answer leads back to where the open question was asked. */
  lemma MessageIsStoredIff(start: Record, steps: seq<Step>, event: LifecycleEvent, actor: string, message: string,
                           expected: Option<int>, now: int, to: WorkStatus)
    requires Initial(start)
    ensures
      var r := Run(start, steps);
      var (r', outcome) := ApplyBroker(r, event, actor, message, expected, now);
      && (MessageLeads(r, event, actor, expected, to) <==> outcome.Stored? && r'.status == to)
      && (if outcome.Stored? then MessageIsStored(r, r', event, actor, message, r'.status, outcome.receipt) else r' == r)
  {
    ToldOverRuns(start, steps);
    MessageAdmits(Run(start, steps), event, actor, message, expected, now, to);
    MessageConditions(Run(start, steps), event, actor, message, expected, now);
  }

  // ---------------------------------------------------------------- dispatches

  lemma {:induction false} ArtifactsAreTold(ledger: seq<LedgerEntry>)
    ensures CarriesArtifacts(ledger) <==> RefersToArtifacts(ledger)
  {
    if ledger != [] && !ledger[|ledger| - 1].body.BundleValidated? {
      var front := ledger[..|ledger| - 1];
      ArtifactsAreTold(front);
      if RefersToArtifacts(front) {
        var i :| 0 <= i < |front| && front[i].body == BundleValidated(true)
                 && forall j :: i < j < |front| ==> !front[j].body.BundleValidated?;
        assert ledger[i] == front[i];
        assert forall j :: i < j < |ledger| ==> !ledger[j].body.BundleValidated?;
      }
      if RefersToArtifacts(ledger) {
        var i :| 0 <= i < |ledger| && ledger[i].body == BundleValidated(true)
                 && forall j :: i < j < |ledger| ==> !ledger[j].body.BundleValidated?;
        assert front[i] == ledger[i];
      }
    } else if ledger != [] {
      LastBundleDecides(ledger);
    }
  }

  lemma LastBundleDecides(ledger: seq<LedgerEntry>)
    requires ledger != [] && ledger[|ledger| - 1].body.BundleValidated?
    ensures RefersToArtifacts(ledger) <==> ledger[|ledger| - 1].body.hasReferences
  {
    var last := |ledger| - 1;
    if ledger[last].body.hasReferences {
      assert ledger[last].body == BundleValidated(true);
    }
  }

  lemma {:induction false} AgentIsTold(ledger: seq<LedgerEntry>)
    ensures PlanningAgent(ledger) == AgentOf(ledger)
  {
    if ledger != [] {
      AgentIsTold(ledger[..|ledger| - 1]);
    }
  }

  lemma LatestOfFront(rows: seq<DecisionRow>, k: nat, plan: StoredResponse, now: int)
    requires rows != [] && IsLatestApproval(rows[..|rows| - 1], k, plan, now)
    requires !(Covers(rows[|rows| - 1].decision, plan) && Live(rows[|rows| - 1].decision, now))
    ensures IsLatestApproval(rows, k, plan, now) && rows[k] == rows[..|rows| - 1][k]
  {
  }

  /** The kernel takes the last approval that covers the plan and is live. */
  lemma {:induction false} ApprovalIsLatest(rows: seq<DecisionRow>, plan: StoredResponse, now: int) returns (k: nat)
    requires MatchingPlanApproval(Decisions(rows), PlanName(plan.packet), plan.contentSha256, now).Ok?
    ensures IsLatestApproval(rows, k, plan, now)
    ensures MatchingPlanApproval(Decisions(rows), PlanName(plan.packet), plan.contentSha256, now).value == rows[k].decision
  {
    var last := |rows| - 1;
    CoversIsApproves(rows[last].decision, plan);
    if Covers(rows[last].decision, plan) && Live(rows[last].decision, now) {
      k := last;
    } else {
      assert Decisions(rows)[..last] == Decisions(rows[..last]);
      k := ApprovalIsLatest(rows[..last], plan, now);
      LatestOfFront(rows, k, plan, now);
    }
  }

  /** The intent transaction as one condition, once the plan it would name is stored. */
  lemma IntentConditions(r: Record, q: IntentRequest, id: string, wrapper: string, now: int)
    ensures
      var (r', outcome) := CommitIntent(r, q, id, wrapper, now);
      var s, ds := CurrentSnapshot(r), Decisions(r.decisions);
      var plan, sha := RequestedPlan(q, s), RequestedSha(q, s);
      var t := ApplyBrokerEvent(r.status, s, q.event, q.actor, id, ds, q.expectedVersion, plan, sha, now);
      && (outcome.Stored? <==>
            && !CarriesArtifacts(r.ledger) && IsDispatchEvent(q.event)
            && !(PendingDispatch(r.dispatches).Some? && r.status.ExecutionDispatched?)
            && Filled(plan) && Filled(sha) && t.Ok?
            && MatchingPlanApproval(ds, Or(t.value.snapshot.planId, plan.value), Or(t.value.snapshot.planSha256, sha.value), now).Ok?
            && (forall d <- r.dispatches ::
                  d.dispatchId != id && d.providerKey != ProviderKey(MaxAttempt(r.dispatches) + 1, sha.value, wrapper)))
      && (outcome.Stored? ==>
            (r', outcome) ==
            StoreIntent(r, q, id, wrapper, plan.value, sha.value,
                        MatchingPlanApproval(ds, Or(t.value.snapshot.planId, plan.value),
                                             Or(t.value.snapshot.planSha256, sha.value), now).value.decisionId, t.value))
      && (!outcome.Stored? ==> r' == r)
  {
  }

  lemma DispatchNeedsPlan(status: WorkStatus, s: Snapshot, event: LifecycleEvent, actor: string, message: string,
                          ds: seq<StoredDecision>, expected: Option<int>, plan: Option<string>, sha: Option<string>, now: int)
    requires IsDispatchEvent(event) && StatusFitsPlan(status, s)
    requires ApplyBrokerEvent(status, s, event, actor, message, ds, expected, plan, sha, now).Ok?
    ensures Filled(s.planId) && Filled(s.planSha256) && !status.ExecutionDispatched?
  {
  }

  /** What the caller names, or else the stored plan. */
  lemma RequestedIsNamed(r: Record, q: IntentRequest)
    requires TellsPlan(r) && StoredPlan(r).Some?
    ensures
      var s := CurrentSnapshot(r);
      RequestedPlan(q, s) == s.planId && RequestedSha(q, s) == s.planSha256 <==> NamesPlan(q, StoredPlan(r).value)
  {
    if Filled(q.planSha256) { BareIsRemovePrefix(q.planSha256.value); }
  }

  lemma IntentAdmitsIffTaken(r: Record, q: IntentRequest, id: string, now: int)
    requires Told(r) && IsDispatchEvent(q.event) && StoredPlan(r).Some?
    ensures
      var s, ds := CurrentSnapshot(r), Decisions(r.decisions);
      var plan, sha := RequestedPlan(q, s), RequestedSha(q, s);
      var t := ApplyBrokerEvent(r.status, s, q.event, q.actor, id, ds, q.expectedVersion, plan, sha, now);
      IntentLeads(r, q, now) <==>
      Filled(plan) && Filled(sha) && t.Ok? && t.value.status.ExecutionDispatched?
  {
    var s, ds := CurrentSnapshot(r), Decisions(r.decisions);
    SnapshotIdentity(r);
    RequestedIsNamed(r, q);
    ApprovalIsMatching(r, now);
    if Filled(RequestedPlan(q, s)) && Filled(RequestedSha(q, s)) {
      KernelTakesDispatch(r.status, s, q.event, q.actor, id, ds, q.expectedVersion, RequestedPlan(q, s), RequestedSha(q, s),
                          now, ExecutionDispatched);
    }
  }

  lemma DispatchLeadsToDispatched(status: WorkStatus, s: Snapshot, event: LifecycleEvent, actor: string, message: string,
                                  ds: seq<StoredDecision>, expected: Option<int>, plan: Option<string>, sha: Option<string>,
                                  now: int)
    requires IsDispatchEvent(event)
    requires ApplyBrokerEvent(status, s, event, actor, message, ds, expected, plan, sha, now).Ok?
    ensures ApplyBrokerEvent(status, s, event, actor, message, ds, expected, plan, sha, now).value.status.ExecutionDispatched?
  {
  }

  /** An accepted intent is for the stored plan, which its approval covers. */
  lemma AcceptedIntent(r: Record, q: IntentRequest, id: string, now: int)
    requires Told(r) && IsDispatchEvent(q.event) && StoredPlan(r).Some?
    requires IntentLeads(r, q, now)
    ensures
      var s, ds := CurrentSnapshot(r), Decisions(r.decisions);
      var plan, sha := RequestedPlan(q, s), RequestedSha(q, s);
      var t := ApplyBrokerEvent(r.status, s, q.event, q.actor, id, ds, q.expectedVersion, plan, sha, now);
      && plan == Some(PlanName(StoredPlan(r).value.packet)) && sha == Some(StoredPlan(r).value.contentSha256)
      && t.Ok? && t.value.event == q.event && t.value.status.ExecutionDispatched?
      && Or(t.value.snapshot.planId, plan.value) == plan.value && Or(t.value.snapshot.planSha256, sha.value) == sha.value
      && MatchingPlanApproval(ds, plan.value, sha.value, now).Ok?
      && !r.status.ExecutionDispatched?
  {
    var s, ds := CurrentSnapshot(r), Decisions(r.decisions);
    IntentAdmitsIffTaken(r, q, id, now);
    RequestedIsNamed(r, q);
    ApprovalIsMatching(r, now);
    KernelTakesDispatch(r.status, s, q.event, q.actor, id, ds, q.expectedVersion, RequestedPlan(q, s), RequestedSha(q, s),
                        now, ExecutionDispatched);
  }

  lemma IntentAdmits(r: Record, q: IntentRequest, id: string, wrapper: string, now: int)
    requires Told(r) && NumberedAttempts(r.dispatches)
    ensures IntentAdmitted(r, q, id, wrapper, now) <==> CommitIntent(r, q, id, wrapper, now).1.Stored?
  {
    var s, ds := CurrentSnapshot(r), Decisions(r.decisions);
    IntentConditions(r, q, id, wrapper, now);
    ArtifactsAreTold(r.ledger);
    MaxOfNumbered(r.dispatches);
    var plan, sha := RequestedPlan(q, s), RequestedSha(q, s);
    if IsDispatchEvent(q.event) {
      if StoredPlan(r).Some? {
        IntentAdmitsIffTaken(r, q, id, now);
        if IntentLeads(r, q, now) {
          AcceptedIntent(r, q, id, now);
        }
      }
      if ApplyBrokerEvent(r.status, s, q.event, q.actor, id, ds, q.expectedVersion, plan, sha, now).Ok? {
        DispatchNeedsPlan(r.status, s, q.event, q.actor, id, ds, q.expectedVersion, plan, sha, now);
        DispatchLeadsToDispatched(r.status, s, q.event, q.actor, id, ds, q.expectedVersion, plan, sha, now);
      }
    }
  }

  lemma StoreIntentIsStored(r: Record, q: IntentRequest, id: string, wrapper: string, now: int, k: nat, t: Transition)
    requires NumberedAttempts(r.dispatches) && StoredPlan(r).Some? && t.event == q.event && t.status.ExecutionDispatched?
    requires k < |r.decisions| && IsLatestApproval(r.decisions, k, StoredPlan(r).value, now)
    ensures
      var plan := StoredPlan(r).value;
      var (r', outcome) := StoreIntent(r, q, id, wrapper, PlanName(plan.packet), plan.contentSha256,
                                       r.decisions[k].decision.decisionId, t);
      outcome.Stored? && IntentIsStored(r, r', q, id, wrapper, now, outcome.receipt)
  {
    MaxOfNumbered(r.dispatches);
    AgentIsTold(r.ledger);
    var plan := StoredPlan(r).value;
    var r' := StoreIntent(r, q, id, wrapper, PlanName(plan.packet), plan.contentSha256, r.decisions[k].decision.decisionId, t).0;
    assert r'.dispatches[|r.dispatches|].approvalDecisionId == r.decisions[k].decision.decisionId;
  }

  lemma IntentIsStoredInFull(r: Record, q: IntentRequest, id: string, wrapper: string, now: int)
    requires Told(r) && NumberedAttempts(r.dispatches) && IntentAdmitted(r, q, id, wrapper, now)
    ensures
      var (r', outcome) := CommitIntent(r, q, id, wrapper, now);
      outcome.Stored? && IntentIsStored(r, r', q, id, wrapper, now, outcome.receipt)
  {
    var s, ds := CurrentSnapshot(r), Decisions(r.decisions);
    IntentAdmits(r, q, id, wrapper, now);
    IntentConditions(r, q, id, wrapper, now);
    AcceptedIntent(r, q, id, now);
    var t := ApplyBrokerEvent(r.status, s, q.event, q.actor, id, ds, q.expectedVersion, RequestedPlan(q, s), RequestedSha(q, s), now);
    var k := ApprovalIsLatest(r.decisions, StoredPlan(r).value, now);
    StoreIntentIsStored(r, q, id, wrapper, now, k, t.value);
  }

  lemma RefusedIntentChangesNothing(r: Record, q: IntentRequest, id: string, wrapper: string, now: int)
    ensures !CommitIntent(r, q, id, wrapper, now).1.Stored? ==> CommitIntent(r, q, id, wrapper, now).0 == r
  {
    IntentConditions(r, q, id, wrapper, now);
  }

  /**
   Main result. In every reachable record an intent is stored if and only if the rows admit it; then the new
   row is the next attempt of the stored plan under its latest live approval, for the planning agent.
   */
  lemma IntentIsStoredIff(start: Record, steps: seq<Step>, q: IntentRequest, id: string, wrapper: string, now: int)
    requires Initial(start)
    ensures
      var r := Run(start, steps);
      var (r', outcome) := CommitIntent(r, q, id, wrapper, now);
      && (IntentAdmitted(r, q, id, wrapper, now) <==> outcome.Stored?)
      && (if outcome.Stored? then IntentIsStored(r, r', q, id, wrapper, now, outcome.receipt) else r' == r)
  {
    ToldOverRuns(start, steps);
    AttemptsOverRuns(start, steps);
    IntentAdmits(Run(start, steps), q, id, wrapper, now);
    if IntentAdmitted(Run(start, steps), q, id, wrapper, now) {
      IntentIsStoredInFull(Run(start, steps), q, id, wrapper, now);
    }
    RefusedIntentChangesNothing(Run(start, steps), q, id, wrapper, now);
  }

  // ---------------------------------------------------------------- what a step that changes the record did

  /** `r'` is `r` with this response stored, along an edge that the rows admit. */
  predicate ResponseMoved(r: Record, r': Record, packet: ResponsePacket, actor: string, expected: Option<int>, now: int) {
    && ResponseLeads(r, packet, actor, expected, now, r'.status)
    && |r'.responses| == |r.responses| + 1
    && ResponseIsStored(r, r', packet, actor, r'.status, r'.responses[|r.responses|].receipt)
  }

  predicate DecisionMoved(r: Record, r': Record, q: DecisionRequest, expected: Option<int>, id: string, now: int) {
    && DecisionLeads(r, q, expected, now, r'.status)
    && |r'.decisions| == |r.decisions| + 1
    && DecisionIsStored(r, r', q, id, now, r'.status, r'.decisions[|r.decisions|].receipt)
  }

  predicate MessageMoved(r: Record, r': Record, event: LifecycleEvent, actor: string, message: string, expected: Option<int>) {
    && MessageLeads(r, event, actor, expected, r'.status)
    && MessageIsStored(r, r', event, actor, message, r'.status, BrokerReceipt(event, r'.status, NextNumber(r), message))
  }

  lemma StoredResponseMoves(r: Record, packet: ResponsePacket, actor: string, expected: Option<int>, clash: bool, now: int)
    requires Told(r)
    ensures
      var r' := Apply(r, Respond(packet, actor, expected, clash, now));
      r' == r || ResponseMoved(r, r', packet, actor, expected, now)
  {
    var (r', outcome) := SubmitResponse(r, packet, actor, expected, clash, now);
    SubmissionAdmits(r, packet, actor, expected, clash, now, r'.status);
    SubmissionIsStored(r, packet, actor, expected, clash, now);
  }

  lemma StoredDecisionMoves(r: Record, q: DecisionRequest, expected: Option<int>, id: string, clash: bool, now: int)
    requires Told(r)
    ensures
      var r' := Apply(r, Decide(q, expected, id, clash, now));
      r' == r || DecisionMoved(r, r', q, expected, id, now)
  {
    var (r', outcome) := RecordDecision(r, q, expected, id, clash, now);
    RecordAdmits(r, q, expected, id, clash, now, r'.status);
    RecordIsStored(r, q, expected, id, clash, now);
  }

  lemma StoredMessageMoves(r: Record, event: LifecycleEvent, actor: string, message: string, expected: Option<int>, now: int)
    requires Told(r)
    ensures
      var r' := Apply(r, BrokerMessage(event, actor, message, expected, now));
      r' == r || MessageMoved(r, r', event, actor, message, expected)
  {
    var (r', outcome) := ApplyBroker(r, event, actor, message, expected, now);
    MessageAdmits(r, event, actor, message, expected, now, r'.status);
    MessageConditions(r, event, actor, message, expected, now);
  }

  /** The last dispatch that is neither acknowledged nor abandoned. */
  predicate IsLastOpen(ds: seq<Dispatch>, i: nat) {
    && i < |ds| && !ds[i].state.Acknowledged? && !ds[i].state.Abandoned?
    && forall j :: i < j < |ds| ==> ds[j].state.Acknowledged? || ds[j].state.Abandoned?
  }

  lemma {:induction false} PendingIsLast(ds: seq<Dispatch>)
    ensures PendingDispatch(ds).None? ==> forall d <- ds :: d.state.Acknowledged? || d.state.Abandoned?
    ensures PendingDispatch(ds).Some? ==> exists i :: 0 <= i < |ds| && IsLastOpen(ds, i) && ds[i] == PendingDispatch(ds).value
  {
    if ds != [] {
      var front, last := ds[..|ds| - 1], ds[|ds| - 1];
      PendingIsLast(front);
      if !Settled(last.state) {
        assert IsLastOpen(ds, |ds| - 1);
      } else if PendingDispatch(ds).Some? {
        var i :| 0 <= i < |front| && IsLastOpen(front, i) && front[i] == PendingDispatch(front).value;
        assert forall j :: i < j < |ds| ==> ds[j] == if j < |front| then front[j] else last;
        assert IsLastOpen(ds, i);
      }
    }
  }

  lemma PendingIsReplayed(r: Record, q: IntentRequest, id: string, wrapper: string, now: int)
    requires r.status.ExecutionDispatched? && !CarriesArtifacts(r.ledger) && IsDispatchEvent(q.event)
    requires PendingDispatch(r.dispatches).Some?
    ensures CommitIntent(r, q, id, wrapper, now) == (r, Replayed(PendingDispatch(r.dispatches).value.receipt))
  {
  }

  /** While a dispatch is open, another intent hands out the receipt of the last open one and changes nothing. */
  lemma OpenDispatchIsReplayed(r: Record, q: IntentRequest, id: string, wrapper: string, now: int, i: nat)
    requires r.status.ExecutionDispatched? && !RefersToArtifacts(r.ledger)
    requires q.event.PlanExecute? || q.event.ImplementationRefine?
    requires IsLastOpen(r.dispatches, i)
    ensures CommitIntent(r, q, id, wrapper, now) == (r, Replayed(r.dispatches[i].receipt))
  {
    ArtifactsAreTold(r.ledger);
    PendingIsLast(r.dispatches);
    assert r.dispatches[i] in r.dispatches;
    var k :| 0 <= k < |r.dispatches| && IsLastOpen(r.dispatches, k) && r.dispatches[k] == PendingDispatch(r.dispatches).value;
    assert k == i;
    PendingIsReplayed(r, q, id, wrapper, now);
  }
}
