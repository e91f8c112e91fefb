/** What of a decision's target the broker looks at, and where a wrong one leads. */
module Targets {
  import opened Wrappers
  import opened Packets
  import opened Lifecycle
  import opened Broker
  import opened Planning
  import opened Runs
  import opened Chain
  import opened Dispatches
  import opened History
  import opened KernelHistory
  import opened SnapshotHistory
  import opened Reference

  /** The same request, aimed at something else. */
  function Aimed(q: DecisionRequest, kind: TargetKind, targetId: string, targetSha256: string): DecisionRequest {
    q.(targetKind := kind, targetId := targetId, targetSha256 := targetSha256)
  }

  /** The decision is stored, and moves the work order to `to`. */
  predicate StoredTo(r: Record, q: DecisionRequest, expected: Option<int>, id: string, clash: bool, now: int, to: WorkStatus) {
    var (r', outcome) := RecordDecision(r, q, expected, id, clash, now);
    outcome.Stored? && r'.status == to
  }

  /**
   Main result. Of a decision that is not an approval the target is not looked at: in every reachable record it is
   stored whatever it is aimed at, or not at all.
   */
  lemma OtherTargetsAreIgnored(start: Record, steps: seq<Step>, q: DecisionRequest, expected: Option<int>, id: string,
                               clash: bool, now: int, to: WorkStatus, kind: TargetKind, targetId: string, targetSha256: string)
    requires Initial(start) && !q.decisionType.ApprovePlanDecision?
    ensures
      var r := Run(start, steps);
      StoredTo(r, q, expected, id, clash, now, to) <==>
      StoredTo(r, Aimed(q, kind, targetId, targetSha256), expected, id, clash, now, to)
  {
    var r, q' := Run(start, steps), Aimed(q, kind, targetId, targetSha256);
    DecisionIsStoredIff(start, steps, q, expected, id, clash, now, to);
    DecisionIsStoredIff(start, steps, q', expected, id, clash, now, to);
    SameButTarget(r, q, q', expected, id, clash, now, to);
  }

  lemma SameButTarget(r: Record, q: DecisionRequest, q': DecisionRequest, expected: Option<int>, id: string, clash: bool,
                      now: int, to: WorkStatus)
    requires q' == Aimed(q, q'.targetKind, q'.targetId, q'.targetSha256)
    requires q.decisionType.ApprovePlanDecision? ==> q'.targetId == q.targetId && Bare(Bare(q'.targetSha256)) == Bare(Bare(q.targetSha256))
    ensures DecisionAdmitted(r, q, expected, id, clash, now, to) <==> DecisionAdmitted(r, q', expected, id, clash, now, to)
  {
  }

  /** Of an approval the id and the digest count, not the kind. */
  lemma ApprovalKindIsIgnored(start: Record, steps: seq<Step>, q: DecisionRequest, expected: Option<int>, id: string,
                              clash: bool, now: int, to: WorkStatus, kind: TargetKind)
    requires Initial(start)
    ensures
      var r := Run(start, steps);
      StoredTo(r, q, expected, id, clash, now, to) <==> StoredTo(r, q.(targetKind := kind), expected, id, clash, now, to)
  {
    var r, q' := Run(start, steps), q.(targetKind := kind);
    DecisionIsStoredIff(start, steps, q, expected, id, clash, now, to);
    DecisionIsStoredIff(start, steps, q', expected, id, clash, now, to);
    SameButTarget(r, q, q', expected, id, clash, now, to);
  }

  // ---------------------------------------------------------------- where an approval of another kind leads

  /** No stored approval is aimed at a plan. */
  predicate NoPlanKind(r: Record) {
    forall row <- r.decisions :: row.decision.decisionType.ApprovePlanDecision? ==> !row.decision.targetKind.OnPlan?
  }

  /** Ready for execution on the strength of approvals that no dispatch accepts. */
  predicate Stuck(r: Record) {
    r.status.ReadyForExecution? && NoPlanKind(r)
  }

  lemma IntentIsRefusedWhenStuck(r: Record, q: IntentRequest, id: string, wrapper: string, now: int)
    requires Told(r) && DispatchesMatchLedger(r) && Stuck(r)
    ensures Apply(r, Intend(q, id, wrapper, now)) == r
  {
    IntentAdmits(r, q, id, wrapper, now);
    RefusedIntentChangesNothing(r, q, id, wrapper, now);
  }

  lemma ResponseIsRefusedWhenStuck(r: Record, packet: ResponsePacket, actor: string, expected: Option<int>, clash: bool, now: int)
    requires Told(r) && Stuck(r)
    ensures Apply(r, Respond(packet, actor, expected, clash, now)) == r
  {
    StoredResponseMoves(r, packet, actor, expected, clash, now);
  }

  lemma MessageIsRefusedWhenStuck(r: Record, event: LifecycleEvent, actor: string, message: string, expected: Option<int>, now: int)
    requires Told(r) && Stuck(r)
    ensures Apply(r, BrokerMessage(event, actor, message, expected, now)) == r
  {
    StoredMessageMoves(r, event, actor, message, expected, now);
  }

  lemma OnlyCancelIsStoredWhenStuck(r: Record, q: DecisionRequest, expected: Option<int>, id: string, clash: bool, now: int)
    requires Told(r) && Stuck(r)
    ensures
      var r' := Apply(r, Decide(q, expected, id, clash, now));
      r' == r || (q.decisionType.CancelDecision? && r'.status.Cancelled?)
  {
    StoredDecisionMoves(r, q, expected, id, clash, now);
    var r' := Apply(r, Decide(q, expected, id, clash, now));
    if r' != r { OnlyCancelLeavesReady(r, r', q, expected, id, now); }
  }

  lemma OnlyCancelLeavesReady(r: Record, r': Record, q: DecisionRequest, expected: Option<int>, id: string, now: int)
    requires r.status.ReadyForExecution? && DecisionMoved(r, r', q, expected, id, now)
    ensures q.decisionType.CancelDecision? && r'.status.Cancelled?
  {
  }

  /**
   Main result. An approval whose kind is not the plan makes the work order READY_FOR_EXECUTION for nothing: no
   intent, response or message is stored any more and no other approval can be given; only a cancellation, and
   planning, lead on.
   */
  lemma WrongKindIsStuck(start: Record, steps: seq<Step>, step: Step)
    requires Initial(start) && Stuck(Run(start, steps)) && !step.Plan?
    ensures
      var r' := Apply(Run(start, steps), step);
      Stuck(r') || (step.Decide? && step.request.decisionType.CancelDecision? && r'.status.Cancelled?)
  {
    var r := Run(start, steps);
    ToldOverRuns(start, steps);
    AttemptsOverRuns(start, steps);
    match step
    case Respond(packet, actor, expected, clash, now) => ResponseIsRefusedWhenStuck(r, packet, actor, expected, clash, now);
    case Decide(q, expected, id, clash, now) => OnlyCancelIsStoredWhenStuck(r, q, expected, id, clash, now);
    case BrokerMessage(event, actor, message, expected, now) => MessageIsRefusedWhenStuck(r, event, actor, message, expected, now);
    case Intend(q, id, wrapper, now) => IntentIsRefusedWhenStuck(r, q, id, wrapper, now);
    case _ => DispatchWritesOnlyDispatches(r, step);
  }

  lemma WrongKindMoves(r: Record, r': Record, q: DecisionRequest, expected: Option<int>, id: string, now: int)
    requires DecisionMoved(r, r', q, expected, id, now) && q.decisionType.ApprovePlanDecision? && !q.targetKind.OnPlan?
    requires NoPlanKind(r)
    ensures Stuck(r')
  {
    var row := r'.decisions[|r.decisions|];
    assert r'.decisions == r.decisions + [row];
  }

  /** And it comes to that wherever a right approval could have been stored as the first one of its kind. */
  lemma WrongKindGetsStuck(start: Record, steps: seq<Step>, q: DecisionRequest, expected: Option<int>, id: string, clash: bool,
                           now: int, kind: TargetKind)
    requires Initial(start) && q.decisionType.ApprovePlanDecision? && !kind.OnPlan? && NoPlanKind(Run(start, steps))
    requires StoredTo(Run(start, steps), q, expected, id, clash, now, ReadyForExecution)
    ensures Stuck(Apply(Run(start, steps), Decide(q.(targetKind := kind), expected, id, clash, now)))
  {
    var r, q' := Run(start, steps), q.(targetKind := kind);
    ApprovalKindIsIgnored(start, steps, q, expected, id, clash, now, ReadyForExecution, kind);
    ToldOverRuns(start, steps);
    RecordIsStored(r, q', expected, id, clash, now);
    StoredDecisionMoves(r, q', expected, id, clash, now);
    WrongKindMoves(r, Apply(r, Decide(q', expected, id, clash, now)), q', expected, id, now);
  }
}
