/**
 Why the binding of EXECUTING to the latest attempt needs its discipline: a planning refresh that
 publishes a plan during a dispatch lets a second attempt start, and the first worker then binds its
 own run.
 */
module Overtaken {
  import opened Wrappers
  import opened Packets
  import opened Lifecycle
  import opened Broker
  import opened Planning
  import opened Runs
  import opened Outbox
  import opened OutboxSafety
  import opened OutboxBinding
  import opened Refresh
  import Text

  // ---------------------------------------------------------------- the records along the way

  function Snap(parent: string, version: int, plan: Option<string>): Snapshot {
    Snapshot("W", "c", parent, version, {"S", "R", "broker:awr"}, plan, plan, None, None, None, false, None,
             {"S"}, {"R"}, ["W"])
  }

  function Stage(status: WorkStatus, snapshot: Option<Snapshot>, ledger: seq<LedgerEntry>, responses: seq<StoredResponse>,
                 decisions: seq<DecisionRow>, dispatches: seq<Dispatch>): Record
  {
    Record("W", "S", "R", "c", status, snapshot, ledger, responses, decisions, dispatches)
  }

  const FIRST := LedgerEntry(1, "x", EntryBody.ExecutorAcknowledged("", "planning"))

  function Planned(): Record {
    Stage(WorkStatus.Planning, None, [FIRST], [], [], [])
  }

  function PlanPacketP(): ResponsePacket {
    ResponsePacket("awr.response/v1", ResponseType.PlanCompleted, "W", "W", "k", "c", "t", REPORT_ONLY, [], [],
                   None, None, None, None, Some("P"))
  }

  function PlanRow(): StoredResponse {
    StoredResponse("P", "R", "P", PlanPacketP(), ResponseReceipt(ResponseType.PlanCompleted, "P", "P", PlanReady, 2))
  }

  function Approval(id: string): DecisionRequest {
    DecisionRequest(ApprovePlanDecision, "S", OnPlan, "P", "P", "run", "restricted", id, "ok", None)
  }

  lemma PlanIsStored()
    ensures
      Apply(Planned(), Respond(PlanPacketP(), "R", None, false, 0)) ==
      Stage(PlanReady, Some(Snap("P", 2, Some("P"))),
            [FIRST, LedgerEntry(2, "R", ResponseEntry(LifecycleEvent.PlanCompleted, "P", "P"))], [PlanRow()], [], [])
  {
  }

  // ---------------------------------------------------------------- the transactions, on any such record

  predicate Fits(r: Record, status: WorkStatus) {
    && r == Stage(status, r.snapshot, r.ledger, r.responses, r.decisions, r.dispatches)
    && r.snapshot.Some? && r.snapshot.value == Snap(r.snapshot.value.currentParentId, r.snapshot.value.version, Some("P"))
    && PlanningAgent(r.ledger).None? && !CarriesArtifacts(r.ledger)
  }

  lemma AgentOfAppend(ledger: seq<LedgerEntry>, e: LedgerEntry)
    ensures !e.body.ExecutorAcknowledged? ==> PlanningAgent(ledger + [e]) == PlanningAgent(ledger)
    ensures !e.body.BundleValidated? ==> CarriesArtifacts(ledger + [e]) == CarriesArtifacts(ledger)
    ensures !e.body.PlanReceived? ==> LatestReceived(ledger + [e]) == LatestReceived(ledger)
  {
    assert (ledger + [e])[..|ledger|] == ledger;
  }

  lemma RequestTransition(parent: string, version: int, message: string, ds: seq<StoredDecision>)
    ensures ApplyBrokerEvent(PlanReady, Snap(parent, version, Some("P")), PlanApprovalRequested, "S", message, ds, None,
                             None, None, 0)
            == Ok(Transition(WaitingForPlanApproval, Snap(message, version + 1, Some("P")), PlanApprovalRequested))
  {
  }

  lemma SnapIsStoredAsIs(parent: string, version: int)
    ensures Persisted(Snap(parent, version, Some("P"))) == Snap(parent, version, Some("P"))
  {
  }

  lemma FitsSnapshot(r: Record, status: WorkStatus)
    requires Fits(r, status)
    ensures CurrentSnapshot(r) == Snap(r.snapshot.value.currentParentId, r.snapshot.value.version, Some("P"))
  {
  }

  lemma ApprovalIsRequested(r: Record, message: string)
    requires Fits(r, PlanReady)
    ensures
      var r' := Apply(r, BrokerMessage(PlanApprovalRequested, "S", message, None, 0));
      && Fits(r', WaitingForPlanApproval) && LatestReceived(r'.ledger) == LatestReceived(r.ledger)
      && r'.responses == r.responses && r'.decisions == r.decisions && r'.dispatches == r.dispatches
  {
    var s := r.snapshot.value;
    FitsSnapshot(r, PlanReady);
    RequestTransition(s.currentParentId, s.version, message, Decisions(r.decisions));
    SnapIsStoredAsIs(message, s.version + 1);
    AgentOfAppend(r.ledger, LedgerEntry(NextSequence(r.ledger), "S", BrokerEntry(PlanApprovalRequested, message)));
  }

  /** The decisions so far: one or two approvals of plan P with these keys. */
  predicate ApprovedBy(rows: seq<DecisionRow>, ids: seq<string>) {
    |rows| == |ids| && forall i :: 0 <= i < |rows| ==>
      && rows[i].decision.decisionId == ids[i] && rows[i].decision.idempotencyKey == ids[i]
      && ApprovesPlan(rows[i].decision, "P", "P") && !DecisionExpired(rows[i].decision, 0)
  }

  lemma {:induction false} NewKeyIsFree(rows: seq<DecisionRow>, ids: seq<string>, id: string)
    requires ApprovedBy(rows, ids) && id !in ids
    ensures FindDecision(rows, "S", ApprovePlanDecision, id).None?
    ensures forall row <- rows :: row.decision.decisionId != id
  {
    if rows != [] {
      assert rows[0].decision.decisionId == ids[0] && ids[0] in ids;
      NewKeyIsFree(rows[1..], ids[1..], id);
    }
  }

  lemma RationaleIsCompact()
    ensures CompactRationale("ok") && Text.Strip("ok") == "ok"
  {
    Text.TrimOfStripped("ok", Text.Whitespace);
    assert Text.Utf8Length("ok"[1..]) <= 4;
  }

  lemma ApprovalTransition(parent: string, version: int, d: StoredDecision)
    requires d.actor == "S" && d.workOrderId == "W" && d.decisionType.ApprovePlanDecision? && d.expiresAt.None?
    requires d.rationale == "ok" && d.targetId == "P" && d.targetSha256 == "P"
    ensures ApplyDecision(WaitingForPlanApproval, Snap(parent, version, Some("P")), LifecycleEvent.ApprovePlan, d, None, 0)
            == Ok(Transition(ReadyForExecution, Snap(parent, version + 1, Some("P")), LifecycleEvent.ApprovePlan))
  {
    RationaleIsCompact();
  }

  function ApprovalD(id: string): StoredDecision {
    StoredDecision(id, ApprovePlanDecision, "W", "S", OnPlan, "P", "P", "run", "restricted", 0, id, "ok", None)
  }

  lemma DecisionIsApprovalD(r: Record, id: string)
    requires r.workOrderId == "W"
    ensures DecisionOf(r, Approval(id), id, 0) == ApprovalD(id) && CompactRationale(Approval(id).rationale)
    ensures ApprovesPlan(ApprovalD(id), "P", "P")
  {
    RationaleIsCompact();
    assert Text.RemovePrefix("P", "sha256:") == "P";
  }

  lemma ApprovalIsStored(r: Record, ids: seq<string>, id: string)
    requires Fits(r, WaitingForPlanApproval) && ApprovedBy(r.decisions, ids) && id !in ids
    ensures
      var s := r.snapshot.value;
      Apply(r, Decide(Approval(id), None, id, false, 0)) ==
      StoreDecision(r, ApprovalD(id),
                    Transition(ReadyForExecution, Snap(s.currentParentId, s.version + 1, Some("P")), LifecycleEvent.ApprovePlan)).0
  {
    var s := r.snapshot.value;
    NewKeyIsFree(r.decisions, ids, id);
    DecisionIsApprovalD(r, id);
    FitsSnapshot(r, WaitingForPlanApproval);
    ApprovalTransition(s.currentParentId, s.version, ApprovalD(id));
  }

  lemma PlanIsApproved(r: Record, ids: seq<string>, id: string)
    requires Fits(r, WaitingForPlanApproval) && ApprovedBy(r.decisions, ids) && id !in ids
    ensures
      var r' := Apply(r, Decide(Approval(id), None, id, false, 0));
      && Fits(r', ReadyForExecution) && LatestReceived(r'.ledger) == LatestReceived(r.ledger)
      && ApprovedBy(r'.decisions, ids + [id])
      && r'.responses == r.responses && r'.dispatches == r.dispatches
  {
    var s, d := r.snapshot.value, ApprovalD(id);
    ApprovalIsStored(r, ids, id);
    DecisionIsApprovalD(r, id);
    SnapIsStoredAsIs(s.currentParentId, s.version + 1);
    AgentOfAppend(r.ledger, LedgerEntry(NextSequence(r.ledger), "S", DecisionEntry(LifecycleEvent.ApprovePlan, d)));
  }

  function Execute(): IntentRequest {
    IntentRequest(PlanExecute, "S", None, None, None)
  }

  lemma ApprovalIsLive(rows: seq<DecisionRow>, ids: seq<string>)
    requires ApprovedBy(rows, ids) && rows != []
    ensures MatchingPlanApproval(Decisions(rows), "P", "P", 0).Ok?
  {
    assert Decisions(rows)[|rows| - 1] == rows[|rows| - 1].decision;
  }

  lemma ExecuteTransition(parent: string, version: int, id: string, ds: seq<StoredDecision>)
    requires MatchingPlanApproval(ds, "P", "P", 0).Ok?
    ensures ApplyBrokerEvent(ReadyForExecution, Snap(parent, version, Some("P")), PlanExecute, "S", id, ds, None,
                             Some("P"), Some("P"), 0)
            == Ok(Transition(ExecutionDispatched, Snap(id, version + 1, Some("P")), PlanExecute))
  {
  }

  lemma DispatchIsStored(r: Record, ids: seq<string>, id: string, wrapper: string)
    requires Fits(r, ReadyForExecution) && ApprovedBy(r.decisions, ids) && ids != []
    requires forall d <- r.dispatches :: d.dispatchId != id && d.attempt <= |r.dispatches| && d.providerKey.wrapperSha256 != wrapper
    ensures
      var r' := Apply(r, Intend(Execute(), id, wrapper, 0));
      && Fits(r', ExecutionDispatched) && LatestReceived(r'.ledger) == LatestReceived(r.ledger)
      && r'.decisions == r.decisions && r'.responses == r.responses
      && |r'.dispatches| == |r.dispatches| + 1 && r.dispatches <= r'.dispatches
      && r'.dispatches[|r.dispatches|].dispatchId == id && r'.dispatches[|r.dispatches|].providerKey.wrapperSha256 == wrapper
      && r'.dispatches[|r.dispatches|].state.Pending? && r'.dispatches[|r.dispatches|].existingAgentId.None?
      && r'.dispatches[|r.dispatches|].attempt == MaxAttempt(r.dispatches) + 1
  {
    var s := r.snapshot.value;
    ApprovalIsLive(r.decisions, ids);
    FitsSnapshot(r, ReadyForExecution);
    ExecuteTransition(s.currentParentId, s.version, id, Decisions(r.decisions));
    SnapIsStoredAsIs(id, s.version + 1);
    AgentOfAppend(r.ledger, LedgerEntry(NextSequence(r.ledger), "S", IntentEntry(PlanExecute, id, MaxAttempt(r.dispatches) + 1)));
  }

  lemma PlanIsReceived(r: Record, run: PlanningRun)
    requires Fits(r, ExecutionDispatched) && LatestReceived(r.ledger).None?
    ensures
      var r' := Apply(r, Plan(Receive(run)));
      && Fits(r', PlanReady) && r'.decisions == r.decisions && r'.responses == r.responses && r'.dispatches == r.dispatches
  {
    var e := LedgerEntry(NextSequence(r.ledger), run.executor, PlanReceived(PlanIdFor(run.contentSha256), run));
    var ledger := r.ledger + [e];
    AgentOfAppend(r.ledger, e);
    AgentOfAppend(ledger, LedgerEntry(NextSequence(ledger), "broker:awr",
                                      PlanAvailable(PlanIdFor(run.contentSha256), run.contentSha256, e.sequence)));
  }

  // ---------------------------------------------------------------- the run

  function Start(): System {
    System(Planned(), [], map[])
  }

  lemma StartIsQuiet()
    ensures Quiet(Start())
  {
    assert FIRST in Planned().ledger;
  }

  /** The plan is stored and approved, the first attempt dispatched. */
  function ToFirstDispatch(): seq<Move> {
    [Environment(Respond(PlanPacketP(), "R", None, false, 0))]
    + [Environment(BrokerMessage(PlanApprovalRequested, "S", "M1", None, 0))]
    + [Environment(Decide(Approval("D1"), None, "D1", false, 0))]
    + [Environment(Intend(Execute(), "E1", "w1", 0))]
  }

  /** A worker takes it as far as holding the provider's run. */
  function ToHeldRun(): seq<Move> {
    ToFirstDispatch()
    + [Begin(0, "o", "E1")] + [ReadRow(0)] + [ClaimRow(0, 0)] + [Choose(0)]
    + [ProviderAccepts(0, "run")] + [ReplyAccepted(0, "agent")]
  }

  const REFRESHED := PlanningRun("x", "agent", "planning", "text", "digest of the text", None)

  /** A planning refresh publishes its plan, the stored plan is approved again, a second attempt starts. */
  function ToSecondDispatch(): seq<Move> {
    ToHeldRun()
    + [Environment(Plan(Receive(REFRESHED)))]
    + [Environment(BrokerMessage(PlanApprovalRequested, "S", "M2", None, 0))]
    + [Environment(Decide(Approval("D2"), None, "D2", false, 0))]
    + [Environment(Intend(Execute(), "E2", "w2", 0))]
  }

  /** The first worker goes on. */
  function ToAcknowledgement(): seq<Move> {
    ToSecondDispatch() + [Persist(0)] + [Prepare(0, "digest", "t")]
  }

  lemma Then(s: System, moves: seq<Move>, move: Move)
    ensures Play(s, moves + [move]) == Advance(Play(s, moves), move)
  {
    assert (moves + [move])[..|moves|] == moves;
  }

  lemma FirstDispatch()
    ensures
      var s := Play(Start(), ToFirstDispatch());
      && Fits(s.rec, ExecutionDispatched) && LatestReceived(s.rec.ledger).None?
      && ApprovedBy(s.rec.decisions, ["D1"]) && s.rec.responses == [PlanRow()]
      && |s.rec.dispatches| == 1 && s.requests == [] && s.workers == map[]
      && (var d := s.rec.dispatches[0];
          d.dispatchId == "E1" && d.attempt == 1 && d.providerKey.wrapperSha256 == "w1" && d.state.Pending?
          && d.existingAgentId.None? && d.providerRunId.None?)
  {
    var m1 := [Environment(Respond(PlanPacketP(), "R", None, false, 0))];
    var m2 := m1 + [Environment(BrokerMessage(PlanApprovalRequested, "S", "M1", None, 0))];
    var m3 := m2 + [Environment(Decide(Approval("D1"), None, "D1", false, 0))];
    assert m1[..0] == [] && Play(Start(), m1) == Advance(Start(), m1[0]);
    PlanIsStored();
    StoredPlanFits();
    Then(Start(), m1, Environment(BrokerMessage(PlanApprovalRequested, "S", "M1", None, 0)));
    ApprovalIsRequested(Play(Start(), m1).rec, "M1");
    Then(Start(), m2, Environment(Decide(Approval("D1"), None, "D1", false, 0)));
    PlanIsApproved(Play(Start(), m2).rec, [], "D1");
    assert [] + ["D1"] == ["D1"];
    Then(Start(), m3, Environment(Intend(Execute(), "E1", "w1", 0)));
    DispatchIsStored(Play(Start(), m3).rec, ["D1"], "E1", "w1");
    StartIsQuiet();
    SafeAlways(Start(), ToFirstDispatch());
    NoRunYet(Play(Start(), ToFirstDispatch()));
  }

  lemma NoRunYet(s: System)
    requires Safe(s) && s.requests == []
    ensures forall d <- s.rec.dispatches :: d.providerRunId.None?
  {
  }

  lemma StoredPlanFits()
    ensures
      var r := Stage(PlanReady, Some(Snap("P", 2, Some("P"))),
                     [FIRST, LedgerEntry(2, "R", ResponseEntry(LifecycleEvent.PlanCompleted, "P", "P"))], [PlanRow()], [], []);
      Fits(r, PlanReady) && LatestReceived(r.ledger).None?
  {
    var second := LedgerEntry(2, "R", ResponseEntry(LifecycleEvent.PlanCompleted, "P", "P"));
    assert [FIRST, second] == [FIRST] + [second];
    AgentOfAppend([FIRST], second);
    assert [FIRST][..0] == [];
  }

  /** The worker's six moves on a system whose only dispatch is E1, pending. */
  lemma HeldRun()
    ensures
      var s := Play(Start(), ToHeldRun());
      && Fits(s.rec, ExecutionDispatched) && LatestReceived(s.rec.ledger).None?
      && ApprovedBy(s.rec.decisions, ["D1"]) && s.rec.responses == [PlanRow()]
      && |s.rec.dispatches| == 1 && s.rec.dispatches[0].dispatchId == "E1" && s.rec.dispatches[0].attempt == 1
      && s.rec.dispatches[0].providerKey.wrapperSha256 == "w1" && s.rec.dispatches[0].state.Leased?
      && |s.requests| == 1 && s.requests[0].dispatchId == "E1" && s.requests[0].run == Some("run")
      && 0 in s.workers && s.workers[0] == HoldingRun(s.rec.dispatches[0], "agent", "run")
  {
    FirstDispatch();
    var m := ToFirstDispatch();
    var s0 := Play(Start(), m);
    Then(Start(), m, Begin(0, "o", "E1"));
    Then(Start(), m + [Begin(0, "o", "E1")], ReadRow(0));
    Then(Start(), m + [Begin(0, "o", "E1")] + [ReadRow(0)], ClaimRow(0, 0));
    Then(Start(), m + [Begin(0, "o", "E1")] + [ReadRow(0)] + [ClaimRow(0, 0)], Choose(0));
    Then(Start(), m + [Begin(0, "o", "E1")] + [ReadRow(0)] + [ClaimRow(0, 0)] + [Choose(0)], ProviderAccepts(0, "run"));
    Then(Start(), m + [Begin(0, "o", "E1")] + [ReadRow(0)] + [ClaimRow(0, 0)] + [Choose(0)] + [ProviderAccepts(0, "run")],
         ReplyAccepted(0, "agent"));
    ClaimAlone(s0);
    ChooseAlone(Advance(Advance(Advance(s0, Begin(0, "o", "E1")), ReadRow(0)), ClaimRow(0, 0)));
  }

  lemma ClaimAlone(s: System)
    requires |s.rec.dispatches| == 1 && s.rec.dispatches[0].dispatchId == "E1" && s.rec.dispatches[0].state.Pending?
    requires s.workers == map[] && s.requests == []
    ensures
      var s' := Advance(Advance(Advance(s, Begin(0, "o", "E1")), ReadRow(0)), ClaimRow(0, 0));
      && s'.rec == s.rec.(dispatches := s'.rec.dispatches) && |s'.rec.dispatches| == 1 && s'.requests == []
      && (var d, d' := s.rec.dispatches[0], s'.rec.dispatches[0];
          && d' == d.(state := Leased, leaseOwner := Some("o"), leaseExpiresAt := Some(LEASE_TTL), attemptCount := d.attemptCount + 1)
          && 0 in s'.workers && s'.workers[0] == Deciding(d'))
  {
    assert FindDispatch(s.rec.dispatches, "E1") == Some(s.rec.dispatches[0]);
  }

  lemma ChooseAlone(s: System)
    requires 0 in s.workers && s.workers[0].Deciding? && s.requests == []
    requires
      var c := s.workers[0].claimed;
      c.state.Leased? && c.providerRunId.None? && c.existingAgentId.None? && c.dispatchId == "E1"
    ensures
      var s' := Advance(Advance(Advance(s, Choose(0)), ProviderAccepts(0, "run")), ReplyAccepted(0, "agent"));
      && s'.rec == s.rec && |s'.requests| == 1 && s'.requests[0].dispatchId == "E1" && s'.requests[0].run == Some("run")
      && 0 in s'.workers && s'.workers[0] == HoldingRun(s.workers[0].claimed, "agent", "run")
  {
    var c := s.workers[0].claimed;
    var q := Request("E1", c.providerKey, None, None);
    var s1 := Advance(s, Choose(0));
    assert s1.requests == [q] && s1.workers[0] == Awaiting(c, 0);
    assert RunOfKey([q], q.key).None? by { assert [q][1..] == []; }
  }

  lemma FourSteps(s: System, moves: seq<Move>, a: Step, b: Step, c: Step, d: Step)
    requires IsEnvironment(a) && IsEnvironment(b) && IsEnvironment(c) && IsEnvironment(d)
    ensures
      Play(s, moves + [Environment(a)] + [Environment(b)] + [Environment(c)] + [Environment(d)]) ==
      Play(s, moves).(rec := Apply(Apply(Apply(Apply(Play(s, moves).rec, a), b), c), d))
  {
    Then(s, moves, Environment(a));
    Then(s, moves + [Environment(a)], Environment(b));
    Then(s, moves + [Environment(a)] + [Environment(b)], Environment(c));
    Then(s, moves + [Environment(a)] + [Environment(b)] + [Environment(c)], Environment(d));
  }

  /** The record after the refreshed plan and the second request for approval. */
  function Reopened(r: Record): Record {
    Apply(Apply(r, Plan(Receive(REFRESHED))), BrokerMessage(PlanApprovalRequested, "S", "M2", None, 0))
  }

  lemma RecordIsReopened(r: Record)
    requires Fits(r, ExecutionDispatched) && LatestReceived(r.ledger).None?
    ensures Fits(Reopened(r), WaitingForPlanApproval)
    ensures Reopened(r).decisions == r.decisions && Reopened(r).responses == r.responses && Reopened(r).dispatches == r.dispatches
  {
    PlanIsReceived(r, REFRESHED);
    ApprovalIsRequested(Apply(r, Plan(Receive(REFRESHED))), "M2");
  }

  lemma RecordIsReapproved(r: Record)
    requires Fits(r, WaitingForPlanApproval) && ApprovedBy(r.decisions, ["D1"])
    ensures
      var r' := Apply(r, Decide(Approval("D2"), None, "D2", false, 0));
      && Fits(r', ReadyForExecution) && ApprovedBy(r'.decisions, ["D1", "D2"])
      && r'.responses == r.responses && r'.dispatches == r.dispatches
  {
    PlanIsApproved(r, ["D1"], "D2");
    assert ["D1"] + ["D2"] == ["D1", "D2"];
  }

  lemma SecondAttempt(r: Record)
    requires Fits(r, ExecutionDispatched) && LatestReceived(r.ledger).None? && ApprovedBy(r.decisions, ["D1"])
    requires |r.dispatches| == 1 && r.dispatches[0].dispatchId == "E1" && r.dispatches[0].attempt == 1
    requires r.dispatches[0].providerKey.wrapperSha256 == "w1"
    ensures
      var r4 := Apply(Apply(Reopened(r), Decide(Approval("D2"), None, "D2", false, 0)), Intend(Execute(), "E2", "w2", 0));
      && Fits(r4, ExecutionDispatched) && ApprovedBy(r4.decisions, ["D1", "D2"]) && r4.responses == r.responses
      && |r4.dispatches| == 2 && r4.dispatches[0] == r.dispatches[0] && r4.dispatches[1].dispatchId == "E2"
  {
    RecordIsReopened(r);
    RecordIsReapproved(Reopened(r));
    SecondDispatchIsStored(Apply(Reopened(r), Decide(Approval("D2"), None, "D2", false, 0)));
  }

  lemma SecondDispatchIsStored(r: Record)
    requires Fits(r, ReadyForExecution) && ApprovedBy(r.decisions, ["D1", "D2"])
    requires |r.dispatches| == 1 && r.dispatches[0].dispatchId == "E1" && r.dispatches[0].attempt == 1
    requires r.dispatches[0].providerKey.wrapperSha256 == "w1"
    ensures
      var r' := Apply(r, Intend(Execute(), "E2", "w2", 0));
      && Fits(r', ExecutionDispatched) && r'.decisions == r.decisions && r'.responses == r.responses
      && |r'.dispatches| == 2 && r'.dispatches[0] == r.dispatches[0] && r'.dispatches[1].dispatchId == "E2"
  {
    DispatchIsStored(r, ["D1", "D2"], "E2", "w2");
  }

  lemma SecondDispatch()
    ensures
      var s := Play(Start(), ToSecondDispatch());
      && Fits(s.rec, ExecutionDispatched) && ApprovedBy(s.rec.decisions, ["D1", "D2"]) && s.rec.responses == [PlanRow()]
      && |s.rec.dispatches| == 2 && s.rec.dispatches[0].dispatchId == "E1" && s.rec.dispatches[1].dispatchId == "E2"
      && s.rec.dispatches[0].state.Leased?
      && 0 in s.workers && s.workers[0] == HoldingRun(s.rec.dispatches[0], "agent", "run")
  {
    HeldRun();
    FourSteps(Start(), ToHeldRun(), Plan(Receive(REFRESHED)), BrokerMessage(PlanApprovalRequested, "S", "M2", None, 0),
              Decide(Approval("D2"), None, "D2", false, 0), Intend(Execute(), "E2", "w2", 0));
    SecondAttempt(Play(Start(), ToHeldRun()).rec);
  }

  lemma PersistAndPrepare(s: System)
    requires |s.rec.dispatches| == 2 && s.rec.dispatches[0].dispatchId == "E1" && s.rec.dispatches[1].dispatchId == "E2"
    requires s.rec.dispatches[0].state.Leased?
    requires 0 in s.workers && s.workers[0] == HoldingRun(s.rec.dispatches[0], "agent", "run")
    ensures
      var s' := Advance(Advance(s, Persist(0)), Prepare(0, "digest", "t"));
      && s'.rec == s.rec.(dispatches := s'.rec.dispatches) && |s'.rec.dispatches| == 2
      && s'.rec.dispatches[1].dispatchId == "E2"
      && 0 in s'.workers && s'.workers[0].Sending? && s'.workers[0].claimed.dispatchId == "E1"
      && s'.workers[0].packet == AckPacket(s'.rec, s'.workers[0].claimed, "executor", "digest", "t")
  {
    assert FindDispatch(s.rec.dispatches, "E1") == Some(s.rec.dispatches[0]);
  }

  lemma ReadyToAcknowledge()
    ensures
      var s := Play(Start(), ToAcknowledgement());
      && Fits(s.rec, ExecutionDispatched) && ApprovedBy(s.rec.decisions, ["D1", "D2"]) && s.rec.responses == [PlanRow()]
      && |s.rec.dispatches| == 2 && s.rec.dispatches[1].dispatchId == "E2"
      && 0 in s.workers && s.workers[0].Sending? && s.workers[0].claimed.dispatchId == "E1"
      && s.workers[0].packet == AckPacket(s.rec, s.workers[0].claimed, "executor", "digest", "t")
  {
    SecondDispatch();
    var m := ToSecondDispatch();
    Then(Start(), m, Persist(0));
    Then(Start(), m + [Persist(0)], Prepare(0, "digest", "t"));
    PersistAndPrepare(Play(Start(), m));
    FitsAnyRows(Play(Start(), m).rec, Play(Start(), ToAcknowledgement()).rec);
  }

  lemma FitsAnyRows(r: Record, r': Record)
    requires Fits(r, ExecutionDispatched) && r' == r.(dispatches := r'.dispatches)
    ensures Fits(r', ExecutionDispatched)
  {
  }

  /**
   A run in which acknowledgements come only from refresh workers and EXECUTING is nevertheless bound
   to a run that is not one of the latest attempt.
   */
  lemma BoundToAnOvertakenAttempt()
    ensures
      var moves := ToAcknowledgement() + [Send(0, false, 0)];
      var s := Play(Start(), moves);
      && Quiet(Start()) && WorkersAcknowledge(moves)
      && s.rec.status.Executing? && |s.rec.dispatches| == 2 && !BoundToLatest(s.rec, s.requests)
  {
    var m := ToAcknowledgement();
    StartIsQuiet();
    ReadyToAcknowledge();
    Then(Start(), m, Send(0, false, 0));
    SoundAlways(Start(), m);
    var s := Play(Start(), m);
    AcknowledgementIsAccepted(s, s.workers[0].claimed);
    StoredAckBindsLatestIff(Start(), m, s, 0, false, 0);
    SendKeepsRows(s);
    OnlyPlanResponds();
  }

  lemma SendKeepsRows(s: System)
    requires 0 in s.workers && s.workers[0].Sending?
    requires
      var (rec, outcome) := SubmitResponse(s.rec, s.workers[0].packet, s.rec.recipient, None, false, 0);
      outcome.Stored? && rec.dispatches == s.rec.dispatches
    ensures
      var s' := Advance(s, Send(0, false, 0));
      && s' == AfterSend(s, 0, s.workers[0].claimed, s.workers[0].packet, false, 0)
      && s'.rec.dispatches == s.rec.dispatches && s'.requests == s.requests
  {
  }

  lemma OnlyPlanResponds()
    ensures WorkersAcknowledge(ToAcknowledgement() + [Send(0, false, 0)])
  {
  }

  lemma ResponsesHoldNoAck(c: Dispatch)
    ensures FindResponse([PlanRow()], "R", ResponseType.ExecutionAcknowledged, AckKey(c.dispatchId)).None?
    ensures forall row <- [PlanRow()] :: row.packetId != "digest"
  {
    assert [PlanRow()][1..] == [];
    assert PlanRow().packetId == "P";
  }

  lemma AcknowledgementIsAccepted(s: System, c: Dispatch)
    requires Sound(s) && Fits(s.rec, ExecutionDispatched) && s.rec.responses == [PlanRow()]
    requires ApprovedBy(s.rec.decisions, ["D1", "D2"])
    ensures
      var packet := AckPacket(s.rec, c, "executor", "digest", "t");
      var (rec, outcome) := SubmitResponse(s.rec, packet, s.rec.recipient, None, false, 0);
      outcome.Stored? && rec.dispatches == s.rec.dispatches
  {
    var ack := AckInput("executor", "digest", "t", false, 0);
    ApprovalIsLive(s.rec.decisions, ["D1", "D2"]);
    assert ApprovalLive(s.rec, 0);
    ResponsesHoldNoAck(c);
    assert AckUnused(s.rec, c.dispatchId, ack);
    AckIsStoredIff(s.rec, c, ack);
  }
}
