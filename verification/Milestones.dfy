/** A completed work order went through every gate, in order, and so did its last execution cycle. */
module Milestones {
  import opened Wrappers
  import opened Packets
  import opened Lifecycle
  import opened Broker
  import opened Planning
  import opened Runs
  import opened Chain
  import opened PlanAuthority

  const REQUIRED: seq<LifecycleEvent> :=
    [LifecycleEvent.PlanCompleted, PlanApprovalRequested, ApprovePlan, PlanExecute,
     LifecycleEvent.ExecutionAcknowledged, LifecycleEvent.ExecutionCompleted,
     CompletionReview, LifecycleEvent.ReviewCompleted, AcceptCompletion]

  const AUTHORIZED: seq<LifecycleEvent> :=
    [LifecycleEvent.PlanCompleted, PlanApprovalRequested, ApprovePlan]

  const CYCLE: seq<LifecycleEvent> :=
    [LifecycleEvent.ExecutionAcknowledged, LifecycleEvent.ExecutionCompleted,
     CompletionReview, LifecycleEvent.ReviewCompleted, AcceptCompletion]

  /** `wanted` occurs in `trace` as a subsequence. */
  ghost predicate InOrder(wanted: seq<LifecycleEvent>, trace: seq<LifecycleEvent>) {
    exists at: seq<nat> :: OccursAt(wanted, trace, at)
  }

  ghost predicate OccursAt(wanted: seq<LifecycleEvent>, trace: seq<LifecycleEvent>, at: seq<nat>) {
    && |at| == |wanted|
    && (forall i :: 0 <= i < |at| ==> at[i] < |trace| && trace[at[i]] == wanted[i])
    && (forall i, j :: 0 <= i < j < |at| ==> at[i] < at[j])
  }

  // ---------------------------------------------------------------- a greedy matcher

  /** How many of `wanted` a left-to-right scan of the trace has matched. */
  function Matched(wanted: seq<LifecycleEvent>, trace: seq<LifecycleEvent>): (n: nat)
    ensures n <= |wanted|
  {
    if trace == [] then 0
    else
      var n := Matched(wanted, trace[..|trace| - 1]);
      if n < |wanted| && trace[|trace| - 1] == wanted[n] then n + 1 else n
  }

  lemma MatchedOfAppend(wanted: seq<LifecycleEvent>, trace: seq<LifecycleEvent>, last: LifecycleEvent)
    ensures
      var n := Matched(wanted, trace);
      Matched(wanted, trace + [last]) == if n < |wanted| && last == wanted[n] then n + 1 else n
  {
    assert (trace + [last])[..|trace|] == trace;
  }

  lemma {:induction false} MatchedOccurs(wanted: seq<LifecycleEvent>, trace: seq<LifecycleEvent>) returns (at: seq<nat>)
    ensures OccursAt(wanted[..Matched(wanted, trace)], trace, at)
  {
    if trace == [] {
      at := [];
    } else {
      var front := trace[..|trace| - 1];
      at := MatchedOccurs(wanted, front);
      if Matched(wanted, trace) > Matched(wanted, front) {
        at := at + [|trace| - 1];
      }
    }
  }

  lemma FullyMatched(wanted: seq<LifecycleEvent>, trace: seq<LifecycleEvent>)
    requires Matched(wanted, trace) == |wanted|
    ensures InOrder(wanted, trace)
  {
    var at := MatchedOccurs(wanted, trace);
    assert wanted[..|wanted|] == wanted;
    assert OccursAt(wanted, trace, at);
  }

  lemma {:induction false} CountedIsMatched(trace: seq<LifecycleEvent>)
    requires Count(trace, {LifecycleEvent.PlanCompleted}) >= 1
    ensures Matched(REQUIRED, trace) >= 1 && Matched(AUTHORIZED, trace) >= 1
  {
    var front := trace[..|trace| - 1];
    if trace[|trace| - 1] != LifecycleEvent.PlanCompleted {
      CountedIsMatched(front);
    }
  }

  // ---------------------------------------------------------------- the last execution cycle

  /** The events since the last plan.execute or implementation.refine. */
  function SinceDispatch(trace: seq<LifecycleEvent>): seq<LifecycleEvent> {
    if trace == [] || IsDispatchEvent(trace[|trace| - 1]) then []
    else SinceDispatch(trace[..|trace| - 1]) + [trace[|trace| - 1]]
  }

  /** The events before the last dispatch. */
  function BeforeDispatch(trace: seq<LifecycleEvent>): seq<LifecycleEvent> {
    if trace == [] then []
    else if IsDispatchEvent(trace[|trace| - 1]) then trace[..|trace| - 1]
    else BeforeDispatch(trace[..|trace| - 1])
  }

  lemma {:induction false} SplitAtDispatch(trace: seq<LifecycleEvent>)
    requires exists e <- trace :: IsDispatchEvent(e)
    ensures
      var k := |BeforeDispatch(trace)|;
      && k < |trace| && IsDispatchEvent(trace[k])
      && trace == BeforeDispatch(trace) + [trace[k]] + SinceDispatch(trace)
      && (forall e <- SinceDispatch(trace) :: !IsDispatchEvent(e))
  {
    var front := trace[..|trace| - 1];
    if !IsDispatchEvent(trace[|trace| - 1]) {
      assert trace == front + [trace[|trace| - 1]];
      SplitAtDispatch(front);
    }
  }

  lemma AppendToCycle(trace: seq<LifecycleEvent>, last: LifecycleEvent)
    ensures SinceDispatch(trace + [last]) == if IsDispatchEvent(last) then [] else SinceDispatch(trace) + [last]
    ensures BeforeDispatch(trace + [last]) == if IsDispatchEvent(last) then trace else BeforeDispatch(trace)
  {
    assert (trace + [last])[..|trace|] == trace;
  }

  // ---------------------------------------------------------------- what each state implies

  /** How far along REQUIRED a work order in this state must be. */
  function Rank(status: WorkStatus, s: Snapshot): nat {
    match status
    case PlanReady => if PlanFixed(s) then 1 else 0
    case WaitingForPlanApproval => if PlanFixed(s) then 2 else 0
    case ReadyForExecution => 3
    case ExecutionDispatched => 4
    case Executing => 5
    case WaitingForInput => if s.blockedFrom == Some(Executing) then 5 else 0
    case CompletionReady => 6
    case PlannerReviewing => 7
    case WaitingForHumanReview | RevisionRequired => 8
    case Complete => 9
    case _ => 0
  }

  /** How far along CYCLE. */
  function CycleRank(status: WorkStatus, s: Snapshot): nat {
    match status
    case Executing => 1
    case WaitingForInput => if s.blockedFrom == Some(Executing) then 1 else 0
    case CompletionReady => 2
    case PlannerReviewing => 3
    case WaitingForHumanReview => 4
    case Complete => 5
    case _ => 0
  }

  ghost predicate OnTrack(status: WorkStatus, s: Snapshot, trace: seq<LifecycleEvent>) {
    && Rank(status, s) <= Matched(REQUIRED, trace)
    && CycleRank(status, s) <= Matched(CYCLE, SinceDispatch(trace))
    && (InExecution(status, s) ==>
          Matched(AUTHORIZED, BeforeDispatch(trace)) == 3 && exists e <- trace :: IsDispatchEvent(e))
  }

  /** A kernel transition moves at most one gate forward, through the event of that gate. */
  predicate OneGate(status: WorkStatus, s: Snapshot, t: Transition) {
    && (Rank(t.status, t.snapshot) <= Rank(status, s)
        || (Rank(t.status, t.snapshot) == Rank(status, s) + 1 && t.event == REQUIRED[Rank(status, s)]))
    && (!IsDispatchEvent(t.event) ==>
          || CycleRank(t.status, t.snapshot) <= CycleRank(status, s)
          || (CycleRank(t.status, t.snapshot) == CycleRank(status, s) + 1 && t.event == CYCLE[CycleRank(status, s)]))
    && (IsDispatchEvent(t.event) ==>
          CycleRank(t.status, t.snapshot) == 0 && (status.ReadyForExecution? || status.RevisionRequired?))
    && (InExecution(t.status, t.snapshot) ==> IsDispatchEvent(t.event) || InExecution(status, s))
  }

  lemma ResponseIsOneGate(status: WorkStatus, s: Snapshot, packet: ResponsePacket, actor: string,
                          ds: seq<StoredDecision>, expected: Option<int>, now: int, t: Transition)
    requires ApplyResponse(status, s, packet, actor, ds, expected, now) == Ok(t)
    requires StatusFitsPlan(status, s) && Truthy(packet.contentSha256)
    ensures OneGate(status, s, t)
  {
  }

  lemma BrokerEventIsOneGate(status: WorkStatus, s: Snapshot, event: LifecycleEvent, actor: string, message: string,
                             ds: seq<StoredDecision>, expected: Option<int>, planId: Option<string>,
                             planSha: Option<string>, now: int, t: Transition)
    requires ApplyBrokerEvent(status, s, event, actor, message, ds, expected, planId, planSha, now) == Ok(t)
    requires StatusFitsPlan(status, s)
    requires PlainBrokerEvent(event) || IsDispatchEvent(event)
    ensures OneGate(status, s, t)
  {
  }

  lemma DecisionIsOneGate(status: WorkStatus, s: Snapshot, event: LifecycleEvent, d: StoredDecision,
                          expected: Option<int>, now: int, t: Transition)
    requires ApplyDecision(status, s, event, d, expected, now) == Ok(t)
    requires StatusFitsPlan(status, s)
    ensures OneGate(status, s, t)
  {
  }

  // ---------------------------------------------------------------- one step

  ghost predicate RecordOnTrack(r: Record) {
    OnTrack(r.status, CurrentSnapshot(r), Events(r.ledger))
  }

  lemma GateAdvances(status: WorkStatus, s: Snapshot, t: Transition, trace: seq<LifecycleEvent>)
    requires OnTrack(status, s, trace) && OneGate(status, s, t)
    ensures Rank(t.status, t.snapshot) <= Matched(REQUIRED, trace + [t.event])
    ensures CycleRank(t.status, t.snapshot) <= Matched(CYCLE, SinceDispatch(trace + [t.event]))
  {
    MatchedOfAppend(REQUIRED, trace, t.event);
    MatchedOfAppend(CYCLE, SinceDispatch(trace), t.event);
    AppendToCycle(trace, t.event);
  }

  lemma DispatchWasAuthorized(status: WorkStatus, s: Snapshot, t: Transition, trace: seq<LifecycleEvent>)
    requires OnTrack(status, s, trace) && OneGate(status, s, t) && InExecution(t.status, t.snapshot)
    ensures Matched(AUTHORIZED, BeforeDispatch(trace + [t.event])) == 3
    ensures exists e <- trace + [t.event] :: IsDispatchEvent(e)
  {
    AppendToCycle(trace, t.event);
    AuthorizedIsPrefix(trace);
    if IsDispatchEvent(t.event) {
      assert t.event in trace + [t.event];
    } else {
      var e :| e in trace && IsDispatchEvent(e);
      assert e in trace + [t.event];
    }
  }

  lemma GateKeepsTrack(status: WorkStatus, s: Snapshot, t: Transition, trace: seq<LifecycleEvent>)
    requires OnTrack(status, s, trace) && OneGate(status, s, t)
    ensures OnTrack(t.status, t.snapshot, trace + [t.event])
  {
    GateAdvances(status, s, t, trace);
    if InExecution(t.status, t.snapshot) {
      DispatchWasAuthorized(status, s, t, trace);
    }
  }

  /** AUTHORIZED is a prefix of REQUIRED, so both scans agree on the first three gates. */
  lemma {:induction false} AuthorizedIsPrefix(trace: seq<LifecycleEvent>)
    ensures
      var n := Matched(REQUIRED, trace);
      Matched(AUTHORIZED, trace) == if n < 3 then n else 3
  {
    if trace != [] {
      AuthorizedIsPrefix(trace[..|trace| - 1]);
    }
  }

  lemma StoringKeepsRank(status: WorkStatus, s: Snapshot, parent: string)
    requires StatusFitsPlan(status, s)
    ensures
      var s' := Persisted(s.(currentParentId := parent));
      Rank(status, s') == Rank(status, s) && CycleRank(status, s') == CycleRank(status, s)
      && InExecution(status, s') == InExecution(status, s)
  {
    PersistedKeepsPlan(s, parent);
  }

  lemma AdvanceKeepsTrack(r: Record, r': Record, t: Transition, parent: string)
    requires RecordOnTrack(r) && Advanced(r, r', t, parent) && OneGate(r.status, CurrentSnapshot(r), t)
    requires StatusFitsPlan(t.status, t.snapshot)
    requires CurrentSnapshot(r') == Persisted(t.snapshot.(currentParentId := parent))
    ensures RecordOnTrack(r')
  {
    EventsOfExtension(r.ledger, r'.ledger);
    GateKeepsTrack(r.status, CurrentSnapshot(r), t, Events(r.ledger));
    StoringKeepsRank(t.status, t.snapshot, parent);
  }

  lemma AdvanceSnapshot(r: Record, r': Record, t: Transition, parent: string)
    requires Advanced(r, r', t, parent) && SnapshotTracksLedger(r')
    ensures CurrentSnapshot(r') == Persisted(t.snapshot.(currentParentId := parent))
  {
  }

  lemma RespondKeepsTrack(r: Record, step: Step)
    requires SnapshotTracksLedger(r) && PlanInvariant(r) && RecordOnTrack(r) && step.Respond?
    ensures RecordOnTrack(Apply(r, step))
  {
    RespondShape(r, step);
    StepTracks(r, step);
    if Apply(r, step) != r {
      var t := RespondTransition(r, step).value;
      ResponseKeepsFit(r.status, CurrentSnapshot(r), step.packet, step.actor, Decisions(r.decisions),
                       step.expectedVersion, step.now, t);
      ResponseIsOneGate(r.status, CurrentSnapshot(r), step.packet, step.actor, Decisions(r.decisions),
                        step.expectedVersion, step.now, t);
      AdvanceSnapshot(r, Apply(r, step), t, MessageId(step.packet));
      AdvanceKeepsTrack(r, Apply(r, step), t, MessageId(step.packet));
    }
  }

  lemma DecideKeepsTrack(r: Record, step: Step)
    requires SnapshotTracksLedger(r) && PlanInvariant(r) && RecordOnTrack(r) && step.Decide?
    ensures RecordOnTrack(Apply(r, step))
  {
    DecideShape(r, step);
    StepTracks(r, step);
    if Apply(r, step) != r {
      var t := DecideTransition(r, step).value;
      var event, d := DecisionEvent(step.request.decisionType).value, DecisionOf(r, step.request, step.decisionId, step.now);
      DecisionKeepsFit(r.status, CurrentSnapshot(r), event, d, step.expectedVersion, step.now, t);
      DecisionIsOneGate(r.status, CurrentSnapshot(r), event, d, step.expectedVersion, step.now, t);
      AdvanceSnapshot(r, Apply(r, step), t, CurrentSnapshot(r).currentParentId);
      AdvanceKeepsTrack(r, Apply(r, step), t, CurrentSnapshot(r).currentParentId);
    }
  }

  lemma BrokerAdvanceKeepsTrack(r: Record, r': Record, t: Transition, event: LifecycleEvent, actor: string, message: string,
                                expected: Option<int>, planId: Option<string>, planSha: Option<string>, now: int)
    requires PlanInvariant(r) && RecordOnTrack(r) && SnapshotTracksLedger(r') && Advanced(r, r', t, message)
    requires PlainBrokerEvent(event) || IsDispatchEvent(event)
    requires ApplyBrokerEvent(r.status, CurrentSnapshot(r), event, actor, message, Decisions(r.decisions),
                              expected, planId, planSha, now) == Ok(t)
    ensures RecordOnTrack(r')
  {
    BrokerEventKeepsFit(r.status, CurrentSnapshot(r), event, actor, message, Decisions(r.decisions), expected,
                        planId, planSha, now, t);
    BrokerEventIsOneGate(r.status, CurrentSnapshot(r), event, actor, message, Decisions(r.decisions), expected,
                         planId, planSha, now, t);
    AdvanceSnapshot(r, r', t, message);
    AdvanceKeepsTrack(r, r', t, message);
  }

  lemma MessageKeepsTrack(r: Record, step: Step)
    requires SnapshotTracksLedger(r) && PlanInvariant(r) && RecordOnTrack(r) && step.BrokerMessage?
    ensures RecordOnTrack(Apply(r, step))
  {
    MessageShape(r, step);
    StepTracks(r, step);
    if Apply(r, step) != r {
      BrokerAdvanceKeepsTrack(r, Apply(r, step), MessageTransition(r, step).value, step.event, step.actor, step.messageId,
                              step.expectedVersion, None, None, step.now);
    }
  }

  lemma IntendKeepsTrack(r: Record, step: Step)
    requires SnapshotTracksLedger(r) && PlanInvariant(r) && RecordOnTrack(r) && step.Intend?
    ensures RecordOnTrack(Apply(r, step))
  {
    IntendShape(r, step);
    StepTracks(r, step);
    if Apply(r, step) != r {
      var plan, sha := RequestedPlan(step.intent, CurrentSnapshot(r)), RequestedSha(step.intent, CurrentSnapshot(r));
      BrokerAdvanceKeepsTrack(r, Apply(r, step), IntendTransition(r, step).value, step.intent.event, step.intent.actor,
                              step.dispatchId, step.intent.expectedVersion, plan, sha, step.now);
    }
  }

  lemma PlanningKeepsTrack(r: Record, r': Record)
    requires PlanInvariant(r) && RecordOnTrack(r) && PlanningOnly(r, r')
    ensures RecordOnTrack(r')
  {
    QuietExtension(r.workOrderId, r.ledger, r'.ledger);
    if PlanFixed(CurrentSnapshot(r)) {
      CountedIsMatched(Events(r.ledger));
    }
  }

  lemma StepKeepsTrack(r: Record, step: Step)
    requires SnapshotTracksLedger(r) && PlanInvariant(r) && RecordOnTrack(r)
    ensures RecordOnTrack(Apply(r, step))
  {
    match step
    case Respond(_, _, _, _, _) => RespondKeepsTrack(r, step);
    case Decide(_, _, _, _, _) => DecideKeepsTrack(r, step);
    case BrokerMessage(_, _, _, _, _) => MessageKeepsTrack(r, step);
    case Intend(_, _, _, _) => IntendKeepsTrack(r, step);
    case Plan(write) => PlanningLeavesKernel(r, write); PlanningKeepsTrack(r, Apply(r, step));
    case _ => DispatchWritesOnlyDispatches(r, step);
  }

  // ---------------------------------------------------------------- over runs

  lemma {:induction false} TrackOverRuns(start: Record, steps: seq<Step>)
    requires Initial(start)
    ensures RecordOnTrack(Run(start, steps))
  {
    if steps != [] {
      var before := steps[..|steps| - 1];
      TrackOverRuns(start, before);
      PlanInvariantOverRuns(start, before);
      StepKeepsTrack(Run(start, before), steps[|steps| - 1]);
    }
  }

  ghost predicate PassedEveryGate(trace: seq<LifecycleEvent>) {
    && InOrder(REQUIRED, trace)
    && exists k ::
         && 0 <= k < |trace| && IsDispatchEvent(trace[k])
         && (forall j :: k < j < |trace| ==> !IsDispatchEvent(trace[j]))
         && InOrder(AUTHORIZED, trace[..k])
         && InOrder(CYCLE, trace[k + 1..])
  }

  lemma MatchedPassesEveryGate(trace: seq<LifecycleEvent>)
    requires Matched(REQUIRED, trace) == 9
    requires Matched(CYCLE, SinceDispatch(trace)) == 5
    requires Matched(AUTHORIZED, BeforeDispatch(trace)) == 3
    requires exists e <- trace :: IsDispatchEvent(e)
    ensures PassedEveryGate(trace)
  {
    FullyMatched(REQUIRED, trace);
    SplitAtDispatch(trace);
    var k := |BeforeDispatch(trace)|;
    assert trace[..k] == BeforeDispatch(trace);
    assert trace[k + 1..] == SinceDispatch(trace);
    FullyMatched(AUTHORIZED, BeforeDispatch(trace));
    FullyMatched(CYCLE, SinceDispatch(trace));
    forall j | k < j < |trace| ensures !IsDispatchEvent(trace[j]) {
      assert trace[j] == SinceDispatch(trace)[j - k - 1];
    }
  }

  /**
   Main result. However many questions, rejections, revisions and planning writes occur between,
   a run that ends in COMPLETE contains all nine gates in order. Its last dispatch follows an
   approval of the plan, and everything from execution.acknowledged to accept_completion
   happened again after that dispatch.
   */
  lemma CompletedRunsPassEveryGate(start: Record, steps: seq<Step>)
    requires Initial(start) && Run(start, steps).status.Complete?
    ensures PassedEveryGate(Events(Run(start, steps).ledger))
  {
    TrackOverRuns(start, steps);
    MatchedPassesEveryGate(Events(Run(start, steps).ledger));
  }
}
