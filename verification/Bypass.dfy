/**
 Why implementation.refine is not forced by a request for changes: a planning refresh that publishes a
 plan opens the way through a second approval.
 */
module Bypass {
  import opened Wrappers
  import opened Packets
  import opened Lifecycle
  import opened Broker
  import opened Planning
  import opened Runs
  import opened Chain
  import opened PlanAuthority
  import opened Replay
  import opened Dispatches
  import opened History
  import opened SnapshotHistory
  import opened Reference
  import opened Reviews
  import Text

  // ---------------------------------------------------------------- fresh names

  lemma {:induction false} LongerThanAll(names: set<string>) returns (n: nat)
    ensures forall name <- names :: |name| < n
  {
    n := 1;
    if names != {} {
      var name :| name in names;
      n := LongerThanAll(names - {name});
      n := if |name| < n then n else |name| + 1;
    }
  }

  /** No row uses the name, as an id or as a key. */
  predicate Unused(r: Record, name: string) {
    && name != ""
    && (forall row <- r.responses :: row.packetId != name && row.packet.idempotencyKey != name)
    && (forall row <- r.decisions :: row.decision.decisionId != name && row.decision.idempotencyKey != name)
    && (forall d <- r.dispatches :: d.dispatchId != name)
  }

  lemma UnusedName(r: Record) returns (name: string)
    ensures Unused(r, name)
  {
    var ids := (set row | row in r.responses :: row.packetId) + (set row | row in r.responses :: row.packet.idempotencyKey)
               + (set row | row in r.decisions :: row.decision.decisionId)
               + (set row | row in r.decisions :: row.decision.idempotencyKey) + (set d | d in r.dispatches :: d.dispatchId);
    var n := LongerThanAll(ids);
    name := seq(n + 1, _ => 'n');
    assert forall id <- ids :: |id| < |name|;
    forall row <- r.responses ensures row.packetId in ids && row.packet.idempotencyKey in ids {}
    forall row <- r.decisions ensures row.decision.decisionId in ids && row.decision.idempotencyKey in ids {}
    forall d <- r.dispatches ensures d.dispatchId in ids {}
  }

  // ---------------------------------------------------------------- a record that can go on

  /** The sender may decide, a plan is stored, no question is open, nothing forbids a dispatch. */
  ghost predicate Workable(r: Record) {
    && Told(r) && DispatchesMatchLedger(r)
    && r.sender != "" && r.recipient != "" && r.sender !in Executors(r)
    && StoredPlan(r).Some? && !QuestionOpen(Events(r.ledger)) && !RefersToArtifacts(r.ledger)
  }

  /** Every step of the way: the record stays workable, its plan the same, and it is not refined. */
  ghost predicate GoesOn(r: Record, step: Step, to: WorkStatus) {
    GoesOnAs(r, Apply(r, step), to)
  }

  ghost predicate GoesOnAs(r: Record, r': Record, to: WorkStatus) {
    && Workable(r') && r'.status == to && StoredPlan(r') == StoredPlan(r)
    && r.ledger <= r'.ledger && !RefinedSince(r'.ledger, |r.ledger|) && r.decisions <= r'.decisions
    && r'.sender == r.sender && r'.recipient == r.recipient
  }

  lemma ToldStep(r: Record, step: Step)
    requires Told(r) && DispatchesMatchLedger(r)
    ensures Told(Apply(r, step)) && DispatchesMatchLedger(Apply(r, step))
  {
    StepTracks(r, step);
    StepKeepsPlan(r, step);
    StepTells(r, step);
    StepKeepsDispatches(r, step);
  }

  lemma OneEntryMore(r: Record, r': Record)
    requires r.ledger <= r'.ledger && |r'.ledger| == |r.ledger| + 1 && !r'.ledger[|r.ledger|].body.BundleValidated?
    ensures RefersToArtifacts(r'.ledger) <==> RefersToArtifacts(r.ledger)
    ensures IsLifecycleEntry(r'.ledger[|r.ledger|]) ==>
              Events(r'.ledger) == Events(r.ledger) + [r'.ledger[|r.ledger|].body.event]
    ensures !Refines(r'.ledger[|r.ledger|]) ==> !RefinedSince(r'.ledger, |r.ledger|)
  {
    assert r'.ledger[..|r'.ledger| - 1] == r.ledger;
    ArtifactsAreTold(r.ledger);
    ArtifactsAreTold(r'.ledger);
    EventsOfExtension(r.ledger, r'.ledger);
  }

  // ---------------------------------------------------------------- responses

  function Packet(r: Record, t: ResponseType, payload: seq<Field>, run: Option<string>, name: string): ResponsePacket {
    ResponsePacket(
      "awr.response/v1", t, r.workOrderId, Tip(r.workOrderId, r.ledger), name, r.contentSha256, "t", "report_only",
      payload, [], None, None, run, None, Some(name))
  }

  lemma PacketIsAddressed(r: Record, t: ResponseType, payload: seq<Field>, run: Option<string>, name: string)
    requires Told(r) && r.recipient != "" && Unused(r, name)
    ensures
      var packet := Packet(r, t, payload, run, name);
      && Addressed(r, packet, r.recipient, None) && ResponseIsNew(r, packet, r.recipient)
      && packet.authority == "report_only" && Filled(packet.contentSha256)
  {
  }

  lemma AdmittedReply(r: Record, packet: ResponsePacket, to: WorkStatus)
    requires Workable(r) && ResponseAdmitted(r, packet, r.recipient, None, false, 0, to)
    requires !packet.responseType.PlanCompleted? && !packet.responseType.QuestionBlocked?
    ensures GoesOn(r, Respond(packet, r.recipient, None, false, 0), to)
    ensures packet.responseType.ExecutionAcknowledged? ==>
              StoredAck(Apply(r, Respond(packet, r.recipient, None, false, 0))).Some?
  {
    var step := Respond(packet, r.recipient, None, false, 0);
    SubmissionAdmits(r, packet, r.recipient, None, false, 0, to);
    SubmissionIsStored(r, packet, r.recipient, None, false, 0);
    ToldStep(r, step);
    StepKeepsIdentity(r, step);
    ReplyGoesOn(r, Apply(r, step), packet, to);
  }

  /** A response of the recipient that fits its edge is stored. */
  lemma Reply(r: Record, t: ResponseType, payload: seq<Field>, run: Option<string>, to: WorkStatus) returns (step: Step)
    requires Workable(r) && !t.PlanCompleted? && !t.QuestionBlocked?
    requires forall name :: Edge(r.status, InputOf(Packet(r, t, payload, run, name)), to)
    requires forall name :: RunIsKept(r, Packet(r, t, payload, run, name))
    requires t.ExecutionAcknowledged? ==> PlanIsApproved(r, 0)
    ensures GoesOn(r, step, to)
    ensures t.ExecutionAcknowledged? ==> StoredAck(Apply(r, step)).Some?
  {
    var name := UnusedName(r);
    PacketIsAddressed(r, t, payload, run, name);
    AdmittedReply(r, Packet(r, t, payload, run, name), to);
    step := Respond(Packet(r, t, payload, run, name), r.recipient, None, false, 0);
  }

  lemma ReplyGoesOn(r: Record, r': Record, packet: ResponsePacket, to: WorkStatus)
    requires Workable(r) && Told(r') && DispatchesMatchLedger(r')
    requires exists receipt :: ResponseIsStored(r, r', packet, r.recipient, to, receipt)
    requires r'.sender == r.sender && r'.recipient == r.recipient
    requires !packet.responseType.PlanCompleted? && !packet.responseType.QuestionBlocked?
    ensures Workable(r') && r'.status == to && StoredPlan(r') == StoredPlan(r)
    ensures r.ledger <= r'.ledger && !RefinedSince(r'.ledger, |r.ledger|) && r.decisions <= r'.decisions
    ensures packet.responseType.ExecutionAcknowledged? ==> StoredAck(r').Some?
  {
    var row := r'.responses[|r.responses|];
    RowsAfterResponse(r, r', row);
    OneEntryMore(r, r');
  }

  // ---------------------------------------------------------------- messages, decisions, dispatches

  lemma QuietStepGoesOn(r: Record, step: Step, to: WorkStatus)
    requires Workable(r) && !step.Respond? && Apply(r, step).status == to
    requires Apply(r, step).responses == r.responses
    requires r.ledger <= Apply(r, step).ledger && |Apply(r, step).ledger| == |r.ledger| + 1
    requires
      var e := Apply(r, step).ledger[|r.ledger|];
      IsLifecycleEntry(e) && !Refines(e) && !e.body.BundleValidated? && !e.body.event.QuestionBlocked?
    requires r.decisions <= Apply(r, step).decisions
    ensures GoesOn(r, step, to)
  {
    var r' := Apply(r, step);
    ToldStep(r, step);
    StepKeepsIdentity(r, step);
    OneEntryMore(r, r');
    QuestionOpenOfAppend(Events(r.ledger), r'.ledger[|r.ledger|].body.event);
  }

  lemma Send(r: Record, event: LifecycleEvent, to: WorkStatus) returns (step: Step)
    requires Workable(r) && (event.PlanApprovalRequested? || event.CompletionReview?) && Edge(r.status, Message(event), to)
    ensures GoesOn(r, step, to)
  {
    step := BrokerMessage(event, r.sender, "message", None, 0);
    MessageAdmits(r, event, r.sender, "message", None, 0, to);
    MessageConditions(r, event, r.sender, "message", None, 0);
    QuietStepGoesOn(r, step, to);
  }

  /** A decision of the sender about the stored plan, its digest spelled with the prefix. */
  function Request(r: Record, t: DecisionType, name: string): DecisionRequest
    requires StoredPlan(r).Some?
  {
    DecisionRequest(t, r.sender, OnPlan, PlanName(StoredPlan(r).value.packet),
                    "sha256:" + ("sha256:" + Bare(StoredPlan(r).value.contentSha256)), "run", "restricted", name, "ok", None)
  }

  lemma BareOfPrefixed(digest: string)
    ensures Bare("sha256:" + digest) == digest
  {
  }

  lemma RationaleFits()
    ensures Text.Strip("ok") != "" && Text.Utf8Length(Text.Strip("ok")) <= 512
  {
    Text.TrimOfStripped("ok", Text.Whitespace);
    assert Text.Utf8Length("ok"[1..]) <= 4;
  }

  /** The sender decides along any edge; an approval covers the plan for good. */
  lemma DecideOn(r: Record, t: DecisionType, to: WorkStatus) returns (step: Step)
    requires Workable(r) && Edge(r.status, Human(t), to) && !t.RequestRevisionDecision?
    ensures GoesOn(r, step, to) && (t.ApprovePlanDecision? ==> PlanIsApproved(Apply(r, step), 0))
    ensures step.Decide? && step.request.decisionType == t && Apply(r, step) != r
  {
    var name := UnusedName(r);
    var q := Request(r, t, name);
    step := Decide(q, None, name, false, 0);
    RationaleFits();
    BareOfPrefixed("sha256:" + Bare(StoredPlan(r).value.contentSha256));
    BareOfPrefixed(Bare(StoredPlan(r).value.contentSha256));
    assert DecisionAdmitted(r, q, None, name, false, 0, to);
    AdmittedIsStored(r, q, name, to);
    DecisionIsQuiet(r, q, name, to);
  }

  lemma AdmittedIsStored(r: Record, q: DecisionRequest, name: string, to: WorkStatus)
    requires Told(r) && DecisionAdmitted(r, q, None, name, false, 0, to)
    ensures
      var r' := Apply(r, Decide(q, None, name, false, 0));
      r'.status == to && exists receipt :: DecisionIsStored(r, r', q, name, 0, to, receipt)
  {
    RecordAdmits(r, q, None, name, false, 0, to);
    RecordIsStored(r, q, None, name, false, 0);
  }

  lemma DecisionIsQuiet(r: Record, q: DecisionRequest, name: string, to: WorkStatus)
    requires Workable(r) && StoredPlan(r).Some? && q == Request(r, q.decisionType, name)
    requires Apply(r, Decide(q, None, name, false, 0)).status == to
    requires exists receipt :: DecisionIsStored(r, Apply(r, Decide(q, None, name, false, 0)), q, name, 0, to, receipt)
    ensures GoesOn(r, Decide(q, None, name, false, 0), to)
    ensures q.decisionType.ApprovePlanDecision? ==> PlanIsApproved(Apply(r, Decide(q, None, name, false, 0)), 0)
  {
    var r' := Apply(r, Decide(q, None, name, false, 0));
    QuietStepGoesOn(r, Decide(q, None, name, false, 0), to);
    var row := r'.decisions[|r.decisions|];
    assert row in r'.decisions;
    BareOfPrefixed("sha256:" + Bare(StoredPlan(r).value.contentSha256));
    BareOfPrefixed(Bare(StoredPlan(r).value.contentSha256));
  }

  function ExecuteRequest(r: Record): IntentRequest {
    IntentRequest(PlanExecute, r.sender, None, None, None)
  }

  /** The record after a stored plan.execute, as far as going on is concerned. */
  predicate Dispatched(r: Record, r': Record) {
    && r'.status.ExecutionDispatched? && r'.responses == r.responses && r'.decisions == r.decisions
    && r.ledger <= r'.ledger && |r'.ledger| == |r.ledger| + 1
    && r'.ledger[|r.ledger|].body.IntentEntry? && r'.ledger[|r.ledger|].body.event.PlanExecute?
  }

  lemma ExecuteIsAdmitted(r: Record, name: string, wrapper: string)
    requires Workable(r) && r.status.ReadyForExecution? && PlanIsApproved(r, 0) && Unused(r, name)
    ensures IntentAdmitted(r, ExecuteRequest(r), name, wrapper, 0)
  {
  }

  lemma IntentDispatches(r: Record, r': Record, q: IntentRequest, name: string, wrapper: string, receipt: Receipt)
    requires IntentIsStored(r, r', q, name, wrapper, 0, receipt) && q.event.PlanExecute?
    ensures Dispatched(r, r')
  {
  }

  lemma ExecuteAs(r: Record, step: Step)
    requires Workable(r) && PlanIsApproved(r, 0) && Dispatched(r, Apply(r, step))
    ensures GoesOn(r, step, ExecutionDispatched) && PlanIsApproved(Apply(r, step), 0)
  {
    ToldStep(r, step);
    StepKeepsIdentity(r, step);
    DispatchGoesOn(r, Apply(r, step));
  }

  lemma CommitDispatches(r: Record, name: string, wrapper: string)
    requires Workable(r) && r.status.ReadyForExecution? && PlanIsApproved(r, 0) && Unused(r, name)
    ensures Dispatched(r, CommitIntent(r, ExecuteRequest(r), name, wrapper, 0).0)
  {
    var (r', outcome) := CommitIntent(r, ExecuteRequest(r), name, wrapper, 0);
    ExecuteIsAdmitted(r, name, wrapper);
    IntentIsStoredInFull(r, ExecuteRequest(r), name, wrapper, 0);
    IntentDispatches(r, r', ExecuteRequest(r), name, wrapper, outcome.receipt);
  }

  lemma IntendIsCommit(r: Record, q: IntentRequest, name: string, wrapper: string)
    ensures Apply(r, Intend(q, name, wrapper, 0)) == CommitIntent(r, q, name, wrapper, 0).0
  {
  }

  lemma Execute(r: Record) returns (step: Step)
    requires Workable(r) && r.status.ReadyForExecution? && PlanIsApproved(r, 0)
    ensures GoesOn(r, step, ExecutionDispatched) && PlanIsApproved(Apply(r, step), 0)
  {
    var name := UnusedName(r);
    var wrapper := "wrapper";
    step := Intend(ExecuteRequest(r), name, wrapper, 0);
    CommitDispatches(r, name, wrapper);
    IntendIsCommit(r, ExecuteRequest(r), name, wrapper);
    ExecuteAs(r, step);
  }

  lemma DispatchGoesOn(r: Record, r': Record)
    requires Workable(r) && PlanIsApproved(r, 0) && Dispatched(r, r')
    requires Told(r') && DispatchesMatchLedger(r') && r'.sender == r.sender && r'.recipient == r.recipient
    ensures GoesOnAs(r, r', ExecutionDispatched) && PlanIsApproved(r', 0)
  {
    OneEntryMore(r, r');
    QuestionOpenOfAppend(Events(r.ledger), r'.ledger[|r.ledger|].body.event);
  }

  lemma ApprovalStays(r: Record, r': Record)
    requires PlanIsApproved(r, 0) && StoredPlan(r') == StoredPlan(r) && r.decisions <= r'.decisions
    ensures PlanIsApproved(r', 0)
  {
    var row :| row in r.decisions && Covers(row.decision, StoredPlan(r).value) && Live(row.decision, 0);
    assert row in r'.decisions;
  }

  // ---------------------------------------------------------------- planning publishes

  const RUN := PlanningRun("executor", "agent", "run", "text", "digest", None)

  lemma NoBundleMore(ledger: seq<LedgerEntry>, longer: seq<LedgerEntry>)
    requires ledger <= longer && forall j :: |ledger| <= j < |longer| ==> !longer[j].body.BundleValidated?
    ensures RefersToArtifacts(longer) <==> RefersToArtifacts(ledger)
  {
    if RefersToArtifacts(ledger) {
      var i :| 0 <= i < |ledger| && ledger[i].body == BundleValidated(true)
               && forall j :: i < j < |ledger| ==> !ledger[j].body.BundleValidated?;
      assert longer[i] == ledger[i];
      assert forall j :: i < j < |longer| ==> !longer[j].body.BundleValidated?;
    }
    if RefersToArtifacts(longer) {
      var i :| 0 <= i < |longer| && longer[i].body == BundleValidated(true)
               && forall j :: i < j < |longer| ==> !longer[j].body.BundleValidated?;
      assert ledger[i] == longer[i];
      assert forall j :: i < j < |ledger| ==> ledger[j] == longer[j];
    }
  }

  lemma ReceiveAppendsPlan(r: Record, run: PlanningRun)
    ensures
      var r' := ApplyPlanning(r, Receive(run)).0;
      r.ledger <= r'.ledger
      && forall j :: |r.ledger| <= j < |r'.ledger| ==> r'.ledger[j].body.PlanReceived? || r'.ledger[j].body.PlanAvailable?
  {
  }

  lemma ReceivePublishes(r: Record, run: PlanningRun)
    requires PlanFromLedger(r).None?
    ensures ApplyPlanning(r, Receive(run)).0.status.PlanReady?
  {
  }

  /** The record after a publication, as far as going on is concerned. */
  predicate PublishedAs(r: Record, r': Record) {
    && r'.status.PlanReady? && r'.sender == r.sender && r'.recipient == r.recipient
    && r'.responses == r.responses && r'.decisions == r.decisions && r.ledger <= r'.ledger
    && forall j :: |r.ledger| <= j < |r'.ledger| ==> r'.ledger[j].body.PlanReceived? || r'.ledger[j].body.PlanAvailable?
  }

  lemma ReceiveIsPublished(r: Record, run: PlanningRun)
    requires PlanFromLedger(r).None?
    ensures PublishedAs(r, ApplyPlanning(r, Receive(run)).0)
  {
    PlanningLeavesKernel(r, Receive(run));
    ReceiveAppendsPlan(r, run);
    ReceivePublishes(r, run);
  }

  lemma PlanStepIsPublished(r: Record, run: PlanningRun)
    requires PlanFromLedger(r).None?
    ensures PublishedAs(r, Apply(r, Step.Plan(Receive(run))))
  {
    ReceiveIsPublished(r, run);
  }

  lemma PublishedStepGoesOn(r: Record, step: Step)
    requires Workable(r) && PublishedAs(r, Apply(r, step))
    ensures GoesOn(r, step, PlanReady)
  {
    ToldStep(r, step);
    PublishedGoesOn(r, Apply(r, step));
  }

  lemma Publish(r: Record, run: PlanningRun) returns (step: Step)
    requires Workable(r) && PlanFromLedger(r).None?
    ensures GoesOn(r, step, PlanReady)
  {
    step := Step.Plan(Receive(run));
    PlanStepIsPublished(r, run);
    PublishedStepGoesOn(r, step);
  }

  lemma PublishedGoesOn(r: Record, r': Record)
    requires Workable(r) && Told(r') && DispatchesMatchLedger(r') && PublishedAs(r, r')
    ensures GoesOnAs(r, r', PlanReady)
  {
    NoBundleMore(r.ledger, r'.ledger);
    QuietExtension(r.workOrderId, r.ledger, r'.ledger);
  }

  // ---------------------------------------------------------------- all the way

  /** After `later` the record can still go on, and has not been refined. */
  ghost predicate OnTheWay(r: Record, later: seq<Step>, status: WorkStatus) {
    var r' := Run(r, later);
    && Workable(r') && r'.status == status && r.ledger <= r'.ledger && !RefinedSince(r'.ledger, |r.ledger|)
  }

  lemma Further(r: Record, later: seq<Step>, status: WorkStatus, step: Step, to: WorkStatus)
    requires OnTheWay(r, later, status) && GoesOn(Run(r, later), step, to)
    ensures OnTheWay(r, later + [step], to) && Run(r, later + [step]) == Apply(Run(r, later), step)
  {
    assert (later + [step])[..|later|] == later;
    FurtherAs(r, Run(r, later), Apply(Run(r, later), step), to);
  }

  lemma FurtherAs(r: Record, mid: Record, r': Record, to: WorkStatus)
    requires r.ledger <= mid.ledger && !RefinedSince(mid.ledger, |r.ledger|) && GoesOnAs(mid, r', to)
    ensures Workable(r') && r'.status == to && r.ledger <= r'.ledger && !RefinedSince(r'.ledger, |r.ledger|)
  {
    StillNotRefined(r.ledger, mid.ledger, r'.ledger);
  }

  lemma StillNotRefined(first: seq<LedgerEntry>, ledger: seq<LedgerEntry>, longer: seq<LedgerEntry>)
    requires first <= ledger <= longer && !RefinedSince(ledger, |first|) && !RefinedSince(longer, |ledger|)
    ensures !RefinedSince(longer, |first|)
  {
    forall j | |first| <= j < |longer| ensures !Refines(longer[j]) {
      assert j < |ledger| ==> longer[j] == ledger[j];
    }
  }

  /** From REVISION_REQUIRED through a published plan to a dispatch under a new approval. */
  lemma Redispatched(r: Record) returns (later: seq<Step>)
    requires Workable(r) && r.status.RevisionRequired? && PlanFromLedger(r).None?
    ensures OnTheWay(r, later, ExecutionDispatched) && PlanIsApproved(Run(r, later), 0)
  {
    later := [];
    var step := Publish(r, RUN);
    Further(r, later, RevisionRequired, step, PlanReady);
    later := later + [step];
    step := Send(Run(r, later), PlanApprovalRequested, WaitingForPlanApproval);
    Further(r, later, PlanReady, step, WaitingForPlanApproval);
    later := later + [step];
    step := DecideOn(Run(r, later), ApprovePlanDecision, ReadyForExecution);
    Further(r, later, WaitingForPlanApproval, step, ReadyForExecution);
    later := later + [step];
    step := Execute(Run(r, later));
    Further(r, later, ReadyForExecution, step, ExecutionDispatched);
    later := later + [step];
  }

  /** From a dispatch under a live approval to the gate of the human review. */
  lemma Reviewed(r: Record, before: seq<Step>) returns (later: seq<Step>)
    requires OnTheWay(r, before, ExecutionDispatched) && PlanIsApproved(Run(r, before), 0)
    ensures OnTheWay(r, later, WaitingForHumanReview)
  {
    later := before;
    var step := Reply(Run(r, later), ResponseType.ExecutionAcknowledged, [], Some("run"), Executing);
    Further(r, later, ExecutionDispatched, step, Executing);
    later := later + [step];
    step := Report(Run(r, later));
    Further(r, later, Executing, step, CompletionReady);
    later := later + [step];
    step := Send(Run(r, later), CompletionReview, PlannerReviewing);
    Further(r, later, CompletionReady, step, PlannerReviewing);
    later := later + [step];
    step := Approve(Run(r, later));
    Further(r, later, PlannerReviewing, step, WaitingForHumanReview);
    later := later + [step];
  }

  lemma Report(r: Record) returns (step: Step)
    requires Workable(r) && r.status.Executing? && StoredAck(r).Some?
    ensures GoesOn(r, step, CompletionReady)
  {
    step := Reply(r, ResponseType.ExecutionCompleted, [], RunBound(StoredAck(r).value.packet), CompletionReady);
  }

  lemma Approve(r: Record) returns (step: Step)
    requires Workable(r) && r.status.PlannerReviewing?
    ensures GoesOn(r, step, WaitingForHumanReview)
  {
    step := Reply(r, ResponseType.ReviewCompleted, [Field("outcome", Str("APPROVED"))], None, WaitingForHumanReview);
  }

  /** A stored accept_completion after `later`. */
  predicate Accepts(r: Record, later: seq<Step>, accept: Step) {
    && accept.Decide? && accept.request.decisionType.AcceptCompletionDecision?
    && Apply(Run(r, later), accept) != Run(r, later)
  }

  lemma RefineIsBypassed(r: Record) returns (later: seq<Step>, accept: Step)
    requires Workable(r) && r.status.RevisionRequired? && PlanFromLedger(r).None?
    ensures Accepts(r, later, accept) && !RefinedSince(Run(r, later).ledger, |r.ledger|)
  {
    later := Redispatched(r);
    later := Reviewed(r, later);
    accept := DecideOn(Run(r, later), AcceptCompletionDecision, Complete);
  }

  /** Every way to completion refines first. */
  ghost predicate RefineIsForced(r: Record) {
    forall later, accept :: Accepts(r, later, accept) ==> RefinedSince(Run(r, later).ledger, |r.ledger|)
  }

  /**
   Main result. In a reachable REVISION_REQUIRED record that can still be completed, implementation.refine is
   forced before any accept_completion if and only if the planning plan has been published already.
   */
  lemma RefineIsForcedIff(start: Record, steps: seq<Step>)
    requires Initial(start) && PlanLedgerOk(start.ledger)
    requires Workable(Run(start, steps)) && Run(start, steps).status.RevisionRequired?
    ensures RefineIsForced(Run(start, steps)) <==> PlanFromLedger(Run(start, steps)).Some?
  {
    var r := Run(start, steps);
    if PlanFromLedger(r).Some? {
      forall later, accept | Accepts(r, later, accept) ensures RefinedSince(Run(r, later).ledger, |r.ledger|) {
        PublishedPlanIsRefined(start, steps, later, accept);
      }
    } else {
      var later, accept := RefineIsBypassed(r);
    }
  }

  lemma PublishedPlanIsRefined(start: Record, steps: seq<Step>, later: seq<Step>, accept: Step)
    requires Initial(start) && PlanLedgerOk(start.ledger) && PlanFromLedger(Run(start, steps)).Some?
    requires Run(start, steps).status.RevisionRequired? && Accepts(Run(start, steps), later, accept)
    ensures RefinedSince(Run(Run(start, steps), later).ledger, |Run(start, steps).ledger|)
  {
    var r := Run(start, steps);
    ReworkedOverRuns(start, steps, later, |r.ledger|);
    PublishedPlanIsNotPublishedAgain(start, steps, later);
    RunOfConcat(start, steps, later);
    ToldOverRuns(start, steps + later);
    AcceptanceNeedsReview(Run(r, later), accept);
  }
}
