/**
 The documentation lists question.blocked among the responses that must name the bound run. The kernel
 does not check it, and it is the only response accepted in EXECUTING that is free to name any run.
 */
module UncheckedQuestion {
  import opened Wrappers
  import opened Packets
  import opened Lifecycle
  import opened Broker
  import opened Runs
  import opened Chain
  import opened BoundRun
  import opened Replay
  import opened Outbox
  import opened OutboxBinding
  import opened Overtaken
  import opened Refresh

  // ---------------------------------------------------------------- a question does not depend on a run

  /** Whatever run a question names, in its envelope or its payload, the kernel answers the same. */
  lemma QuestionIgnoresRun(status: WorkStatus, s: Snapshot, packet: ResponsePacket, actor: string,
                           ds: seq<StoredDecision>, expected: Option<int>, now: int,
                           run: Option<string>, payload: seq<Field>)
    requires packet.responseType.QuestionBlocked?
    ensures ApplyResponse(status, s, packet.(executorRunId := run, payload := payload), actor, ds, expected, now)
            == ApplyResponse(status, s, packet, actor, ds, expected, now)
  {
  }

  function QuestionNaming(r: Record, run: string, key: string, digest: string): ResponsePacket {
    var s := CurrentSnapshot(r);
    ResponsePacket(
      "awr.response/v1", ResponseType.QuestionBlocked, r.workOrderId, s.currentParentId, key, s.sourceInputSha256, "t", REPORT_ONLY,
      [Field("questions", List([Obj(map["id" := Str("Q1"), "text" := Str("Which?")])]))],
      [], None, None, Some(run), None, Some(digest))
  }

  lemma QuestionIsAccepted(s: Snapshot, packet: ResponsePacket, actor: string, ds: seq<StoredDecision>, now: int)
    requires packet.responseType.QuestionBlocked? && packet.actor.None? && KnownActor(actor, s)
    requires packet.workOrderId == s.workOrderId && packet.inReplyTo == s.currentParentId
    requires packet.sourceInputSha256 == s.sourceInputSha256
    ensures ApplyResponse(Executing, s, packet, actor, ds, None, now).Ok?
    ensures ApplyResponse(Executing, s, packet, actor, ds, None, now).value.status.WaitingForInput?
  {
  }

  /** In every EXECUTING record a new question is stored, whatever run it names. */
  lemma QuestionOfAnyRunIsStored(r: Record, run: string, key: string, digest: string)
    requires SnapshotTracksLedger(r) && r.status.Executing? && r.recipient != "" && digest != ""
    requires FindResponse(r.responses, r.recipient, ResponseType.QuestionBlocked, key).None?
    requires forall row <- r.responses :: row.packetId != digest
    ensures
      var (r', outcome) := SubmitResponse(r, QuestionNaming(r, run, key, digest), r.recipient, None, false, 0);
      outcome.Stored? && r' != r && r'.status.WaitingForInput?
  {
    var packet := QuestionNaming(r, run, key, digest);
    QuestionIsAccepted(CurrentSnapshot(r), packet, r.recipient, Decisions(r.decisions), 0);
    SubmitStoresIff(r, packet, r.recipient, false, 0);
  }

  // ---------------------------------------------------------------- a reachable record

  lemma NoQuestionYet(rows: seq<StoredResponse>, key: string)
    requires |rows| == 2 && !rows[0].packet.responseType.QuestionBlocked? && !rows[1].packet.responseType.QuestionBlocked?
    ensures FindResponse(rows, "R", ResponseType.QuestionBlocked, key).None?
  {
    FoundRowMatches(rows, "R", ResponseType.QuestionBlocked, key);
  }

  lemma AcknowledgedRows(r: Record, step: Step)
    requires r.responses == [PlanRow()] && step.Respond? && step.packet.responseType.ExecutionAcknowledged?
    requires MessageId(step.packet) == "digest" && Apply(r, step) != r
    ensures
      var rows := Apply(r, step).responses;
      && |rows| == 2 && rows[0] == PlanRow() && rows[1].packet == step.packet && rows[1].packetId == "digest"
      && Apply(r, step).recipient == r.recipient
  {
    RespondShape(r, step);
  }

  lemma FreshNames(rows: seq<StoredResponse>)
    requires |rows| == 2 && rows[0] == PlanRow() && rows[1].packetId == "digest"
    ensures forall row <- rows :: row.packetId != "q"
  {
    assert |"digest"| != |"q"| && "P"[0] != "q"[0];
  }

  /** A run that ends in EXECUTING with a plan and an acknowledgement stored. */
  lemma ReachesExecuting() returns (steps: seq<Step>)
    ensures Initial(Planned())
    ensures
      var r := Run(Planned(), steps);
      && r.status.Executing? && r.recipient == "R"
      && FindResponse(r.responses, "R", ResponseType.QuestionBlocked, "q").None?
      && (forall row <- r.responses :: row.packetId != "q")
  {
    var m := ToAcknowledgement();
    var s := Play(Start(), m);
    StartIsQuiet();
    ReadyToAcknowledge();
    SoundAlways(Start(), m);
    var c := s.workers[0].claimed;
    AcknowledgementIsAccepted(s, c);
    steps := PlayIsRun(Start(), m);
    var step := Respond(AckPacket(s.rec, c, "executor", "digest", "t"), "R", None, false, 0);
    AcknowledgementExecutes(s.rec, step);
    AcknowledgedRows(s.rec, step);
    NoQuestionYet(Apply(s.rec, step).responses, "q");
    FreshNames(Apply(s.rec, step).responses);
    assert (steps + [step])[..|steps|] == steps;
    steps := steps + [step];
  }

  lemma AcknowledgementExecutes(r: Record, step: Step)
    requires step.Respond? && step.packet.responseType.ExecutionAcknowledged?
    requires SubmitResponse(r, step.packet, step.actor, step.expectedVersion, step.clash, step.now).1.Stored?
    ensures Apply(r, step) != r && Apply(r, step).status.Executing?
  {
    SubmitStoresOrNothing(r, step.packet, step.actor, step.expectedVersion, step.clash, step.now);
    RespondShape(r, step);
    ResponseIsQuiet(r.status, CurrentSnapshot(r), step.packet, step.actor, Decisions(r.decisions), step.expectedVersion,
                    step.now, RespondTransition(r, step).value);
  }

  // ---------------------------------------------------------------- exactly which responses are held to the run

  predicate NamesBoundRun(r: Record, packet: ResponsePacket) {
    ReportedRun(packet) == CurrentSnapshot(r).boundRunId
  }

  /** In every reachable EXECUTING record, every stored response of this type names the bound run. */
  ghost predicate HeldToBoundRun(t: ResponseType) {
    forall start, steps, step: Step ::
      Initial(start) && Run(start, steps).status.Executing? && step.Respond? && step.packet.responseType == t
      && Apply(Run(start, steps), step) != Run(start, steps) ==>
      NamesBoundRun(Run(start, steps), step.packet)
  }

  predicate AcceptedWhileExecuting(t: ResponseType) {
    ResponseEvent(t).Ok? && Table(Executing, ResponseEvent(t).value).Some?
  }

  /** The run of this name is not the bound one. */
  function AnotherRun(r: Record): (run: string)
    ensures run != "" && CurrentSnapshot(r).boundRunId != Some(run)
  {
    match CurrentSnapshot(r).boundRunId
    case None => "x"
    case Some(bound) => bound + "x"
  }

  lemma StoredReportIsHeld(r: Record, step: Step)
    requires step.Respond? && NeedsBoundRun(step.packet.responseType) && Apply(r, step) != r
    ensures NamesBoundRun(r, step.packet)
  {
    RespondShape(r, step);
    AcceptedReportsBound(r.status, CurrentSnapshot(r), step.packet, step.actor, Decisions(r.decisions),
                         step.expectedVersion, step.now);
  }

  lemma QuestionIsNotHeld() returns (steps: seq<Step>, step: Step)
    ensures Initial(Planned()) && Run(Planned(), steps).status.Executing?
    ensures step.Respond? && step.packet.responseType.QuestionBlocked?
    ensures Apply(Run(Planned(), steps), step) != Run(Planned(), steps) && !NamesBoundRun(Run(Planned(), steps), step.packet)
  {
    steps := ReachesExecuting();
    var r := Run(Planned(), steps);
    ChainOverRuns(Planned(), steps);
    QuestionOfAnyRunIsStored(r, AnotherRun(r), "q", "q");
    step := Respond(QuestionNaming(r, AnotherRun(r), "q", "q"), "R", None, false, 0);
  }

  /**
   Main result. Of the responses accepted in EXECUTING, those of a type are held to the bound run, in
   every reachable record, if and only if the kernel asks for it; question.blocked is the exception.
   */
  lemma HeldToBoundRunIff(t: ResponseType)
    requires AcceptedWhileExecuting(t)
    ensures HeldToBoundRun(t) <==> NeedsBoundRun(t)
    ensures NeedsBoundRun(t) <==> !t.QuestionBlocked?
  {
    if NeedsBoundRun(t) {
      forall start, steps, step: Step |
        Initial(start) && Run(start, steps).status.Executing? && step.Respond? && step.packet.responseType == t
        && Apply(Run(start, steps), step) != Run(start, steps)
        ensures NamesBoundRun(Run(start, steps), step.packet)
      {
        StoredReportIsHeld(Run(start, steps), step);
      }
    } else {
      assert t.QuestionBlocked?;
      var steps, step := QuestionIsNotHeld();
    }
  }
}
