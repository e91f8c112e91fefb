/** What the planning transactions write and hand out, entry by entry. */
module PlanningOutcomes {
  import opened Wrappers
  import opened Packets
  import opened Lifecycle
  import opened Broker
  import opened Planning
  import opened Runs
  import opened Chain
  import opened Replay

  predicate NoPlanYet(ledger: seq<LedgerEntry>) {
    forall e <- ledger :: !e.body.PlanReceived? && !e.body.PlanAvailable?
  }

  /** The last plan.received of a ledger without plan.available. */
  predicate AwaitsPublication(ledger: seq<LedgerEntry>, received: LedgerEntry) {
    && (forall e <- ledger :: !e.body.PlanAvailable?)
    && exists i :: 0 <= i < |ledger| && ledger[i] == received && received.body.PlanReceived?
                   && forall j :: i < j < |ledger| ==> !ledger[j].body.PlanReceived?
  }

  function Next(ledger: seq<LedgerEntry>): int {
    if ledger == [] then 1 else ledger[|ledger| - 1].sequence + 1
  }

  function NameOf(digest: string): string {
    "PLAN-" + if |digest| < 24 then digest else digest[..24]
  }

  /** plan.available is appended for the received plan, and the packet tells both. */
  predicate Published(r: Record, r': Record, received: LedgerEntry, plan: Option<PlanPacket>)
    requires received.body.PlanReceived?
  {
    var n := Next(r.ledger);
    && r' == r.(status := PlanReady,
                ledger := r.ledger + [LedgerEntry(n, "broker:awr", PlanAvailable(received.body.planId,
                                                                                received.body.run.contentSha256,
                                                                                received.sequence))])
    && plan == Some(PlanPacket(received.body.planId, r.workOrderId, received.body.run, n))
  }

  /** plan.received and plan.available are appended for the run, and the packet tells both. */
  predicate ReceivedAndPublished(r: Record, r': Record, run: PlanningRun, plan: Option<PlanPacket>) {
    var n, id := Next(r.ledger), NameOf(run.contentSha256);
    && r' == r.(status := PlanReady,
                ledger := r.ledger + [LedgerEntry(n, run.executor, PlanReceived(id, run)),
                                      LedgerEntry(n + 1, "broker:awr", PlanAvailable(id, run.contentSha256, n))])
    && plan == Some(PlanPacket(id, r.workOrderId, run, n + 1))
  }

  /** The last reported status of the planning run. */
  predicate Reported(ledger: seq<LedgerEntry>, runStatus: string) {
    exists i :: 0 <= i < |ledger| && ledger[i].body == ExecutorStatus(runStatus)
                && forall j :: i < j < |ledger| ==> !ledger[j].body.ExecutorStatus?
  }

  predicate Noted(r: Record, r': Record, executor: string, runStatus: string, plan: Option<PlanPacket>) {
    && plan.None?
    && r' == (if Reported(r.ledger, runStatus) then r
              else r.(ledger := r.ledger + [LedgerEntry(Next(r.ledger), executor, ExecutorStatus(runStatus))]))
  }

  predicate MarkedFailed(r: Record, r': Record, executor: string, plan: Option<PlanPacket>) {
    && plan.None?
    && r' == (if exists e <- r.ledger :: e.body.ExecutorFailed? then r
              else r.(status := Failed, ledger := r.ledger + [LedgerEntry(Next(r.ledger), executor, ExecutorFailed)]))
  }

  // ---------------------------------------------------------------- reading the ledger

  lemma NothingToRead(ledger: seq<LedgerEntry>)
    ensures LatestReceived(ledger).None? <==> forall e <- ledger :: !e.body.PlanReceived?
    ensures LatestAvailable(ledger).None? <==> forall e <- ledger :: !e.body.PlanAvailable?
  {
  }

  lemma {:induction false} LatestIsLast(ledger: seq<LedgerEntry>, received: LedgerEntry)
    requires AwaitsPublication(ledger, received)
    ensures LatestReceived(ledger) == Some(received)
  {
    var front := ledger[..|ledger| - 1];
    var i :| 0 <= i < |ledger| && ledger[i] == received && received.body.PlanReceived?
             && forall j :: i < j < |ledger| ==> !ledger[j].body.PlanReceived?;
    if i < |front| {
      assert front[i] == received;
      assert forall j :: i < j < |front| ==> front[j] == ledger[j];
      assert forall e <- front :: e in ledger;
      LatestIsLast(front, received);
    }
  }

  lemma {:induction false} ReportedIsLatest(ledger: seq<LedgerEntry>, runStatus: string)
    ensures LatestRunStatus(ledger) == Some(runStatus) <==> Reported(ledger, runStatus)
  {
    if ledger != [] {
      var front, last := ledger[..|ledger| - 1], |ledger| - 1;
      ReportedIsLatest(front, runStatus);
      if ledger[last].body.ExecutorStatus? {
        if ledger[last].body == ExecutorStatus(runStatus) {
          assert Reported(ledger, runStatus);
        }
      } else {
        if Reported(front, runStatus) {
          var i :| 0 <= i < |front| && front[i].body == ExecutorStatus(runStatus)
                   && forall j :: i < j < |front| ==> !front[j].body.ExecutorStatus?;
          assert ledger[i] == front[i];
          assert forall j :: i < j < |ledger| ==> !ledger[j].body.ExecutorStatus?;
        }
        if Reported(ledger, runStatus) {
          var i :| 0 <= i < |ledger| && ledger[i].body == ExecutorStatus(runStatus)
                   && forall j :: i < j < |ledger| ==> !ledger[j].body.ExecutorStatus?;
          assert front[i] == ledger[i];
          assert forall j :: i < j < |front| ==> front[j] == ledger[j];
        }
      }
    }
  }

  // ---------------------------------------------------------------- the transactions

  /** Whatever the transaction was for, a plan that awaits publication is published first. */
  lemma PublicationComesFirst(r: Record, write: PlanningWrite, received: LedgerEntry)
    requires AwaitsPublication(r.ledger, received)
    requires write.CommitPlan? || write.Receive? || write.NoteStatus? || write.FailRun?
    ensures Published(r, ApplyPlanning(r, write).0, received, ApplyPlanning(r, write).1)
  {
    LatestIsLast(r.ledger, received);
    NothingToRead(r.ledger);
  }

  lemma ReceiveOutcome(r: Record, run: PlanningRun)
    requires NoPlanYet(r.ledger)
    ensures ReceivedAndPublished(r, ApplyPlanning(r, Receive(run)).0, run, ApplyPlanning(r, Receive(run)).1)
  {
    NothingToRead(r.ledger);
  }

  lemma NoteOutcome(r: Record, executor: string, runStatus: string)
    requires NoPlanYet(r.ledger)
    ensures
      var (r', plan) := ApplyPlanning(r, NoteStatus(executor, runStatus));
      Noted(r, r', executor, runStatus, plan)
  {
    NothingToRead(r.ledger);
    ReportedIsLatest(r.ledger, runStatus);
  }

  lemma FailOutcome(r: Record, executor: string)
    requires NoPlanYet(r.ledger)
    ensures
      var (r', plan) := ApplyPlanning(r, FailRun(executor));
      MarkedFailed(r, r', executor, plan)
  {
    NothingToRead(r.ledger);
  }

  /** Without a plan to read or to publish, reading and committing leave everything as it is. */
  lemma NothingToCommit(r: Record)
    requires NoPlanYet(r.ledger)
    ensures ApplyPlanning(r, CommitPlan) == (r, None) && ApplyPlanning(r, ReadPlan) == (r, None)
  {
    NothingToRead(r.ledger);
  }

  /**
   Main result. A plan packet that any transaction of any run returns tells the two entries of the ledger after it:
   the plan and the run of plan.received, the work order, and the sequence of the plan.available that points there.
   */
  lemma ReturnedPlanTellsLedger(start: Record, steps: seq<Step>, step: Step)
    requires PlanLedgerOk(start.ledger) && Returned(Run(start, steps), step).Some?
    ensures
      var r', plan := Apply(Run(start, steps), step), Returned(Run(start, steps), step).value;
      exists received, available ::
        && received in r'.ledger && available in r'.ledger
        && received.body == PlanReceived(plan.planId, plan.run) && plan.workOrderId == start.workOrderId
        && available.body == PlanAvailable(plan.planId, plan.run.contentSha256, received.sequence)
        && plan.ledgerSequence == available.sequence
  {
    var r := Run(start, steps);
    PlanSurvives(start, steps);
    RunKeepsRows(start, steps);
    StepIsPlanStep(r, step);
    StepKeepsRows(r, step);
    var r' := Apply(r, step);
    var received, available := LatestReceived(r'.ledger).value, LatestAvailable(r'.ledger).value;
    assert PointsAt(available, received);
  }

  // ---------------------------------------------------------------- routing and submission

  predicate Holds(ledger: seq<LedgerEntry>, body: EntryBody) {
    exists e <- ledger :: e.body == body
  }

  /** An order is routed once; an order accepted or failed is put back on its way. */
  lemma RouteOutcome(r: Record)
    ensures ApplyPlanning(r, Route).1.None?
    ensures ApplyPlanning(r, Route).0 ==
              if Holds(r.ledger, WorkOrderRouted) then
                if r.status.Accepted? || r.status.Failed? then r.(status := Routed) else r
              else r.(status := Routed, ledger := r.ledger + [LedgerEntry(Next(r.ledger), "broker:awr", WorkOrderRouted)])
  {
  }

  predicate Acknowledged(ledger: seq<LedgerEntry>) {
    exists e <- ledger :: e.body.ExecutorAcknowledged?
  }

  /** The planning run is acknowledged once; before that a submission may fail or be rejected. */
  lemma SubmissionOutcomes(r: Record, executor: string, agentId: string, runId: string)
    ensures ApplyPlanning(r, PlanningAcknowledged(executor, agentId, runId)).0 ==
              if Acknowledged(r.ledger) then r
              else r.(status := WorkStatus.Planning,
                      ledger := r.ledger + [LedgerEntry(Next(r.ledger), executor, EntryBody.ExecutorAcknowledged(agentId, runId))])
    ensures ApplyPlanning(r, Raised(executor)).0 ==
              if Acknowledged(r.ledger) then r
              else r.(status := Failed, ledger := r.ledger + [LedgerEntry(Next(r.ledger), executor, ExecutorFailed)])
    ensures ApplyPlanning(r, Rejected(executor)).0 ==
              if Holds(r.ledger, ExecutorRejected) then r
              else r.(status := Failed, ledger := r.ledger + [LedgerEntry(Next(r.ledger), executor, ExecutorRejected)])
  {
  }
}
