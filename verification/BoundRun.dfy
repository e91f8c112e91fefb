/** Which responses are held to the run that the latest acknowledgement bound. */
module BoundRun {
  import opened Wrappers
  import opened Packets
  import opened Lifecycle
  import opened Broker
  import opened Planning
  import opened Runs
  import opened Chain
  import opened PlanAuthority

  // ---------------------------------------------------------------- the latest acknowledgement

  predicate IsAck(row: StoredResponse) {
    row.packet.responseType.ExecutionAcknowledged?
  }

  /** The stored acknowledgement that comes last. */
  function LastAck(rows: seq<StoredResponse>): (row: Option<StoredResponse>)
    ensures row.Some? ==> row.value in rows && IsAck(row.value)
  {
    if rows == [] then None
    else if IsAck(rows[|rows| - 1]) then Some(rows[|rows| - 1])
    else LastAck(rows[..|rows| - 1])
  }

  lemma {:induction false} LastAckIsLatest(rows: seq<StoredResponse>)
    ensures
      match LastAck(rows)
      case None => forall i :: 0 <= i < |rows| ==> !IsAck(rows[i])
      case Some(row) =>
        exists j :: 0 <= j < |rows| && rows[j] == row && forall i :: j < i < |rows| ==> !IsAck(rows[i])
  {
    if rows != [] {
      LastAckIsLatest(rows[..|rows| - 1]);
    }
  }

  lemma LastAckOfAppend(rows: seq<StoredResponse>, row: StoredResponse)
    ensures LastAck(rows + [row]) == if IsAck(row) then Some(row) else LastAck(rows)
  {
    assert (rows + [row])[..|rows|] == rows;
  }

  /** The run an acknowledgement names; the empty one is stored as none. */
  function AckedRun(packet: ResponsePacket): Option<string> {
    DropEmpty(Some(Or(packet.executorRunId, PayloadText(packet, "executor_run_id"))))
  }

  function RunOf(ack: Option<StoredResponse>): Option<string> {
    if ack.Some? then AckedRun(ack.value.packet) else None
  }

  // ---------------------------------------------------------------- the invariant

  ghost predicate BindingTracked(r: Record) {
    var s := CurrentSnapshot(r);
    && s.executionAcknowledged == LastAck(r.responses).Some?
    && s.boundRunId == RunOf(LastAck(r.responses))
    && (r.status.Executing? || s.blockedFrom == Some(Executing) ==> s.executionAcknowledged)
  }

  /** Row `i` names the run the latest acknowledgement before it bound. */
  ghost predicate ReportsBoundRun(rows: seq<StoredResponse>, i: nat)
    requires i < |rows|
  {
    NeedsBoundRun(rows[i].packet.responseType) ==>
      LastAck(rows[..i]).Some? && ReportedRun(rows[i].packet) == RunOf(LastAck(rows[..i]))
  }

  ghost predicate RowsReport(rows: seq<StoredResponse>) {
    forall i :: 0 <= i < |rows| ==> ReportsBoundRun(rows, i)
  }

  lemma RowsReportMore(rows: seq<StoredResponse>, row: StoredResponse)
    requires RowsReport(rows)
    requires NeedsBoundRun(row.packet.responseType) ==> LastAck(rows).Some? && ReportedRun(row.packet) == RunOf(LastAck(rows))
    ensures RowsReport(rows + [row])
  {
    var more := rows + [row];
    forall i | 0 <= i < |more| ensures ReportsBoundRun(more, i) {
      if i < |rows| {
        assert more[..i] == rows[..i] && ReportsBoundRun(rows, i);
      } else {
        assert more[..i] == rows;
      }
    }
  }

  // ---------------------------------------------------------------- kernel facts

  lemma AcceptedReportsBound(status: WorkStatus, s: Snapshot, packet: ResponsePacket, actor: string,
                             ds: seq<StoredDecision>, expected: Option<int>, now: int)
    requires ApplyResponse(status, s, packet, actor, ds, expected, now).Ok? && NeedsBoundRun(packet.responseType)
    ensures s.executionAcknowledged && ReportedRun(packet) == s.boundRunId
  {
  }

  /** What an accepted response does to the binding. */
  lemma ResponseBinding(status: WorkStatus, s: Snapshot, packet: ResponsePacket, actor: string, t: Transition)
    requires ResponseEvent(packet.responseType) == Ok(t.event) && ResponseTarget(status, t.event, packet) == Ok(t.status)
    requires t.snapshot == ResponseSnapshot(status, s, packet, actor)
    requires status.Executing? || s.blockedFrom == Some(Executing) ==> s.executionAcknowledged
    ensures t.snapshot.executionAcknowledged == (s.executionAcknowledged || packet.responseType.ExecutionAcknowledged?)
    ensures packet.responseType.ExecutionAcknowledged? ==> DropEmpty(t.snapshot.boundRunId) == AckedRun(packet)
    ensures !packet.responseType.ExecutionAcknowledged? ==> t.snapshot.boundRunId == s.boundRunId
    ensures t.status.Executing? || t.snapshot.blockedFrom == Some(Executing) ==> t.snapshot.executionAcknowledged
  {
  }

  /** Broker messages, dispatches and decisions keep the binding. */
  predicate KeepsBinding(status: WorkStatus, s: Snapshot, t: Transition) {
    && t.snapshot.executionAcknowledged == s.executionAcknowledged && t.snapshot.boundRunId == s.boundRunId
    && (t.status.Executing? || t.snapshot.blockedFrom == Some(Executing) ==>
          status.Executing? || s.blockedFrom == Some(Executing))
  }

  lemma BrokerEventKeepsBinding(status: WorkStatus, s: Snapshot, event: LifecycleEvent, actor: string, message: string,
                                ds: seq<StoredDecision>, expected: Option<int>, planId: Option<string>,
                                planSha: Option<string>, now: int, t: Transition)
    requires ApplyBrokerEvent(status, s, event, actor, message, ds, expected, planId, planSha, now) == Ok(t)
    requires PlainBrokerEvent(event) || IsDispatchEvent(event)
    ensures KeepsBinding(status, s, t)
  {
  }

  lemma DecisionKeepsBinding(status: WorkStatus, s: Snapshot, event: LifecycleEvent, d: StoredDecision,
                             expected: Option<int>, now: int, t: Transition)
    requires ApplyDecision(status, s, event, d, expected, now) == Ok(t)
    ensures KeepsBinding(status, s, t)
  {
  }

  // ---------------------------------------------------------------- one step

  lemma AdvancedBinding(r: Record, r': Record, t: Transition, parent: string)
    requires Advanced(r, r', t, parent)
    ensures CurrentSnapshot(r').boundRunId == DropEmpty(t.snapshot.boundRunId)
    ensures CurrentSnapshot(r').executionAcknowledged == t.snapshot.executionAcknowledged
    ensures CurrentSnapshot(r').blockedFrom == t.snapshot.blockedFrom && r'.status == t.status
  {
  }

  lemma QuietStepTracks(r: Record, r': Record, t: Transition, parent: string)
    requires BindingTracked(r) && RowsReport(r.responses)
    requires Advanced(r, r', t, parent) && r'.responses == r.responses && KeepsBinding(r.status, CurrentSnapshot(r), t)
    ensures BindingTracked(r') && RowsReport(r'.responses)
  {
    AdvancedBinding(r, r', t, parent);
  }

  lemma RespondTracksBinding(r: Record, step: Step)
    requires BindingTracked(r) && RowsReport(r.responses) && step.Respond?
    ensures BindingTracked(Apply(r, step)) && RowsReport(Apply(r, step).responses)
  {
    var r' := Apply(r, step);
    RespondShape(r, step);
    if r' != r {
      var t, s, ds := RespondTransition(r, step).value, CurrentSnapshot(r), Decisions(r.decisions);
      AcceptedResponse(r.status, s, step.packet, step.actor, ds, step.expectedVersion, step.now, t);
      if NeedsBoundRun(step.packet.responseType) {
        AcceptedReportsBound(r.status, s, step.packet, step.actor, ds, step.expectedVersion, step.now);
      }
      StoredRowTracks(r, r', step, t);
    }
  }

  lemma StoredRowTracks(r: Record, r': Record, step: Step, t: Transition)
    requires BindingTracked(r) && RowsReport(r.responses) && step.Respond?
    requires Advanced(r, r', t, MessageId(step.packet))
    requires r' == StoreResponse(r, step.packet, step.actor, t).0
    requires ResponseEvent(step.packet.responseType) == Ok(t.event)
    requires ResponseTarget(r.status, t.event, step.packet) == Ok(t.status)
    requires t.snapshot == ResponseSnapshot(r.status, CurrentSnapshot(r), step.packet, step.actor)
    requires NeedsBoundRun(step.packet.responseType) ==>
               CurrentSnapshot(r).executionAcknowledged && ReportedRun(step.packet) == CurrentSnapshot(r).boundRunId
    ensures BindingTracked(r') && RowsReport(r'.responses)
  {
    var row := r'.responses[|r.responses|];
    assert r'.responses == r.responses + [row] && row.packet == step.packet;
    ResponseBinding(r.status, CurrentSnapshot(r), step.packet, step.actor, t);
    AdvancedBinding(r, r', t, MessageId(step.packet));
    LastAckOfAppend(r.responses, row);
    RowsReportMore(r.responses, row);
  }

  lemma KernelStepTracksBinding(r: Record, step: Step)
    requires BindingTracked(r) && RowsReport(r.responses) && (step.Decide? || step.BrokerMessage? || step.Intend?)
    ensures BindingTracked(Apply(r, step)) && RowsReport(Apply(r, step).responses)
  {
    var r', s, ds := Apply(r, step), CurrentSnapshot(r), Decisions(r.decisions);
    match step
    case Decide(q, expected, id, _, now) =>
      DecideShape(r, step);
      if r' != r {
        DecisionKeepsBinding(r.status, s, DecisionEvent(q.decisionType).value, DecisionOf(r, q, id, now), expected, now,
                             DecideTransition(r, step).value);
        QuietStepTracks(r, r', DecideTransition(r, step).value, s.currentParentId);
      }
    case BrokerMessage(event, actor, messageId, expected, now) =>
      MessageShape(r, step);
      if r' != r {
        BrokerEventKeepsBinding(r.status, s, event, actor, messageId, ds, expected, None, None, now,
                                MessageTransition(r, step).value);
        QuietStepTracks(r, r', MessageTransition(r, step).value, messageId);
      }
    case Intend(q, dispatchId, _, now) =>
      IntendShape(r, step);
      if r' != r {
        BrokerEventKeepsBinding(r.status, s, q.event, q.actor, dispatchId, ds, q.expectedVersion, RequestedPlan(q, s),
                                RequestedSha(q, s), now, IntendTransition(r, step).value);
        QuietStepTracks(r, r', IntendTransition(r, step).value, dispatchId);
      }
  }

  lemma StepTracksBinding(r: Record, step: Step)
    requires BindingTracked(r) && RowsReport(r.responses)
    ensures BindingTracked(Apply(r, step)) && RowsReport(Apply(r, step).responses)
  {
    if step.Respond? {
      RespondTracksBinding(r, step);
    } else if step.Plan? {
      PlanningLeavesKernel(r, step.write);
    } else if IsDispatchWrite(step) {
      DispatchWritesOnlyDispatches(r, step);
    } else {
      KernelStepTracksBinding(r, step);
    }
  }

  lemma {:induction false} BindingOverRuns(start: Record, steps: seq<Step>)
    requires Initial(start)
    ensures BindingTracked(Run(start, steps)) && RowsReport(Run(start, steps).responses)
  {
    if steps != [] {
      BindingOverRuns(start, steps[..|steps| - 1]);
      StepTracksBinding(Run(start, steps[..|steps| - 1]), steps[|steps| - 1]);
    }
  }

  // ---------------------------------------------------------------- main results

  /**
   Main result. In every run each stored execution.progress, execution.completed and execution.failed
   reports exactly the run bound by the latest execution.acknowledged stored before it.
   */
  lemma ReportsNameTheBoundRun(start: Record, steps: seq<Step>, i: nat)
    requires Initial(start) && i < |Run(start, steps).responses|
    requires NeedsBoundRun(Run(start, steps).responses[i].packet.responseType)
    ensures
      var rows := Run(start, steps).responses;
      exists j :: 0 <= j < i && IsAck(rows[j]) && (forall k :: j < k < i ==> !IsAck(rows[k]))
                  && ReportedRun(rows[i].packet) == AckedRun(rows[j].packet)
  {
    var rows := Run(start, steps).responses;
    BindingOverRuns(start, steps);
    assert ReportsBoundRun(rows, i);
    LastAckIsLatest(rows[..i]);
    var j :| 0 <= j < i && rows[..i][j] == LastAck(rows[..i]).value && forall k :: j < k < i ==> !IsAck(rows[..i][k]);
    assert rows[j] == rows[..i][j];
    assert forall k :: j < k < i ==> rows[k] == rows[..i][k];
  }
}
