/** What every interleaving of refresh workers keeps: at most one provider run per attempt. */
module OutboxSafety {
  import opened Wrappers
  import opened Packets
  import opened Lifecycle
  import opened Broker
  import opened Planning
  import opened Runs
  import opened Chain
  import opened Dispatches
  import opened Outbox

  // ---------------------------------------------------------------- the invariant

  ghost predicate IsRunOf(requests: seq<Request>, dispatchId: string, run: string) {
    run != "" && exists q <- requests :: q.dispatchId == dispatchId && q.run == Some(run)
  }

  /** A recorded run is one the provider really started for that row, and ACKNOWLEDGED rows have one. */
  ghost predicate RunsRecorded(ds: seq<Dispatch>, requests: seq<Request>) {
    forall d <- ds ::
      && (d.providerRunId.Some? ==> IsRunOf(requests, d.dispatchId, d.providerRunId.value))
      && (d.state.Acknowledged? ==> d.providerRunId.Some?)
  }

  /** A worker's copy is an earlier or current image of a stored row. */
  ghost predicate CopyOk(ds: seq<Dispatch>, requests: seq<Request>, c: Dispatch) {
    && (exists d <- ds :: SameDispatch(d, c) && c.attemptCount <= d.attemptCount)
    && (c.providerRunId.Some? ==> IsRunOf(requests, c.dispatchId, c.providerRunId.value))
  }

  ghost predicate RequestOk(ds: seq<Dispatch>, q: Request) {
    && (exists d <- ds :: d.dispatchId == q.dispatchId && d.providerKey == q.key && d.existingAgentId == q.agentId)
    && (q.run.Some? ==> q.run.value != "")
  }

  ghost predicate IsAckFor(packet: ResponsePacket, c: Dispatch) {
    && packet.responseType.ExecutionAcknowledged?
    && packet.idempotencyKey == AckKey(c.dispatchId)
    && c.providerRunId.Some? && packet.executorRunId == c.providerRunId
    && packet.actor.None?
  }

  ghost predicate WorkerOk(ds: seq<Dispatch>, requests: seq<Request>, worker: Worker) {
    match worker
    case Reading(_, _) | Claiming(_, _) | Stopped => true
    case Deciding(c) => CopyOk(ds, requests, c) && c.state.Leased?
    case Awaiting(c, i) => CopyOk(ds, requests, c) && i < |requests| && requests[i].dispatchId == c.dispatchId
    case Recovering(c) => CopyOk(ds, requests, c)
    case HoldingRun(c, _, run) => CopyOk(ds, requests, c) && IsRunOf(requests, c.dispatchId, run)
    case Preparing(c) => CopyOk(ds, requests, c) && c.providerRunId.Some?
    case Sending(c, packet) => CopyOk(ds, requests, c) && IsAckFor(packet, c)
    case Settling(c, _) => CopyOk(ds, requests, c) && c.providerRunId.Some?
    case Reconciling(c) => CopyOk(ds, requests, c)
  }

  /** The runs of one dispatch are one run, and no run serves two dispatches. */
  ghost predicate OneRunEach(requests: seq<Request>) {
    forall i, j :: 0 <= i < |requests| && 0 <= j < |requests| && requests[i].run.Some? && requests[j].run.Some? ==>
                     (requests[i].dispatchId == requests[j].dispatchId <==> requests[i].run == requests[j].run)
  }

  predicate Submitted(requests: seq<Request>, dispatchId: string) {
    exists q <- requests :: q.dispatchId == dispatchId
  }

  /** The one worker that may still submit a follow-up: it made the first claim. */
  predicate MaySubmit(worker: Worker, dispatchId: string) {
    worker.Deciding? && worker.claimed.dispatchId == dispatchId && worker.claimed.attemptCount <= 1
  }

  ghost predicate FollowUpOnce(d: Dispatch, requests: seq<Request>, workers: map<nat, Worker>) {
    && (d.attemptCount == 0 ==>
          !Submitted(requests, d.dispatchId) && forall w | w in workers :: !MaySubmit(workers[w], d.dispatchId))
    && (Submitted(requests, d.dispatchId) ==> forall w | w in workers :: !MaySubmit(workers[w], d.dispatchId))
    && (forall v, w | v in workers && w in workers ::
          MaySubmit(workers[v], d.dispatchId) && MaySubmit(workers[w], d.dispatchId) ==> v == w)
    && (forall i, j :: 0 <= i < j < |requests| ==>
          !(requests[i].dispatchId == d.dispatchId && requests[j].dispatchId == d.dispatchId))
  }

  ghost predicate FollowUpsOnce(s: System) {
    forall d <- s.rec.dispatches :: d.existingAgentId.Some? ==> FollowUpOnce(d, s.requests, s.workers)
  }

  ghost predicate WorkersOk(s: System) {
    forall w | w in s.workers :: WorkerOk(s.rec.dispatches, s.requests, s.workers[w])
  }

  ghost predicate Safe(s: System) {
    && DispatchesMatchLedger(s.rec)
    && RunsRecorded(s.rec.dispatches, s.requests)
    && (forall q <- s.requests :: RequestOk(s.rec.dispatches, q))
    && WorkersOk(s)
    && OneRunEach(s.requests)
    && FollowUpsOnce(s)
  }

  // ---------------------------------------------------------------- growth keeps the parts

  lemma CopySurvives(ds: seq<Dispatch>, ds': seq<Dispatch>, requests: seq<Request>, c: Dispatch)
    requires DispatchesGrow(ds, ds') && CopyOk(ds, requests, c)
    ensures CopyOk(ds', requests, c)
  {
    var i :| 0 <= i < |ds| && SameDispatch(ds[i], c) && c.attemptCount <= ds[i].attemptCount;
    assert SameDispatch(ds'[i], c) && ds'[i] in ds';
  }

  lemma RequestSurvives(ds: seq<Dispatch>, ds': seq<Dispatch>, q: Request)
    requires DispatchesGrow(ds, ds') && RequestOk(ds, q)
    ensures RequestOk(ds', q)
  {
    var i :| 0 <= i < |ds| && ds[i].dispatchId == q.dispatchId && ds[i].providerKey == q.key && ds[i].existingAgentId == q.agentId;
    assert ds'[i] in ds';
  }

  lemma WorkerSurvives(ds: seq<Dispatch>, ds': seq<Dispatch>, requests: seq<Request>, worker: Worker)
    requires DispatchesGrow(ds, ds') && WorkerOk(ds, requests, worker)
    ensures WorkerOk(ds', requests, worker)
  {
    match worker
    case Reading(_, _) | Claiming(_, _) | Stopped =>
    case Deciding(c) => CopySurvives(ds, ds', requests, c);
    case Awaiting(c, _) => CopySurvives(ds, ds', requests, c);
    case Recovering(c) => CopySurvives(ds, ds', requests, c);
    case HoldingRun(c, _, _) => CopySurvives(ds, ds', requests, c);
    case Preparing(c) => CopySurvives(ds, ds', requests, c);
    case Sending(c, _) => CopySurvives(ds, ds', requests, c);
    case Settling(c, _) => CopySurvives(ds, ds', requests, c);
    case Reconciling(c) => CopySurvives(ds, ds', requests, c);
  }

  /** A dispatch nobody has heard of has no request and no worker. */
  lemma UnknownIsUntouched(ds: seq<Dispatch>, requests: seq<Request>, workers: map<nat, Worker>, id: string)
    requires forall d <- ds :: d.dispatchId != id
    requires forall q <- requests :: RequestOk(ds, q)
    requires forall w | w in workers :: WorkerOk(ds, requests, workers[w])
    ensures !Submitted(requests, id)
    ensures forall w | w in workers :: !MaySubmit(workers[w], id)
  {
  }

  lemma RecordMayGrow(s: System, rec: Record)
    requires Safe(s)
    requires DispatchesMatchLedger(rec) && DispatchesGrow(s.rec.dispatches, rec.dispatches)
    requires RunsRecorded(rec.dispatches, s.requests)
    ensures Safe(s.(rec := rec))
  {
    var ds, ds' := s.rec.dispatches, rec.dispatches;
    forall q <- s.requests ensures RequestOk(ds', q) { RequestSurvives(ds, ds', q); }
    forall w | w in s.workers ensures WorkerOk(ds', s.requests, s.workers[w]) {
      WorkerSurvives(ds, ds', s.requests, s.workers[w]);
    }
    forall d' <- ds' | d'.existingAgentId.Some? ensures FollowUpOnce(d', s.requests, s.workers) {
      FollowUpSurvives(s, ds', d');
    }
  }

  lemma FollowUpSurvives(s: System, ds': seq<Dispatch>, d': Dispatch)
    requires Safe(s) && NumberedAttempts(ds') && DispatchesGrow(s.rec.dispatches, ds')
    requires d' in ds' && d'.existingAgentId.Some?
    ensures FollowUpOnce(d', s.requests, s.workers)
  {
    var ds := s.rec.dispatches;
    var i :| 0 <= i < |ds'| && ds'[i] == d';
    if i < |ds| {
      assert SameDispatch(ds[i], d') && FollowUpOnce(ds[i], s.requests, s.workers);
    } else {
      forall d <- ds ensures d.dispatchId != d'.dispatchId {
        var j :| 0 <= j < |ds| && ds[j] == d;
        assert SameDispatch(ds[j], ds'[j]);
      }
      UnknownIsUntouched(ds, s.requests, s.workers, d'.dispatchId);
    }
  }

  lemma WorkerMayMove(s: System, w: nat, worker: Worker)
    requires Safe(s) && WorkerOk(s.rec.dispatches, s.requests, worker) && !worker.Deciding?
    ensures Safe(With(s, w, worker))
  {
    var s' := With(s, w, worker);
    forall d <- s.rec.dispatches | d.existingAgentId.Some? ensures FollowUpOnce(d, s'.requests, s'.workers) {
      assert FollowUpOnce(d, s.requests, s.workers);
    }
  }

  // ---------------------------------------------------------------- the moves

  lemma EnvironmentIsSafe(s: System, step: Step)
    requires Safe(s) && IsEnvironment(step)
    ensures Safe(s.(rec := Apply(s.rec, step)))
  {
    StepKeepsDispatches(s.rec, step);
    EnvironmentStartsNoRun(s.rec, s.requests, step);
    RecordMayGrow(s, Apply(s.rec, step));
  }

  lemma EnvironmentStartsNoRun(r: Record, requests: seq<Request>, step: Step)
    requires DispatchesMatchLedger(r) && RunsRecorded(r.dispatches, requests) && IsEnvironment(step)
    ensures RunsRecorded(Apply(r, step).dispatches, requests)
  {
    match step
    case Respond(_, _, _, _, _) => RespondKeepsDispatches(r, step);
    case Decide(_, _, _, _, _) => DecideKeepsDispatches(r, step);
    case BrokerMessage(_, _, _, _, _) => MessageKeepsDispatches(r, step);
    case Intend(_, _, _, _) =>
      if Apply(r, step) != r {
        IntendAddsRow(r, step);
        var ds' := Apply(r, step).dispatches;
        assert ds' == r.dispatches + [ds'[|r.dispatches|]];
      }
    case Plan(write) => PlanningLeavesKernel(r, write);
    case Remember(id, _) => FoundDispatch(r.dispatches, id);
  }

  lemma ClaimIsSafe(s: System, w: nat, owner: string, id: string, now: int)
    requires Safe(s)
    ensures Safe(AfterClaim(s, w, owner, id, now))
  {
    var (rec, claimed) := ClaimLease(s.rec, id, owner, now);
    if claimed.Some? && !claimed.value.state.Acknowledged? {
      var d := ClaimedRow(s.rec, s.requests, id, owner, now);
      RecordMayGrow(s, rec);
      FirstClaimerIsAlone(s, rec, w, d, claimed.value);
    } else {
      WorkerMayMove(s, w, Stopped);
    }
  }

  /** The row a claim rewrites, and what stays true of the rows. */
  lemma ClaimedRow(r: Record, requests: seq<Request>, id: string, owner: string, now: int) returns (d: Dispatch)
    requires DispatchesMatchLedger(r) && RunsRecorded(r.dispatches, requests)
    requires
      var claimed := ClaimLease(r, id, owner, now).1;
      claimed.Some? && !claimed.value.state.Acknowledged?
    ensures
      var (r', claimed) := ClaimLease(r, id, owner, now);
      && d in r.dispatches && claimed.value in r'.dispatches && SameDispatch(d, claimed.value)
      && claimed.value.attemptCount == d.attemptCount + 1 && claimed.value.state.Leased?
      && DispatchesMatchLedger(r') && DispatchesGrow(r.dispatches, r'.dispatches)
      && RunsRecorded(r'.dispatches, requests)
  {
    var (r', claimed) := ClaimLease(r, id, owner, now);
    FoundDispatch(r.dispatches, id);
    d := FindDispatch(r.dispatches, id).value;
    ClaimKeepsRows(r, id, owner, now);
    var i :| 0 <= i < |r.dispatches| && r.dispatches[i] == d;
    assert r'.dispatches[i] == claimed.value;
  }

  lemma FirstClaimerIsAlone(s: System, rec: Record, w: nat, d: Dispatch, d': Dispatch)
    requires Safe(s) && Safe(s.(rec := rec))
    requires d in s.rec.dispatches && d' in rec.dispatches && SameDispatch(d, d')
    requires d'.attemptCount == d.attemptCount + 1 && d'.state.Leased?
    ensures Safe(With(s.(rec := rec), w, Deciding(d')))
  {
    var s' := With(s.(rec := rec), w, Deciding(d'));
    forall e <- rec.dispatches | e.existingAgentId.Some? ensures FollowUpOnce(e, s'.requests, s'.workers) {
      assert FollowUpOnce(e, s.requests, s.workers);
      if e.dispatchId == d.dispatchId {
        SameIdSameRow(rec.dispatches, e, d');
        assert FollowUpOnce(d, s.requests, s.workers);
      }
    }
    assert SameDispatch(d', d');
  }

  lemma SameIdSameRow(ds: seq<Dispatch>, d: Dispatch, e: Dispatch)
    requires NumberedAttempts(ds) && d in ds && e in ds && d.dispatchId == e.dispatchId
    ensures d == e
  {
  }

  lemma SameKeySameRow(ds: seq<Dispatch>, d: Dispatch, e: Dispatch)
    requires NumberedAttempts(ds) && d in ds && e in ds && d.providerKey == e.providerKey
    ensures d == e
  {
  }

  lemma ChoiceIsSafe(s: System, w: nat, c: Dispatch)
    requires Safe(s) && w in s.workers && s.workers[w] == Deciding(c)
    ensures Safe(AfterChoice(s, w, c))
  {
    assert WorkerOk(s.rec.dispatches, s.requests, s.workers[w]);
    if Truthy(c.providerRunId) {
      WorkerMayMove(s, w, Preparing(c));
    } else if FollowUpRetry(c) {
      WorkerMayMove(s, w, Recovering(c));
    } else {
      SubmissionIsSafe(s, w, c);
    }
  }

  lemma SubmissionIsSafe(s: System, w: nat, c: Dispatch)
    requires Safe(s) && w in s.workers && s.workers[w] == Deciding(c)
    requires !Truthy(c.providerRunId) && !FollowUpRetry(c)
    ensures
      var q := Request(c.dispatchId, c.providerKey, c.existingAgentId, None);
      Safe(With(s.(requests := s.requests + [q]), w, Awaiting(c, |s.requests|)))
  {
    assert WorkerOk(s.rec.dispatches, s.requests, s.workers[w]);
    var q := Request(c.dispatchId, c.providerKey, c.existingAgentId, None);
    var requests := s.requests + [q];
    var s' := With(s.(requests := requests), w, Awaiting(c, |s.requests|));
    MoreRequests(s, q);
    forall d <- s.rec.dispatches | d.existingAgentId.Some? ensures FollowUpOnce(d, s'.requests, s'.workers) {
      assert FollowUpOnce(d, s.requests, s.workers);
      if d.dispatchId == c.dispatchId {
        var e :| e in s.rec.dispatches && SameDispatch(e, c);
        SameIdSameRow(s.rec.dispatches, d, e);
        assert MaySubmit(s.workers[w], d.dispatchId);
      } else {
        assert !Submitted(s.requests, d.dispatchId) ==> !Submitted(requests, d.dispatchId);
      }
    }
  }

  /** A new, still unanswered request hides nothing. */
  lemma MoreRequests(s: System, q: Request)
    requires Safe(s) && RequestOk(s.rec.dispatches, q) && q.run.None?
    ensures
      var requests := s.requests + [q];
      && RunsRecorded(s.rec.dispatches, requests)
      && (forall p <- requests :: RequestOk(s.rec.dispatches, p))
      && (forall w | w in s.workers :: WorkerOk(s.rec.dispatches, requests, s.workers[w]))
      && (forall c :: CopyOk(s.rec.dispatches, s.requests, c) ==> CopyOk(s.rec.dispatches, requests, c))
      && OneRunEach(requests)
  {
    var requests := s.requests + [q];
    forall id, run | IsRunOf(s.requests, id, run) ensures IsRunOf(requests, id, run) {
      var p :| p in s.requests && p.dispatchId == id && p.run == Some(run);
      assert p in requests;
    }
    forall w | w in s.workers ensures WorkerOk(s.rec.dispatches, requests, s.workers[w]) {
      assert WorkerOk(s.rec.dispatches, s.requests, s.workers[w]);
    }
  }

  lemma {:induction false} KeyRunIsRun(requests: seq<Request>, key: ProviderKey)
    ensures RunOfKey(requests, key).Some? ==>
              exists q <- requests :: q.agentId.None? && q.key == key && q.run == RunOfKey(requests, key)
    ensures RunOfKey(requests, key).None? ==>
              forall q <- requests :: q.agentId.None? && q.key == key ==> q.run.None?
  {
    if requests != [] {
      KeyRunIsRun(requests[1..], key);
    }
  }

  /** Giving request `i` the run `run` when that run is the dispatch's own or brand new. */
  lemma RunMayStart(s: System, i: nat, run: string)
    requires Safe(s) && i < |s.requests| && s.requests[i].run.None? && run != ""
    requires forall q <- s.requests | q.run.Some? ::
               q.dispatchId == s.requests[i].dispatchId <==> q.run == Some(run)
    ensures Safe(s.(requests := s.requests[i := s.requests[i].(run := Some(run))]))
  {
    var requests := s.requests[i := s.requests[i].(run := Some(run))];
    var s' := s.(requests := requests);
    forall id, r | IsRunOf(s.requests, id, r) ensures IsRunOf(requests, id, r) {
      var k :| 0 <= k < |s.requests| && s.requests[k].dispatchId == id && s.requests[k].run == Some(r);
      assert requests[k] == s.requests[k] && requests[k] in requests;
    }
    forall w | w in s.workers ensures WorkerOk(s.rec.dispatches, requests, s.workers[w]) {
      assert WorkerOk(s.rec.dispatches, s.requests, s.workers[w]);
    }
    forall d <- s.rec.dispatches | d.existingAgentId.Some? ensures FollowUpOnce(d, requests, s.workers) {
      assert FollowUpOnce(d, s.requests, s.workers);
      assert Submitted(requests, d.dispatchId) ==> Submitted(s.requests, d.dispatchId);
    }
    assert RequestOk(s.rec.dispatches, s.requests[i]);
  }

  lemma ProviderIsSafe(s: System, i: nat, newRun: string)
    requires Safe(s)
    ensures Safe(s.(requests := ProviderStep(s.requests, i, newRun)))
  {
    if i < |s.requests| && s.requests[i].run.None? {
      var q := s.requests[i];
      KeyRunIsRun(s.requests, q.key);
      if q.agentId.None? && RunOfKey(s.requests, q.key).Some? {
        KeyedRunIsOwn(s, i);
        RunMayStart(s, i, RunOfKey(s.requests, q.key).value);
      } else if newRun != "" && !KnownRun(s.requests, newRun) {
        FirstRunOfDispatch(s, i);
        RunMayStart(s, i, newRun);
      }
    }
  }

  lemma SameDispatchRequests(s: System, p: Request, q: Request)
    requires Safe(s) && p in s.requests && q in s.requests
    ensures p.dispatchId == q.dispatchId ==> p.key == q.key && p.agentId == q.agentId
    ensures p.key == q.key ==> p.dispatchId == q.dispatchId && p.agentId == q.agentId
  {
    assert RequestOk(s.rec.dispatches, p) && RequestOk(s.rec.dispatches, q);
    var d :| d in s.rec.dispatches && d.dispatchId == p.dispatchId && d.providerKey == p.key && d.existingAgentId == p.agentId;
    var e :| e in s.rec.dispatches && e.dispatchId == q.dispatchId && e.providerKey == q.key && e.existingAgentId == q.agentId;
    if p.dispatchId == q.dispatchId { SameIdSameRow(s.rec.dispatches, d, e); }
    if p.key == q.key { SameKeySameRow(s.rec.dispatches, d, e); }
  }

  lemma KeyedRunIsOwn(s: System, i: nat)
    requires Safe(s) && i < |s.requests| && RunOfKey(s.requests, s.requests[i].key).Some?
    ensures var run := RunOfKey(s.requests, s.requests[i].key);
            run.value != "" && forall q <- s.requests | q.run.Some? ::
              q.dispatchId == s.requests[i].dispatchId <==> q.run == run
  {
    var key := s.requests[i].key;
    KeyRunIsRun(s.requests, key);
    var p :| p in s.requests && p.agentId.None? && p.key == key && p.run == RunOfKey(s.requests, key);
    SameDispatchRequests(s, p, s.requests[i]);
    assert RequestOk(s.rec.dispatches, p);
  }

  lemma FollowUpHasOneRequest(s: System, i: nat, k: nat)
    requires Safe(s) && i < |s.requests| && k < |s.requests|
    requires s.requests[i].agentId.Some? && s.requests[i].dispatchId == s.requests[k].dispatchId
    ensures i == k
  {
    var q := s.requests[i];
    assert RequestOk(s.rec.dispatches, q);
    var d :| d in s.rec.dispatches && d.dispatchId == q.dispatchId && d.existingAgentId == q.agentId;
    assert FollowUpOnce(d, s.requests, s.workers);
  }

  /** With no run under its key, or as a follow-up, request `i` is the first of its dispatch to get a run. */
  lemma FirstRunOfDispatch(s: System, i: nat)
    requires Safe(s) && i < |s.requests| && s.requests[i].run.None?
    requires s.requests[i].agentId.Some? || RunOfKey(s.requests, s.requests[i].key).None?
    ensures forall k :: 0 <= k < |s.requests| && s.requests[k].run.Some? ==>
                          s.requests[k].dispatchId != s.requests[i].dispatchId
  {
    KeyRunIsRun(s.requests, s.requests[i].key);
    forall k | 0 <= k < |s.requests| && s.requests[k].run.Some?
      ensures s.requests[k].dispatchId != s.requests[i].dispatchId
    {
      SameDispatchRequests(s, s.requests[k], s.requests[i]);
      if s.requests[i].agentId.Some? && s.requests[k].dispatchId == s.requests[i].dispatchId {
        FollowUpHasOneRequest(s, i, k);
      }
    }
  }

  lemma PersistIsSafe(s: System, w: nat, c: Dispatch, agentId: string, runId: string)
    requires Safe(s) && w in s.workers && s.workers[w] == HoldingRun(c, agentId, runId)
    ensures Safe(AfterPersist(s, w, c, agentId, runId))
  {
    assert WorkerOk(s.rec.dispatches, s.requests, s.workers[w]);
    var (rec, current) := PersistAcceptance(s.rec, c, agentId, runId);
    var e :| e in s.rec.dispatches && SameDispatch(e, c);
    FoundDispatch(s.rec.dispatches, c.dispatchId);
    var d := FindDispatch(s.rec.dispatches, c.dispatchId).value;
    AcceptanceKeepsRows(s.rec, c, agentId, runId);
    RecordMayGrow(s, rec);
    var i :| 0 <= i < |s.rec.dispatches| && s.rec.dispatches[i] == d;
    assert rec.dispatches[i] == current && SameDispatch(current, current);
    if d.state.Acknowledged? {
      AcknowledgedHasRun(s, d);
    }
    WorkerMayMove(s.(rec := rec), w, Preparing(current));
  }

  lemma AcknowledgedHasRun(s: System, d: Dispatch)
    requires Safe(s) && d in s.rec.dispatches && d.state.Acknowledged?
    ensures d.providerRunId.Some?
  {
  }

  lemma SettlingKeepsRuns(r: Record, requests: seq<Request>, c: Dispatch, receipt: Receipt)
    requires RunsRecorded(r.dispatches, requests) && c.providerRunId.Some?
    requires IsRunOf(requests, c.dispatchId, c.providerRunId.value)
    ensures RunsRecorded(MarkAcknowledged(r, c, receipt).dispatches, requests)
  {
    FoundDispatch(r.dispatches, c.dispatchId);
  }

  lemma SettleIsSafe(s: System, w: nat, c: Dispatch, receipt: Receipt)
    requires Safe(s) && w in s.workers && s.workers[w] == Settling(c, receipt)
    ensures Safe(With(s.(rec := MarkAcknowledged(s.rec, c, receipt)), w, Stopped))
  {
    assert WorkerOk(s.rec.dispatches, s.requests, s.workers[w]);
    var rec := MarkAcknowledged(s.rec, c, receipt);
    SettlingKeepsRuns(s.rec, s.requests, c, receipt);
    SettleKeepsRows(s.rec, c, receipt);
    RecordMayGrow(s, rec);
    WorkerMayMove(s.(rec := rec), w, Stopped);
  }

  lemma ReconcileIsSafe(s: System, w: nat, c: Dispatch)
    requires Safe(s) && w in s.workers && s.workers[w] == Reconciling(c)
    ensures Safe(With(s.(rec := MarkReconciliation(s.rec, c, "RECONCILIATION_REQUIRED")), w, Stopped))
  {
    assert WorkerOk(s.rec.dispatches, s.requests, s.workers[w]);
    var rec := MarkReconciliation(s.rec, c, "RECONCILIATION_REQUIRED");
    var e :| e in s.rec.dispatches && SameDispatch(e, c);
    FoundDispatch(s.rec.dispatches, c.dispatchId);
    ReconcileKeepsRows(s.rec, c, "RECONCILIATION_REQUIRED");
    RecordMayGrow(s, rec);
    WorkerMayMove(s.(rec := rec), w, Stopped);
  }

  lemma SendIsSafe(s: System, w: nat, c: Dispatch, packet: ResponsePacket, clash: bool, now: int)
    requires Safe(s) && w in s.workers && s.workers[w] == Sending(c, packet)
    ensures Safe(AfterSend(s, w, c, packet, clash, now))
  {
    assert WorkerOk(s.rec.dispatches, s.requests, s.workers[w]);
    var step := Respond(packet, s.rec.recipient, None, clash, now);
    EnvironmentIsSafe(s, step);
    RespondKeepsDispatches(s.rec, step);
    var worker := SendOutcome(s, w, c, packet, clash, now);
    WorkerMayMove(s.(rec := Apply(s.rec, step)), w, worker);
  }

  lemma SendOutcome(s: System, w: nat, c: Dispatch, packet: ResponsePacket, clash: bool, now: int) returns (worker: Worker)
    ensures worker.Stopped? || (worker.Settling? && worker.claimed == c)
    ensures AfterSend(s, w, c, packet, clash, now) ==
              With(s.(rec := Apply(s.rec, Respond(packet, s.rec.recipient, None, clash, now))), w, worker)
  {
    worker := AfterSend(s, w, c, packet, clash, now).workers[w];
  }

  lemma RecoveredRunIsOwn(s: System, w: nat, c: Dispatch, i: nat)
    requires Safe(s) && CopyOk(s.rec.dispatches, s.requests, c)
    requires i < |s.requests| && s.requests[i].key == c.providerKey && s.requests[i].run.Some?
    ensures IsRunOf(s.requests, c.dispatchId, s.requests[i].run.value)
  {
    var q := s.requests[i];
    assert RequestOk(s.rec.dispatches, q);
    var d :| d in s.rec.dispatches && d.dispatchId == q.dispatchId && d.providerKey == q.key;
    var e :| e in s.rec.dispatches && SameDispatch(e, c);
    SameKeySameRow(s.rec.dispatches, d, e);
  }

  lemma LocalMoveIsSafe(s: System, move: Move, worker: Worker)
    requires Safe(s) && !move.Environment? && !move.Begin? && !move.ProviderAccepts?
    requires worker == At(s, move.w)
    requires !move.ClaimRow? && !move.Choose? && !move.Persist? && !move.Send? && !move.Finish? && !move.Reconciled?
    ensures Safe(WorkerMove(s, move, worker))
  {
    var s' := WorkerMove(s, move, worker);
    if move.w in s.workers && s' != s {
      assert WorkerOk(s.rec.dispatches, s.requests, worker);
      if move.RecoverFound? {
        RecoveredRunIsOwn(s, move.w, worker.claimed, move.request);
      } else if move.ReplyAccepted? {
        var q := s.requests[worker.request];
        assert q in s.requests && RequestOk(s.rec.dispatches, q);
      }
      WorkerMayMove(s, move.w, s'.workers[move.w]);
    }
  }

  lemma ClaimOrChooseIsSafe(s: System, move: Move, worker: Worker)
    requires Safe(s) && (move.ClaimRow? || move.Choose?) && worker == At(s, move.w)
    ensures Safe(WorkerMove(s, move, worker))
  {
    if move.ClaimRow? && worker.Claiming? {
      ClaimIsSafe(s, move.w, worker.owner, worker.dispatchId, move.now);
    } else if move.Choose? && worker.Deciding? {
      ChoiceIsSafe(s, move.w, worker.claimed);
    }
  }

  lemma PersistOrSendIsSafe(s: System, move: Move, worker: Worker)
    requires Safe(s) && (move.Persist? || move.Send?) && worker == At(s, move.w)
    ensures Safe(WorkerMove(s, move, worker))
  {
    if move.Persist? && worker.HoldingRun? {
      PersistIsSafe(s, move.w, worker.claimed, worker.agentId, worker.runId);
    } else if move.Send? && worker.Sending? {
      SendIsSafe(s, move.w, worker.claimed, worker.packet, move.clash, move.now);
    }
  }

  lemma FinishIsSafe(s: System, move: Move, worker: Worker)
    requires Safe(s) && (move.Finish? || move.Reconciled?) && worker == At(s, move.w)
    ensures Safe(WorkerMove(s, move, worker))
  {
    if move.Finish? && worker.Settling? {
      SettleIsSafe(s, move.w, worker.claimed, worker.receipt);
    } else if move.Reconciled? && worker.Reconciling? {
      ReconcileIsSafe(s, move.w, worker.claimed);
    }
  }

  lemma WorkerMoveIsSafe(s: System, move: Move)
    requires Safe(s) && !move.Environment? && !move.Begin? && !move.ProviderAccepts?
    ensures Safe(WorkerMove(s, move, At(s, move.w)))
  {
    var worker := At(s, move.w);
    if move.ClaimRow? || move.Choose? {
      ClaimOrChooseIsSafe(s, move, worker);
    } else if move.Persist? || move.Send? {
      PersistOrSendIsSafe(s, move, worker);
    } else if move.Finish? || move.Reconciled? {
      FinishIsSafe(s, move, worker);
    } else {
      LocalMoveIsSafe(s, move, worker);
    }
  }

  lemma AdvanceIsSafe(s: System, move: Move)
    requires Safe(s)
    ensures Safe(Advance(s, move))
  {
    match move
    case Environment(step) => if IsEnvironment(step) { EnvironmentIsSafe(s, step); }
    case Begin(w, owner, id) => if At(s, w).Stopped? { WorkerMayMove(s, w, Reading(owner, id)); }
    case ProviderAccepts(i, newRun) => ProviderIsSafe(s, i, newRun);
    case _ => WorkerMoveIsSafe(s, move);
  }

  // ---------------------------------------------------------------- over all interleavings

  lemma {:induction false} SafeAlways(start: System, moves: seq<Move>)
    requires Quiet(start)
    ensures Safe(Play(start, moves))
  {
    if moves == [] {
      NoDispatchEvents(start.rec);
    } else {
      SafeAlways(start, moves[..|moves| - 1]);
      AdvanceIsSafe(Play(start, moves[..|moves| - 1]), moves[|moves| - 1]);
    }
  }

  /**
   Main result. Over every interleaving of any number of workers, a dispatch with an existing
   agent is submitted at most once. Every submission of a dispatch carries the dispatch's own
   provider key. Whatever the provider accepts, and however late, the runs started for one
   dispatch are one run, a run never serves two dispatches, and a stored provider_run_id is
   that run.
   */
  lemma OneRunPerAttempt(start: System, moves: seq<Move>)
    requires Quiet(start)
    ensures
      var s := Play(start, moves);
      && (forall i, j :: 0 <= i < j < |s.requests| && s.requests[i].dispatchId == s.requests[j].dispatchId ==>
            s.requests[i].agentId.None? && s.requests[i].key == s.requests[j].key)
      && (forall i, j :: 0 <= i < |s.requests| && 0 <= j < |s.requests| && s.requests[i].run.Some? && s.requests[j].run.Some? ==>
            (s.requests[i].dispatchId == s.requests[j].dispatchId <==> s.requests[i].run == s.requests[j].run))
      && (forall q <- s.requests :: exists d <- s.rec.dispatches ::
            d.dispatchId == q.dispatchId && d.providerKey == q.key && d.existingAgentId == q.agentId)
      && (forall d <- s.rec.dispatches :: d.providerRunId.Some? ==>
            exists q <- s.requests :: q.dispatchId == d.dispatchId && q.run == d.providerRunId)
  {
    SafeAlways(start, moves);
    var s := Play(start, moves);
    forall i, j | 0 <= i < j < |s.requests| && s.requests[i].dispatchId == s.requests[j].dispatchId
      ensures s.requests[i].agentId.None? && s.requests[i].key == s.requests[j].key
    {
      SameDispatchRequests(s, s.requests[i], s.requests[j]);
      if s.requests[i].agentId.Some? {
        FollowUpHasOneRequest(s, i, j);
      }
    }
    forall q <- s.requests
      ensures exists d <- s.rec.dispatches ::
                d.dispatchId == q.dispatchId && d.providerKey == q.key && d.existingAgentId == q.agentId
    {
      assert RequestOk(s.rec.dispatches, q);
    }
    forall d <- s.rec.dispatches | d.providerRunId.Some?
      ensures exists q <- s.requests :: q.dispatchId == d.dispatchId && q.run == d.providerRunId
    {
      assert IsRunOf(s.requests, d.dispatchId, d.providerRunId.value);
    }
  }
}
