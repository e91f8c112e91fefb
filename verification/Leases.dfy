/** What a dispatch lease does, in every interleaving: it keeps others out for thirty seconds, and no longer. */
module Leases {
  import opened Wrappers
  import opened Lifecycle
  import opened Broker
  import opened Planning
  import opened Runs
  import opened Chain
  import opened Dispatches
  import opened Outbox
  import opened OutboxSafety
  import opened OutboxBinding

  /** Row `i` is this dispatch. */
  predicate IsRow(r: Record, i: nat, id: string) {
    i < |r.dispatches| && r.dispatches[i].dispatchId == id
  }

  /** A row that is leased holds its lease's owner and end. */
  ghost predicate LeasesHeld(ds: seq<Dispatch>) {
    forall d <- ds :: d.state.Leased? ==> d.leaseOwner.Some? && d.leaseExpiresAt.Some?
  }

  /** The row `d'` a later record has in place of `d`. */
  predicate LeaseKept(d: Dispatch, d': Dispatch) {
    && d'.dispatchId == d.dispatchId && d.attemptCount <= d'.attemptCount
    && (d'.state.Leased? && d'.attemptCount == d.attemptCount ==>
          d.state.Leased? && d'.leaseOwner == d.leaseOwner && d'.leaseExpiresAt == d.leaseExpiresAt)
  }

  ghost predicate LeasesKept(ds: seq<Dispatch>, ds': seq<Dispatch>) {
    |ds| <= |ds'| && forall i :: 0 <= i < |ds| ==> LeaseKept(ds[i], ds'[i])
  }

  // ---------------------------------------------------------------- one transaction

  lemma RewriteKeepsLeases(ds: seq<Dispatch>, d: Dispatch, d': Dispatch)
    requires NumberedAttempts(ds) && d in ds && LeaseKept(d, d') && LeasesHeld(ds)
    requires d'.state.Leased? ==> d'.leaseOwner.Some? && d'.leaseExpiresAt.Some?
    ensures LeasesKept(ds, WithDispatch(ds, d')) && LeasesHeld(WithDispatch(ds, d'))
  {
  }

  lemma UnknownRowIsUnwritten(ds: seq<Dispatch>, changed: Dispatch)
    requires forall d <- ds :: d.dispatchId != changed.dispatchId
    ensures WithDispatch(ds, changed) == ds
  {
  }

  lemma ClaimKeepsLeases(r: Record, id: string, owner: string, now: int)
    requires NumberedAttempts(r.dispatches) && LeasesHeld(r.dispatches)
    ensures
      var ds' := ClaimLease(r, id, owner, now).0.dispatches;
      LeasesKept(r.dispatches, ds') && LeasesHeld(ds')
  {
    FoundDispatch(r.dispatches, id);
    if ClaimLease(r, id, owner, now).0 != r {
      RewriteKeepsLeases(r.dispatches, FindDispatch(r.dispatches, id).value, ClaimLease(r, id, owner, now).1.value);
    }
  }

  lemma AcceptanceKeepsLeases(r: Record, c: Dispatch, agentId: string, runId: string)
    requires NumberedAttempts(r.dispatches) && LeasesHeld(r.dispatches)
    ensures
      var ds' := PersistAcceptance(r, c, agentId, runId).0.dispatches;
      LeasesKept(r.dispatches, ds') && LeasesHeld(ds')
  {
    FoundDispatch(r.dispatches, c.dispatchId);
    var found := FindDispatch(r.dispatches, c.dispatchId);
    if found.Some? {
      RewriteKeepsLeases(r.dispatches, found.value,
                         found.value.(state := ProviderAccepted, providerAgentId := Some(agentId), providerRunId := Some(runId)));
    } else {
      UnknownRowIsUnwritten(r.dispatches, c.(state := ProviderAccepted, providerAgentId := Some(agentId), providerRunId := Some(runId)));
    }
  }

  lemma SettleKeepsLeases(r: Record, c: Dispatch, receipt: Receipt)
    requires NumberedAttempts(r.dispatches) && LeasesHeld(r.dispatches)
    ensures
      var ds' := MarkAcknowledged(r, c, receipt).dispatches;
      LeasesKept(r.dispatches, ds') && LeasesHeld(ds')
  {
    FoundDispatch(r.dispatches, c.dispatchId);
    var current := FindDispatch(r.dispatches, c.dispatchId).GetOr(c);
    var done := current.(
      state := Acknowledged, providerAgentId := c.providerAgentId, providerRunId := c.providerRunId,
      receipt := receipt, leaseOwner := None, leaseExpiresAt := None);
    if current in r.dispatches {
      RewriteKeepsLeases(r.dispatches, current, done);
    } else {
      UnknownRowIsUnwritten(r.dispatches, done);
    }
  }

  lemma ReconcileKeepsLeases(r: Record, c: Dispatch, code: string)
    requires NumberedAttempts(r.dispatches) && LeasesHeld(r.dispatches)
    ensures
      var ds' := MarkReconciliation(r, c, code).dispatches;
      LeasesKept(r.dispatches, ds') && LeasesHeld(ds')
  {
    FoundDispatch(r.dispatches, c.dispatchId);
    var current := FindDispatch(r.dispatches, c.dispatchId).GetOr(c);
    var marked := current.(
      state := ReconciliationRequired, lastFailureCode := Some(code), leaseOwner := None, leaseExpiresAt := None);
    if current in r.dispatches {
      RewriteKeepsLeases(r.dispatches, current, marked);
    } else {
      UnknownRowIsUnwritten(r.dispatches, marked);
    }
  }

  lemma RememberKeepsLeases(r: Record, id: string, receipt: Receipt)
    requires NumberedAttempts(r.dispatches) && LeasesHeld(r.dispatches)
    ensures
      var ds' := RememberReceipt(r, id, receipt).dispatches;
      LeasesKept(r.dispatches, ds') && LeasesHeld(ds')
  {
    FoundDispatch(r.dispatches, id);
    var found := FindDispatch(r.dispatches, id);
    if found.Some? {
      RewriteKeepsLeases(r.dispatches, found.value, found.value.(receipt := receipt));
    }
  }

  lemma SameLeases(ds: seq<Dispatch>)
    requires LeasesHeld(ds)
    ensures LeasesKept(ds, ds)
  {
  }

  lemma StepKeepsLeases(r: Record, step: Step)
    requires DispatchesMatchLedger(r) && LeasesHeld(r.dispatches)
    ensures LeasesKept(r.dispatches, Apply(r, step).dispatches) && LeasesHeld(Apply(r, step).dispatches)
  {
    match step
    case Respond(_, _, _, _, _) => RespondKeepsDispatches(r, step);
    case Decide(_, _, _, _, _) => DecideKeepsDispatches(r, step);
    case BrokerMessage(_, _, _, _, _) => MessageKeepsDispatches(r, step);
    case Intend(_, _, _, _) => IntendKeepsLeases(r, step);
    case Plan(write) => PlanningLeavesKernel(r, write);
    case Claim(id, owner, now) => ClaimKeepsLeases(r, id, owner, now);
    case PersistRun(c, agentId, runId) => AcceptanceKeepsLeases(r, c, agentId, runId);
    case Settle(c, receipt) => SettleKeepsLeases(r, c, receipt);
    case Reconcile(c, code) => ReconcileKeepsLeases(r, c, code);
    case Remember(id, receipt) => RememberKeepsLeases(r, id, receipt);
  }

  lemma IntendKeepsLeases(r: Record, step: Step)
    requires DispatchesMatchLedger(r) && LeasesHeld(r.dispatches) && step.Intend?
    ensures LeasesKept(r.dispatches, Apply(r, step).dispatches) && LeasesHeld(Apply(r, step).dispatches)
  {
    if Apply(r, step) != r {
      IntendAddsRow(r, step);
      var ds' := Apply(r, step).dispatches;
      assert ds' == r.dispatches + [ds'[|r.dispatches|]];
    }
  }

  // ---------------------------------------------------------------- over interleavings

  lemma MoveKeepsLeases(s: System, move: Move)
    requires DispatchesMatchLedger(s.rec) && LeasesHeld(s.rec.dispatches)
    ensures LeasesKept(s.rec.dispatches, Advance(s, move).rec.dispatches) && LeasesHeld(Advance(s, move).rec.dispatches)
  {
    MoveWrites(s, move);
    if RecordStep(s, move) == [] {
      SameLeases(s.rec.dispatches);
    } else {
      StepKeepsLeases(s.rec, RecordStep(s, move)[0]);
    }
  }

  lemma LeasesKeptTwice(a: seq<Dispatch>, b: seq<Dispatch>, c: seq<Dispatch>)
    requires LeasesKept(a, b) && LeasesKept(b, c)
    ensures LeasesKept(a, c)
  {
    forall i | 0 <= i < |a| ensures LeaseKept(a[i], c[i]) {
      assert LeaseKept(a[i], b[i]) && LeaseKept(b[i], c[i]);
    }
  }

  lemma {:induction false} LeasesAlways(start: System, moves: seq<Move>)
    requires Quiet(start)
    ensures LeasesHeld(Play(start, moves).rec.dispatches) && DispatchesMatchLedger(Play(start, moves).rec)
  {
    SafeAlways(start, moves);
    if moves != [] {
      LeasesAlways(start, moves[..|moves| - 1]);
      MoveKeepsLeases(Play(start, moves[..|moves| - 1]), moves[|moves| - 1]);
    }
  }

  lemma {:induction false} LeasesOverMoves(start: System, moves: seq<Move>, more: seq<Move>)
    requires Quiet(start)
    ensures LeasesKept(Play(start, moves).rec.dispatches, Play(start, moves + more).rec.dispatches)
    decreases |more|
  {
    LeasesAlways(start, moves);
    if more == [] {
      assert moves + more == moves;
      SameLeases(Play(start, moves).rec.dispatches);
    } else {
      var all, before := moves + more, more[..|more| - 1];
      assert all[..|all| - 1] == moves + before && all[|all| - 1] == more[|more| - 1];
      LeasesOverMoves(start, moves, before);
      LeasesAlways(start, moves + before);
      MoveKeepsLeases(Play(start, moves + before), more[|more| - 1]);
      LeasesKeptTwice(Play(start, moves).rec.dispatches, Play(start, moves + before).rec.dispatches, Play(start, all).rec.dispatches);
    }
  }

  // ---------------------------------------------------------------- what a claim does

  /** The row as a claim at `now` by `owner` leaves it: theirs for thirty seconds, claimed once more. */
  predicate TakenBy(d: Dispatch, d': Dispatch, owner: string, now: int) {
    d' == d.(state := Leased, leaseOwner := Some(owner), leaseExpiresAt := Some(now + 30_000_000),
             attemptCount := d.attemptCount + 1)
  }

  /** Worker `w` got row `i`; no other row, nothing else and no other worker changed. */
  ghost predicate Takes(s: System, s': System, w: nat, i: nat, owner: string, now: int)
    requires i < |s.rec.dispatches|
  {
    && s'.rec == s.rec.(dispatches := s'.rec.dispatches) && s'.requests == s.requests
    && |s'.rec.dispatches| == |s.rec.dispatches|
    && TakenBy(s.rec.dispatches[i], s'.rec.dispatches[i], owner, now)
    && (forall j :: 0 <= j < |s.rec.dispatches| && j != i ==> s'.rec.dispatches[j] == s.rec.dispatches[j])
    && s'.workers == s.workers[w := Deciding(s'.rec.dispatches[i])]
  }

  /** Worker `w` was turned away. */
  predicate TurnedAway(s: System, s': System, w: nat) {
    s' == s.(workers := s.workers[w := Stopped])
  }

  lemma RowIsFoundById(ds: seq<Dispatch>, i: nat)
    requires NumberedAttempts(ds) && i < |ds|
    ensures FindDispatch(ds, ds[i].dispatchId) == Some(ds[i])
  {
    FoundDispatch(ds, ds[i].dispatchId);
  }

  /** Not settled, and not under a lease of somebody else that ends after `now`. */
  predicate Free(d: Dispatch, owner: string, now: int) {
    && !d.state.Acknowledged? && !d.state.Abandoned?
    && !(d.state.Leased? && d.leaseOwner != Some(owner) && d.leaseExpiresAt.Some? && now < d.leaseExpiresAt.value)
  }

  lemma ClaimMove(s: System, w: nat, owner: string, id: string, now: int, i: nat)
    requires NumberedAttempts(s.rec.dispatches) && At(s, w) == Claiming(owner, id) && IsRow(s.rec, i, id)
    ensures
      var s' := Advance(s, ClaimRow(w, now));
      if Free(s.rec.dispatches[i], owner, now) then Takes(s, s', w, i, owner, now) else TurnedAway(s, s', w)
  {
    RowIsFoundById(s.rec.dispatches, i);
  }

  // ---------------------------------------------------------------- main results

  /** Row `i`, dispatch `id`, was taken by worker `w` for `owner` at `t`, and no later claim took it since. */
  ghost predicate UnderClaim(start: System, moves: seq<Move>, more: seq<Move>, w: nat, owner: string, id: string, t: int, i: nat) {
    var s, s2 := Play(start, moves), Play(start, moves + [ClaimRow(w, t)] + more);
    && At(s, w) == Claiming(owner, id) && IsRow(s.rec, i, id)
    && Play(start, moves + [ClaimRow(w, t)]).rec != s.rec
    && i < |s2.rec.dispatches| && s2.rec.dispatches[i].attemptCount == s.rec.dispatches[i].attemptCount + 1
  }

  lemma ClaimedRowIsKept(start: System, moves: seq<Move>, more: seq<Move>, w: nat, owner: string, id: string, t: int, i: nat)
    requires Quiet(start) && UnderClaim(start, moves, more, w, owner, id, t, i)
    ensures
      var s2 := Play(start, moves + [ClaimRow(w, t)] + more);
      && NumberedAttempts(s2.rec.dispatches) && IsRow(s2.rec, i, id)
      && (s2.rec.dispatches[i].state.Leased? ==>
            s2.rec.dispatches[i].leaseOwner == Some(owner) && s2.rec.dispatches[i].leaseExpiresAt == Some(t + 30_000_000))
  {
    var s, first := Play(start, moves), moves + [ClaimRow(w, t)];
    LeasesAlways(start, moves);
    assert first[..|moves|] == moves;
    ClaimMove(s, w, owner, id, t, i);
    LeasesOverMoves(start, first, more);
    LeasesAlways(start, first + more);
    assert LeaseKept(Play(start, first).rec.dispatches[i], Play(start, first + more).rec.dispatches[i]);
  }

  /**
   Main result: exclusion. After a claim by one owner at time t, as long as the row is leased under that claim,
   a claim by another owner before t + 30 seconds takes nothing and changes nothing.
   */
  lemma LeaseKeepsOthersOut(start: System, moves: seq<Move>, w: nat, owner: string, id: string, t: int, i: nat,
                            more: seq<Move>, v: nat, other: string, now: int)
    requires Quiet(start) && UnderClaim(start, moves, more, w, owner, id, t, i)
    requires
      var s := Play(start, moves + [ClaimRow(w, t)] + more);
      s.rec.dispatches[i].state.Leased? && At(s, v) == Claiming(other, id) && other != owner && now < t + 30_000_000
    ensures
      var s := Play(start, moves + [ClaimRow(w, t)] + more);
      TurnedAway(s, Advance(s, ClaimRow(v, now)), v)
  {
    ClaimedRowIsKept(start, moves, more, w, owner, id, t, i);
    ClaimMove(Play(start, moves + [ClaimRow(w, t)] + more), v, other, id, now, i);
  }

  /**
   Main result: recovery. From t + 30 seconds on, whatever became of the worker that claimed the row, a claim
   by any owner takes it as long as it is not settled, and raises the attempt count by one.
   */
  lemma LeaseEndsAfterThirtySeconds(start: System, moves: seq<Move>, w: nat, owner: string, id: string, t: int, i: nat,
                                    more: seq<Move>, v: nat, other: string, now: int)
    requires Quiet(start) && UnderClaim(start, moves, more, w, owner, id, t, i)
    requires
      var s := Play(start, moves + [ClaimRow(w, t)] + more);
      && !s.rec.dispatches[i].state.Acknowledged? && !s.rec.dispatches[i].state.Abandoned?
      && At(s, v) == Claiming(other, id) && t + 30_000_000 <= now
    ensures
      var s := Play(start, moves + [ClaimRow(w, t)] + more);
      Takes(s, Advance(s, ClaimRow(v, now)), v, i, other, now)
  {
    ClaimedRowIsKept(start, moves, more, w, owner, id, t, i);
    ClaimMove(Play(start, moves + [ClaimRow(w, t)] + more), v, other, id, now, i);
  }

  /** A row that nobody leases is anybody's until it is settled; a settled row is nobody's. */
  lemma UnleasedRowIsTaken(start: System, moves: seq<Move>, w: nat, owner: string, id: string, now: int, i: nat)
    requires Quiet(start) && At(Play(start, moves), w) == Claiming(owner, id) && IsRow(Play(start, moves).rec, i, id)
    requires !Play(start, moves).rec.dispatches[i].state.Leased?
    ensures
      var s, d := Play(start, moves), Play(start, moves).rec.dispatches[i];
      if d.state.Acknowledged? || d.state.Abandoned? then TurnedAway(s, Advance(s, ClaimRow(w, now)), w)
      else Takes(s, Advance(s, ClaimRow(w, now)), w, i, owner, now)
  {
    LeasesAlways(start, moves);
    ClaimMove(Play(start, moves), w, owner, id, now, i);
  }
}
