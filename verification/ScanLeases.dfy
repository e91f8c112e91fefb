/** What a scan lease does, in every interleaving of scanners and retention. */
module ScanLeases {
  import opened Wrappers
  import opened Artifacts
  import opened Scanning
  import opened ScanSafety

  predicate Unreceipted(m: Metadata) {
    m.row.sha256.Some? ==> m.row.sha256.value !in m.receipts
  }

  /** Without a receipt every claim counts an attempt; with the count the same, a lease is the same. */
  predicate SameLease(m: Metadata, m': Metadata) {
    && m.row.scanAttempt <= m'.row.scanAttempt
    && (m'.row.scanAttempt == m.row.scanAttempt && m'.row.status.Scanning? && Unreceipted(m') ==>
          && m.row.status.Scanning? && Unreceipted(m) && m'.row.sha256 == m.row.sha256
          && m'.row.leaseId == m.row.leaseId && m'.row.leaseExpiresAt == m.row.leaseExpiresAt)
  }

  lemma SameLeaseTwice(a: Metadata, b: Metadata, c: Metadata)
    requires SameLease(a, b) && SameLease(b, c)
    ensures SameLease(a, c)
  {
  }

  lemma ClaimKeepsLease(m: Metadata, now: int, ttl: int, leaseId: string)
    ensures ClaimScanLease(m, now, ttl, leaseId).Ok? ==> SameLease(m, ClaimScanLease(m, now, ttl, leaseId).value.0)
  {
  }

  lemma WorkerMoveKeepsLease(policy: Policy, s: System, move: Move)
    requires !move.Finalize? && !move.Tamper? && !move.Mark?
    ensures SameLease(s.v.meta, WorkerMove(policy, s, move, At(s, move.w)).v.meta)
  {
    if move.Claim? && At(s, move.w).Inspecting? {
      ClaimKeepsLease(s.v.meta, move.now, policy.ttl, At(s, move.w).leaseId);
    } else if !(move.Complete? && At(s, move.w).Completing?)
              && !move.Store? && !move.StoreUnavailable? && !move.MarkUnavailable? && !move.Purge? {
      BodyMoveKeepsMeta(policy, s, move);
    }
  }

  lemma MoveKeepsLease(policy: Policy, s: System, move: Move)
    ensures SameLease(s.v.meta, Advance(policy, s, move).v.meta)
  {
    match move
    case Finalize(_, _) =>
    case Tamper(_) =>
    case Mark(_) =>
    case _ => WorkerMoveKeepsLease(policy, s, move);
  }

  lemma {:induction false} LeaseOverMoves(policy: Policy, start: System, moves: seq<Move>, more: seq<Move>)
    ensures SameLease(Play(policy, start, moves).v.meta, Play(policy, start, moves + more).v.meta)
    decreases |more|
  {
    if more == [] {
      assert moves + more == moves;
    } else {
      var all, before := moves + more, more[..|more| - 1];
      assert all[..|all| - 1] == moves + before && all[|all| - 1] == more[|more| - 1];
      LeaseOverMoves(policy, start, moves, before);
      MoveKeepsLease(policy, Play(policy, start, moves + before), more[|more| - 1]);
      SameLeaseTwice(Play(policy, start, moves).v.meta, Play(policy, start, moves + before).v.meta, Play(policy, start, all).v.meta);
    }
  }

  // ---------------------------------------------------------------- what a claim does

  /** Scanner `w` got the row: SCANNING under its lease until now + ttl, one attempt more. */
  predicate Taken(policy: Policy, s: System, s': System, w: nat, leaseId: string, now: int) {
    var a, a' := Row(s), Row(s');
    && a' == a.(status := ArtifactStatus.Scanning, leaseId := Some(leaseId), leaseExpiresAt := Some(now + policy.ttl),
                scanAttempt := a.scanAttempt + 1)
    && s'.v.meta.receipts == s.v.meta.receipts && s'.v.bodies == s.v.bodies
    && a.sha256.Some? && At(s', w) == Worker.Claimed(ScanClaim(a.sha256.value, leaseId, None))
  }

  predicate TurnedAway(s: System, s': System, w: nat) {
    s' == s.(workers := s.workers[w := Idle])
  }

  lemma ClaimMove(policy: Policy, s: System, w: nat, leaseId: string, now: int, reusable: bool)
    requires At(s, w) == Inspecting(leaseId) && Row(s).sha256.Some? && Unreceipted(s.v.meta)
    ensures
      var s', a := Advance(policy, s, Move.Claim(w, now, reusable)), Row(s);
      if a.status.Quarantined?
         || (a.status.Scanning? && (a.leaseId.None? || a.leaseExpiresAt.None? || a.leaseExpiresAt.value <= now))
      then Taken(policy, s, s', w, leaseId, now)
      else TurnedAway(s, s', w)
  {
  }

  // ---------------------------------------------------------------- main results

  /** Scanner `w` took the artifact at `t`; it still is SCANNING without a receipt, and nobody took it since. */
  ghost predicate UnderScan(policy: Policy, start: System, moves: seq<Move>, more: seq<Move>, w: nat, leaseId: string, t: int,
                            reusable: bool) {
    var s, claim := Play(policy, start, moves), Move.Claim(w, t, reusable);
    var s2 := Play(policy, start, moves + [claim] + more);
    && At(s, w) == Inspecting(leaseId) && Row(s).sha256.Some? && Unreceipted(s.v.meta) && Row(Play(policy, start, moves + [claim])) != Row(s)
    && Row(s2).status.Scanning? && Unreceipted(s2.v.meta) && Row(s2).scanAttempt == Row(s).scanAttempt + 1
  }

  lemma UnderScanHolds(policy: Policy, start: System, moves: seq<Move>, more: seq<Move>, w: nat, leaseId: string, t: int,
                       reusable: bool)
    requires UnderScan(policy, start, moves, more, w, leaseId, t, reusable)
    ensures
      var a := Row(Play(policy, start, moves + [Move.Claim(w, t, reusable)] + more));
      a.leaseId == Some(leaseId) && a.leaseExpiresAt == Some(t + policy.ttl) && a.sha256.Some?
  {
    var s, first := Play(policy, start, moves), moves + [Move.Claim(w, t, reusable)];
    assert first[..|moves|] == moves;
    LeaseOverMoves(policy, start, first, more);
    ClaimCounts(policy, s, w, leaseId, t, reusable);
  }

  lemma ClaimCounts(policy: Policy, s: System, w: nat, leaseId: string, now: int, reusable: bool)
    requires At(s, w) == Inspecting(leaseId) && Row(s).sha256.Some?
    ensures
      var s' := Advance(policy, s, Move.Claim(w, now, reusable));
      Row(s') != Row(s) ==>
        && Row(s').leaseId == Some(leaseId) && Row(s').leaseExpiresAt == Some(now + policy.ttl) && Row(s').sha256 == Row(s).sha256
        && Row(s').status.Scanning? && s'.v.meta.receipts == s.v.meta.receipts
        && Row(s').scanAttempt == Row(s).scanAttempt + (if Unreceipted(s.v.meta) then 1 else 0)
  {
  }

  /** Main result: exclusion. Before t + ttl another scanner gets nothing and changes nothing. */
  lemma ScanLeaseKeepsOthersOut(policy: Policy, start: System, moves: seq<Move>, more: seq<Move>, w: nat, leaseId: string,
                                t: int, reusable: bool, v: nat, other: string, now: int, again: bool)
    requires UnderScan(policy, start, moves, more, w, leaseId, t, reusable)
    requires
      var s := Play(policy, start, moves + [Move.Claim(w, t, reusable)] + more);
      At(s, v) == Inspecting(other) && now < t + policy.ttl
    ensures
      var s := Play(policy, start, moves + [Move.Claim(w, t, reusable)] + more);
      TurnedAway(s, Advance(policy, s, Move.Claim(v, now, again)), v)
  {
    UnderScanHolds(policy, start, moves, more, w, leaseId, t, reusable);
    ClaimMove(policy, Play(policy, start, moves + [Move.Claim(w, t, reusable)] + more), v, other, now, again);
  }

  /**
   Main result: recovery. From t + ttl on any scanner takes the artifact over, and from then on the first one can
   no longer complete, unless a receipt decides.
   */
  lemma ScanLeaseEnds(policy: Policy, start: System, moves: seq<Move>, more: seq<Move>, w: nat, leaseId: string, t: int,
                      reusable: bool, v: nat, other: string, now: int, again: bool)
    requires UnderScan(policy, start, moves, more, w, leaseId, t, reusable)
    requires
      var s := Play(policy, start, moves + [Move.Claim(w, t, reusable)] + more);
      At(s, v) == Inspecting(other) && t + policy.ttl <= now
    ensures
      var s := Play(policy, start, moves + [Move.Claim(w, t, reusable)] + more);
      Taken(policy, s, Advance(policy, s, Move.Claim(v, now, again)), v, other, now)
  {
    UnderScanHolds(policy, start, moves, more, w, leaseId, t, reusable);
    ClaimMove(policy, Play(policy, start, moves + [Move.Claim(w, t, reusable)] + more), v, other, now, again);
  }

  /** A scanner whose lease was taken over cannot complete while the new lease runs and no receipt is stored. */
  lemma OvertakenScannerIsRefused(policy: Policy, s: System, w: nat, leaseId: string, status: ArtifactStatus, purge: bool, now: int)
    requires At(s, w) == Completing(leaseId, status, purge) && Row(s).status.Scanning? && !status.Scanning?
    requires Unreceipted(s.v.meta) && Row(s).sha256.Some?
    requires Row(s).leaseId.Some? && Row(s).leaseId != Some(leaseId)
    requires Row(s).leaseExpiresAt.Some? && now < Row(s).leaseExpiresAt.value
    ensures TurnedAway(s, Advance(policy, s, Complete(w, now)), w)
  {
  }

  /** Its own lease completes, unless it asks for CLEAN without a receipt. */
  lemma OwnLeaseCompletes(policy: Policy, s: System, w: nat, leaseId: string, status: ArtifactStatus, purge: bool, now: int)
    requires At(s, w) == Completing(leaseId, status, purge) && Row(s).status.Scanning? && !status.Scanning?
    requires Unreceipted(s.v.meta) && Row(s).leaseId == Some(leaseId)
    ensures
      var s' := Advance(policy, s, Complete(w, now));
      if status.Clean? then TurnedAway(s, s', w)
      else Row(s') == Row(s).(status := status, leaseId := None, leaseExpiresAt := None)
  {
  }

  /** A stored receipt decides the status whatever was asked, but a rejection may replace a clean verdict. */
  lemma ReceiptDecides(policy: Policy, s: System, w: nat, leaseId: string, status: ArtifactStatus, purge: bool, now: int)
    requires At(s, w) == Completing(leaseId, status, purge) && Row(s).status.Scanning? && !status.Scanning?
    requires Row(s).sha256.Some? && Row(s).sha256.value in s.v.meta.receipts
    ensures
      var told := StatusOf(s.v.meta.receipts[Row(s).sha256.value]);
      Row(Advance(policy, s, Complete(w, now))) ==
      Row(s).(status := if IsRejection(status) && told.Clean? then status else told, leaseId := None, leaseExpiresAt := None)
  {
  }
}
