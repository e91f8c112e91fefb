/** What retention and finalizing do to an artifact, and what they leave alone. */
module Retention {
  import opened Wrappers
  import opened Artifacts
  import opened Scanning
  import opened ScanSafety

  // ---------------------------------------------------------------- finalize_stream

  /** A declared digest that is empty or absent is not compared. */
  predicate Promised(hash: Hash, content: Bytes, expected: Expectation) {
    && (expected.sha256.None? || expected.sha256.value == "" || expected.sha256.value == hash(content))
    && (expected.byteLength.None? || expected.byteLength.value == |content|)
  }

  /** Bytes under this digest are already in quarantine, and they are others. */
  predicate Conflicts(hash: Hash, b: Bodies, content: Bytes) {
    hash(content) in b.quarantine && hash(b.quarantine[hash(content)]) != hash(content)
  }

  /**
   Main result. Finalizing a declared artifact rejects an oversized body by size, a body that breaks the
   promise as tampering, and quarantines every other with its own digest and length; nothing else moves.
   */
  lemma FinalizeOutcome(hash: Hash, v: Vault, content: Bytes, expected: Expectation, maxBytes: nat)
    ensures
      var v' := FinalizeStream(hash, v, content, expected, maxBytes);
      var a, a' := v.meta.row, v'.meta.row;
      && v'.meta.receipts == v.meta.receipts && v'.bodies.clean == v.bodies.clean
      && (if !a.status.Declared? then v' == v
          else if maxBytes == 0 || maxBytes < |content| then a' == a.(status := RejectedSize) && v'.bodies == v.bodies
          else if Conflicts(hash, v.bodies, content) then v' == v
          else
            && hash(content) in v'.bodies.quarantine && hash(v'.bodies.quarantine[hash(content)]) == hash(content)
            && v'.bodies.quarantine - {hash(content)} == v.bodies.quarantine - {hash(content)}
            && a' == (if Promised(hash, content, expected)
                      then a.(status := Quarantined, sha256 := Some(hash(content)), byteLength := Some(|content|))
                      else a.(status := RejectedTampering)))
  {
  }

  // ---------------------------------------------------------------- _purge_one

  predicate LeaseLive(row: Artifact, now: int) {
    row.leaseExpiresAt.Some? && now < row.leaseExpiresAt.value
  }

  /** Retention leaves a running scan alone, and whatever is too young. */
  lemma PurgeSpares(policy: Policy, s: System, w: nat, row: Artifact, now: int, aged: bool)
    requires At(s, w) == Listed(row)
    ensures
      var s' := Advance(policy, s, Purge(w, now, aged));
      && s'.v == s.v
      && ((row.status.Scanning? && LeaseLive(row, now)) || (!row.status.Scanning? && !aged) ==> At(s', w).Idle?)
      && (row.status.Scanning? && !LeaseLive(row, now) && ReceiptFor(s.v.meta, row.sha256).None? ==>
            At(s', w) == StoringUnavailable(row))
      && ((row.status.Declared? || row.status.Quarantined?) && aged ==> At(s', w) == StoringUnavailable(row))
      && (At(s', w).Deleting? ==> aged && Settled(row.status) && row.sha256 == Some(At(s', w).sha256))
  {
  }

  lemma RefetchSpares(policy: Policy, s: System, w: nat, aged: bool)
    requires At(s, w).Refetching?
    ensures
      var s' := Advance(policy, s, Refetch(w, aged));
      && s'.v == s.v
      && (if aged && Settled(Row(s).status) && Row(s).sha256.Some? then At(s', w) == Deleting(Row(s).sha256.value)
          else At(s', w).Idle?)
  {
  }

  /** The receipt retention stores for a body nobody scanned. */
  lemma UnavailableIsStored(policy: Policy, s: System, w: nat, row: Artifact, id: string, reason: Reason)
    requires At(s, w) == StoringUnavailable(row) && row.sha256.Some?
    ensures
      var receipts := Advance(policy, s, StoreUnavailable(w, id, reason)).v.meta.receipts;
      && row.sha256.value in receipts
      && receipts[row.sha256.value] ==
         (if row.sha256.value in s.v.meta.receipts then s.v.meta.receipts[row.sha256.value]
          else SecurityReceipt(id, UnavailableVerdict, {reason, ScannerUnavailable}, row.sha256.value,
                               Some(RejectedScannerUnavailable)))
  {
  }

  /** What nobody scanned in time is rejected as unavailable, and nothing else is. */
  lemma UnscannedIsRejected(policy: Policy, s: System, w: nat)
    requires At(s, w) == MarkingUnavailable
    ensures
      var s' := Advance(policy, s, MarkUnavailable(w));
      && Row(s') == (if Row(s).status.Declared? || Row(s).status.Quarantined?
                     then Row(s).(status := RejectedScannerUnavailable) else Row(s))
      && s'.v.bodies == s.v.bodies && s'.v.meta.receipts == s.v.meta.receipts
  {
  }

  // ---------------------------------------------------------------- bodies disappear only at the end

  predicate Ended(status: ArtifactStatus) {
    IsRejection(status) || CleanFamily(status)
  }

  /** A worker about to delete a body knows that the artifact ended; a listed row is an earlier image. */
  predicate SawTheEnd(a: Artifact, worker: Worker) {
    match worker
    case Deleting(d) => Ended(a.status) && a.sha256 == Some(d)
    case Listed(row) => Later(row, a)
    case _ => true
  }

  ghost predicate DeletersSawTheEnd(s: System) {
    forall w <- s.workers.Keys :: SawTheEnd(Row(s), s.workers[w])
  }

  lemma StillSawTheEnd(a: Artifact, a': Artifact, worker: Worker)
    requires Later(a, a') && SawTheEnd(a, worker)
    ensures SawTheEnd(a', worker)
  {
    match worker
    case Listed(row) => LaterIsTransitive(row, a, a');
    case _ =>
  }

  lemma WorkerSawTheEnd(policy: Policy, s: System, move: Move)
    requires !move.Finalize? && !move.Tamper? && !move.Mark?
    requires SawTheEnd(Row(s), At(s, move.w))
    ensures
      var s' := WorkerMove(policy, s, move, At(s, move.w));
      s' == s || s'.workers.Keys == s.workers.Keys + {move.w}
    ensures
      var s' := WorkerMove(policy, s, move, At(s, move.w));
      && (forall w <- s.workers.Keys :: w != move.w ==> s'.workers[w] == s.workers[w])
      && (s' != s && (s'.workers[move.w].Deleting? || s'.workers[move.w].Listed?) ==>
            Row(s') == Row(s) && SawTheEnd(Row(s), s'.workers[move.w]))
  {
  }

  lemma MoveSawTheEnd(policy: Policy, s: System, move: Move)
    requires Sound(policy, s) && DeletersSawTheEnd(s)
    ensures DeletersSawTheEnd(Advance(policy, s, move))
  {
    var s' := Advance(policy, s, move);
    AdvanceStep(policy, s, move);
    if !move.Finalize? && !move.Tamper? && !move.Mark? {
      WorkerSawTheEnd(policy, s, move);
    }
    forall w <- s'.workers.Keys ensures SawTheEnd(Row(s'), s'.workers[w]) {
      if w in s.workers && s'.workers[w] == s.workers[w] {
        StillSawTheEnd(Row(s), Row(s'), s.workers[w]);
      }
    }
  }

  lemma {:induction false} DeletersAlwaysSawTheEnd(policy: Policy, start: System, moves: seq<Move>)
    requires Initial(start)
    ensures DeletersSawTheEnd(Play(policy, start, moves))
  {
    if moves != [] {
      DeletersAlwaysSawTheEnd(policy, start, moves[..|moves| - 1]);
      SoundAlways(policy, start, moves[..|moves| - 1]);
      MoveSawTheEnd(policy, Play(policy, start, moves[..|moves| - 1]), moves[|moves| - 1]);
    }
  }

  lemma OnlyDeletingRemoves(policy: Policy, s: System, move: Move, d: string)
    requires d in s.v.bodies.clean && d !in Advance(policy, s, move).v.bodies.clean
    ensures move.Delete? && At(s, move.w) == Deleting(d)
  {
  }

  /**
   Main result. Over every interleaving a promoted body disappears only when retention deletes it, and then the
   artifact has ended: it was rejected, or it was clean and its time was over. It is the artifact's own body.
   */
  lemma BodiesGoAtTheEnd(policy: Policy, start: System, moves: seq<Move>, move: Move, d: string)
    requires Initial(start)
    requires d in Play(policy, start, moves).v.bodies.clean
    requires d !in Advance(policy, Play(policy, start, moves), move).v.bodies.clean
    ensures move.Delete? && Ended(Row(Play(policy, start, moves)).status) && Row(Play(policy, start, moves)).sha256 == Some(d)
  {
    var s := Play(policy, start, moves);
    DeletersAlwaysSawTheEnd(policy, start, moves);
    OnlyDeletingRemoves(policy, s, move, d);
    assert SawTheEnd(Row(s), s.workers[move.w]);
  }
}
