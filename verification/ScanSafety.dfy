/** An artifact becomes CLEAN only behind a clean receipt, bytes that passed every gate, and a promoted body. */
module ScanSafety {
  import opened Wrappers
  import opened Artifacts
  import opened Scanning

  // ---------------------------------------------------------------- what never goes back

  /** How far an artifact has come. */
  function Stage(s: ArtifactStatus): nat {
    match s
    case Declared => 0
    case Quarantined => 1
    case Scanning => 2
    case _ => 3
  }

  predicate CleanFamily(s: ArtifactStatus) {
    s.Clean? || s.ReadyToRelay? || s.Relayed?
  }

  /** The digest is written once, stages only grow, rejections stay, clean stays clean. */
  predicate Later(a: Artifact, a': Artifact) {
    && (a.sha256.Some? ==> a'.sha256 == a.sha256)
    && Stage(a.status) <= Stage(a'.status)
    && (IsRejection(a.status) ==> a'.status == a.status)
    && (CleanFamily(a.status) ==> CleanFamily(a'.status))
  }

  /** An undeclared digest belongs to a declared artifact only. */
  predicate RowOk(a: Artifact) {
    && (a.status.Declared? ==> a.sha256.None?)
    && (a.status.Quarantined? || a.status.Scanning? || CleanFamily(a.status) ==> a.sha256.Some?)
  }

  // ---------------------------------------------------------------- the invariant

  ghost predicate HasPassed(hash: Hash, passed: seq<Bytes>, digest: string) {
    exists content <- passed :: hash(content) == digest
  }

  /** One receipt per digest, about that digest; a clean one stands for bytes that passed every gate. */
  ghost predicate ReceiptsOk(hash: Hash, receipts: map<string, SecurityReceipt>, passed: seq<Bytes>) {
    forall d <- receipts.Keys ::
      && receipts[d].scannedSha256 == d
      && Settled(StatusOf(receipts[d]))
      && (StatusOf(receipts[d]).Clean? ==> HasPassed(hash, passed, d))
  }

  predicate CleanReceipt(m: Metadata) {
    m.row.sha256.Some? && m.row.sha256.value in m.receipts && StatusOf(m.receipts[m.row.sha256.value]).Clean?
  }

  predicate InHand(m: Metadata, receipt: SecurityReceipt) {
    receipt.scannedSha256 in m.receipts && m.receipts[receipt.scannedSha256] == receipt
    && m.row.sha256 == Some(receipt.scannedSha256)
  }

  /** The scan has started, and is about the artifact's digest. */
  predicate OnScan(m: Metadata, sha256: string) {
    Stage(m.row.status) >= 2 && m.row.sha256 == Some(sha256)
  }

  ghost predicate WorkerOk(hash: Hash, v: Vault, passed: seq<Bytes>, worker: Worker) {
    match worker
    case Idle | Inspecting(_) | EnsuringBody(_) | MarkingUnavailable | Refetching => true
    case Claimed(claim) => OnScan(v.meta, claim.sha256)
    case Evaluating(claim, row) => OnScan(v.meta, claim.sha256) && row.sha256 == Some(claim.sha256)
    case StoringReceipt(claim, d) =>
      OnScan(v.meta, claim.sha256) && Settled(d.status) && (d.status.Clean? ==> HasPassed(hash, passed, claim.sha256))
    case FinishingFrom(_, receipt) => OnScan(v.meta, receipt.scannedSha256) && InHand(v.meta, receipt)
    case CheckingBody(_, d, status, _) => OnScan(v.meta, d) && Settled(status)
    case PromotingBody(_, d, _) => OnScan(v.meta, d)
    case Completing(_, status, _) =>
      && Stage(v.meta.row.status) >= 2 && Settled(status)
      && (status.Clean? && v.meta.row.status.Scanning? ==> v.meta.row.sha256.Some? && v.meta.row.sha256.value in v.bodies.clean)
    case Listed(row) => RowOk(row) && Later(row, v.meta.row)
    case StoringUnavailable(row) => RowOk(row) && Later(row, v.meta.row)
    case Deleting(_) => Stage(v.meta.row.status) == 3
  }

  ghost predicate Sound(policy: Policy, s: System) {
    && RowOk(Row(s))
    && SelfNamed(policy.hash, s.v.bodies.clean)
    && ReceiptsOk(policy.hash, s.v.meta.receipts, s.passed)
    && (CleanFamily(Row(s).status) ==> CleanReceipt(s.v.meta))
    && (forall w <- s.workers.Keys :: WorkerOk(policy.hash, s.v, s.passed, s.workers[w]))
  }

  // ---------------------------------------------------------------- growth

  /** What every move does to the shared state. */
  ghost predicate Grows(s: System, s': System) {
    && Later(Row(s), Row(s'))
    && s.passed <= s'.passed
    && (forall d <- s.v.meta.receipts.Keys :: d in s'.v.meta.receipts && s'.v.meta.receipts[d] == s.v.meta.receipts[d])
    && (Stage(Row(s).status) < 3 ==> s.v.bodies.clean.Keys <= s'.v.bodies.clean.Keys)
  }

  lemma PassedSurvives(hash: Hash, passed: seq<Bytes>, passed': seq<Bytes>, digest: string)
    requires HasPassed(hash, passed, digest) && passed <= passed'
    ensures HasPassed(hash, passed', digest)
  {
    var content :| content in passed && hash(content) == digest;
    assert content in passed';
  }

  lemma LaterIsTransitive(a: Artifact, b: Artifact, c: Artifact)
    requires Later(a, b) && Later(b, c)
    ensures Later(a, c)
  {
  }

  lemma WorkerSurvives(policy: Policy, s: System, s': System, worker: Worker)
    requires WorkerOk(policy.hash, s.v, s.passed, worker) && Grows(s, s')
    ensures WorkerOk(policy.hash, s'.v, s'.passed, worker)
  {
    match worker
    case StoringReceipt(claim, d) =>
      if d.status.Clean? { PassedSurvives(policy.hash, s.passed, s'.passed, claim.sha256); }
    case Listed(row) => LaterIsTransitive(row, Row(s), Row(s'));
    case StoringUnavailable(row) => LaterIsTransitive(row, Row(s), Row(s'));
    case _ =>
  }

  /** A move that grows the state and leaves one worker in a good place keeps the invariant. */
  lemma MoveIsSound(policy: Policy, s: System, s': System, w: nat)
    requires Sound(policy, s) && Grows(s, s')
    requires RowOk(Row(s')) && SelfNamed(policy.hash, s'.v.bodies.clean)
    requires ReceiptsOk(policy.hash, s'.v.meta.receipts, s'.passed)
    requires CleanFamily(Row(s').status) ==> CleanReceipt(s'.v.meta)
    requires w in s'.workers.Keys && WorkerOk(policy.hash, s'.v, s'.passed, s'.workers[w])
    requires s'.workers == s.workers[w := s'.workers[w]]
    ensures Sound(policy, s')
  {
    forall x <- s'.workers.Keys ensures WorkerOk(policy.hash, s'.v, s'.passed, s'.workers[x]) {
      if x != w {
        WorkerSurvives(policy, s, s', s.workers[x]);
      }
    }
  }

  lemma LocalIsSound(policy: Policy, s: System, w: nat, worker: Worker)
    requires Sound(policy, s) && WorkerOk(policy.hash, s.v, s.passed, worker)
    ensures Sound(policy, With(s, w, worker))
  {
    MoveIsSound(policy, s, With(s, w, worker), w);
  }

  // ---------------------------------------------------------------- the environment

  lemma FinalizeGrows(hash: Hash, v: Vault, content: Bytes, expected: Expectation, maxBytes: nat)
    requires RowOk(v.meta.row)
    ensures
      var v' := FinalizeStream(hash, v, content, expected, maxBytes);
      && Later(v.meta.row, v'.meta.row) && RowOk(v'.meta.row)
      && v'.meta.receipts == v.meta.receipts && v'.bodies.clean == v.bodies.clean
      && (CleanFamily(v'.meta.row.status) ==> v'.meta.row == v.meta.row)
  {
  }

  lemma EnvironmentIsSound(policy: Policy, s: System, s': System)
    requires Sound(policy, s) && Later(Row(s), Row(s')) && RowOk(Row(s'))
    requires s'.v.meta.receipts == s.v.meta.receipts && s'.v.bodies.clean == s.v.bodies.clean
    requires s'.passed == s.passed && s'.workers == s.workers
    requires CleanFamily(Row(s').status) ==> CleanFamily(Row(s).status)
    ensures Sound(policy, s')
  {
    forall x <- s'.workers.Keys ensures WorkerOk(policy.hash, s'.v, s'.passed, s'.workers[x]) {
      WorkerSurvives(policy, s, s', s.workers[x]);
    }
  }

  lemma MarkGrows(m: Metadata, status: ArtifactStatus)
    requires RowOk(m.row) && UpdateStatus(m, status).Ok? && !status.Quarantined?
    ensures
      var m' := UpdateStatus(m, status).value;
      && Later(m.row, m'.row) && RowOk(m'.row) && m'.receipts == m.receipts
      && (CleanFamily(m'.row.status) ==> CleanFamily(m.row.status))
  {
  }

  lemma MarkIsSound(policy: Policy, s: System, status: ArtifactStatus)
    requires Sound(policy, s)
    ensures Sound(policy, AfterMark(s, status))
  {
    if UpdateStatus(s.v.meta, status).Ok? && !status.Quarantined? {
      MarkGrows(s.v.meta, status);
      EnvironmentIsSound(policy, s, AfterMark(s, status));
    }
  }

  // ---------------------------------------------------------------- claiming and storing

  lemma ClaimGrows(m: Metadata, now: int, ttl: int, leaseId: string)
    requires RowOk(m.row) && ClaimScanLease(m, now, ttl, leaseId).Ok?
    ensures
      var (m', claim) := ClaimScanLease(m, now, ttl, leaseId).value;
      && Later(m.row, m'.row) && RowOk(m'.row) && m'.receipts == m.receipts
      && (CleanFamily(m'.row.status) ==> m'.row == m.row)
      && (claim.Some? ==>
            && OnScan(m', claim.value.sha256)
            && (claim.value.existing.Some? ==>
                  claim.value.sha256 in m.receipts && claim.value.existing.value == m.receipts[claim.value.sha256]))
  {
  }

  lemma ClaimIsSound(policy: Policy, s: System, w: nat, leaseId: string, now: int, reusable: bool)
    requires Sound(policy, s)
    ensures Sound(policy, AfterClaim(policy, s, w, leaseId, now, reusable))
  {
    var s' := AfterClaim(policy, s, w, leaseId, now, reusable);
    if ClaimScanLease(s.v.meta, now, policy.ttl, leaseId).Ok? {
      ClaimGrows(s.v.meta, now, policy.ttl, leaseId);
    }
    MoveIsSound(policy, s, s', w);
  }

  lemma PutKeeps(policy: Policy, s: System, r: SecurityReceipt)
    requires Sound(policy, s) && Settled(StatusOf(r))
    requires StatusOf(r).Clean? ==> HasPassed(policy.hash, s.passed, r.scannedSha256)
    ensures
      var (m', stored) := PutReceipt(s.v.meta, r);
      && m'.row == s.v.meta.row
      && ReceiptsOk(policy.hash, m'.receipts, s.passed)
      && (forall d <- s.v.meta.receipts.Keys :: d in m'.receipts && m'.receipts[d] == s.v.meta.receipts[d])
      && r.scannedSha256 in m'.receipts && m'.receipts[r.scannedSha256] == stored && stored.scannedSha256 == r.scannedSha256
      && (CleanReceipt(s.v.meta) ==> CleanReceipt(m'))
  {
  }

  lemma StoreIsSound(policy: Policy, s: System, w: nat, claim: ScanClaim, d: Decision, receiptId: string)
    requires Sound(policy, s) && w in s.workers.Keys && s.workers[w] == StoringReceipt(claim, d)
    ensures Sound(policy, AfterStore(s, w, claim, d, receiptId))
  {
    assert WorkerOk(policy.hash, s.v, s.passed, s.workers[w]);
    PutKeeps(policy, s, ReceiptOf(claim, d, receiptId));
    MoveIsSound(policy, s, AfterStore(s, w, claim, d, receiptId), w);
  }

  lemma UnavailableIsSound(policy: Policy, s: System, w: nat, row: Artifact, receiptId: string, reason: Reason)
    requires Sound(policy, s) && w in s.workers.Keys && s.workers[w] == StoringUnavailable(row)
    ensures Sound(policy, AfterStoreUnavailable(s, w, row, receiptId, reason))
  {
    assert WorkerOk(policy.hash, s.v, s.passed, s.workers[w]);
    if row.sha256.Some? {
      PutKeeps(policy, s, UnavailableReceipt(row.sha256.value, receiptId, reason));
    }
    MoveIsSound(policy, s, AfterStoreUnavailable(s, w, row, receiptId, reason), w);
  }

  // ---------------------------------------------------------------- evaluating

  /** A clean decision is about bytes with the digest, within the limit, that passed every gate. */
  lemma CleanMeansPassed(policy: Policy, row: Artifact, quarantine: map<string, Bytes>, findings: Findings)
    ensures
      var d := Evaluation(policy, row, quarantine, findings);
      && Settled(d.status)
      && (d.status.Clean? <==>
            && PassesGates(findings) && row.sha256.Some? && row.sha256.value in quarantine
            && policy.hash(quarantine[row.sha256.value]) == row.sha256.value
            && |quarantine[row.sha256.value]| <= policy.maxBytes
            && (row.byteLength.Some? ==> |quarantine[row.sha256.value]| == row.byteLength.value))
  {
  }

  lemma EvaluateIsSound(policy: Policy, s: System, w: nat, claim: ScanClaim, row: Artifact, findings: Findings)
    requires Sound(policy, s) && w in s.workers.Keys && s.workers[w] == Evaluating(claim, row)
    ensures Sound(policy, AfterEvaluate(policy, s, w, claim, row, findings))
  {
    assert WorkerOk(policy.hash, s.v, s.passed, s.workers[w]);
    var s' := AfterEvaluate(policy, s, w, claim, row, findings);
    CleanMeansPassed(policy, row, s.v.bodies.quarantine, findings);
    forall d <- s.v.meta.receipts.Keys | StatusOf(s.v.meta.receipts[d]).Clean? ensures HasPassed(policy.hash, s'.passed, d) {
      PassedSurvives(policy.hash, s.passed, s'.passed, d);
    }
    if s'.passed != s.passed {
      assert s'.passed[|s.passed|] in s'.passed;
    }
    MoveIsSound(policy, s, s', w);
  }

  // ---------------------------------------------------------------- promoting and completing

  lemma PromoteIsSound(policy: Policy, s: System, w: nat, leaseId: string, sha256: string, purge: bool)
    requires Sound(policy, s) && w in s.workers.Keys && s.workers[w] == PromotingBody(leaseId, sha256, purge)
    ensures Sound(policy, AfterPromote(policy, s, w, leaseId, sha256, purge))
  {
    assert WorkerOk(policy.hash, s.v, s.passed, s.workers[w]);
    PromotionKeepsNames(policy.hash, s.v.bodies, sha256);
    MoveIsSound(policy, s, AfterPromote(policy, s, w, leaseId, sha256, purge), w);
  }

  lemma EnsureIsSound(policy: Policy, s: System, w: nat, receipt: SecurityReceipt)
    requires Sound(policy, s)
    ensures Sound(policy, AfterEnsureBody(policy, s, w, receipt))
  {
    PromotionKeepsNames(policy.hash, s.v.bodies, receipt.scannedSha256);
    MoveIsSound(policy, s, AfterEnsureBody(policy, s, w, receipt), w);
  }

  /** complete_scan: what changes, and when the artifact becomes CLEAN. */
  lemma CompleteGrows(hash: Hash, m: Metadata, passed: seq<Bytes>, leaseId: string, requested: ArtifactStatus, now: int)
    requires RowOk(m.row) && ReceiptsOk(hash, m.receipts, passed) && Settled(requested)
    requires CompleteScan(m, leaseId, requested, now).Ok?
    ensures
      var m' := CompleteScan(m, leaseId, requested, now).value;
      && Later(m.row, m'.row) && RowOk(m'.row) && m'.receipts == m.receipts
      && (CleanFamily(m'.row.status) && !CleanFamily(m.row.status) ==>
            requested.Clean? && m.row.status.Scanning? && m'.row.status.Clean? && CleanReceipt(m) && CleanReceipt(m'))
      && (m'.row.status != m.row.status ==> m.row.status.Scanning? && Settled(m'.row.status))
  {
  }

  lemma CompleteIsSound(policy: Policy, s: System, w: nat, leaseId: string, status: ArtifactStatus, purge: bool, now: int)
    requires Sound(policy, s) && w in s.workers.Keys && s.workers[w] == Completing(leaseId, status, purge)
    ensures Sound(policy, AfterComplete(s, w, leaseId, status, purge, now))
  {
    assert WorkerOk(policy.hash, s.v, s.passed, s.workers[w]);
    if CompleteScan(s.v.meta, leaseId, status, now).Ok? {
      CompleteGrows(policy.hash, s.v.meta, s.passed, leaseId, status, now);
    }
    MoveIsSound(policy, s, AfterComplete(s, w, leaseId, status, purge, now), w);
  }

  // ---------------------------------------------------------------- retention

  lemma PurgeIsSound(policy: Policy, s: System, w: nat, row: Artifact, now: int, aged: bool)
    requires Sound(policy, s) && w in s.workers.Keys && s.workers[w] == Listed(row)
    ensures Sound(policy, AfterPurge(s, w, row, now, aged))
  {
    assert WorkerOk(policy.hash, s.v, s.passed, s.workers[w]);
    MoveIsSound(policy, s, AfterPurge(s, w, row, now, aged), w);
  }

  lemma MarkUnavailableIsSound(policy: Policy, s: System, w: nat)
    requires Sound(policy, s)
    ensures Sound(policy, AfterMarkUnavailable(s, w))
  {
    MoveIsSound(policy, s, AfterMarkUnavailable(s, w), w);
  }

  lemma DeleteIsSound(policy: Policy, s: System, w: nat, sha256: string)
    requires Sound(policy, s) && w in s.workers.Keys && s.workers[w] == Deleting(sha256)
    ensures Sound(policy, With(WithBodies(s, DeleteGeneration(s.v.bodies, sha256)), w, Idle))
  {
    assert WorkerOk(policy.hash, s.v, s.passed, s.workers[w]);
    MoveIsSound(policy, s, With(WithBodies(s, DeleteGeneration(s.v.bodies, sha256)), w, Idle), w);
  }

  // ---------------------------------------------------------------- every move

  predicate IsScanMove(move: Move) {
    move.Claim? || move.Evaluate? || move.Store? || move.Promote? || move.Complete? || move.EnsureBody?
  }

  predicate IsPurgeMove(move: Move) {
    move.Purge? || move.StoreUnavailable? || move.MarkUnavailable? || move.Delete?
  }

  lemma ScanMoveIsSound(policy: Policy, s: System, move: Move)
    requires Sound(policy, s) && IsScanMove(move)
    ensures Sound(policy, WorkerMove(policy, s, move, At(s, move.w)))
  {
    match (move, At(s, move.w))
    case (Claim(w, now, reusable), Inspecting(leaseId)) => ClaimIsSound(policy, s, w, leaseId, now, reusable);
    case (Evaluate(w, findings), Evaluating(claim, row)) => EvaluateIsSound(policy, s, w, claim, row, findings);
    case (Store(w, id), StoringReceipt(claim, d)) => StoreIsSound(policy, s, w, claim, d, id);
    case (Promote(w), PromotingBody(leaseId, d, purge)) => PromoteIsSound(policy, s, w, leaseId, d, purge);
    case (Complete(w, now), Completing(leaseId, status, purge)) => CompleteIsSound(policy, s, w, leaseId, status, purge, now);
    case (EnsureBody(w), EnsuringBody(receipt)) => EnsureIsSound(policy, s, w, receipt);
    case _ =>
  }

  lemma PurgeMoveIsSound(policy: Policy, s: System, move: Move)
    requires Sound(policy, s) && IsPurgeMove(move)
    ensures Sound(policy, WorkerMove(policy, s, move, At(s, move.w)))
  {
    match (move, At(s, move.w))
    case (Purge(w, now, aged), Listed(row)) => PurgeIsSound(policy, s, w, row, now, aged);
    case (StoreUnavailable(w, id, reason), StoringUnavailable(row)) => UnavailableIsSound(policy, s, w, row, id, reason);
    case (MarkUnavailable(w), MarkingUnavailable) => MarkUnavailableIsSound(policy, s, w);
    case (Delete(w), Deleting(d)) => DeleteIsSound(policy, s, w, d);
    case _ =>
  }

  /** Reads and decisions that touch nothing but their own worker. */
  lemma LocalMoveIsSound(policy: Policy, s: System, move: Move)
    requires Sound(policy, s) && !move.Finalize? && !move.Tamper? && !move.Mark? && !IsScanMove(move) && !IsPurgeMove(move)
    ensures Sound(policy, WorkerMove(policy, s, move, At(s, move.w)))
  {
    var s' := WorkerMove(policy, s, move, At(s, move.w));
    if s' != s {
      assert move.w in s'.workers.Keys;
      if move.w in s.workers.Keys { assert WorkerOk(policy.hash, s.v, s.passed, s.workers[move.w]); }
      LocalIsSound(policy, s, move.w, s'.workers[move.w]);
      assert s' == With(s, move.w, s'.workers[move.w]);
    }
  }

  lemma AdvanceIsSound(policy: Policy, s: System, move: Move)
    requires Sound(policy, s)
    ensures Sound(policy, Advance(policy, s, move))
  {
    match move
    case Finalize(content, expected) =>
      FinalizeGrows(policy.hash, s.v, content, expected, policy.maxBytes);
      EnvironmentIsSound(policy, s, Advance(policy, s, move));
    case Tamper(_) => EnvironmentIsSound(policy, s, Advance(policy, s, move));
    case Mark(status) => MarkIsSound(policy, s, status);
    case _ =>
      if IsScanMove(move) {
        ScanMoveIsSound(policy, s, move);
      } else if IsPurgeMove(move) {
        PurgeMoveIsSound(policy, s, move);
      } else {
        LocalMoveIsSound(policy, s, move);
      }
  }

  lemma {:induction false} SoundAlways(policy: Policy, start: System, moves: seq<Move>)
    requires Initial(start)
    ensures Sound(policy, Play(policy, start, moves))
  {
    if moves != [] {
      SoundAlways(policy, start, moves[..|moves| - 1]);
      AdvanceIsSound(policy, Play(policy, start, moves[..|moves| - 1]), moves[|moves| - 1]);
    }
  }

  // ---------------------------------------------------------------- main results

  ghost predicate ReceiptsGrow(m: Metadata, m': Metadata) {
    forall d <- m.receipts.Keys :: d in m'.receipts && m'.receipts[d] == m.receipts[d]
  }

  /** One move on the row and the receipts: nothing is taken back, and only a completed scan makes CLEAN. */
  ghost predicate RowStep(s: System, s': System, move: Move) {
    && Later(Row(s), Row(s')) && ReceiptsGrow(s.v.meta, s'.v.meta)
    && (CleanFamily(Row(s').status) && !CleanFamily(Row(s).status) ==>
          && Row(s').status.Clean? && Row(s).status.Scanning? && CleanReceipt(s.v.meta) && s'.v.bodies == s.v.bodies
          && Row(s').sha256 == Row(s).sha256 && move.Complete?
          && At(s, move.w).Completing? && At(s, move.w).status.Clean?)
  }

  lemma CompleteStep(policy: Policy, s: System, w: nat, leaseId: string, status: ArtifactStatus, purge: bool, now: int)
    requires Sound(policy, s) && At(s, w) == Completing(leaseId, status, purge)
    ensures RowStep(s, AfterComplete(s, w, leaseId, status, purge, now), Complete(w, now))
  {
    assert WorkerOk(policy.hash, s.v, s.passed, s.workers[w]);
    if CompleteScan(s.v.meta, leaseId, status, now).Ok? {
      CompleteGrows(policy.hash, s.v.meta, s.passed, leaseId, status, now);
    }
  }

  lemma ClaimStep(policy: Policy, s: System, w: nat, leaseId: string, now: int, reusable: bool)
    requires Sound(policy, s)
    ensures RowStep(s, AfterClaim(policy, s, w, leaseId, now, reusable), Claim(w, now, reusable))
  {
    if ClaimScanLease(s.v.meta, now, policy.ttl, leaseId).Ok? {
      ClaimGrows(s.v.meta, now, policy.ttl, leaseId);
    }
  }

  lemma WorkerStep(policy: Policy, s: System, move: Move)
    requires Sound(policy, s) && !move.Finalize? && !move.Tamper? && !move.Mark?
    ensures RowStep(s, WorkerMove(policy, s, move, At(s, move.w)), move)
  {
    if move.Claim? && At(s, move.w).Inspecting? {
      ClaimStep(policy, s, move.w, At(s, move.w).leaseId, move.now, move.reusable);
    } else if move.Complete? && At(s, move.w).Completing? {
      CompleteStep(policy, s, move.w, At(s, move.w).leaseId, At(s, move.w).status, At(s, move.w).purge, move.now);
    } else if move.Store? || move.StoreUnavailable? || move.MarkUnavailable? || move.Purge? {
      ReceiptMoveStep(policy, s, move);
    } else {
      BodyMoveKeepsMeta(policy, s, move);
    }
  }

  lemma ReceiptMoveStep(policy: Policy, s: System, move: Move)
    requires Sound(policy, s) && (move.Store? || move.StoreUnavailable? || move.MarkUnavailable? || move.Purge?)
    ensures RowStep(s, WorkerMove(policy, s, move, At(s, move.w)), move)
  {
  }

  lemma BodyMoveKeepsMeta(policy: Policy, s: System, move: Move)
    requires !move.Finalize? && !move.Tamper? && !move.Mark?
    requires !move.Store? && !move.StoreUnavailable? && !move.MarkUnavailable? && !move.Purge?
    requires !(move.Claim? && At(s, move.w).Inspecting?) && !(move.Complete? && At(s, move.w).Completing?)
    ensures WorkerMove(policy, s, move, At(s, move.w)).v.meta == s.v.meta
  {
  }

  lemma AdvanceStep(policy: Policy, s: System, move: Move)
    requires Sound(policy, s)
    ensures RowStep(s, Advance(policy, s, move), move)
  {
    match move
    case Finalize(content, expected) => FinalizeGrows(policy.hash, s.v, content, expected, policy.maxBytes);
    case Tamper(_) =>
    case Mark(status) =>
      if UpdateStatus(s.v.meta, status).Ok? && !status.Quarantined? { MarkGrows(s.v.meta, status); }
    case _ => WorkerStep(policy, s, move);
  }

  /**
   Main result. Under any interleaving of scanners, retention, finalizers and quarantine changes,
   the move that makes an artifact CLEAN finds the one stored receipt of its digest CLEAN, some
   bytes with that digest that passed every gate, and the promoted body, with that digest, present.
   */
  lemma CleanIsEarned(policy: Policy, start: System, moves: seq<Move>, move: Move)
    requires Initial(start)
    requires !CleanFamily(Row(Play(policy, start, moves)).status)
    requires CleanFamily(Row(Advance(policy, Play(policy, start, moves), move)).status)
    ensures
      var s' := Advance(policy, Play(policy, start, moves), move);
      && Row(s').status.Clean? && CleanReceipt(s'.v.meta)
      && (var d := Row(s').sha256.value;
          && s'.v.meta.receipts[d].scannedSha256 == d
          && (exists content <- s'.passed :: policy.hash(content) == d)
          && d in s'.v.bodies.clean && policy.hash(s'.v.bodies.clean[d]) == d)
  {
    var s := Play(policy, start, moves);
    SoundAlways(policy, start, moves);
    AdvanceStep(policy, s, move);
    AdvanceIsSound(policy, s, move);
    assert WorkerOk(policy.hash, s.v, s.passed, s.workers[move.w]);
    assert HasPassed(policy.hash, Advance(policy, s, move).passed, Row(s).sha256.value);
  }

  ghost predicate NothingTakenBack(s: System, s': System) {
    && (IsRejection(Row(s).status) ==> Row(s').status == Row(s).status)
    && (Row(s).sha256.Some? ==> Row(s').sha256 == Row(s).sha256)
    && (CleanFamily(Row(s).status) ==> CleanFamily(Row(s').status))
    && Stage(Row(s).status) <= Stage(Row(s').status)
    && ReceiptsGrow(s.v.meta, s'.v.meta)
  }

  lemma StepTakesNothingBack(s: System, mid: System, s': System, move: Move)
    requires NothingTakenBack(s, mid) && RowStep(mid, s', move)
    ensures NothingTakenBack(s, s')
  {
  }

  /**
   Main result. Whatever happens later, a rejected status never changes, the digest and each
   security receipt are written once, and CLEAN is left only towards relaying.
   */
  lemma {:induction false} NothingIsTakenBack(policy: Policy, start: System, moves: seq<Move>, more: seq<Move>)
    requires Initial(start)
    ensures NothingTakenBack(Play(policy, start, moves), Play(policy, start, moves + more))
    decreases |more|
  {
    if more == [] {
      assert moves + more == moves;
    } else {
      var before, all := more[..|more| - 1], moves + more;
      NothingIsTakenBack(policy, start, moves, before);
      assert all[..|all| - 1] == moves + before;
      var mid := Play(policy, start, moves + before);
      SoundAlways(policy, start, moves + before);
      AdvanceStep(policy, mid, more[|more| - 1]);
      StepTakesNothingBack(Play(policy, start, moves), mid, Play(policy, start, all), more[|more| - 1]);
    }
  }
}
