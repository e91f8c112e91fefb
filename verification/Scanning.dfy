/**
 Scanners and retention over one artifact as a state machine (src/awr/artifacts/security.py,
 src/awr/artifacts/retention.py). Any number of workers interleave between their store calls; a
 worker may stop for ever at any point, quarantine files may change arbitrarily.
 */
module Scanning {
  import opened Wrappers
  import opened Artifacts

  datatype Decision = Decision(status: ArtifactStatus, verdict: Verdict, reasons: set<Reason>)

  /** A gate answers or raises. */
  datatype Answer<T> = Says(answer: T) | Raises

  /** What the file-type detectors make of the bytes. */
  datatype Detection = Detection(polyglot: bool, family: string, familyAllowed: bool)

  datatype ScanOutcome = ScanClean | ScanInfected | ScanTimeout | ScanUnavailable | ScanMalformed

  type Rejection = s: ArtifactStatus | IsRejection(s) witness RejectedType

  datatype Validation = ValidContent | InvalidContent(status: Rejection, reason: Option<Reason>)

  /** What the gates say of bytes that match the digest and fit the limit, with the declared and the named family. */
  datatype Findings = Findings(
    detection: Answer<Detection>,
    declaredFamily: Option<string>,
    extensionFamily: Option<string>,
    scan: Answer<ScanOutcome>,
    validation: Answer<Validation>)

  /** A scanner inside inspect, or a retention run inside _purge_one. */
  datatype Worker =
    | Idle
    | Inspecting(leaseId: string)
    | EnsuringBody(receipt: SecurityReceipt)
    | Claimed(claim: ScanClaim)
    | Evaluating(claim: ScanClaim, row: Artifact)
    | StoringReceipt(claim: ScanClaim, decision: Decision)
    | FinishingFrom(leaseId: string, receipt: SecurityReceipt)
    | CheckingBody(leaseId: string, sha256: string, status: ArtifactStatus, purge: bool)
    | PromotingBody(leaseId: string, sha256: string, purge: bool)
    | Completing(leaseId: string, status: ArtifactStatus, purge: bool)
    | Listed(row: Artifact)
    | StoringUnavailable(row: Artifact)
    | MarkingUnavailable
    | Refetching
    | Deleting(sha256: string)

  datatype System = System(v: Vault, passed: seq<Bytes>, workers: map<nat, Worker>)

  datatype Policy = Policy(hash: Hash, maxBytes: nat, ttl: int)

  datatype Move =
    | Finalize(content: Bytes, expected: Expectation)
    | Tamper(quarantine: map<string, Bytes>)
    | Mark(status: ArtifactStatus)
    | Inspect(w: nat, leaseId: string)
    | ReadTerminal(w: nat, reusable: bool)
    | EnsureBody(w: nat)
    | Claim(w: nat, now: int, reusable: bool)
    | ReadRow(w: nat)
    | Evaluate(w: nat, findings: Findings)
    | Store(w: nat, receiptId: string)
    | FinishFrom(w: nat)
    | CheckBody(w: nat)
    | Promote(w: nat)
    | Complete(w: nat, now: int)
    | List(w: nat)
    | Purge(w: nat, now: int, aged: bool)
    | StoreUnavailable(w: nat, receiptId: string, reason: Reason)
    | MarkUnavailable(w: nat)
    | Refetch(w: nat, aged: bool)
    | Delete(w: nat)

  // ---------------------------------------------------------------- _evaluate

  function Rejected(status: ArtifactStatus, verdict: Verdict, reason: Reason): Decision {
    Decision(status, verdict, {reason})
  }

  function VerdictFor(status: ArtifactStatus): Verdict {
    if status.RejectedMalware? then Malicious
    else if status.RejectedScannerUnavailable? then UnavailableVerdict
    else Inconclusive
  }

  datatype Conflict = PolyglotConflict | DisallowedConflict | DeclaredConflict | ExtensionConflict

  /** type_conflict_reason */
  function TypeConflict(declared: Option<string>, extension: Option<string>, d: Detection): Option<Conflict> {
    if d.polyglot then Some(PolyglotConflict)
    else if !d.familyAllowed then Some(DisallowedConflict)
    else if declared.Some? && declared.value != d.family then Some(DeclaredConflict)
    else if extension.Some? && extension.value != d.family then Some(ExtensionConflict)
    else if declared.Some? && extension.Some? && declared.value != extension.value then Some(DeclaredConflict)
    else None
  }

  /** _type_reason */
  function TypeReason(conflict: Conflict, polyglot: bool): Reason {
    if conflict.PolyglotConflict? || polyglot then Polyglot
    else if conflict.ExtensionConflict? then ExtensionMismatch
    else if conflict.DisallowedConflict? then TypeDisallowed
    else TypeMismatch
  }

  const UNAVAILABLE_DECISION := Decision(RejectedScannerUnavailable, UnavailableVerdict, {ScannerUnavailable})

  /** _scan_rejection */
  function ScanRejection(scan: ScanOutcome): Option<Decision> {
    match scan
    case ScanClean => None
    case ScanInfected => Some(Rejected(RejectedMalware, Malicious, Malware))
    case ScanTimeout =>
      Some(Decision(RejectedScannerUnavailable, UnavailableVerdict, {ScannerTimeout, ScannerUnavailable}))
    case ScanUnavailable | ScanMalformed => Some(UNAVAILABLE_DECISION)
  }

  function ValidationGate(validation: Answer<Validation>): Decision {
    match validation
    case Raises => UNAVAILABLE_DECISION
    case Says(ValidContent) => Decision(Clean, CleanVerdict, {})
    case Says(InvalidContent(status, reason)) =>
      Decision(status, VerdictFor(status), if reason.Some? then {reason.value} else {})
  }

  /** The gates in their order; whatever raises counts as an unavailable scanner. */
  function Gate(f: Findings): Decision {
    match f.detection
    case Raises => UNAVAILABLE_DECISION
    case Says(d) =>
      match TypeConflict(f.declaredFamily, f.extensionFamily, d)
      case Some(conflict) => Rejected(RejectedType, Inconclusive, TypeReason(conflict, d.polyglot))
      case None =>
        match f.scan
        case Raises => UNAVAILABLE_DECISION
        case Says(scan) =>
          match ScanRejection(scan)
          case Some(decision) => decision
          case None => ValidationGate(f.validation)
  }

  /** No raising, no conflict of types, a clean scan and valid content. */
  predicate PassesGates(f: Findings) {
    && f.detection.Says? && !f.detection.answer.polyglot && f.detection.answer.familyAllowed
    && (f.declaredFamily.Some? ==> f.declaredFamily.value == f.detection.answer.family)
    && (f.extensionFamily.Some? ==> f.extensionFamily.value == f.detection.answer.family)
    && f.scan == Says(ScanClean) && f.validation == Says(ValidContent)
  }

  /** _evaluate on the row and the quarantine as they are now, with the handlers around it. */
  function Evaluation(policy: Policy, row: Artifact, quarantine: map<string, Bytes>, findings: Findings): Decision {
    if row.sha256.None? || row.sha256.value !in quarantine then Rejected(RejectedTampering, Inconclusive, Tampering)
    else
      var content := quarantine[row.sha256.value];
      if policy.hash(content) != row.sha256.value || (row.byteLength.Some? && |content| != row.byteLength.value)
      then Rejected(RejectedTampering, Inconclusive, Tampering)
      else if |content| > policy.maxBytes then Rejected(RejectedSize, Inconclusive, Size)
      else Gate(findings)
  }

  // ---------------------------------------------------------------- moves

  function With(s: System, w: nat, worker: Worker): System {
    s.(workers := s.workers[w := worker])
  }

  function At(s: System, w: nat): Worker {
    if w in s.workers then s.workers[w] else Idle
  }

  function Row(s: System): Artifact {
    s.v.meta.row
  }

  function WithMeta(s: System, meta: Metadata): System {
    s.(v := s.v.(meta := meta))
  }

  function WithBodies(s: System, bodies: Bodies): System {
    s.(v := s.v.(bodies := bodies))
  }

  predicate Settled(status: ArtifactStatus) {
    status.Clean? || IsRejection(status)
  }

  function AfterReadTerminal(s: System, w: nat, reusable: bool): System {
    var receipt := ReceiptFor(s.v.meta, Row(s).sha256);
    if Settled(Row(s).status) && receipt.Some? && reusable then With(s, w, EnsuringBody(receipt.value)) else s
  }

  /** A failed promotion raises out of inspect. */
  function AfterEnsureBody(policy: Policy, s: System, w: nat, receipt: SecurityReceipt): System {
    if StatusOf(receipt).Clean? && receipt.scannedSha256 !in s.v.bodies.clean then
      match PromoteClean(policy.hash, s.v.bodies, receipt.scannedSha256)
      case Ok(bodies) => With(WithBodies(s, bodies), w, Idle)
      case Err(_) => With(s, w, Idle)
    else With(s, w, Idle)
  }

  function AfterClaim(policy: Policy, s: System, w: nat, leaseId: string, now: int, reusable: bool): System {
    match ClaimScanLease(s.v.meta, now, policy.ttl, leaseId)
    case Err(_) => With(s, w, Idle)
    case Ok((meta, claim)) =>
      match claim
      case None => With(WithMeta(s, meta), w, Idle)
      case Some(c) =>
        With(WithMeta(s, meta), w, if c.existing.Some? && reusable then FinishingFrom(c.leaseId, c.existing.value) else Claimed(c))
  }

  function AfterEvaluate(policy: Policy, s: System, w: nat, claim: ScanClaim, row: Artifact, findings: Findings): System {
    var decision := Evaluation(policy, row, s.v.bodies.quarantine, findings);
    var s' := if decision.status.Clean? && row.sha256.Some? && row.sha256.value in s.v.bodies.quarantine
              then s.(passed := s.passed + [s.v.bodies.quarantine[row.sha256.value]]) else s;
    With(s', w, StoringReceipt(claim, decision))
  }

  function ReceiptOf(claim: ScanClaim, d: Decision, receiptId: string): SecurityReceipt {
    SecurityReceipt(receiptId, d.verdict, d.reasons, claim.sha256, Some(d.status))
  }

  function AfterStore(s: System, w: nat, claim: ScanClaim, d: Decision, receiptId: string): System {
    var (meta, stored) := PutReceipt(s.v.meta, ReceiptOf(claim, d, receiptId));
    With(WithMeta(s, meta), w,
         if stored.receiptId != receiptId then FinishingFrom(claim.leaseId, stored)
         else CheckingBody(claim.leaseId, claim.sha256, StatusOf(stored), false))
  }

  /** _finish_from_receipt */
  function AfterFinishFrom(s: System, w: nat, leaseId: string, receipt: SecurityReceipt): System {
    With(s, w,
         if Settled(Row(s).status) then EnsuringBody(receipt)
         else CheckingBody(leaseId, receipt.scannedSha256, StatusOf(receipt), false))
  }

  /** _promote_clean_or_reject, up to the promotion. */
  function AfterCheckBody(s: System, w: nat, leaseId: string, sha256: string, status: ArtifactStatus, purge: bool): System {
    With(s, w,
         if status.Clean? && sha256 !in s.v.bodies.clean then PromotingBody(leaseId, sha256, purge)
         else Completing(leaseId, status, purge))
  }

  /** A missing quarantine file means tampering; any other failure raises. */
  function AfterPromote(policy: Policy, s: System, w: nat, leaseId: string, sha256: string, purge: bool): System {
    match PromoteClean(policy.hash, s.v.bodies, sha256)
    case Ok(bodies) => With(WithBodies(s, bodies), w, Completing(leaseId, Clean, purge))
    case Err(Unavailable) => With(s, w, Completing(leaseId, RejectedTampering, purge))
    case Err(_) => With(s, w, Idle)
  }

  function AfterComplete(s: System, w: nat, leaseId: string, status: ArtifactStatus, purge: bool, now: int): System {
    match CompleteScan(s.v.meta, leaseId, status, now)
    case Err(_) => With(s, w, Idle)
    case Ok(meta) => With(WithMeta(s, meta), w, if purge then Refetching else Idle)
  }

  // ---------------------------------------------------------------- _purge_one

  predicate LeaseGone(row: Artifact, now: int) {
    row.leaseExpiresAt.None? || row.leaseExpiresAt.value <= now
  }

  /** Deleting needs a digest; a young body stays. */
  function DeleteIfAged(row: Artifact, aged: bool): Worker {
    if Settled(row.status) && aged && row.sha256.Some? then Deleting(row.sha256.value) else Idle
  }

  function AfterPurge(s: System, w: nat, row: Artifact, now: int, aged: bool): System {
    var receipt := ReceiptFor(s.v.meta, row.sha256);
    With(s, w,
         if row.status.Scanning? then
           if !LeaseGone(row, now) then Idle
           else if receipt.Some? && row.sha256.Some? then
             CheckingBody(row.leaseId.GetOr(""), row.sha256.value, StatusOf(receipt.value), true)
           else StoringUnavailable(row)
         else if row.status.Declared? || row.status.Quarantined? then
           if aged then StoringUnavailable(row) else Idle
         else DeleteIfAged(row, aged))
  }

  function UnavailableReceipt(sha256: string, receiptId: string, reason: Reason): SecurityReceipt {
    SecurityReceipt(receiptId, UnavailableVerdict, {reason, ScannerUnavailable}, sha256, Some(RejectedScannerUnavailable))
  }

  /** _reject_unavailable, up to the status change. */
  function AfterStoreUnavailable(s: System, w: nat, row: Artifact, receiptId: string, reason: Reason): System {
    var meta := if row.sha256.Some? then PutReceipt(s.v.meta, UnavailableReceipt(row.sha256.value, receiptId, reason)).0
                else s.v.meta;
    With(WithMeta(s, meta), w,
         if row.status.Scanning? then Completing(row.leaseId.GetOr(""), RejectedScannerUnavailable, true)
         else MarkingUnavailable)
  }

  function AfterMarkUnavailable(s: System, w: nat): System {
    if Row(s).status.Declared? || Row(s).status.Quarantined?
    then With(WithMeta(s, s.v.meta.(row := Row(s).(status := RejectedScannerUnavailable))), w, Refetching)
    else With(s, w, Refetching)
  }

  /** Any other caller of update_status; QUARANTINED is set by finalize_stream alone, with the fingerprint. */
  function AfterMark(s: System, status: ArtifactStatus): System {
    match UpdateStatus(s.v.meta, status)
    case Ok(meta) => if status.Quarantined? then s else WithMeta(s, meta)
    case Err(_) => s
  }

  /** A move that its worker is not ready for leaves the system as it is. */
  function Advance(policy: Policy, s: System, move: Move): System {
    match move
    case Finalize(content, expected) => s.(v := FinalizeStream(policy.hash, s.v, content, expected, policy.maxBytes))
    case Tamper(quarantine) => WithBodies(s, s.v.bodies.(quarantine := quarantine))
    case Mark(status) => AfterMark(s, status)
    case _ => WorkerMove(policy, s, move, At(s, move.w))
  }

  function WorkerMove(policy: Policy, s: System, move: Move, worker: Worker): System
    requires !move.Finalize? && !move.Tamper? && !move.Mark?
  {
    match (move, worker)
    case (Inspect(w, leaseId), Idle) => With(s, w, Inspecting(leaseId))
    case (ReadTerminal(w, reusable), Inspecting(_)) => AfterReadTerminal(s, w, reusable)
    case (EnsureBody(w), EnsuringBody(receipt)) => AfterEnsureBody(policy, s, w, receipt)
    case (Claim(w, now, reusable), Inspecting(leaseId)) => AfterClaim(policy, s, w, leaseId, now, reusable)
    case (ReadRow(w), Claimed(claim)) => With(s, w, Evaluating(claim, Row(s)))
    case (Evaluate(w, findings), Evaluating(claim, row)) => AfterEvaluate(policy, s, w, claim, row, findings)
    case (Store(w, id), StoringReceipt(claim, d)) => AfterStore(s, w, claim, d, id)
    case (FinishFrom(w), FinishingFrom(leaseId, receipt)) => AfterFinishFrom(s, w, leaseId, receipt)
    case (CheckBody(w), CheckingBody(leaseId, d, status, purge)) => AfterCheckBody(s, w, leaseId, d, status, purge)
    case (Promote(w), PromotingBody(leaseId, d, purge)) => AfterPromote(policy, s, w, leaseId, d, purge)
    case (Complete(w, now), Completing(leaseId, status, purge)) => AfterComplete(s, w, leaseId, status, purge, now)
    case (List(w), Idle) => With(s, w, Listed(Row(s)))
    case (Purge(w, now, aged), Listed(row)) => AfterPurge(s, w, row, now, aged)
    case (StoreUnavailable(w, id, reason), StoringUnavailable(row)) => AfterStoreUnavailable(s, w, row, id, reason)
    case (MarkUnavailable(w), MarkingUnavailable) => AfterMarkUnavailable(s, w)
    case (Refetch(w, aged), Refetching) => With(s, w, DeleteIfAged(Row(s), aged))
    case (Delete(w), Deleting(d)) => With(WithBodies(s, DeleteGeneration(s.v.bodies, d)), w, Idle)
    case _ => s
  }

  function Play(policy: Policy, s: System, moves: seq<Move>): System {
    if moves == [] then s else Advance(policy, Play(policy, s, moves[..|moves| - 1]), moves[|moves| - 1])
  }

  /** A newly declared artifact. */
  predicate Initial(s: System) {
    && Row(s) == Artifact(Declared, None, None, None, None, 0)
    && s.v.meta.receipts == map[] && s.v.bodies.clean == map[]
    && s.passed == [] && s.workers == map[]
  }
}
