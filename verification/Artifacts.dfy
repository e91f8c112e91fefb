/**
 One artifact: its metadata row, its security receipts and its bodies
 (src/awr/artifacts/contracts.py, src/awr/storage/artifact_sqlite.py, src/awr/storage/artifact_fs.py).
 */
module Artifacts {
  import opened Wrappers

  newtype byte = x: int | 0 <= x < 256

  type Bytes = seq<byte>

  /** SHA-256 of a body, as a parameter. */
  type Hash = Bytes -> string

  // ---------------------------------------------------------------- contracts

  datatype ArtifactStatus =
    | Declared
    | Quarantined
    | Scanning
    | Clean
    | ReadyToRelay
    | Relayed
    | RejectedSize
    | RejectedType
    | RejectedMalware
    | RejectedActiveContent
    | RejectedMalformed
    | RejectedTampering
    | RejectedScannerUnavailable

  predicate IsRejection(s: ArtifactStatus) {
    || s.RejectedSize? || s.RejectedType? || s.RejectedMalware? || s.RejectedActiveContent?
    || s.RejectedMalformed? || s.RejectedTampering? || s.RejectedScannerUnavailable?
  }

  predicate IsOrchestratorStatus(s: ArtifactStatus) {
    s.Scanning? || s.Clean?
  }

  /** next in allowed_transitions(from) */
  predicate Allowed(from: ArtifactStatus, next: ArtifactStatus) {
    match from
    case Declared => next.Quarantined? || IsRejection(next)
    case Quarantined => next.Scanning? || IsRejection(next)
    case Scanning => next.Clean? || IsRejection(next)
    case Clean => next.ReadyToRelay?
    case ReadyToRelay => next.Relayed?
    case _ => false
  }

  datatype Verdict = CleanVerdict | Malicious | Inconclusive | UnavailableVerdict

  datatype Reason =
    | Tampering | TypeMismatch | TypeDisallowed | Polyglot | ExtensionMismatch | Malware | ActiveContent
    | Malformed | ScannerUnavailable | ScannerTimeout | Size | ExpiredUnclaimed

  /** A security receipt; `artifactStatus` is the status its diagnostics name, if they name one. */
  datatype SecurityReceipt = SecurityReceipt(
    receiptId: string,
    verdict: Verdict,
    reasons: set<Reason>,
    scannedSha256: string,
    artifactStatus: Option<ArtifactStatus>)

  /** status_from_security_receipt */
  function StatusOf(r: SecurityReceipt): ArtifactStatus {
    if r.artifactStatus.Some? then r.artifactStatus.value
    else if r.verdict.CleanVerdict? then Clean
    else if Malware in r.reasons then RejectedMalware
    else if Tampering in r.reasons then RejectedTampering
    else if Size in r.reasons then RejectedSize
    else if ActiveContent in r.reasons then RejectedActiveContent
    else if Malformed in r.reasons then RejectedMalformed
    else if
      r.verdict.UnavailableVerdict? || ScannerUnavailable in r.reasons || ScannerTimeout in r.reasons
      || ExpiredUnclaimed in r.reasons
    then RejectedScannerUnavailable
    else RejectedType
  }

  // ---------------------------------------------------------------- metadata

  datatype Artifact = Artifact(
    status: ArtifactStatus,
    sha256: Option<string>,
    byteLength: Option<nat>,
    leaseId: Option<string>,
    leaseExpiresAt: Option<int>,
    scanAttempt: nat)

  /** The row and its security receipts, which are unique per digest. */
  datatype Metadata = Metadata(row: Artifact, receipts: map<string, SecurityReceipt>)

  datatype ScanError = InvalidStatus | LeaseMismatch | MissingReceipt | MissingDigest

  /** _lease_expired */
  predicate LeaseExpired(a: Artifact, now: int) {
    a.leaseId.None? || a.leaseExpiresAt.None? || a.leaseExpiresAt.value <= now
  }

  function ReceiptFor(m: Metadata, sha256: Option<string>): Option<SecurityReceipt> {
    if sha256.Some? && sha256.value in m.receipts then Some(m.receipts[sha256.value]) else None
  }

  datatype ScanClaim = ScanClaim(sha256: string, leaseId: string, existing: Option<SecurityReceipt>)

  /** claim_scan_lease */
  function ClaimScanLease(m: Metadata, now: int, ttl: int, leaseId: string)
    : Result<(Metadata, Option<ScanClaim>), ScanError>
  {
    var a := m.row;
    var leased := a.(status := Scanning, leaseId := Some(leaseId), leaseExpiresAt := Some(now + ttl));
    if a.status.Clean? || IsRejection(a.status) || a.status.ReadyToRelay? || a.status.Relayed? then Ok((m, None))
    else if a.sha256.None? then Err(MissingDigest)
    else if ReceiptFor(m, a.sha256).Some? then
      if a.status.Scanning? || Allowed(a.status, Scanning)
      then Ok((m.(row := leased), Some(ScanClaim(a.sha256.value, leaseId, ReceiptFor(m, a.sha256)))))
      else Ok((m, None))
    else if a.status.Scanning? && !LeaseExpired(a, now) then Ok((m, None))
    else if !a.status.Quarantined? && !a.status.Scanning? then Ok((m, None))
    else
      Ok((m.(row := leased.(scanAttempt := a.scanAttempt + 1)), Some(ScanClaim(a.sha256.value, leaseId, None))))
  }

  /** What complete_scan writes: the receipt decides, but a rejection may override a clean receipt. */
  function BoundStatus(requested: ArtifactStatus, receipt: Option<SecurityReceipt>): ArtifactStatus {
    match receipt
    case None => requested
    case Some(r) => if IsRejection(requested) && StatusOf(r).Clean? then requested else StatusOf(r)
  }

  /** complete_scan */
  function CompleteScan(m: Metadata, leaseId: string, requested: ArtifactStatus, now: int): Result<Metadata, ScanError> {
    var a := m.row;
    var receipt := ReceiptFor(m, a.sha256);
    var status := BoundStatus(requested, receipt);
    if a.status == requested then Ok(m)
    else if !a.status.Scanning? then Err(InvalidStatus)
    else if a.leaseId != Some(leaseId) && a.leaseId.Some? && !LeaseExpired(a, now) && receipt.None? then Err(LeaseMismatch)
    else if receipt.None? && status.Clean? then Err(MissingReceipt)
    else Ok(m.(row := a.(status := status, leaseId := None, leaseExpiresAt := None)))
  }

  /** put_security_receipt: the first receipt of a digest stays, and is what later writers get back. */
  function PutReceipt(m: Metadata, r: SecurityReceipt): (Metadata, SecurityReceipt) {
    if r.scannedSha256 in m.receipts then (m, m.receipts[r.scannedSha256])
    else (m.(receipts := m.receipts[r.scannedSha256 := r]), r)
  }

  /** _update_status_on_connection */
  function UpdateStatus(m: Metadata, status: ArtifactStatus): Result<Metadata, ScanError> {
    if IsOrchestratorStatus(status) then Err(InvalidStatus)
    else if status == m.row.status then Ok(m)
    else if !Allowed(m.row.status, status) then Err(InvalidStatus)
    else Ok(m.(row := m.row.(status := status)))
  }

  // ---------------------------------------------------------------- bodies

  /** The quarantine and the clean tree of one artifact: digest-named files. */
  datatype Bodies = Bodies(quarantine: map<string, Bytes>, clean: map<string, Bytes>)

  datatype BodyError = Unavailable | Immutable | TooLarge

  /** _finalize_exclusive: an existing file stays, and must have the name's digest. */
  function FinalizeExclusive(hash: Hash, tree: map<string, Bytes>, digest: string, content: Bytes)
    : Result<map<string, Bytes>, BodyError>
  {
    if digest in tree then
      if hash(tree[digest]) != digest then Err(Immutable) else Ok(tree)
    else Ok(tree[digest := content])
  }

  /** write_quarantine */
  function WriteQuarantine(hash: Hash, b: Bodies, content: Bytes, maxBytes: nat): Result<(Bodies, string), BodyError> {
    if maxBytes == 0 || |content| > maxBytes then Err(TooLarge)
    else
      var tree :- FinalizeExclusive(hash, b.quarantine, hash(content), content);
      Ok((b.(quarantine := tree), hash(content)))
  }

  /** promote_clean */
  function PromoteClean(hash: Hash, b: Bodies, digest: string): Result<Bodies, BodyError> {
    if digest !in b.quarantine then Err(Unavailable)
    else if hash(b.quarantine[digest]) != digest then Err(Immutable)
    else
      var tree :- FinalizeExclusive(hash, b.clean, digest, b.quarantine[digest]);
      Ok(b.(clean := tree))
  }

  /** delete_generation */
  function DeleteGeneration(b: Bodies, digest: string): Bodies {
    Bodies(b.quarantine - {digest}, b.clean - {digest})
  }

  /** Every clean file hashes to its own name. */
  ghost predicate SelfNamed(hash: Hash, tree: map<string, Bytes>) {
    forall d <- tree.Keys :: hash(tree[d]) == d
  }

  /** Promotion keeps the clean tree self-named, whatever is in the quarantine, and delivers the digest. */
  lemma PromotionKeepsNames(hash: Hash, b: Bodies, digest: string)
    requires SelfNamed(hash, b.clean)
    ensures
      match PromoteClean(hash, b, digest)
      case Err(_) => true
      case Ok(b') =>
        && SelfNamed(hash, b'.clean) && digest in b'.clean
        && b'.quarantine == b.quarantine
        && (forall d <- b.clean.Keys :: d in b'.clean && b'.clean[d] == b.clean[d])
  {
  }

  // ---------------------------------------------------------------- finalize_stream

  /** What the declaration promised about the bytes. */
  datatype Expectation = Expectation(sha256: Option<string>, byteLength: Option<nat>)

  datatype Vault = Vault(meta: Metadata, bodies: Bodies)

  /** finalize_stream, one locked session; an error that is not recorded leaves everything as it was. */
  function FinalizeStream(hash: Hash, v: Vault, content: Bytes, expected: Expectation, maxBytes: nat): Vault {
    if !v.meta.row.status.Declared? then v
    else
      match WriteQuarantine(hash, v.bodies, content, maxBytes)
      case Err(TooLarge) => v.(meta := v.meta.(row := v.meta.row.(status := RejectedSize)))
      case Err(_) => v
      case Ok((bodies, digest)) =>
        if (expected.sha256.Some? && expected.sha256.value != "" && digest != expected.sha256.value)
           || (expected.byteLength.Some? && |content| != expected.byteLength.value)
        then Vault(v.meta.(row := v.meta.row.(status := RejectedTampering)), bodies)
        else
          Vault(v.meta.(row := v.meta.row.(sha256 := Some(digest), byteLength := Some(|content|), status := Quarantined)),
                bodies)
  }
}
