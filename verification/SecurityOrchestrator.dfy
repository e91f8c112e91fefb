/** The artifact row store and one uninterrupted inspection (src/awr/artifacts/security.py). */
module SecurityOrchestrator {
  import opened Wrappers
  import opened Artifacts
  import opened Scanning
  import opened ScanSafety
  import opened Verdicts

  /** The artifact row and its security receipts (src/awr/storage/artifact_sqlite.py). */
  class MetadataStore {
    var row: Artifact
    var receipts: map<string, SecurityReceipt>

    function View(): Metadata
      reads this
    {
      Metadata(row, receipts)
    }

    constructor (m: Metadata)
      ensures View() == m
    {
      row, receipts := m.row, m.receipts;
    }

    method ClaimLease(now: int, ttl: int, leaseId: string) returns (r: Result<Option<ScanClaim>, ScanError>)
      modifies this`row
      ensures
        match ClaimScanLease(old(View()), now, ttl, leaseId)
        case Err(e) => r == Err(e) && View() == old(View())
        case Ok((m, claim)) => r == Ok(claim) && View() == m
    {
      if row.status.Clean? || IsRejection(row.status) || row.status.ReadyToRelay? || row.status.Relayed? {
        return Ok(None);
      }
      if row.sha256.None? {
        return Err(MissingDigest);
      }
      var receipt := ReceiptFor(View(), row.sha256);
      if receipt.Some? {
        if !row.status.Scanning? && !Allowed(row.status, ArtifactStatus.Scanning) {
          return Ok(None);
        }
      } else {
        if row.status.Scanning? && !LeaseExpired(row, now) {
          return Ok(None);
        }
        if !row.status.Quarantined? && !row.status.Scanning? {
          return Ok(None);
        }
        row := row.(scanAttempt := row.scanAttempt + 1);
      }
      row := row.(status := ArtifactStatus.Scanning, leaseId := Some(leaseId), leaseExpiresAt := Some(now + ttl));
      return Ok(Some(ScanClaim(row.sha256.value, leaseId, receipt)));
    }

    method CompleteLease(leaseId: string, requested: ArtifactStatus, now: int) returns (r: Result<(), ScanError>)
      modifies this`row
      ensures
        match CompleteScan(old(View()), leaseId, requested, now)
        case Err(e) => r == Err(e) && View() == old(View())
        case Ok(m) => r.Ok? && View() == m
    {
      if row.status == requested {
        return Ok(());
      }
      if !row.status.Scanning? {
        return Err(InvalidStatus);
      }
      var receipt := ReceiptFor(View(), row.sha256);
      var status := requested;
      if receipt.Some? {
        var bound := StatusOf(receipt.value);
        if !(IsRejection(status) && bound.Clean?) {
          status := bound;
        }
      }
      var leaseOk := row.leaseId == Some(leaseId) || row.leaseId.None? || LeaseExpired(row, now) || receipt.Some?;
      if !leaseOk {
        return Err(LeaseMismatch);
      }
      if receipt.None? && status.Clean? {
        return Err(MissingReceipt);
      }
      row := row.(status := status, leaseId := None, leaseExpiresAt := None);
      return Ok(());
    }

    method PutSecurityReceipt(receipt: SecurityReceipt) returns (stored: SecurityReceipt)
      modifies this`receipts
      ensures (View(), stored) == PutReceipt(old(View()), receipt)
    {
      if receipt.scannedSha256 in receipts {
        return receipts[receipt.scannedSha256];
      }
      receipts := receipts[receipt.scannedSha256 := receipt];
      return receipt;
    }
  }

  // ---------------------------------------------------------------- what an inspection ends with

  datatype InspectError = NoDigest | BeingScanned | BodyFailed(error: BodyError)

  /** The one receipt of the claimed digest: the stored one, or the one the evaluation writes. */
  function ReceiptAfter(claim: ScanClaim, decision: Decision, receiptId: string): SecurityReceipt {
    if claim.existing.Some? then claim.existing.value else ReceiptOf(claim, decision, receiptId)
  }

  /** A clean verdict on a body that is nowhere to be found is tampering. */
  function StatusAfter(receipt: SecurityReceipt, b: Bodies): ArtifactStatus {
    if StatusOf(receipt).Clean? && receipt.scannedSha256 !in b.clean && receipt.scannedSha256 !in b.quarantine
    then RejectedTampering else StatusOf(receipt)
  }

  /** A clean verdict whose body is not promoted yet and no longer has its digest. */
  predicate BodyChanged(policy: Policy, receipt: SecurityReceipt, b: Bodies) {
    var d := receipt.scannedSha256;
    StatusOf(receipt).Clean? && d !in b.clean && d in b.quarantine && policy.hash(b.quarantine[d]) != d
  }

  /** A clean receipt has its body in the clean tree. */
  predicate BodyPresent(policy: Policy, receipt: SecurityReceipt, b: Bodies) {
    StatusOf(receipt).Clean? ==> receipt.scannedSha256 in b.clean && policy.hash(b.clean[receipt.scannedSha256]) == receipt.scannedSha256
  }

  ghost predicate ReceiptsSettled(receipts: map<string, SecurityReceipt>) {
    forall d <- receipts.Keys :: receipts[d].scannedSha256 == d && Settled(StatusOf(receipts[d]))
  }

  /** Completing with a receipt in place: the lease does not matter any more, the receipt does. */
  lemma CompletionWithReceipt(m: Metadata, leaseId: string, requested: ArtifactStatus, now: int, receipt: SecurityReceipt)
    requires m.row.status.Scanning? && ReceiptFor(m, m.row.sha256) == Some(receipt) && Settled(StatusOf(receipt))
    requires requested == StatusOf(receipt) || (StatusOf(receipt).Clean? && IsRejection(requested))
    ensures CompleteScan(m, leaseId, requested, now) ==
            Ok(m.(row := m.row.(status := requested, leaseId := None, leaseExpiresAt := None)))
  {
  }

  lemma ClaimIsScanning(m: Metadata, now: int, ttl: int, leaseId: string)
    ensures
      var r := ClaimScanLease(m, now, ttl, leaseId);
      r.Ok? && r.value.1.Some? ==>
        && r.value.0 == m.(row := r.value.0.row) && r.value.0.row.status.Scanning?
        && r.value.0.row.sha256 == m.row.sha256 == Some(r.value.1.value.sha256)
        && r.value.1.value.existing == ReceiptFor(m, m.row.sha256) && r.value.1.value.leaseId == leaseId
    ensures
      var r := ClaimScanLease(m, now, ttl, leaseId);
      r.Ok? && r.value.1.None? ==> r.value.0 == m
  {
  }

  lemma QuarantinedIsClaimable(m: Metadata, now: int, ttl: int, leaseId: string)
    requires RowOk(m.row)
    ensures
      m.row.status.Quarantined? && ReceiptFor(m, m.row.sha256).None? ==>
        ClaimScanLease(m, now, ttl, leaseId) ==
        Ok((m.(row := m.row.(status := ArtifactStatus.Scanning, leaseId := Some(leaseId), leaseExpiresAt := Some(now + ttl),
                             scanAttempt := m.row.scanAttempt + 1)),
            Some(ScanClaim(m.row.sha256.value, leaseId, None))))
  {
  }

  class Orchestrator {
    const metadata: MetadataStore
    var bodies: Bodies
    const policy: Policy

    ghost predicate Valid()
      reads this, metadata
    {
      RowOk(metadata.row) && ReceiptsSettled(metadata.receipts) && SelfNamed(policy.hash, bodies.clean)
    }

    constructor (metadata: MetadataStore, bodies: Bodies, policy: Policy)
      requires RowOk(metadata.row) && ReceiptsSettled(metadata.receipts) && SelfNamed(policy.hash, bodies.clean)
      ensures Valid() && this.metadata == metadata && this.bodies == bodies && this.policy == policy
    {
      this.metadata, this.bodies, this.policy := metadata, bodies, policy;
    }

    /** The row of a quarantined artifact once its scan is claimed. */
    ghost function ClaimedRow(a: Artifact, leaseId: string, now: int): Artifact {
      a.(status := ArtifactStatus.Scanning, leaseId := Some(leaseId), leaseExpiresAt := Some(now + policy.ttl),
         scanAttempt := a.scanAttempt + 1)
    }

    /** _promote_clean_or_reject; an immutability failure raises. */
    method PromoteCleanOrReject(sha256: string, status: ArtifactStatus) returns (r: Result<ArtifactStatus, BodyError>)
      requires SelfNamed(policy.hash, bodies.clean)
      modifies this`bodies
      ensures SelfNamed(policy.hash, bodies.clean) && bodies.quarantine == old(bodies.quarantine)
      ensures
        r == if !status.Clean? || sha256 in old(bodies.clean) then Ok(status)
             else if sha256 !in old(bodies.quarantine) then Ok(RejectedTampering)
             else if policy.hash(old(bodies.quarantine)[sha256]) != sha256 then Err(Immutable)
             else Ok(Clean)
      ensures bodies.clean == if status.Clean? && r == Ok(Clean) && sha256 !in old(bodies.clean)
                              then old(bodies.clean)[sha256 := old(bodies.quarantine)[sha256]] else old(bodies.clean)
    {
      if !status.Clean? {
        return Ok(status);
      }
      if sha256 !in bodies.clean {
        PromotionKeepsNames(policy.hash, bodies, sha256);
        var promoted := PromoteClean(policy.hash, bodies, sha256);
        match promoted
        case Ok(after) => bodies := after;
        case Err(Unavailable) => return Ok(RejectedTampering);
        case Err(e) => return Err(e);
      }
      return Ok(status);
    }

    /** _ensure_clean_body: any failure raises. */
    method EnsureCleanBody(receipt: SecurityReceipt) returns (r: Result<SecurityReceipt, InspectError>)
      requires SelfNamed(policy.hash, bodies.clean)
      modifies this`bodies
      ensures SelfNamed(policy.hash, bodies.clean) && bodies.quarantine == old(bodies.quarantine)
      ensures r.Err? <==> StatusAfter(receipt, old(bodies)) != StatusOf(receipt) || BodyChanged(policy, receipt, old(bodies))
      ensures r.Ok? ==> r.value == receipt && BodyPresent(policy, receipt, bodies)
      ensures r.Err? || !StatusOf(receipt).Clean? ==> bodies == old(bodies)
    {
      if StatusOf(receipt).Clean? && receipt.scannedSha256 !in bodies.clean {
        PromotionKeepsNames(policy.hash, bodies, receipt.scannedSha256);
        var promoted := PromoteClean(policy.hash, bodies, receipt.scannedSha256);
        if promoted.Err? {
          return Err(BodyFailed(promoted.error));
        }
        bodies := promoted.value;
      }
      return Ok(receipt);
    }

    /**
     Promotion and completion from the receipt of the digest (_finish_from_receipt, and the end of inspect):
     the artifact gets the receipt's status and, when that is CLEAN, its promoted body.
     */
    method Finish(leaseId: string, receipt: SecurityReceipt, now: int) returns (r: Result<SecurityReceipt, InspectError>)
      requires Valid() && metadata.row.status.Scanning? && ReceiptFor(metadata.View(), metadata.row.sha256) == Some(receipt)
      modifies this`bodies, metadata`row
      ensures Valid()
      ensures r == if BodyChanged(policy, receipt, old(bodies)) then Err(BodyFailed(Immutable)) else Ok(receipt)
      ensures r.Err? ==> metadata.row == old(metadata.row) && bodies == old(bodies)
      ensures r.Ok? ==>
                && metadata.row == old(metadata.row).(
                     status := StatusAfter(receipt, old(bodies)), leaseId := None, leaseExpiresAt := None)
                && (metadata.row.status.Clean? ==> BodyPresent(policy, receipt, bodies))
                && (!metadata.row.status.Clean? ==> bodies == old(bodies))
    {
      ghost var before := metadata.View();
      var promoted := PromoteCleanOrReject(receipt.scannedSha256, StatusOf(receipt));
      if promoted.Err? {
        return Err(BodyFailed(promoted.error));
      }
      CompletionWithReceipt(before, leaseId, promoted.value, now, receipt);
      var completed := metadata.CompleteLease(leaseId, promoted.value, now);
      return Ok(receipt);
    }

    /** The claimed part of inspect: evaluate and store a receipt unless the digest has a reusable one. */
    method InspectClaimed(claim: ScanClaim, receiptId: string, now: int, findings: Findings, reusable: bool)
      returns (r: Result<SecurityReceipt, InspectError>)
      requires Valid() && metadata.row.status.Scanning? && metadata.row.sha256 == Some(claim.sha256)
      requires claim.existing == ReceiptFor(metadata.View(), metadata.row.sha256)
      modifies this`bodies, metadata
      ensures Valid()
      ensures
        var e := ReceiptAfter(claim, Evaluation(policy, old(metadata.row), old(bodies.quarantine), findings), receiptId);
        && metadata.receipts == old(metadata.receipts)[claim.sha256 := e]
        && r == (if BodyChanged(policy, e, old(bodies)) then Err(BodyFailed(Immutable)) else Ok(e))
        && (r.Err? ==> metadata.row == old(metadata.row) && bodies == old(bodies))
        && (r.Ok? ==>
              && metadata.row == old(metadata.row).(
                   status := StatusAfter(e, old(bodies)), leaseId := None, leaseExpiresAt := None)
              && (metadata.row.status.Clean? ==> BodyPresent(policy, e, bodies))
              && (!metadata.row.status.Clean? ==> bodies == old(bodies)))
    {
      if claim.existing.Some? && reusable {
        assert metadata.receipts == metadata.receipts[claim.sha256 := claim.existing.value];
        r := Finish(claim.leaseId, claim.existing.value, now);
        return;
      }
      CleanMeansPassed(policy, metadata.row, bodies.quarantine, findings);
      var decision := Evaluation(policy, metadata.row, bodies.quarantine, findings);
      var stored := metadata.PutSecurityReceipt(ReceiptOf(claim, decision, receiptId));
      assert stored == ReceiptAfter(claim, decision, receiptId);
      assert metadata.receipts == old(metadata.receipts)[claim.sha256 := stored];
      r := Finish(claim.leaseId, stored, now);
    }

    /**
     inspect, uninterrupted, in any state of the artifact. A settled one with a reusable receipt is answered
     from it. Otherwise the artifact must be claimable, and ends with exactly the status of the one receipt
     of its digest, the stored one or that of the evaluation; a CLEAN one has its promoted body.
     */
    method Inspect(leaseId: string, receiptId: string, now: int, findings: Findings, reusable: bool)
      returns (r: Result<SecurityReceipt, InspectError>)
      requires Valid()
      modifies this`bodies, metadata
      ensures Valid()
      ensures
        var m, b := old(metadata.View()), old(bodies);
        var receipt := ReceiptFor(m, m.row.sha256);
        if Settled(m.row.status) && receipt.Some? && reusable then
          && metadata.View() == m
          && (r.Err? <==> StatusAfter(receipt.value, b) != StatusOf(receipt.value) || BodyChanged(policy, receipt.value, b))
          && (r.Ok? ==> r.value == receipt.value && BodyPresent(policy, receipt.value, bodies))
        else
          match ClaimScanLease(m, now, policy.ttl, leaseId)
          case Err(_) => r == Err(NoDigest) && metadata.View() == m && bodies == b
          case Ok((_, None)) => r == Err(BeingScanned) && metadata.View() == m && bodies == b
          case Ok((claimed, Some(claim))) =>
            var e := ReceiptAfter(claim, Evaluation(policy, claimed.row, b.quarantine, findings), receiptId);
            && metadata.receipts == m.receipts[claim.sha256 := e]
            && r == (if BodyChanged(policy, e, b) then Err(BodyFailed(Immutable)) else Ok(e))
            && (r.Err? ==> metadata.row == claimed.row && bodies == b)
            && (r.Ok? ==>
                  && metadata.row == claimed.row.(status := StatusAfter(e, b), leaseId := None, leaseExpiresAt := None)
                  && (metadata.row.status.Clean? ==> BodyPresent(policy, e, bodies))
                  && (!metadata.row.status.Clean? ==> bodies == b))
      ensures
        var m, b := old(metadata.View()), old(bodies);
        m.row.status.Quarantined? && ReceiptFor(m, m.row.sha256).None? ==>
          && (Scanned(policy, m.row, b.quarantine, findings, ScanInfected) ==>
                r.Ok? && r.value.verdict.Malicious? && r.value.reasons == {Malware} && metadata.row.status.RejectedMalware?)
          && (!Genuine(policy, m.row, b.quarantine) ==>
                r.Ok? && r.value.verdict.Inconclusive? && r.value.reasons == {Tampering} && metadata.row.status.RejectedTampering?)
          && (GateRaised(policy, m.row, b.quarantine, findings) ==>
                r.Ok? && r.value.verdict.UnavailableVerdict? && metadata.row.status.RejectedScannerUnavailable?)
          && (ScannedClean(policy, m.row, b.quarantine, findings) && findings.validation == Says(ValidContent) ==>
                r.Ok? && r.value.verdict.CleanVerdict? && metadata.row.status.Clean?)
    {
      ghost var was := metadata.row;
      QuarantinedIsClaimable(metadata.View(), now, policy.ttl, leaseId);
      MalwareIff(policy, ClaimedRow(was, leaseId, now), bodies.quarantine, findings);
      TamperingIff(policy, ClaimedRow(was, leaseId, now), bodies.quarantine, findings);
      UnavailableIff(policy, ClaimedRow(was, leaseId, now), bodies.quarantine, findings);
      CleanIff(policy, ClaimedRow(was, leaseId, now), bodies.quarantine, findings);
      var existing := ReceiptFor(metadata.View(), metadata.row.sha256);
      if Settled(metadata.row.status) && existing.Some? && reusable {
        r := EnsureCleanBody(existing.value);
        return;
      }
      ClaimIsScanning(metadata.View(), now, policy.ttl, leaseId);
      var claimed := metadata.ClaimLease(now, policy.ttl, leaseId);
      if claimed.Err? {
        return Err(NoDigest);
      }
      if claimed.value.None? {
        return Err(BeingScanned);
      }
      r := InspectClaimed(claimed.value.value, receiptId, now, findings, reusable);
    }
  }
}
