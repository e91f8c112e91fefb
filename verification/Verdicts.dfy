/** Which bytes get which verdict: every rejection of an inspection, told from the bytes and the gates' answers. */
module Verdicts {
  import opened Wrappers
  import opened Artifacts
  import opened Scanning
  import opened ScanSafety

  // ---------------------------------------------------------------- the conditions

  /** The quarantined bytes are those that were received: digest and length agree with the row. */
  predicate Genuine(policy: Policy, row: Artifact, quarantine: map<string, Bytes>) {
    && row.sha256.Some? && row.sha256.value in quarantine
    && policy.hash(quarantine[row.sha256.value]) == row.sha256.value
    && (row.byteLength.Some? ==> |quarantine[row.sha256.value]| == row.byteLength.value)
  }

  predicate Fits(policy: Policy, row: Artifact, quarantine: map<string, Bytes>) {
    Genuine(policy, row, quarantine) && |quarantine[row.sha256.value]| <= policy.maxBytes
  }

  /** One allowed type, and the declaration and the file name agree with it. */
  predicate TypeAgrees(f: Findings) {
    && f.detection.Says? && !f.detection.answer.polyglot && f.detection.answer.familyAllowed
    && (f.declaredFamily.None? || f.declaredFamily.value == f.detection.answer.family)
    && (f.extensionFamily.None? || f.extensionFamily.value == f.detection.answer.family)
  }

  /** The scanner saw the bytes and found nothing. */
  predicate ScannedClean(policy: Policy, row: Artifact, quarantine: map<string, Bytes>, f: Findings) {
    Fits(policy, row, quarantine) && TypeAgrees(f) && f.scan == Says(ScanClean)
  }

  predicate Scanned(policy: Policy, row: Artifact, quarantine: map<string, Bytes>, f: Findings, scan: ScanOutcome) {
    Fits(policy, row, quarantine) && TypeAgrees(f) && f.scan == Says(scan)
  }

  /** Bytes the scanner passed, and the validator of their type rejected with this status. */
  predicate Invalidated(policy: Policy, row: Artifact, quarantine: map<string, Bytes>, f: Findings, status: ArtifactStatus) {
    && ScannedClean(policy, row, quarantine, f)
    && f.validation.Says? && f.validation.answer.InvalidContent? && f.validation.answer.status == status
  }

  /** Some gate that was reached raised. */
  predicate GateRaised(policy: Policy, row: Artifact, quarantine: map<string, Bytes>, f: Findings) {
    && Fits(policy, row, quarantine)
    && (f.detection.Raises?
        || (TypeAgrees(f) && f.scan.Raises?)
        || (TypeAgrees(f) && f.scan == Says(ScanClean) && f.validation.Raises?))
  }

  /** The reason a validator gave, if it gave one. */
  function Given(f: Findings): set<Reason> {
    if f.validation.Says? && f.validation.answer.InvalidContent? && f.validation.answer.reason.Some?
    then {f.validation.answer.reason.value} else {}
  }

  // ---------------------------------------------------------------- each verdict, exactly

  lemma MalwareIff(policy: Policy, row: Artifact, quarantine: map<string, Bytes>, f: Findings)
    ensures
      var d := Evaluation(policy, row, quarantine, f);
      && (d.status.RejectedMalware? <==>
            || Scanned(policy, row, quarantine, f, ScanInfected) || Invalidated(policy, row, quarantine, f, RejectedMalware))
      && (d.verdict.Malicious? <==> d.status.RejectedMalware?)
      && (Scanned(policy, row, quarantine, f, ScanInfected) ==> d.reasons == {Malware})
      && (Invalidated(policy, row, quarantine, f, RejectedMalware) ==> d.reasons == Given(f))
  {
  }

  lemma UnavailableIff(policy: Policy, row: Artifact, quarantine: map<string, Bytes>, f: Findings)
    ensures
      var d := Evaluation(policy, row, quarantine, f);
      && (d.status.RejectedScannerUnavailable? <==>
            || GateRaised(policy, row, quarantine, f)
            || Scanned(policy, row, quarantine, f, ScanTimeout) || Scanned(policy, row, quarantine, f, ScanUnavailable)
            || Scanned(policy, row, quarantine, f, ScanMalformed)
            || Invalidated(policy, row, quarantine, f, RejectedScannerUnavailable))
      && (d.verdict.UnavailableVerdict? <==> d.status.RejectedScannerUnavailable?)
      && (Scanned(policy, row, quarantine, f, ScanTimeout) ==> d.reasons == {ScannerTimeout, ScannerUnavailable})
      && (GateRaised(policy, row, quarantine, f) ==> d.reasons == {ScannerUnavailable})
      && (Scanned(policy, row, quarantine, f, ScanUnavailable) || Scanned(policy, row, quarantine, f, ScanMalformed) ==>
            d.reasons == {ScannerUnavailable})
  {
  }

  lemma TamperingIff(policy: Policy, row: Artifact, quarantine: map<string, Bytes>, f: Findings)
    ensures
      var d := Evaluation(policy, row, quarantine, f);
      && (d.status.RejectedTampering? <==>
            !Genuine(policy, row, quarantine) || Invalidated(policy, row, quarantine, f, RejectedTampering))
      && (!Genuine(policy, row, quarantine) ==> d.verdict.Inconclusive? && d.reasons == {Tampering})
  {
  }

  lemma SizeIff(policy: Policy, row: Artifact, quarantine: map<string, Bytes>, f: Findings)
    ensures
      var d := Evaluation(policy, row, quarantine, f);
      var over := Genuine(policy, row, quarantine) && !Fits(policy, row, quarantine);
      && (d.status.RejectedSize? <==> over || Invalidated(policy, row, quarantine, f, RejectedSize))
      && (over ==> d.verdict.Inconclusive? && d.reasons == {Size})
  {
  }

  /** Why a detected type is refused, in the order of the checks. */
  predicate TypeRefused(f: Findings, reason: Reason) {
    && f.detection.Says? && !TypeAgrees(f)
    && (if f.detection.answer.polyglot then reason.Polyglot?
        else if !f.detection.answer.familyAllowed then reason.TypeDisallowed?
        else if f.declaredFamily.Some? && f.declaredFamily.value != f.detection.answer.family then reason.TypeMismatch?
        else reason.ExtensionMismatch?)
  }

  lemma TypeIff(policy: Policy, row: Artifact, quarantine: map<string, Bytes>, f: Findings)
    ensures
      var d := Evaluation(policy, row, quarantine, f);
      var refused := Fits(policy, row, quarantine) && f.detection.Says? && !TypeAgrees(f);
      && (d.status.RejectedType? <==> refused || Invalidated(policy, row, quarantine, f, RejectedType))
      && (refused ==> d.verdict.Inconclusive? && exists reason :: d.reasons == {reason} && TypeRefused(f, reason))
  {
    if Fits(policy, row, quarantine) && f.detection.Says? && !TypeAgrees(f) {
      var reason := TypeReason(TypeConflict(f.declaredFamily, f.extensionFamily, f.detection.answer).value, f.detection.answer.polyglot);
      assert TypeRefused(f, reason);
    }
  }

  lemma ContentIff(policy: Policy, row: Artifact, quarantine: map<string, Bytes>, f: Findings)
    ensures
      var d := Evaluation(policy, row, quarantine, f);
      && (d.status.RejectedMalformed? <==> Invalidated(policy, row, quarantine, f, RejectedMalformed))
      && (d.status.RejectedActiveContent? <==> Invalidated(policy, row, quarantine, f, RejectedActiveContent))
      && (d.status.RejectedMalformed? || d.status.RejectedActiveContent? ==> d.verdict.Inconclusive? && d.reasons == Given(f))
  {
  }

  lemma CleanIff(policy: Policy, row: Artifact, quarantine: map<string, Bytes>, f: Findings)
    ensures
      var d := Evaluation(policy, row, quarantine, f);
      && (d.status.Clean? <==> ScannedClean(policy, row, quarantine, f) && f.validation == Says(ValidContent))
      && (d.verdict.CleanVerdict? <==> d.status.Clean?) && (d.status.Clean? ==> d.reasons == {})
  {
  }

  /** Every evaluation ends clean or with a rejection, and its receipt reads back as that status. */
  lemma ReceiptTellsStatus(policy: Policy, row: Artifact, quarantine: map<string, Bytes>, f: Findings, claim: ScanClaim, id: string)
    ensures
      var d := Evaluation(policy, row, quarantine, f);
      var receipt := ReceiptOf(claim, d, id);
      && (d.status.Clean? || IsRejection(d.status)) && StatusOf(receipt) == d.status
      && receipt.verdict == d.verdict && receipt.reasons == d.reasons
      && receipt.scannedSha256 == claim.sha256 && receipt.receiptId == id
  {
  }

  // ---------------------------------------------------------------- receipts without a status

  /** How a receipt reads whose diagnostics name no status: the verdict first, then the gravest reason. */
  lemma PlainReceiptStatus(r: SecurityReceipt)
    requires r.artifactStatus.None?
    ensures StatusOf(r).Clean? <==> r.verdict.CleanVerdict?
    ensures !r.verdict.CleanVerdict? ==>
              && (StatusOf(r).RejectedMalware? <==> Malware in r.reasons)
              && (StatusOf(r).RejectedTampering? <==> Tampering in r.reasons && Malware !in r.reasons)
              && (StatusOf(r).RejectedSize? <==> Size in r.reasons && r.reasons !! {Malware, Tampering})
              && (StatusOf(r).RejectedActiveContent? <==>
                    ActiveContent in r.reasons && r.reasons !! {Malware, Tampering, Size})
              && (StatusOf(r).RejectedMalformed? <==>
                    Malformed in r.reasons && r.reasons !! {Malware, Tampering, Size, ActiveContent})
              && (StatusOf(r).RejectedScannerUnavailable? <==>
                    && r.reasons !! {Malware, Tampering, Size, ActiveContent, Malformed}
                    && (r.verdict.UnavailableVerdict?
                        || exists reason <- r.reasons :: reason in {ScannerUnavailable, ScannerTimeout, ExpiredUnclaimed}))
              && (StatusOf(r).RejectedType? <==>
                    && r.reasons !! {Malware, Tampering, Size, ActiveContent, Malformed, ScannerUnavailable, ScannerTimeout,
                                     ExpiredUnclaimed}
                    && !r.verdict.UnavailableVerdict?)
  {
  }

  lemma NamedReceiptStatus(r: SecurityReceipt)
    ensures r.artifactStatus.Some? ==> StatusOf(r) == r.artifactStatus.value
  {
  }
}
