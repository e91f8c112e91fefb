/** The way of a verdict to the artifact and its body, move by move and in every interleaving. */
module ScanProtocol {
  import opened Wrappers
  import opened Artifacts
  import opened Scanning
  import opened ScanSafety

  /** Worker `w` went on as `next`, nothing else changed. */
  predicate GoesOn(s: System, s': System, w: nat, next: Worker) {
    s' == s.(workers := s.workers[w := next])
  }

  /** The clean tree after the body of digest `d` was moved there; a file that was there stays. */
  predicate Promoted(b: Bodies, b': Bodies, d: string) {
    && d in b.quarantine && b'.quarantine == b.quarantine
    && b'.clean == if d in b.clean then b.clean else b.clean[d := b.quarantine[d]]
  }

  /** The quarantined file is there and still has its digest. */
  predicate Intact(policy: Policy, b: Bodies, d: string) {
    d in b.quarantine && policy.hash(b.quarantine[d]) == d
  }

  // ---------------------------------------------------------------- claims on an artifact with a receipt

  /** A digest that has its receipt is not scanned again: the claim takes the artifact at once, whoever holds a lease. */
  lemma ReceiptedClaim(policy: Policy, s: System, w: nat, leaseId: string, now: int, reusable: bool)
    requires At(s, w) == Inspecting(leaseId) && Row(s).sha256.Some? && Row(s).sha256.value in s.v.meta.receipts
    ensures
      var s', a, receipt := Advance(policy, s, Move.Claim(w, now, reusable)), Row(s), s.v.meta.receipts[Row(s).sha256.value];
      if a.status.Quarantined? || a.status.Scanning? then
        && Row(s') == a.(status := ArtifactStatus.Scanning, leaseId := Some(leaseId), leaseExpiresAt := Some(now + policy.ttl))
        && s'.v.meta.receipts == s.v.meta.receipts && s'.v.bodies == s.v.bodies
        && At(s', w) == if reusable then FinishingFrom(leaseId, receipt)
                        else Worker.Claimed(ScanClaim(a.sha256.value, leaseId, Some(receipt)))
      else GoesOn(s, s', w, Idle)
  {
  }

  /** A settled artifact is answered from its receipt when that may be reused, and its body is looked after. */
  lemma SettledIsAnswered(policy: Policy, s: System, w: nat, leaseId: string, reusable: bool)
    requires At(s, w) == Inspecting(leaseId)
    ensures
      var s', a := Advance(policy, s, ReadTerminal(w, reusable)), Row(s);
      if (a.status.Clean? || IsRejection(a.status)) && a.sha256.Some? && a.sha256.value in s.v.meta.receipts && reusable
      then GoesOn(s, s', w, EnsuringBody(s.v.meta.receipts[a.sha256.value]))
      else s' == s
  {
  }

  // ---------------------------------------------------------------- the receipt

  /** The one receipt of the digest is stored; a scanner that came second goes on with the first one's. */
  lemma ReceiptIsStored(policy: Policy, s: System, w: nat, claim: ScanClaim, d: Decision, id: string)
    requires At(s, w) == StoringReceipt(claim, d)
    ensures
      var s', own := Advance(policy, s, Store(w, id)), SecurityReceipt(id, d.verdict, d.reasons, claim.sha256, Some(d.status));
      && Row(s') == Row(s) && s'.v.bodies == s.v.bodies
      && (if claim.sha256 !in s.v.meta.receipts then
            && s'.v.meta.receipts == s.v.meta.receipts[claim.sha256 := own]
            && At(s', w) == CheckingBody(claim.leaseId, claim.sha256, d.status, false)
          else
            && s'.v.meta.receipts == s.v.meta.receipts
            && (s.v.meta.receipts[claim.sha256].receiptId != id ==>
                  At(s', w) == FinishingFrom(claim.leaseId, s.v.meta.receipts[claim.sha256])))
  {
  }

  lemma FinishFollowsReceipt(policy: Policy, s: System, w: nat, leaseId: string, receipt: SecurityReceipt)
    requires At(s, w) == FinishingFrom(leaseId, receipt)
    ensures
      GoesOn(s, Advance(policy, s, FinishFrom(w)), w,
             if Row(s).status.Clean? || IsRejection(Row(s).status) then EnsuringBody(receipt)
             else CheckingBody(leaseId, receipt.scannedSha256, StatusOf(receipt), false))
  {
  }

  // ---------------------------------------------------------------- the body

  /** Only a clean verdict promotes, and only once. */
  lemma BodyIsChecked(policy: Policy, s: System, w: nat, leaseId: string, d: string, status: ArtifactStatus, purge: bool)
    requires At(s, w) == CheckingBody(leaseId, d, status, purge)
    ensures
      GoesOn(s, Advance(policy, s, CheckBody(w)), w,
             if status.Clean? && d !in s.v.bodies.clean then PromotingBody(leaseId, d, purge)
             else Completing(leaseId, status, purge))
  {
  }

  /** A body that vanished makes a clean verdict tampering; one that changed stops the scan. */
  lemma BodyIsPromoted(policy: Policy, s: System, w: nat, leaseId: string, d: string, purge: bool)
    requires At(s, w) == PromotingBody(leaseId, d, purge) && SelfNamed(policy.hash, s.v.bodies.clean)
    ensures
      var s', b := Advance(policy, s, Promote(w)), s.v.bodies;
      if d !in b.quarantine then GoesOn(s, s', w, Completing(leaseId, RejectedTampering, purge))
      else if !Intact(policy, b, d) then GoesOn(s, s', w, Idle)
      else
        && Promoted(b, s'.v.bodies, d) && s'.v.meta == s.v.meta
        && s'.workers == s.workers[w := Completing(leaseId, Clean, purge)]
  {
  }

  /** A clean receipt whose body is not there any more gets it back from an intact quarantine. */
  lemma MissingBodyIsRestored(policy: Policy, s: System, w: nat, receipt: SecurityReceipt)
    requires At(s, w) == EnsuringBody(receipt) && SelfNamed(policy.hash, s.v.bodies.clean)
    ensures
      var s', d := Advance(policy, s, EnsureBody(w)), receipt.scannedSha256;
      && s'.v.meta == s.v.meta && s'.workers == s.workers[w := Idle]
      && (if StatusOf(receipt).Clean? && d !in s.v.bodies.clean && Intact(policy, s.v.bodies, d)
          then Promoted(s.v.bodies, s'.v.bodies, d) else s'.v.bodies == s.v.bodies)
  {
  }

  /** Retention deletes both files of the digest, and no other. */
  lemma BothFilesGo(policy: Policy, s: System, w: nat, d: string)
    requires At(s, w) == Deleting(d)
    ensures
      var s', b := Advance(policy, s, Delete(w)), s.v.bodies;
      && s'.v.meta == s.v.meta
      && s'.v.bodies.quarantine.Keys == b.quarantine.Keys - {d} && s'.v.bodies.clean.Keys == b.clean.Keys - {d}
      && (forall x <- s'.v.bodies.quarantine.Keys :: s'.v.bodies.quarantine[x] == b.quarantine[x])
      && (forall x <- s'.v.bodies.clean.Keys :: s'.v.bodies.clean[x] == b.clean[x])
  {
  }

  // ---------------------------------------------------------------- from the verdict to the end

  /** The receipt decides the status, except that a rejection may replace a clean verdict. */
  lemma CompletionFollowsReceipt(policy: Policy, s: System, w: nat, leaseId: string, status: ArtifactStatus, x: string, now: int)
    requires At(s, w) == Completing(leaseId, status, false) && Row(s).status.Scanning? && !status.Scanning?
    requires Row(s).sha256 == Some(x) && x in s.v.meta.receipts
    ensures
      var s', told := Advance(policy, s, Complete(w, now)), StatusOf(s.v.meta.receipts[x]);
      && Row(s').status == (if IsRejection(status) && told.Clean? then status else told)
      && s'.v.bodies == s.v.bodies && s'.v.meta.receipts == s.v.meta.receipts
  {
  }

  /** Moves that the worker is not ready for do nothing. */
  lemma NotPromoting(policy: Policy, s: System, w: nat)
    requires !At(s, w).PromotingBody?
    ensures Advance(policy, s, Promote(w)) == s
  {
  }

  lemma NotCompleting(policy: Policy, s: System, w: nat, now: int)
    requires !At(s, w).Completing?
    ensures Advance(policy, s, Complete(w, now)) == s
  {
  }

  /** What a scanner has stored: its receipt, and nothing else moved. */
  predicate HasStored(s: System, s': System, w: nat, claim: ScanClaim, d: Decision, id: string, next: Worker) {
    && Row(s') == Row(s) && s'.v.bodies == s.v.bodies && At(s', w) == next
    && s'.v.meta.receipts == s.v.meta.receipts[claim.sha256 := SecurityReceipt(id, d.verdict, d.reasons, claim.sha256, Some(d.status))]
  }

  lemma StoredAndChecked(policy: Policy, s: System, w: nat, claim: ScanClaim, d: Decision, id: string)
    requires At(s, w) == StoringReceipt(claim, d) && claim.sha256 !in s.v.meta.receipts
    ensures
      HasStored(s, Advance(policy, Advance(policy, s, Store(w, id)), CheckBody(w)), w, claim, d, id,
                if d.status.Clean? && claim.sha256 !in s.v.bodies.clean then PromotingBody(claim.leaseId, claim.sha256, false)
                else Completing(claim.leaseId, d.status, false))
  {
    ReceiptIsStored(policy, s, w, claim, d, id);
    BodyIsChecked(policy, Advance(policy, s, Store(w, id)), w, claim.leaseId, claim.sha256, d.status, false);
  }

  /** The artifact and its body at the end. */
  predicate EndsAs(policy: Policy, s: System, s': System, x: string, d: Decision) {
    var b := s.v.bodies;
    if d.status.Clean? && x !in b.clean && x !in b.quarantine then Row(s').status.RejectedTampering?
    else if d.status.Clean? && x !in b.clean && !Intact(policy, b, x) then Row(s') == Row(s)
    else Row(s').status == d.status && (d.status.Clean? ==> x in s'.v.bodies.clean && policy.hash(s'.v.bodies.clean[x]) == x)
  }

  lemma RestOfTheWay(policy: Policy, s: System, s2: System, w: nat, claim: ScanClaim, d: Decision, id: string, now: int)
    requires SelfNamed(policy.hash, s.v.bodies.clean) && Row(s).status.Scanning? && Row(s).sha256 == Some(claim.sha256)
    requires !d.status.Scanning?
    requires HasStored(s, s2, w, claim, d, id,
                       if d.status.Clean? && claim.sha256 !in s.v.bodies.clean
                       then PromotingBody(claim.leaseId, claim.sha256, false)
                       else Completing(claim.leaseId, d.status, false))
    ensures
      var s' := Advance(policy, Advance(policy, s2, Promote(w)), Complete(w, now));
      EndsAs(policy, s, s', claim.sha256, d) && s'.v.meta.receipts == s2.v.meta.receipts
  {
    var s3 := Advance(policy, s2, Promote(w));
    if d.status.Clean? && claim.sha256 !in s.v.bodies.clean {
      BodyIsPromoted(policy, s2, w, claim.leaseId, claim.sha256, false);
    } else {
      NotPromoting(policy, s2, w);
    }
    if At(s3, w).Completing? {
      CompletionFollowsReceipt(policy, s3, w, claim.leaseId, At(s3, w).status, claim.sha256, now);
    } else {
      NotCompleting(policy, s3, w, now);
    }
  }

  /** The scanner's remaining moves: store, check the body, promote it if it must, complete. */
  function Finished(policy: Policy, s: System, w: nat, id: string, now: int): System {
    Advance(policy, Advance(policy, Advance(policy, Advance(policy, s, Store(w, id)), CheckBody(w)), Promote(w)), Complete(w, now))
  }

  /**
   Main result. In every interleaving, when a scanner that holds the decision of its evaluation goes on without
   interruption and the digest has no receipt yet, the artifact ends with that decision, and a clean one with its
   body promoted; a clean decision whose body vanished ends as tampering, and one whose body changed does not end.
   */
  lemma VerdictReachesArtifact(policy: Policy, start: System, moves: seq<Move>, w: nat, claim: ScanClaim, d: Decision, id: string,
                               now: int)
    requires Initial(start) && At(Play(policy, start, moves), w) == StoringReceipt(claim, d)
    requires Row(Play(policy, start, moves)).status.Scanning? && Row(Play(policy, start, moves)).sha256 == Some(claim.sha256)
    requires claim.sha256 !in Play(policy, start, moves).v.meta.receipts && !d.status.Scanning?
    ensures
      var s, s' := Play(policy, start, moves), Finished(policy, Play(policy, start, moves), w, id, now);
      && EndsAs(policy, s, s', claim.sha256, d)
      && claim.sha256 in s'.v.meta.receipts
      && s'.v.meta.receipts[claim.sha256] == SecurityReceipt(id, d.verdict, d.reasons, claim.sha256, Some(d.status))
  {
    var s := Play(policy, start, moves);
    SoundAlways(policy, start, moves);
    StoredAndChecked(policy, s, w, claim, d, id);
    RestOfTheWay(policy, s, Advance(policy, Advance(policy, s, Store(w, id)), CheckBody(w)), w, claim, d, id, now);
  }
}
