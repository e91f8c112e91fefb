/** Work bundles: a Markdown text with references to clean artifacts (src/awr/artifacts/bundle.py). */
module Bundle {
  import opened Wrappers
  import opened Artifacts
  import opened BodyStore
  import Text

  const BUNDLE_MARKDOWN_MAX_BYTES := 256 * 1024
  const BUNDLE_MAX_ARTIFACTS := 10
  const BUNDLE_MAX_BYTES := 25 * 1024 * 1024

  datatype Reference = Reference(
    artifactId: string, purpose: string, byteLength: nat, sha256: string,
    detectedMediaType: Option<string>, safeFilename: string)

  /** An artifact row with its receipts, as the metadata store returns them. */
  datatype ArtifactRecord = ArtifactRecord(
    meta: Metadata, owner: string, purpose: string, detectedMediaType: Option<string>, safeFilename: string)

  datatype BundleError = Missing | OtherOwner | RejectedArtifact | PendingArtifact | TamperedArtifact | ExpiredArtifact
                       | TooLong | NotUnique | TooMany | TooBig
  {
    predicate AboutArtifact() {
      !TooLong? && !NotUnique? && !TooMany? && !TooBig?
    }
  }

  datatype WorkBundle = WorkBundle(markdown: string, references: seq<Reference>)

  // ---------------------------------------------------------------- one reference

  /** What a reference promises: a clean receipt for the digest, a clean file with that digest and length, the record's labels. */
  ghost predicate Backed(hash: Hash, clean: map<Path, Bytes>, records: map<string, ArtifactRecord>, sender: string, r: Reference) {
    && r.artifactId in records
    && (var record := records[r.artifactId];
        && record.owner == sender && record.meta.row.status.Clean?
        && record.meta.row.sha256 == Some(r.sha256) && record.meta.row.byteLength == Some(r.byteLength)
        && r.sha256 in record.meta.receipts
        && record.meta.receipts[r.sha256].verdict.CleanVerdict? && StatusOf(record.meta.receipts[r.sha256]).Clean?
        && record.meta.receipts[r.sha256].scannedSha256 == r.sha256)
    && PathFor(r.artifactId, r.sha256).Some?
    && (var p := PathFor(r.artifactId, r.sha256).value;
        p in clean && hash(clean[p]) == r.sha256 && |clean[p]| == r.byteLength)
    && r.purpose == records[r.artifactId].purpose && r.detectedMediaType == records[r.artifactId].detectedMediaType
    && r.safeFilename == records[r.artifactId].safeFilename
  }

  /** An artifact that can be attached, and the reference it gives. */
  ghost predicate Attachable(hash: Hash, clean: map<Path, Bytes>, records: map<string, ArtifactRecord>, sender: string, id: string) {
    exists r: Reference :: r.artifactId == id && Backed(hash, clean, records, sender, r)
  }

  function ReferenceOf(id: string, record: ArtifactRecord, sha256: string, byteLength: nat): Reference {
    Reference(id, record.purpose, byteLength, sha256, record.detectedMediaType, record.safeFilename)
  }

  /** The row has a digest and a length. */
  predicate Measured(row: Artifact) {
    row.sha256.Some? && row.sha256.value != "" && row.byteLength.Some?
  }

  /** _attachable_reference with _clean_reference: the checks in their order, the file hashed chunk by chunk. */
  method AttachableReference(store: LocalArtifactBodyStore, records: map<string, ArtifactRecord>, sender: string, id: string)
    returns (r: Result<Reference, BundleError>)
    requires store.Valid()
    ensures r.Ok? ==> r.value.artifactId == id && Backed(store.hash, store.clean, records, sender, r.value)
    ensures r.Err? ==> !Attachable(store.hash, store.clean, records, sender, id) && r.error.AboutArtifact()
    ensures r == Err(Missing) <==> id !in records
    ensures r == Err(OtherOwner) <==> id in records && records[id].owner != sender
    ensures id in records && records[id].owner == sender ==>
              var row, receipt := records[id].meta.row, ReceiptFor(records[id].meta, records[id].meta.row.sha256);
              && (IsRejection(row.status) || row.status.Relayed? ==> r == Err(RejectedArtifact))
              && (!row.status.Clean? && !IsRejection(row.status) && !row.status.Relayed? ==> r == Err(PendingArtifact))
              && (row.status.Clean? && Measured(row) ==>
                    && (receipt.None? ==> r == Err(PendingArtifact))
                    && (receipt.Some? && !(receipt.value.verdict.CleanVerdict? && StatusOf(receipt.value).Clean?) ==>
                          r == Err(RejectedArtifact)))
              && (row.status.Clean? && !Measured(row) ==> r == Err(TamperedArtifact))
  {
    if id !in records {
      return Err(Missing);
    }
    var record := records[id];
    if record.owner != sender {
      return Err(OtherOwner);
    }
    var row := record.meta.row;
    if !row.status.Clean? {
      return Err(if row.status.Relayed? || IsRejection(row.status) then RejectedArtifact else PendingArtifact);
    }
    if row.sha256.None? || row.sha256.value == "" || row.byteLength.None? {
      return Err(TamperedArtifact);
    }
    var sha256, byteLength := row.sha256.value, row.byteLength.value;
    var receipt := ReceiptFor(record.meta, row.sha256);
    if receipt.None? {
      return Err(PendingArtifact);
    }
    if !receipt.value.verdict.CleanVerdict? || !StatusOf(receipt.value).Clean? {
      return Err(RejectedArtifact);
    }
    if receipt.value.scannedSha256 != sha256 {
      return Err(TamperedArtifact);
    }
    var path := PathFor(id, sha256);
    if path.None? || path.value !in store.clean {
      return Err(ExpiredArtifact);
    }
    var file := new Stream(store.clean[path.value]);
    var digest, length := HashStream(store.hash, file);
    if digest != sha256 || length != byteLength {
      return Err(TamperedArtifact);
    }
    return Ok(ReferenceOf(id, record, sha256, byteLength));
  }

  // ---------------------------------------------------------------- the order of references

  /** The sort key (purpose, artifact id). */
  predicate AtMost(a: Reference, b: Reference) {
    if a.purpose == b.purpose then Text.StringAtMost(a.artifactId, b.artifactId) else Text.StringAtMost(a.purpose, b.purpose)
  }

  function Insert(r: Reference, sorted: seq<Reference>): seq<Reference> {
    if sorted == [] then [r]
    else if AtMost(r, sorted[0]) then [r] + sorted
    else [sorted[0]] + Insert(r, sorted[1..])
  }

  /** _ordered: a stable sort. */
  function Ordered(refs: seq<Reference>): seq<Reference> {
    if refs == [] then [] else Insert(refs[0], Ordered(refs[1..]))
  }

  ghost predicate Sorted(refs: seq<Reference>) {
    forall i, j :: 0 <= i < j < |refs| ==> AtMost(refs[i], refs[j])
  }

  lemma ReferenceOrder(a: Reference, b: Reference, c: Reference)
    ensures AtMost(a, b) || AtMost(b, a)
    ensures AtMost(a, b) && AtMost(b, c) ==> AtMost(a, c)
    ensures AtMost(a, b) && AtMost(b, a) ==> a.artifactId == b.artifactId && a.purpose == b.purpose
  {
    Text.StringOrder(a.purpose, b.purpose, c.purpose);
    Text.StringOrder(b.purpose, c.purpose, a.purpose);
    Text.StringOrder(a.artifactId, b.artifactId, c.artifactId);
  }

  lemma {:induction false} InsertSorts(r: Reference, sorted: seq<Reference>)
    requires Sorted(sorted)
    ensures Sorted(Insert(r, sorted)) && multiset(Insert(r, sorted)) == multiset(sorted) + multiset{r}
  {
    if sorted == [] {
    } else if AtMost(r, sorted[0]) {
      forall j | 0 <= j < |sorted| ensures AtMost(r, sorted[j]) { ReferenceOrder(r, sorted[0], sorted[j]); }
    } else {
      var head, rest := sorted[0], sorted[1..];
      InsertSorts(r, rest);
      assert sorted == [head] + rest;
      forall x | x in Insert(r, rest) ensures AtMost(head, x) {
        assert x in multiset(Insert(r, rest));
        ReferenceOrder(head, r, x);
      }
    }
  }

  lemma {:induction false} OrderedSorts(refs: seq<Reference>)
    ensures Sorted(Ordered(refs)) && multiset(Ordered(refs)) == multiset(refs)
  {
    if refs != [] {
      OrderedSorts(refs[1..]);
      InsertSorts(refs[0], Ordered(refs[1..]));
      assert refs == [refs[0]] + refs[1..];
    }
  }

  ghost predicate DistinctIds(refs: seq<Reference>) {
    forall x, y :: x in refs && y in refs && x.artifactId == y.artifactId ==> x == y
  }

  lemma HeadIsLeast(a: seq<Reference>, x: Reference)
    requires Sorted(a) && x in a
    ensures AtMost(a[0], x)
  {
    ReferenceOrder(x, x, x);
  }

  lemma HeadsAgree(a: seq<Reference>, b: seq<Reference>)
    requires Sorted(a) && Sorted(b) && a != [] && b != [] && DistinctIds(a)
    requires a[0] in b && b[0] in a
    ensures a[0] == b[0]
  {
    HeadIsLeast(a, b[0]);
    HeadIsLeast(b, a[0]);
    ReferenceOrder(a[0], b[0], a[0]);
  }

  lemma TailsAgree(a: seq<Reference>, b: seq<Reference>)
    requires a != [] && b != [] && a[0] == b[0] && multiset(a) == multiset(b)
    ensures multiset(a[1..]) == multiset(b[1..])
  {
    assert a == [a[0]] + a[1..] && b == [b[0]] + b[1..];
    assert multiset(a) == multiset{a[0]} + multiset(a[1..]);
    assert multiset(b) == multiset{b[0]} + multiset(b[1..]);
    assert multiset(a[1..]) == multiset(a) - multiset{a[0]};
    assert multiset(b[1..]) == multiset(b) - multiset{b[0]};
  }

  /** Two sorted arrangements of the same references with distinct ids are equal. */
  lemma {:induction false} SortedIsUnique(a: seq<Reference>, b: seq<Reference>)
    requires Sorted(a) && Sorted(b) && multiset(a) == multiset(b) && DistinctIds(a)
    ensures a == b
  {
    assert |multiset(a)| == |a| && |multiset(b)| == |b|;
    if a != [] {
      assert a[0] in multiset(a) && b[0] in multiset(b);
      HeadsAgree(a, b);
      TailsAgree(a, b);
      SortedIsUnique(a[1..], b[1..]);
      assert a == [a[0]] + a[1..] && b == [b[0]] + b[1..];
    }
  }

  /** The bundle, and so its fingerprint, does not depend on the order in which artifacts were named. */
  lemma OrderDoesNotMatter(a: seq<Reference>, b: seq<Reference>)
    requires multiset(a) == multiset(b) && DistinctIds(a)
    ensures Ordered(a) == Ordered(b)
  {
    OrderedSorts(a);
    OrderedSorts(b);
    forall x, y | x in Ordered(a) && y in Ordered(a) && x.artifactId == y.artifactId ensures x == y {
      assert x in multiset(a) && y in multiset(a);
    }
    SortedIsUnique(Ordered(a), Ordered(b));
  }

  // ---------------------------------------------------------------- resolve_bundle

  function TotalBytes(refs: seq<Reference>): nat {
    if refs == [] then 0 else TotalBytes(refs[..|refs| - 1]) + refs[|refs| - 1].byteLength
  }

  predicate Unique(ids: seq<string>) {
    forall i, j :: 0 <= i < j < |ids| ==> ids[i] != ids[j]
  }

  /** One backed reference per artifact, in the order given. */
  ghost predicate ReferencesOf(
    hash: Hash, clean: map<Path, Bytes>, records: map<string, ArtifactRecord>, sender: string,
    ids: seq<string>, refs: seq<Reference>)
  {
    |refs| == |ids|
    && forall k :: 0 <= k < |ids| ==> refs[k].artifactId == ids[k] && Backed(hash, clean, records, sender, refs[k])
  }

  method GatherReferences(
    store: LocalArtifactBodyStore, records: map<string, ArtifactRecord>, sender: string, ids: seq<string>)
    returns (r: Result<seq<Reference>, BundleError>)
    requires store.Valid()
    ensures r.Ok? ==> ReferencesOf(store.hash, store.clean, records, sender, ids, r.value)
    ensures r.Err? ==> exists id <- ids :: !Attachable(store.hash, store.clean, records, sender, id)
    ensures r.Err? ==> r.error.AboutArtifact()
  {
    var references: seq<Reference> := [];
    for i := 0 to |ids|
      invariant ReferencesOf(store.hash, store.clean, records, sender, ids[..i], references)
    {
      var reference := AttachableReference(store, records, sender, ids[i]);
      if reference.Err? {
        assert ids[i] in ids;
        return Err(reference.error);
      }
      references := references + [reference.value];
    }
    assert ids[..|ids|] == ids;
    return Ok(references);
  }

  method SumBytes(refs: seq<Reference>) returns (total: nat)
    ensures total == TotalBytes(refs)
  {
    total := 0;
    for i := 0 to |refs|
      invariant total == TotalBytes(refs[..i])
    {
      assert refs[..i + 1][..i] == refs[..i];
      total := total + refs[i].byteLength;
    }
    assert refs[..|refs|] == refs;
  }

  lemma OrderedKeepsMembers(refs: seq<Reference>)
    ensures |Ordered(refs)| == |refs| && forall x :: x in Ordered(refs) <==> x in refs
  {
    OrderedSorts(refs);
    assert |multiset(Ordered(refs))| == |Ordered(refs)| && |multiset(refs)| == |refs|;
    forall x ensures x in Ordered(refs) <==> x in refs {
      assert x in Ordered(refs) <==> x in multiset(Ordered(refs));
      assert x in refs <==> x in multiset(refs);
    }
  }

  /** By purpose, and by artifact id within one purpose. */
  ghost predicate InKeyOrder(refs: seq<Reference>) {
    forall i, j :: 0 <= i < j < |refs| ==>
      if refs[i].purpose != refs[j].purpose then Text.StringAtMost(refs[i].purpose, refs[j].purpose)
      else Text.StringAtMost(refs[i].artifactId, refs[j].artifactId)
  }

  /** In key order, one reference per artifact, every one backed. */
  ghost predicate BundleOk(
    hash: Hash, clean: map<Path, Bytes>, records: map<string, ArtifactRecord>, sender: string,
    ids: seq<string>, refs: seq<Reference>)
  {
    && InKeyOrder(refs) && |refs| == |ids|
    && (forall x <- refs :: x.artifactId in ids && Backed(hash, clean, records, sender, x))
    && (forall id <- ids :: exists x <- refs :: x.artifactId == id)
  }

  lemma OrderedIsOk(hash: Hash, clean: map<Path, Bytes>, records: map<string, ArtifactRecord>, sender: string,
                    ids: seq<string>, refs: seq<Reference>)
    requires ReferencesOf(hash, clean, records, sender, ids, refs)
    ensures BundleOk(hash, clean, records, sender, ids, Ordered(refs))
  {
    OrderedSorts(refs);
    OrderedKeepsMembers(refs);
    forall id <- ids ensures exists x <- Ordered(refs) :: x.artifactId == id {
      var k :| 0 <= k < |ids| && ids[k] == id;
      assert refs[k] in refs && refs[k] in Ordered(refs);
    }
  }

  lemma BackedIsUnique(hash: Hash, clean: map<Path, Bytes>, records: map<string, ArtifactRecord>, sender: string,
                       ids: seq<string>, a: seq<Reference>, b: seq<Reference>)
    requires ReferencesOf(hash, clean, records, sender, ids, a) && ReferencesOf(hash, clean, records, sender, ids, b)
    ensures a == b
  {
    forall k | 0 <= k < |ids| ensures a[k] == b[k] {
      assert Backed(hash, clean, records, sender, a[k]) && Backed(hash, clean, records, sender, b[k]);
    }
  }

  lemma {:induction false} TotalOfCons(first: Reference, refs: seq<Reference>)
    ensures TotalBytes([first] + refs) == first.byteLength + TotalBytes(refs)
  {
    if refs != [] {
      var before := refs[..|refs| - 1];
      TotalOfCons(first, before);
      assert ([first] + refs)[..|refs|] == [first] + before;
    }
  }

  lemma {:induction false} TotalOfInsert(x: Reference, refs: seq<Reference>)
    ensures TotalBytes(Insert(x, refs)) == x.byteLength + TotalBytes(refs)
  {
    TotalOfCons(x, refs);
    if refs != [] {
      TotalOfInsert(x, refs[1..]);
      TotalOfCons(refs[0], refs[1..]);
      TotalOfCons(refs[0], Insert(x, refs[1..]));
      assert [refs[0]] + refs[1..] == refs;
    }
  }

  lemma {:induction false} TotalOfOrdered(refs: seq<Reference>)
    ensures TotalBytes(Ordered(refs)) == TotalBytes(refs)
  {
    if refs != [] {
      TotalOfOrdered(refs[1..]);
      TotalOfInsert(refs[0], Ordered(refs[1..]));
      TotalOfCons(refs[0], refs[1..]);
      assert [refs[0]] + refs[1..] == refs;
    }
  }

  /** The limits hold and every artifact can be attached. */
  ghost predicate Resolvable(
    hash: Hash, clean: map<Path, Bytes>, records: map<string, ArtifactRecord>, sender: string,
    markdown: string, ids: seq<string>)
  {
    && Text.Utf8Length(markdown) <= 262144 && Unique(ids) && |ids| <= 10
    && exists refs ::
         ReferencesOf(hash, clean, records, sender, ids, refs) && Text.Utf8Length(markdown) + TotalBytes(refs) <= 26214400
  }

  lemma ReferencesAreAttachable(
    hash: Hash, clean: map<Path, Bytes>, records: map<string, ArtifactRecord>, sender: string, ids: seq<string>,
    refs: seq<Reference>)
    requires ReferencesOf(hash, clean, records, sender, ids, refs)
    ensures forall id <- ids :: Attachable(hash, clean, records, sender, id)
  {
    forall id <- ids ensures Attachable(hash, clean, records, sender, id) {
      var k :| 0 <= k < |ids| && ids[k] == id;
      assert Backed(hash, clean, records, sender, refs[k]);
    }
  }

  lemma UnattachableIsUnresolvable(
    hash: Hash, clean: map<Path, Bytes>, records: map<string, ArtifactRecord>, sender: string, markdown: string, ids: seq<string>)
    requires exists id <- ids :: !Attachable(hash, clean, records, sender, id)
    ensures !Resolvable(hash, clean, records, sender, markdown, ids)
  {
    forall refs
      ensures ReferencesOf(hash, clean, records, sender, ids, refs) ==>
                forall id <- ids :: Attachable(hash, clean, records, sender, id)
    {
      if ReferencesOf(hash, clean, records, sender, ids, refs) {
        ReferencesAreAttachable(hash, clean, records, sender, ids, refs);
      }
    }
  }

  lemma TooBigIsUnresolvable(
    hash: Hash, clean: map<Path, Bytes>, records: map<string, ArtifactRecord>, sender: string, markdown: string,
    ids: seq<string>, refs: seq<Reference>)
    requires ReferencesOf(hash, clean, records, sender, ids, refs)
    requires Text.Utf8Length(markdown) + TotalBytes(refs) > BUNDLE_MAX_BYTES
    ensures !Resolvable(hash, clean, records, sender, markdown, ids)
  {
    forall other | ReferencesOf(hash, clean, records, sender, ids, other) ensures other == refs {
      BackedIsUnique(hash, clean, records, sender, ids, other, refs);
    }
  }

  /**
   resolve_bundle. It succeeds exactly when the limits hold and every artifact is attachable; then every
   reference names bytes with that digest, that length and a clean receipt, and the bundle fits. The limits
   are checked before the artifacts, and the whole size last.
   */
  method ResolveBundle(
    store: LocalArtifactBodyStore, records: map<string, ArtifactRecord>, sender: string, markdown: string, ids: seq<string>)
    returns (r: Result<WorkBundle, BundleError>)
    requires store.Valid()
    ensures r.Ok? <==> Resolvable(store.hash, store.clean, records, sender, markdown, ids)
    ensures r.Ok? ==>
              && r.value.markdown == markdown
              && BundleOk(store.hash, store.clean, records, sender, ids, r.value.references)
              && Text.Utf8Length(markdown) + TotalBytes(r.value.references) <= 26214400
    ensures r == Err(TooLong) <==> Text.Utf8Length(markdown) > 262144
    ensures r == Err(NotUnique) <==> Text.Utf8Length(markdown) <= 262144 && !Unique(ids)
    ensures r == Err(TooMany) <==> Text.Utf8Length(markdown) <= 262144 && Unique(ids) && |ids| > 10
    ensures r == Err(TooBig) ==> forall id <- ids :: Attachable(store.hash, store.clean, records, sender, id)
  {
    var markdownBytes := Text.Utf8Length(markdown);
    if markdownBytes > BUNDLE_MARKDOWN_MAX_BYTES {
      return Err(TooLong);
    }
    if exists i, j | 0 <= i < j < |ids| :: ids[i] == ids[j] {
      return Err(NotUnique);
    }
    if |ids| > BUNDLE_MAX_ARTIFACTS {
      return Err(TooMany);
    }
    var references := GatherReferences(store, records, sender, ids);
    if references.Err? {
      UnattachableIsUnresolvable(store.hash, store.clean, records, sender, markdown, ids);
      return Err(references.error);
    }
    var total := SumBytes(references.value);
    if markdownBytes + total > BUNDLE_MAX_BYTES {
      TooBigIsUnresolvable(store.hash, store.clean, records, sender, markdown, ids, references.value);
      ReferencesAreAttachable(store.hash, store.clean, records, sender, ids, references.value);
      return Err(TooBig);
    }
    OrderedIsOk(store.hash, store.clean, records, sender, ids, references.value);
    TotalOfOrdered(references.value);
    return Ok(WorkBundle(markdown, Ordered(references.value)));
  }
}
