/** The filesystem body store: quarantine and clean trees, read in chunks (src/awr/storage/artifact_fs.py). */
module BodyStore {
  import opened Wrappers
  import opened Artifacts
  import Text

  const CHUNK_SIZE := 64 * 1024

  datatype Path = Path(artifactId: string, digest: string)

  predicate ValidArtifactId(id: string) {
    id != "" && '/' !in id && '\\' !in id && !Text.Contains(id, "..")
  }

  function Lower(s: string): string {
    seq(|s|, i requires 0 <= i < |s| => if 'A' <= s[i] <= 'Z' then 'a' + (s[i] - 'A') else s[i])
  }

  predicate IsHex(s: string) {
    |s| == 64 && forall i :: 0 <= i < 64 ==> '0' <= s[i] <= '9' || 'a' <= s[i] <= 'f'
  }

  /** _require_digest and _require_artifact_id: the file a caller names, if the name is well formed. */
  function PathFor(artifactId: string, sha256: string): Option<Path> {
    var digest := Lower(Text.Strip(sha256));
    if ValidArtifactId(artifactId) && IsHex(digest) then Some(Path(artifactId, digest)) else None
  }

  /** A lower-case letter or a capital one, without regard to case. */
  predicate SameLetter(low: char, c: char) {
    low == c || ('A' <= c <= 'Z' && low as int == c as int + 32)
  }

  /**
   Main result. A name leads to a file if and only if the id has no separator and no two dots in a row and the
   trimmed digest is 64 hexadecimal digits of either case; the file has that id and that digest in lower case.
   */
  lemma NamedFileIff(artifactId: string, sha256: string)
    ensures
      var text := Text.Strip(sha256);
      && (PathFor(artifactId, sha256).Some? <==>
            && artifactId != "" && (forall c <- artifactId :: c != '/' && c != '\\')
            && (forall i :: 0 <= i < |artifactId| - 1 ==> !(artifactId[i] == '.' && artifactId[i + 1] == '.'))
            && |text| == 64 && (forall c <- text :: '0' <= c <= '9' || 'a' <= c <= 'f' || 'A' <= c <= 'F'))
      && (PathFor(artifactId, sha256).Some? ==>
            var p := PathFor(artifactId, sha256).value;
            && p.artifactId == artifactId && |p.digest| == 64
            && forall i :: 0 <= i < 64 ==> SameLetter(p.digest[i], text[i]) && !('A' <= p.digest[i] <= 'Z'))
  {
    TwoDots(artifactId);
    LowerIsHex(Text.Strip(sha256));
  }

  lemma LowerIsHex(s: string)
    ensures IsHex(Lower(s)) <==> |s| == 64 && forall c <- s :: '0' <= c <= '9' || 'a' <= c <= 'f' || 'A' <= c <= 'F'
  {
    var low := Lower(s);
    if |s| == 64 {
      forall i | 0 <= i < 64
        ensures '0' <= low[i] <= '9' || 'a' <= low[i] <= 'f' <==>
                '0' <= s[i] <= '9' || 'a' <= s[i] <= 'f' || 'A' <= s[i] <= 'F'
      {
      }
      assert forall i :: 0 <= i < 64 ==> s[i] in s;
    }
  }

  lemma TwoDots(s: string)
    ensures Text.Contains(s, "..") <==> exists i :: 0 <= i < |s| - 1 && s[i] == '.' && s[i + 1] == '.'
  {
    if Text.Contains(s, "..") {
      var i :| 0 <= i <= |s| && Text.PartAt(s, "..", i);
      assert s[i..i + 2][0] == '.' && s[i..i + 2][1] == '.';
    }
    if exists i :: 0 <= i < |s| - 1 && s[i] == '.' && s[i + 1] == '.' {
      var i :| 0 <= i < |s| - 1 && s[i] == '.' && s[i + 1] == '.';
      assert s[i..i + 2] == "..";
      assert Text.PartAt(s, "..", i);
    }
  }

  /** A file handle being read from the start. */
  class Stream {
    const content: Bytes
    var position: nat

    ghost predicate Valid()
      reads this
    {
      position <= |content|
    }

    constructor (content: Bytes)
      ensures Valid() && this.content == content && position == 0
    {
      this.content := content;
      position := 0;
    }

    /** read(size): up to `size` bytes, none at the end. */
    method Read(size: nat) returns (chunk: Bytes)
      requires Valid() && size > 0
      modifies this
      ensures Valid() && old(position) <= position && chunk == content[old(position)..position]
      ensures chunk == [] <==> old(position) == |content|
    {
      var end := if position + size <= |content| then position + size else |content|;
      chunk := content[position..end];
      position := end;
    }
  }

  /** A digest and a length, updated chunk by chunk, are those of the whole content. */
  method HashStream(hash: Hash, stream: Stream) returns (digest: string, byteLength: nat)
    requires stream.Valid() && stream.position == 0
    modifies stream
    ensures digest == hash(stream.content) && byteLength == |stream.content|
  {
    var hashed: Bytes := [];
    byteLength := 0;
    while true
      invariant stream.Valid() && hashed == stream.content[..stream.position] && byteLength == |hashed|
      decreases |stream.content| - stream.position
    {
      var chunk := stream.Read(CHUNK_SIZE);
      if chunk == [] {
        break;
      }
      byteLength := byteLength + |chunk|;
      hashed := hashed + chunk;
    }
    assert stream.content[..stream.position] == stream.content;
    digest := hash(hashed);
  }

  class LocalArtifactBodyStore {
    const hash: Hash
    var quarantine: map<Path, Bytes>
    var clean: map<Path, Bytes>

    /** Every file in the clean tree hashes to its own name. */
    ghost predicate Valid()
      reads this
    {
      forall p <- clean.Keys :: hash(clean[p]) == p.digest
    }

    /** Hexadecimal digests, as SHA-256 has them. */
    ghost predicate HexHash() {
      forall content :: IsHex(hash(content))
    }

    constructor (hash: Hash)
      ensures Valid() && this.hash == hash && quarantine == map[] && clean == map[]
    {
      this.hash := hash;
      quarantine, clean := map[], map[];
    }

    /**
     write_quarantine. Nothing is stored of a stream that is too long; otherwise the file named by the
     digest of the whole stream is there afterwards, and a file that was there stays as it was.
     */
    method WriteQuarantine(artifactId: string, stream: Stream, maxBytes: int) returns (r: Result<(string, nat), BodyError>)
      requires Valid() && HexHash() && stream.Valid() && stream.position == 0
      modifies this`quarantine, stream
      ensures Valid()
      ensures r.Ok? <==>
                && ValidArtifactId(artifactId) && 0 < maxBytes && |stream.content| <= maxBytes
                && (var p := Path(artifactId, hash(stream.content));
                    p in old(quarantine) ==> hash(old(quarantine)[p]) == p.digest)
      ensures r.Ok? ==> r.value == (hash(stream.content), |stream.content|)
      ensures r.Ok? ==>
                var p := Path(artifactId, hash(stream.content));
                quarantine == if p in old(quarantine) then old(quarantine) else old(quarantine)[p := stream.content]
      ensures r.Err? ==> quarantine == old(quarantine)
      ensures r.Err? && ValidArtifactId(artifactId) && (maxBytes <= 0 || |stream.content| > maxBytes) ==> r.error.TooLarge?
    {
      if !ValidArtifactId(artifactId) {
        return Err(Unavailable);
      }
      if maxBytes <= 0 {
        return Err(TooLarge);
      }
      var written: Bytes := [];
      var byteLength := 0;
      while true
        invariant stream.Valid() && written == stream.content[..stream.position] && byteLength == |written| <= maxBytes
        invariant quarantine == old(quarantine)
        decreases |stream.content| - stream.position
      {
        var chunk := stream.Read(CHUNK_SIZE);
        if chunk == [] {
          break;
        }
        byteLength := byteLength + |chunk|;
        if byteLength > maxBytes {
          return Err(TooLarge);
        }
        written := written + chunk;
      }
      assert stream.content[..stream.position] == stream.content;
      var p := Path(artifactId, hash(written));
      if p in quarantine {
        if hash(quarantine[p]) != p.digest {
          return Err(Immutable);
        }
      } else {
        quarantine := quarantine[p := written];
      }
      return Ok((p.digest, byteLength));
    }

    /**
     promote_clean: copy, hash the copy, and only then move it into place. It succeeds exactly when the
     quarantine file exists and has the digest it is named by, and then the clean file has it too.
     */
    method PromoteClean(artifactId: string, sha256: string) returns (r: Result<(), BodyError>)
      requires Valid()
      modifies this`clean
      ensures Valid()
      ensures forall p <- old(clean).Keys :: p in clean && clean[p] == old(clean)[p]
      ensures
        match PathFor(artifactId, sha256)
        case None => r == Err(Unavailable) && clean == old(clean)
        case Some(p) =>
          && (r.Ok? <==> p in quarantine && hash(quarantine[p]) == p.digest)
          && (r == Err(Unavailable) <==> p !in quarantine)
          && clean == (if r.Ok? && p !in old(clean) then old(clean)[p := quarantine[p]] else old(clean))
    {
      var path := PathFor(artifactId, sha256);
      if path.None? || path.value !in quarantine {
        return Err(Unavailable);
      }
      var p := path.value;
      var copy := new Stream(quarantine[p]);
      var copied, _ := HashStream(hash, copy);
      if copied != p.digest {
        return Err(Immutable);
      }
      if p in clean {
        var existing := new Stream(clean[p]);
        var present, _ := HashStream(hash, existing);
        if present != p.digest {
          return Err(Immutable);
        }
      } else {
        clean := clean[p := copy.content];
      }
      return Ok(());
    }

    method DeleteGeneration(artifactId: string, sha256: string) returns (r: Result<(), BodyError>)
      requires Valid()
      modifies this`quarantine, this`clean
      ensures Valid()
      ensures
        match PathFor(artifactId, sha256)
        case None => r == Err(Unavailable) && quarantine == old(quarantine) && clean == old(clean)
        case Some(p) => r.Ok? && quarantine == old(quarantine) - {p} && clean == old(clean) - {p}
    {
      var path := PathFor(artifactId, sha256);
      if path.None? {
        return Err(Unavailable);
      }
      quarantine, clean := quarantine - {path.value}, clean - {path.value};
      return Ok(());
    }
  }
}
