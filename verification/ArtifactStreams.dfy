/** The three chunked loops that read artifact bytes: verification, download and durable copy
    (`update_manifest.py`, `update_engine.py`, `platform_adapters/update_install.py`). */
module ArtifactStreams {
  import opened Prelude

  type Bytes = seq<int>

  const CHUNK: nat := 1024 * 1024

  /** A read returns some non-empty prefix of what is left, or nothing at the end. */
  method ReadChunk(content: Bytes, position: nat, limit: nat) returns (chunk: Bytes)
    requires position <= |content| && limit > 0
    ensures |chunk| <= limit && position + |chunk| <= |content|
    ensures chunk == content[position..position + |chunk|]
    ensures chunk == [] <==> position == |content|
  {
    if position == |content| { return []; }
    var most := if limit < |content| - position then limit else |content| - position;
    assert 0 < most <= most;
    var n :| 0 < n <= most;
    chunk := content[position..position + n];
  }

  /** `verify_artifact_stream`: accepts exactly the bytes with the signed size and digest,
      however the reads happen to split them. */
  method VerifyStream(content: Bytes, chunkSize: nat, size: nat, sha256: string, digest: Bytes -> string)
    returns (ok: bool)
    requires chunkSize > 0
    ensures ok <==> |content| == size && digest(content) == sha256
  {
    var total := 0;
    var hashed: Bytes := [];
    while true
      invariant total == |hashed| <= |content| && hashed == content[..total] && total <= size
      decreases |content| - total
    {
      var chunk := ReadChunk(content, total, chunkSize);
      if chunk == [] { break; }
      assert content[..total + |chunk|] == content[..total] + chunk;
      total := total + |chunk|;
      if total > size { return false; }
      hashed := hashed + chunk;
    }
    assert hashed == content;
    ok := total == size && digest(hashed) == sha256;
  }

  /** `HttpsArtifactDownloader.download` after the connection is open: the file exists afterwards exactly when the
      response is the signed artifact, and never grows beyond the signed size. */
  method DownloadStream(response: Bytes, announced: Option<int>, size: nat, sha256: string, digest: Bytes -> string)
    returns (file: Option<Bytes>, largest: nat)
    requires size > 0
    ensures file == if (announced.None? || announced.value == size) && |response| == size && digest(response) == sha256
                    then Some(response) else None
    ensures largest <= size
  {
    largest := 0;
    if announced.Some? && announced.value != size { return None, 0; }
    var total := 0;
    var written: Bytes := [];
    while true
      invariant total == |written| <= |response| && written == response[..total] && total <= size && largest == total
      decreases |response| - total
    {
      var limit := if CHUNK < size + 1 - total then CHUNK else size + 1 - total;
      var chunk := ReadChunk(response, total, limit);
      if chunk == [] { break; }
      assert response[..total + |chunk|] == response[..total] + chunk;
      total := total + |chunk|;
      if total > size { return None, largest; }
      written := written + chunk;
      largest := total;
    }
    assert written == response;
    file := if total == size && digest(written) == sha256 then Some(written) else None;
  }

  /** The copy loop of `_durable_copy`: the temporary file becomes the source's content, and the size and digest
      that are compared are those of the bytes just copied. */
  method CopyStream(source: Bytes, expected: Option<(nat, string)>, digest: Bytes -> string)
    returns (copy: Option<Bytes>)
    ensures copy == if expected.None? || (|source| == expected.value.0 && digest(source) == expected.value.1)
                    then Some(source) else None
  {
    var size := 0;
    var written: Bytes := [];
    while true
      invariant size == |written| <= |source| && written == source[..size]
      decreases |source| - size
    {
      var chunk := ReadChunk(source, size, CHUNK);
      if chunk == [] { break; }
      assert source[..size + |chunk|] == source[..size] + chunk;
      size := size + |chunk|;
      written := written + chunk;
    }
    assert written == source;
    if expected.Some? && size != expected.value.0 { return None; }
    if expected.Some? && digest(written) != expected.value.1 { return None; }
    copy := Some(written);
  }
}
