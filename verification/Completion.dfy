/** Verification of a completed object by streaming it back (modules/artifact/completion.py). */
module Completion {
  import opened ArtifactDomain

  datatype Metadata = Metadata(size: int, etag: Option<string>, contentType: Option<string>)
  datatype Verification = Verification(metadata: Metadata, sha256: Digest)

  function Flatten(chunks: seq<Bytes>): Bytes {
    if chunks == [] then [] else Flatten(chunks[..|chunks| - 1]) + chunks[|chunks| - 1]
  }

  /** The stored bytes decide size and digest, whatever the HEAD request reported. */
  function Verified(hash: Bytes -> Digest, head: Metadata, data: Bytes): Verification {
    Verification(head.(size := |data|), hash(data))
  }

  /** fed is what the streaming hash object has been given. */
  method VerifyObject(hash: Bytes -> Digest, head: Metadata, chunks: seq<Bytes>) returns (r: Verification)
    ensures r == Verified(hash, head, Flatten(chunks))
  {
    var fed: Bytes := [];
    var streamedSize := 0;
    for i := 0 to |chunks|
      invariant fed == Flatten(chunks[..i]) && streamedSize == |fed|
    {
      assert chunks[..i + 1][..i] == chunks[..i];
      if chunks[i] == [] {
        continue;
      }
      fed := fed + chunks[i];
      streamedSize := streamedSize + |chunks[i]|;
    }
    assert chunks[..|chunks|] == chunks;
    var metadata := head;
    if streamedSize != metadata.size {
      metadata := metadata.(size := streamedSize);
    }
    r := Verification(metadata, hash(fed));
  }
}
