/** The storage port: objects by key and multipart uploads by remote id.  Any call may fail
    before or after it took effect.
  */
module ObjectStore {
  import opened ArtifactDomain

  datatype ErrorCode = NotFound | Conflict | AccessDenied | InvalidRequest | Timeout | TemporaryUnavailable | Cancelled | Internal

  datatype Fault = NoFault | FailsBefore(code: ErrorCode) | FailsAfter(code: ErrorCode)

  datatype StoredPart = StoredPart(etag: string, data: Bytes)
  datatype Multipart = Multipart(key: Key, parts: map<nat, StoredPart>)
  datatype Store = Store(objects: map<Key, Bytes>, multiparts: map<RemoteId, Multipart>)

  /** What a caller sees: an error code, or success. */
  type Outcome = Option<ErrorCode>

  type Manifest = seq<(nat, string)>  // part numbers and etags

  function Seen(fault: Fault): Outcome { if fault.FailsAfter? then Some(fault.code) else None }

  /** The bytes of the listed parts one after the other, if each is stored under its etag. */
  function Assemble(parts: map<nat, StoredPart>, manifest: Manifest): Option<Bytes> {
    if manifest == [] then Some([])
    else
      var (number, etag) := manifest[0];
      var rest := Assemble(parts, manifest[1..]);
      if number in parts && parts[number].etag == etag && rest.Some? then Some(parts[number].data + rest.value) else None
  }

  /** The data complete_multipart would publish under the key. */
  function Assembled(s: Store, key: Key, remote: Option<RemoteId>, manifest: Manifest): Option<Bytes> {
    if remote.Some? && remote.value in s.multiparts && s.multiparts[remote.value].key == key
    then Assemble(s.multiparts[remote.value].parts, manifest)
    else None
  }

  function CompleteMultipart(s: Store, key: Key, remote: Option<RemoteId>, manifest: Manifest, fault: Fault): (Store, Outcome) {
    if fault.FailsBefore? then (s, Some(fault.code))
    else
      var data := Assembled(s, key, remote, manifest);
      if data.Some? then (Store(s.objects[key := data.value], s.multiparts - {remote.value}), Seen(fault))
      else if remote.Some? && remote.value in s.multiparts then (s, Some(InvalidRequest))
      else (s, Some(NotFound))
  }

  function StartMultipart(s: Store, key: Key, remote: RemoteId): Store {
    s.(multiparts := s.multiparts[remote := Multipart(key, map[])])
  }

  function AbortMultipart(s: Store, key: Key, remote: RemoteId, fault: Fault): (Store, Outcome) {
    if fault.FailsBefore? then (s, Some(fault.code))
    else if remote in s.multiparts && s.multiparts[remote].key == key then (s.(multiparts := s.multiparts - {remote}), Seen(fault))
    else (s, Some(NotFound))
  }

  function Head(s: Store, key: Key, fault: Fault): Outcome {
    if !fault.NoFault? then Some(fault.code) else if key in s.objects then None else Some(NotFound)
  }

  function DeleteObject(s: Store, key: Key, fault: Fault): (Store, Outcome) {
    if fault.FailsBefore? then (s, Some(fault.code)) else (s.(objects := s.objects - {key}), Seen(fault))
  }
}
