/** The request handlers as they are written: methods that change rows in place and return early
    (api/upload_sessions.py, api/artifacts.py).  A call that runs alone does what its steps do in the
    protocol machine.
  */
module UploadHandlers {
  import opened ArtifactDomain
  import opened ObjectStore
  import opened Completion
  import opened UploadProtocol
  import opened UploadInvariant
  import opened ArtifactSteps
  import opened UploadRuns
  import UploadSteps

  /** The transaction of the call. */
  const T: Txn := 0

  /** The call stands at this point and no other transaction is open. */
  function At(v: State, l: Local): State { v.(locals := map[T := l]) }

  // ----- A call as a composition of steps; a step that does not apply changes nothing

  function CreateCall(c: Config, v: State, org: nat, size: nat, sha256: Digest, key: Key, expiresAt: Time): State {
    InsertUpload(ReadQuota(c, LockForCreate(c, v, T, org, size), T, sha256), T, key, expiresAt)
  }

  function GetCall(v: State, id: nat, now: Time): State { ExpireViewed(ReadUpload(v, T, id), T, now) }

  function RegisterCall(v: State, id: nat, now: Time, number: nat, part: Part): State {
    RegisterPart(ReadUpload(v, T, id), T, now, number, part)
  }

  function CancelCall(v: State, id: nat, now: Time, fault: Fault): State {
    CommitCancel(AbortRemote(ReadUpload(v, T, id), T, now, fault), T)
  }

  function SignCall(v: State, id: nat, now: Time, remote: RemoteId, fault: Fault, signs: bool): State {
    CommitStarted(StartRemote(LockForSign(v, T, id), T, now, remote, fault, signs), T, signs)
  }

  function DeleteCall(v: State, id: nat, ifMatch: int): State { RequestDeletion(ReadArtifact(v, T, id), T, ifMatch) }

  /** The faults of the three storage calls of a completion, what HEAD reports, and how the download is cut. */
  datatype Weather = Weather(completing: Fault, looking: Fault, verifying: Fault, head: Metadata, sizes: seq<nat>)

  /** Chunks of the given sizes, then the rest. */
  function Cut(data: Bytes, sizes: seq<nat>): (chunks: seq<Bytes>)
    decreases |sizes|
  {
    if sizes == [] then [data]
    else
      var n := Min(sizes[|sizes| - 1], |data|);
      Cut(data[..|data| - n], sizes[..|sizes| - 1]) + [data[|data| - n..]]
  }

  lemma FlattenMore(chunks: seq<Bytes>, last: Bytes)
    ensures Flatten(chunks + [last]) == Flatten(chunks) + last
  {
    assert (chunks + [last])[..|chunks|] == chunks;
  }

  lemma {:induction false} CutIsWhole(data: Bytes, sizes: seq<nat>)
    ensures Flatten(Cut(data, sizes)) == data
    decreases |sizes|
  {
    if sizes == [] {
      FlattenMore([], data);
      assert [] + [data] == [data];
    } else {
      hide Flatten;
      var n := Min(sizes[|sizes| - 1], |data|);
      CutIsWhole(data[..|data| - n], sizes[..|sizes| - 1]);
      FlattenMore(Cut(data[..|data| - n], sizes[..|sizes| - 1]), data[|data| - n..]);
    }
  }

  function ChunksAt(s: State, sizes: seq<nat>): seq<Bytes> {
    if T in s.locals && s.locals[T].RemoteDone? && s.locals[T].row.key in s.store.objects
    then Cut(s.store.objects[s.locals[T].row.key], sizes) else []
  }

  function RemoteCall(v: State, w: Weather): State {
    HeadAfterFailure(CompleteRemote(v, T, w.completing), T, w.looking)
  }

  function PublishCall(c: Config, v: State, w: Weather): State {
    Publish(VerifyStored(c, v, T, w.head, ChunksAt(v, w.sizes), w.verifying), T)
  }

  function CheckCall(v: State, id: nat, now: Time, manifest: Manifest): State {
    Relock(CheckManifest(LockForComplete(v, T, id), T, now, manifest), T)
  }

  function CompleteCall(c: Config, v: State, id: nat, now: Time, manifest: Manifest, w: Weather): State {
    PublishCall(c, RemoteCall(CheckCall(v, id, now, manifest), w), w)
  }

  lemma GoAt(v: State, l: Local, next: Local)
    ensures Go(At(v, l), T, next) == At(v, next)
    ensures v.locals == map[] ==> Go(v, T, next) == At(v, next)
    ensures T in At(v, l).locals && At(v, l).locals[T] == l
  {
    assert map[T := l][T := next] == map[T := next];
  }

  lemma FreeAt(v: State, l: Local, id: nat)
    ensures UploadFree(At(v, l), T, id)
    ensures v.locals == map[] ==> UploadFree(v, T, id) && OrgFree(v, T, id)
  {
  }

  lemma UpdateAt(v: State, l: Local, id: nat, next: Upload, done: Local)
    requires id < |v.uploads|
    ensures UpdateUpload(At(v, l), T, id, v.uploads[id], next, done) == At(SetUpload(v, id, next), done)
  {
    FreeAt(v, l, id);
    GoAt(SetUpload(v, id, next), l, done);
    hide UploadFree;
  }

  function Started(v: State, key: Key, remote: RemoteId): State {
    v.(store := StartMultipart(v.store, key, remote), usedRemotes := v.usedRemotes + {remote})
  }

  lemma RemoteStarts(v: State, id: nat, now: Time, remote: RemoteId, fault: Fault, signs: bool)
    requires id < |v.uploads| && v.uploads[id].status.PendingUpload? && remote !in v.usedRemotes && !IsPastDue(v.uploads[id], now)
    ensures var row := v.uploads[id];
            var failed := Finished(Refused(StorageUnavailable));
            CommitStarted(StartRemote(At(v, SignLocked(id, row)), T, now, remote, fault, signs), T, signs)
              == if fault.FailsBefore? then At(v, failed)
                 else if fault.FailsAfter? then At(Started(v, row.key, remote), failed)
                 else CommitStarted(At(Started(v, row.key, remote), SignStarted(id, row, remote)), T, signs)
  {
    var row := v.uploads[id];
    var locked, v1 := SignLocked(id, row), Started(v, row.key, remote);
    GoAt(v, locked, Finished(Refused(StorageUnavailable)));
    GoAt(v1, locked, Finished(Refused(StorageUnavailable)));
    GoAt(v1, locked, SignStarted(id, row, remote));
    hide Go, UpdateUpload, StartMultipart;
  }

  lemma RemoteCommitted(v: State, id: nat, remote: RemoteId, signs: bool)
    requires id < |v.uploads|
    ensures CommitStarted(At(v, SignStarted(id, v.uploads[id], remote)), T, signs)
         == At(SetUpload(v, id, StartedRow(v.uploads[id], remote)), Finished(SigningAnswer(signs)))
  {
    UpdateAt(v, SignStarted(id, v.uploads[id], remote), id, StartedRow(v.uploads[id], remote), Finished(SigningAnswer(signs)));
    hide UpdateUpload;
  }

  lemma CreatedAlone(c: Config, v: State, org: nat, size: nat, sha256: Digest, key: Key, expiresAt: Time)
    requires v.locals == map[] && key !in v.usedKeys
    ensures CreateCall(c, v, org, size, sha256, key, expiresAt)
         == if size > c.maxFile then At(v, Finished(Refused(UploadTooLarge)))
            else if ActiveCount(v.uploads, org) >= c.maxActive then At(v, Finished(Refused(ConcurrencyLimit)))
            else if ActiveBytes(v.uploads, org) + size > c.maxReserved then At(v, Finished(Refused(QuotaExceeded)))
            else At(v.(uploads := v.uploads + [NewUpload(org, key, size, sha256, expiresAt)], parts := v.parts + [map[]],
                       usedKeys := v.usedKeys + {key}), Finished(Done))
  {
    var locked := CreateLocked(org, size);
    var ready := CreateReady(org, size, sha256, ActiveCount(v.uploads, org), ActiveBytes(v.uploads, org));
    FreeAt(v, locked, org);
    GoAt(v, locked, locked);
    hide ActiveCount, ActiveBytes, NewUpload, OrgFree;
    GoAt(v, locked, Finished(Refused(UploadTooLarge)));
    assert LockForCreate(c, v, T, org, size) == At(v, if size > c.maxFile then Finished(Refused(UploadTooLarge)) else locked) by { hide Go, At; }
    hide LockForCreate;
    var s := ReadQuota(c, At(v, locked), T, sha256);
    GoAt(v, locked, Finished(Refused(ConcurrencyLimit)));
    GoAt(v, locked, Finished(Refused(QuotaExceeded)));
    GoAt(v, locked, ready);
    hide Go;
    assert s == (if ActiveCount(v.uploads, org) >= c.maxActive then At(v, Finished(Refused(ConcurrencyLimit)))
                 else if ActiveBytes(v.uploads, org) + size > c.maxReserved then At(v, Finished(Refused(QuotaExceeded)))
                 else At(v, ready));
    hide ReadQuota;
    InsertedAlone(v, ready, key, expiresAt);
  }

  lemma InsertedAlone(v: State, ready: Local, key: Key, expiresAt: Time)
    requires ready.CreateReady? && key !in v.usedKeys
    ensures InsertUpload(At(v, ready), T, key, expiresAt)
         == At(v.(uploads := v.uploads + [NewUpload(ready.org, key, ready.size, ready.sha256, expiresAt)], parts := v.parts + [map[]],
                  usedKeys := v.usedKeys + {key}), Finished(Done))
    ensures forall r :: InsertUpload(At(v, Finished(r)), T, key, expiresAt) == At(v, Finished(r))
  {
    var v1 := v.(uploads := v.uploads + [NewUpload(ready.org, key, ready.size, ready.sha256, expiresAt)], parts := v.parts + [map[]],
                 usedKeys := v.usedKeys + {key});
    GoAt(v, ready, ready);
    GoAt(v1, ready, Finished(Done));
    hide Go, NewUpload;
  }

  lemma CancelledAlone(v: State, id: nat, now: Time, fault: Fault)
    requires id < |v.uploads| && v.locals == map[]
    ensures var row := v.uploads[id];
            CancelCall(v, id, now, fault)
              == if IsPastDue(row, now) then At(SetUpload(v, id, ExpiredRow(row)), Finished(Done))
                 else if !IsCancellable(row.status) then At(v, Finished(Refused(StateConflict)))
                 else
                   var v1 := if row.remote.Some? then v.(store := AbortMultipart(v.store, row.key, row.remote.value, fault).0) else v;
                   if row.remote.Some? && AbortMultipart(v.store, row.key, row.remote.value, fault).1.Some?
                   then At(v1, Finished(Refused(StorageUnavailable)))
                   else At(if row.status.Aborted? then v1 else SetUpload(v1, id, AbortedRow(row)), Finished(Done))
  {
    var row := v.uploads[id];
    var read, expired := Viewed(id, row), CancelReady(id, row, ExpiredRow(row));
    GoAt(v, read, read);
    hide AbortMultipart, IsPastDue, IsCancellable, ExpiredRow, AbortedRow;
    assert ReadUpload(v, T, id) == At(v, read);
    hide ReadUpload;
    if IsPastDue(row, now) {
      GoAt(v, read, expired);
      CommittedAlone(v, id, ExpiredRow(row));
      hide Go, CommitCancel;
    } else if !IsCancellable(row.status) {
      GoAt(v, read, Finished(Refused(StateConflict)));
      hide Go;
    } else {
      var v1 := if row.remote.Some? then v.(store := AbortMultipart(v.store, row.key, row.remote.value, fault).0) else v;
      var next := if row.status.Aborted? then row else AbortedRow(row);
      GoAt(v1, read, Finished(Refused(StorageUnavailable)));
      GoAt(v1, read, CancelReady(id, row, next));
      CommittedAlone(v1, id, next);
      hide Go;
      var s := AbortRemote(At(v, read), T, now, fault);
      assert s == (if row.remote.Some? && AbortMultipart(v.store, row.key, row.remote.value, fault).1.Some?
                   then At(v1, Finished(Refused(StorageUnavailable))) else At(v1, CancelReady(id, row, next)));
      hide AbortRemote;
      AbortedChanges(row);
    }
  }

  lemma AbortedChanges(row: Upload)
    ensures AbortedRow(row) != row
  {
  }

  lemma CommittedAlone(v: State, id: nat, next: Upload)
    requires id < |v.uploads|
    ensures CommitCancel(At(v, CancelReady(id, v.uploads[id], next)), T)
         == At(if next == v.uploads[id] then v else SetUpload(v, id, next), Finished(Done))
    ensures forall r :: CommitCancel(At(v, Finished(r)), T) == At(v, Finished(r))
  {
    var ready := CancelReady(id, v.uploads[id], next);
    UpdateAt(v, ready, id, next, Finished(Done));
    GoAt(v, ready, Finished(Done));
    hide Go, UpdateUpload;
  }

  class UploadService {
    const config: Config
    var uploads: seq<Upload>
    var parts: seq<map<nat, Part>>
    var artifacts: seq<Artifact>
    var outbox: seq<Event>
    var store: Store
    ghost var usedKeys: set<Key>
    ghost var usedRemotes: set<RemoteId>
    ghost var written: map<Key, Bytes>
    ghost var deleteCalls: set<Key>

    ghost function View(): (v: State)
      reads this
      ensures v.locals == map[]
    {
      State(uploads, parts, artifacts, outbox, store, map[], usedKeys, usedRemotes, written, deleteCalls)
    }

    constructor (config: Config)
      ensures this.config == config && View() == EMPTY
    {
      this.config := config;
      uploads, parts, artifacts, outbox, store := [], [], [], [], Store(map[], map[]);
      usedKeys, usedRemotes, written, deleteCalls := {}, {}, map[], {};
    }

    /** key is random: one that neither a session nor an object ever had. */
    method CreateUpload(org: nat, size: nat, sha256: Digest, key: Key, expiresAt: Time) returns (reply: Reply)
      requires key !in usedKeys
      modifies this
      ensures At(View(), Finished(reply)) == CreateCall(config, old(View()), org, size, sha256, key, expiresAt)
    {
      CreatedAlone(config, View(), org, size, sha256, key, expiresAt);
      hide CreateCall, ActiveCount, ActiveBytes;
      if size > config.maxFile {
        return Refused(UploadTooLarge);
      }
      var active, reserved := ActiveCount(uploads, org), ActiveBytes(uploads, org);
      if active >= config.maxActive {
        return Refused(ConcurrencyLimit);
      }
      if reserved + size > config.maxReserved {
        return Refused(QuotaExceeded);
      }
      uploads := uploads + [Upload(org, key, size, sha256, expiresAt, PendingUpload, None, size, 1, NO_CLEANUP)];
      parts := parts + [map[]];
      usedKeys := usedKeys + {key};
      reply := Done;
    }

    /** Ends an active session that is past its time. */
    method ExpireIfNeeded(id: nat, now: Time) returns (expired: bool)
      requires id < |uploads|
      modifies this`uploads
      ensures expired == IsPastDue(old(uploads)[id], now)
      ensures View() == if expired then SetUpload(old(View()), id, ExpiredRow(old(uploads)[id])) else old(View())
    {
      var upload := uploads[id];
      if IsActive(upload.status) && upload.expiresAt <= now {
        uploads := uploads[id := upload.(status := Expired, reserved := 0, version := upload.version + 1)];
        return true;
      }
      expired := false;
    }

    method GetUpload(id: nat, now: Time) returns (reply: Reply)
      modifies this`uploads
      ensures if id < |old(uploads)| then At(View(), Finished(reply)) == GetCall(old(View()), id, now)
              else View() == old(View()) && reply == Refused(UploadNotFound)
    {
      if id >= |uploads| {
        return Refused(UploadNotFound);
      }
      ghost var v, row := View(), uploads[id];
      GoAt(v, Viewed(id, row), Viewed(id, row));
      GoAt(v, Viewed(id, row), Finished(Done));
      UpdateAt(v, Viewed(id, row), id, ExpiredRow(row), Finished(Done));
      hide UpdateUpload;
      var expired := ExpireIfNeeded(id, now);
      reply := Done;
    }

    method RegisterUploadPart(id: nat, now: Time, number: nat, part: Part) returns (reply: Reply)
      requires |parts| == |uploads|
      modifies this`uploads, this`parts
      ensures if id < |old(uploads)| then At(View(), Finished(reply)) == RegisterCall(old(View()), id, now, number, part)
              else View() == old(View()) && reply == Refused(if 1 <= number <= MAX_PART then UploadNotFound else InvalidPartNumber)
    {
      ghost var v := View();
      if id < |uploads| {
        ViewedAnswers(v, id);
        UpdateAt(v, Viewed(id, uploads[id]), id, ExpiredRow(uploads[id]), Finished(Refused(UploadExpired)));
      }
      hide UpdateUpload, Go;
      if number < 1 || number > MAX_PART {
        return Refused(InvalidPartNumber);
      }
      if id >= |uploads| {
        return Refused(UploadNotFound);
      }
      var upload := uploads[id];
      var expired := ExpireIfNeeded(id, now);
      if expired {
        return Refused(UploadExpired);
      }
      if !upload.status.Uploading? {
        return Refused(StateConflict);
      }
      if number in parts[id] {
        if parts[id][number].etag != part.etag || parts[id][number].size != part.size {
          return Refused(PartConflict);
        }
        return Done;
      }
      var registered: map<nat, Part> := parts[id][number := part];
      parts := parts[id := registered];
      ViewedAnswersIn(View(), id, upload);
      reply := Done;
    }

    method CancelUpload(id: nat, now: Time, fault: Fault) returns (reply: Reply)
      modifies this`uploads, this`store
      ensures if id < |old(uploads)| then At(View(), Finished(reply)) == CancelCall(old(View()), id, now, fault)
              else View() == old(View()) && reply == Refused(UploadNotFound)
    {
      if id >= |uploads| {
        return Refused(UploadNotFound);
      }
      var upload := uploads[id];
      CancelledAlone(View(), id, now, fault);
      hide CancelCall, AbortMultipart;
      var expired := ExpireIfNeeded(id, now);
      if expired {
        return Done;
      }
      if !IsCancellable(upload.status) {
        return Refused(StateConflict);
      }
      if upload.remote.Some? {
        var (after, outcome) := AbortMultipart(store, upload.key, upload.remote.value, fault);
        store := after;
        if outcome.Some? {
          return Refused(StorageUnavailable);
        }
      }
      // an aborted session is written back as it is
      if !upload.status.Aborted? {
        uploads := uploads[id := upload.(status := Aborted, reserved := 0, version := upload.version + 1)];
      }
      reply := Done;
    }

    /** remote is the id the store picks: one that was never used. */
    method SignParts(id: nat, now: Time, remote: RemoteId, fault: Fault, signs: bool) returns (reply: Reply)
      requires remote !in usedRemotes
      modifies this`uploads, this`store, this`usedRemotes
      ensures if id < |old(uploads)| then At(View(), Finished(reply)) == SignCall(old(View()), id, now, remote, fault, signs)
              else View() == old(View()) && reply == Refused(UploadNotFound)
    {
      if id >= |uploads| {
        return Refused(UploadNotFound);
      }
      ghost var v := View();
      var upload := uploads[id];
      ghost var locked := SignLocked(id, upload);
      FreeAt(v, locked, id);
      GoAt(v, locked, locked);
      UpdateAt(v, locked, id, ExpiredRow(upload), Finished(Refused(UploadExpired)));
      GoAt(v, locked, Finished(Refused(StateConflict)));
      GoAt(v, locked, Finished(Refused(StorageUnavailable)));
      GoAt(v, locked, Finished(SigningAnswer(signs)));
      hide UpdateUpload, Go, UploadFree;
      assert LockForSign(v, T, id) == At(v, locked);
      hide LockForSign;
      var expired := ExpireIfNeeded(id, now);
      if expired {
        return Refused(UploadExpired);
      }
      if upload.status.PendingUpload? {
        reply := StartUpload(id, now, remote, fault, signs);
        assert SignCall(v, id, now, remote, fault, signs) == CommitStarted(StartRemote(At(v, locked), T, now, remote, fault, signs), T, signs);
        return;
      }
      if !upload.status.Uploading? {
        return Refused(StateConflict);
      }
      if upload.remote.None? {
        return Refused(StateConflict);
      }
      if !signs {
        return Refused(StorageUnavailable);
      }
      reply := Done;
    }

    /** Starts the multipart upload and commits its id before anything is signed. */
    method StartUpload(id: nat, ghost now: Time, remote: RemoteId, fault: Fault, signs: bool) returns (reply: Reply)
      requires id < |uploads| && uploads[id].status.PendingUpload? && remote !in usedRemotes && !IsPastDue(uploads[id], now)
      modifies this`uploads, this`store, this`usedRemotes
      ensures At(View(), Finished(reply))
           == CommitStarted(StartRemote(At(old(View()), SignLocked(id, old(uploads)[id])), T, now, remote, fault, signs), T, signs)
    {
      ghost var v, row := View(), uploads[id];
      RemoteStarts(v, id, now, remote, fault, signs);
      hide StartRemote, CommitStarted, StartMultipart;
      if fault.FailsBefore? {
        return Refused(StorageUnavailable);
      }
      store := StartMultipart(store, uploads[id].key, remote);
      usedRemotes := usedRemotes + {remote};
      RemoteCommitted(View(), id, remote, signs);
      if fault.FailsAfter? {
        return Refused(StorageUnavailable);
      }
      var upload := uploads[id];
      uploads := uploads[id := upload.(remote := Some(remote), status := Uploading, version := upload.version + 1)];
      if !signs {
        return Refused(StorageUnavailable);
      }
      reply := Done;
    }

    method DeleteArtifact(id: nat, ifMatch: int) returns (reply: Reply)
      modifies this`artifacts, this`outbox
      ensures if id < |old(artifacts)| then At(View(), Finished(reply)) == DeleteCall(old(View()), id, ifMatch)
              else View() == old(View()) && reply == Refused(ArtifactNotFound)
    {
      if id >= |artifacts| {
        return Refused(ArtifactNotFound);
      }
      ghost var v := View();
      var artifact := artifacts[id];
      ghost var read := ArtifactViewed(id, artifact);
      GoAt(v, read, read);
      GoAt(v, read, Finished(Refused(VersionMismatch)));
      GoAt(v, read, Finished(Refused(ArtifactNotFound)));
      GoAt(v, read, Finished(Done));
      hide Go;
      if artifact.version != ifMatch {
        return Refused(VersionMismatch);
      }
      if artifact.status.Deleted? {
        return Refused(ArtifactNotFound);
      }
      if !artifact.status.Deleting? {
        artifacts := artifacts[id := artifact.(status := Deleting, version := artifact.version + 1)];
        GoAt(View(), read, Finished(Done));
      }
      outbox := outbox + [Event(id, DeletionRequested)];
      reply := Done;
    }

    method ExistingArtifact(id: nat) returns (existing: Option<nat>)
      ensures existing.Some? <==> HasArtifact(View(), id)
      ensures existing.Some? ==> existing.value == ArtifactOf(View(), id)
    {
      if exists i | 0 <= i < |artifacts| :: artifacts[i].upload == id {
        return Some(ArtifactFrom(artifacts, id));
      }
      existing := None;
    }

    /** The checks under the first lock, the checkpoint, and the second look; row is the row it goes on with. */
    method CheckCompletion(id: nat, now: Time, manifest: Manifest) returns (answered: Option<Reply>, row: Option<Upload>)
      requires id < |uploads| && |parts| == |uploads|
      modifies this`uploads
      ensures answered.None? ==> row.Some? && id < |uploads| && uploads[id] == row.value
      ensures CheckCall(old(View()), id, now, manifest)
           == At(View(), if answered.Some? then Finished(answered.value) else Relocked(id, uploads[id], manifest))
    {
      ghost var v := View();
      var upload := uploads[id];
      CheckedAlone(v, id, now, manifest);
      hide CheckCall, ManifestAccepted, HasArtifact, ArtifactOf;
      var existing := ExistingArtifact(id);
      if upload.status.Completed? && existing.Some? {
        return Some(Replayed(existing.value)), None;
      }
      var expired := ExpireIfNeeded(id, now);
      if expired {
        return Some(Refused(UploadExpired)), None;
      }
      if !upload.status.Uploading? && !upload.status.Completing? {
        return Some(Refused(StateConflict)), None;
      }
      if upload.remote.None? {
        return Some(Refused(StateConflict)), None;
      }
      if !ManifestAccepted(parts[id], upload.size, manifest) {
        return Some(Refused(PartListMismatch)), None;
      }
      if upload.status.Uploading? {
        uploads := uploads[id := upload.(status := Completing, version := upload.version + 1)];
      }
      answered, row := None, Some(uploads[id]);
    }

    /** complete_multipart, and HEAD if it fails: an object that is there lets the handler go on. */
    method CompleteOnStore(id: nat, row: Upload, manifest: Manifest, w: Weather) returns (answered: Option<Reply>)
      modifies this`store, this`written
      ensures At(View(), if answered.Some? then Finished(answered.value) else RemoteDone(id, row))
           == RemoteCall(At(old(View()), Relocked(id, row, manifest)), w)
    {
      RemoteAlone(View(), id, row, manifest, w);
      hide RemoteCall, CompleteMultipart, Assembled;
      ghost var before := View();
      var (after, outcome) := CompleteMultipart(store, row.key, row.remote, manifest, w.completing);
      written := AfterRemote(before, row, manifest, w.completing).written;
      store := after;
      if outcome.Some? {
        if Head(store, row.key, w.looking).Some? {
          return Some(Refused(if outcome.value.NotFound? then ObjectGone else StorageUnavailable));
        }
      }
      answered := None;
    }

    /** Streams the object back, decides on it, and publishes. */
    method PublishObject(id: nat, row: Upload, w: Weather) returns (reply: Reply)
      requires id < |uploads| && uploads[id] == row
      modifies this`uploads, this`artifacts, this`outbox
      ensures At(View(), Finished(reply)) == PublishCall(config, At(old(View()), RemoteDone(id, row)), w)
    {
      VerifiedAlone(config, View(), id, row, w);
      hide PublishCall, Flatten, Publish, Cut;
      var outcome := Head(store, row.key, w.verifying);
      if outcome.Some? {
        return Refused(if outcome.value.NotFound? then ObjectGone else StorageUnavailable);
      }
      var chunks := Cut(store.objects[row.key], w.sizes);
      CutIsWhole(store.objects[row.key], w.sizes);
      var verification := VerifyObject(config.hash, w.head, chunks);
      reply := InsertArtifact(id, row, verification);
    }

    /** The artifact, the completed session and the event, in one commit. */
    method InsertArtifact(id: nat, row: Upload, v: Verification) returns (reply: Reply)
      requires id < |uploads| && uploads[id] == row
      modifies this`uploads, this`artifacts, this`outbox
      ensures At(View(), Finished(reply)) == Publish(At(old(View()), ObjectVerified(id, row, v)), T)
    {
      PublishedAlone(View(), id, row, v);
      hide Publish;
      var sizeMatches := v.metadata.size == row.size;
      var checksumMatches := v.sha256 == row.sha256;
      var size := if v.metadata.size < 0 then 0 else v.metadata.size;
      var artifact := Artifact(id, row.key, size, v.sha256, sizeMatches && checksumMatches,
                               if sizeMatches && checksumMatches then Available else Quarantined, 1, NO_CLEANUP);
      // unique constraints
      if exists i | 0 <= i < |artifacts| :: artifacts[i].upload == id || artifacts[i].key == artifact.key {
        return Refused(StaleData);
      }
      reply := Created(|artifacts|);
      outbox := outbox + [Event(|artifacts|, if sizeMatches && checksumMatches then ArtifactVerified else ArtifactQuarantined)];
      artifacts := artifacts + [artifact];
      uploads := uploads[id := row.(status := Completed, reserved := 0, version := row.version + 1)];
    }

    method CompleteUpload(id: nat, now: Time, manifest: Manifest, w: Weather) returns (reply: Reply)
      requires |parts| == |uploads|
      modifies this`uploads, this`artifacts, this`outbox, this`store, this`written
      ensures if id < |old(uploads)| then At(View(), Finished(reply)) == CompleteCall(config, old(View()), id, now, manifest, w)
              else View() == old(View()) && reply == Refused(UploadNotFound)
    {
      if id >= |uploads| {
        return Refused(UploadNotFound);
      }
      hide CheckCall, RemoteCall, PublishCall;
      var answered, row := CheckCompletion(id, now, manifest);
      if answered.Some? {
        AnsweredStays(config, View(), answered.value, w);
        return answered.value;
      }
      answered := CompleteOnStore(id, row.value, manifest, w);
      if answered.Some? {
        AnsweredStays(config, View(), answered.value, w);
        return answered.value;
      }
      reply := PublishObject(id, row.value, w);
    }
  }

  lemma ViewedAnswersIn(v: State, id: nat, row: Upload)
    ensures forall r :: Finish(At(v, Viewed(id, row)), T, r) == At(v, Finished(r))
  {
    forall r ensures Finish(At(v, Viewed(id, row)), T, r) == At(v, Finished(r)) {
      GoAt(v, Viewed(id, row), Finished(r));
    }
  }

  lemma ViewedAnswers(v: State, id: nat)
    requires id < |v.uploads| && v.locals == map[]
    ensures ReadUpload(v, T, id) == At(v, Viewed(id, v.uploads[id]))
    ensures forall r :: Finish(At(v, Viewed(id, v.uploads[id])), T, r) == At(v, Finished(r))
  {
    GoAt(v, Viewed(id, v.uploads[id]), Viewed(id, v.uploads[id]));
    ViewedAnswersIn(v, id, v.uploads[id]);
  }

  lemma LockedForComplete(v: State, id: nat)
    requires id < |v.uploads| && v.locals == map[]
    ensures LockForComplete(v, T, id) == At(v, CompleteLocked(id, v.uploads[id]))
  {
    FreeAt(v, CompleteLocked(id, v.uploads[id]), id);
    GoAt(v, CompleteLocked(id, v.uploads[id]), CompleteLocked(id, v.uploads[id]));
    hide UploadFree;
  }

  lemma CompletionAnswers(v: State, id: nat, row: Upload)
    ensures forall next :: Go(At(v, CompleteLocked(id, row)), T, next) == At(v, next)
  {
    forall next ensures Go(At(v, CompleteLocked(id, row)), T, next) == At(v, next) {
      GoAt(v, CompleteLocked(id, row), next);
    }
  }

  /** Nobody else ran: the row read after the checkpoint is the checkpointed one. */
  lemma RelockedAgain(v: State, id: nat, manifest: Manifest)
    requires id < |v.uploads| && v.uploads[id].status.Completing?
    ensures Relock(At(v, Checkpointed(id, manifest)), T) == At(v, Relocked(id, v.uploads[id], manifest))
  {
    FreeAt(v, Checkpointed(id, manifest), id);
    GoAt(v, Checkpointed(id, manifest), Relocked(id, v.uploads[id], manifest));
    hide UploadFree;
  }

  lemma CheckedAlone(v: State, id: nat, now: Time, manifest: Manifest)
    requires id < |v.uploads| && |v.parts| == |v.uploads| && v.locals == map[]
    ensures var row := v.uploads[id];
            CheckCall(v, id, now, manifest)
              == if row.status.Completed? && HasArtifact(v, id) then At(v, Finished(Replayed(ArtifactOf(v, id))))
                 else if IsPastDue(row, now) then At(SetUpload(v, id, ExpiredRow(row)), Finished(Refused(UploadExpired)))
                 else if !(row.status.Uploading? || row.status.Completing?) || row.remote.None? then At(v, Finished(Refused(StateConflict)))
                 else if !ManifestAccepted(v.parts[id], row.size, manifest) then At(v, Finished(Refused(PartListMismatch)))
                 else if row.status.Uploading? then At(SetUpload(v, id, CheckpointRow(row)), Relocked(id, CheckpointRow(row), manifest))
                 else At(v, Relocked(id, row, manifest))
  {
    var row := v.uploads[id];
    LockedForComplete(v, id);
    CompletionAnswers(v, id, row);
    UpdateAt(v, CompleteLocked(id, row), id, ExpiredRow(row), Finished(Refused(UploadExpired)));
    UpdateAt(v, CompleteLocked(id, row), id, CheckpointRow(row), Checkpointed(id, manifest));
    if row.status.Uploading? {
      RelockedAgain(SetUpload(v, id, CheckpointRow(row)), id, manifest);
    }
    hide ManifestAccepted, UpdateUpload, LockForComplete, Go, HasArtifact, ArtifactOf, IsPastDue;
  }

  /** Tables and store after the remote completion. */
  function AfterRemote(v: State, row: Upload, manifest: Manifest, fault: Fault): State {
    var data := if fault.FailsBefore? then None else Assembled(v.store, row.key, row.remote, manifest);
    v.(store := CompleteMultipart(v.store, row.key, row.remote, manifest, fault).0,
       written := if data.Some? then v.written[row.key := data.value] else v.written)
  }

  lemma RemoteAlone(v: State, id: nat, row: Upload, manifest: Manifest, w: Weather)
    ensures var outcome := CompleteMultipart(v.store, row.key, row.remote, manifest, w.completing).1;
            var v1 := AfterRemote(v, row, manifest, w.completing);
            RemoteCall(At(v, Relocked(id, row, manifest)), w)
              == if outcome.None? || Head(v1.store, row.key, w.looking).None? then At(v1, RemoteDone(id, row))
                 else At(v1, Finished(Refused(if outcome.value.NotFound? then ObjectGone else StorageUnavailable)))
  {
    var relocked := Relocked(id, row, manifest);
    var outcome := CompleteMultipart(v.store, row.key, row.remote, manifest, w.completing).1;
    var v1 := AfterRemote(v, row, manifest, w.completing);
    hide CompleteMultipart, Assembled, Head;
    GoAt(v, relocked, relocked);
    GoAt(v1, relocked, RemoteDone(id, row));
    GoAt(v1, RemoteDone(id, row), RemoteDone(id, row));
    if outcome.Some? {
      var failed := RemoteFailed(id, row, outcome.value);
      GoAt(v1, relocked, failed);
      GoAt(v1, failed, RemoteDone(id, row));
      GoAt(v1, failed, Finished(Refused(if outcome.value.NotFound? then ObjectGone else StorageUnavailable)));
    }
    hide Go;
  }

  lemma VerifiedAlone(c: Config, v: State, id: nat, row: Upload, w: Weather)
    ensures var outcome := Head(v.store, row.key, w.verifying);
            && (outcome.None? ==> row.key in v.store.objects)
            && PublishCall(c, At(v, RemoteDone(id, row)), w)
                 == if outcome.Some? then At(v, Finished(Refused(if outcome.value.NotFound? then ObjectGone else StorageUnavailable)))
                    else Publish(At(v, ObjectVerified(id, row, Verified(c.hash, w.head, v.store.objects[row.key]))), T)
  {
    var done, outcome := RemoteDone(id, row), Head(v.store, row.key, w.verifying);
    GoAt(v, done, done);
    if outcome.None? {
      CutIsWhole(v.store.objects[row.key], w.sizes);
      GoAt(v, done, ObjectVerified(id, row, Verified(c.hash, w.head, v.store.objects[row.key])));
      hide Publish;
    } else {
      GoAt(v, done, Finished(Refused(if outcome.value.NotFound? then ObjectGone else StorageUnavailable)));
    }
    hide Go, Flatten, Cut, Verified, Head;
  }

  lemma PublishedAlone(v: State, id: nat, row: Upload, verification: Verification)
    requires id < |v.uploads| && v.uploads[id] == row
    ensures var a := NewArtifact(id, row, verification);
            Publish(At(v, ObjectVerified(id, row, verification)), T)
              == if exists i | 0 <= i < |v.artifacts| :: v.artifacts[i].upload == id || v.artifacts[i].key == a.key
                 then At(v, Finished(Refused(StaleData)))
                 else At(v.(uploads := v.uploads[id := CompletedRow(row)], artifacts := v.artifacts + [a],
                            outbox := v.outbox + [Event(|v.artifacts|, if a.verified then ArtifactVerified else ArtifactQuarantined)]),
                         Finished(Created(|v.artifacts|)))
  {
    var ready, a := ObjectVerified(id, row, verification), NewArtifact(id, row, verification);
    var v1 := v.(uploads := v.uploads[id := CompletedRow(row)], artifacts := v.artifacts + [a],
                 outbox := v.outbox + [Event(|v.artifacts|, if a.verified then ArtifactVerified else ArtifactQuarantined)]);
    GoAt(v, ready, ready);
    GoAt(v, ready, Finished(Refused(StaleData)));
    GoAt(v1, ready, Finished(Created(|v.artifacts|)));
    hide Go, NewArtifact, CompletedRow;
  }

  /** Steps that do not apply: once answered, the rest of the call does nothing. */
  lemma AnsweredStays(c: Config, v: State, r: Reply, w: Weather)
    ensures RemoteCall(At(v, Finished(r)), w) == At(v, Finished(r)) == PublishCall(c, At(v, Finished(r)), w)
  {
    GoAt(v, Finished(r), Finished(r));
  }

  // ----- A call is a run, so it keeps what every run keeps

  datatype Call =
    | Create(org: nat, size: nat, sha256: Digest, key: Key, expiresAt: Time)
    | Get(id: nat, now: Time)
    | Register(id: nat, now: Time, number: nat, part: Part)
    | Cancel(id: nat, now: Time, fault: Fault)
    | Sign(id: nat, now: Time, remote: RemoteId, fault: Fault, signs: bool)
    | Delete(id: nat, ifMatch: int)
    | Complete(id: nat, now: Time, manifest: Manifest, w: Weather)

  function Handled(c: Config, v: State, call: Call): State {
    match call
    case Create(org, size, sha256, key, expiresAt) => CreateCall(c, v, org, size, sha256, key, expiresAt)
    case Get(id, now) => GetCall(v, id, now)
    case Register(id, now, number, part) => RegisterCall(v, id, now, number, part)
    case Cancel(id, now, fault) => CancelCall(v, id, now, fault)
    case Sign(id, now, remote, fault, signs) => SignCall(v, id, now, remote, fault, signs)
    case Delete(id, ifMatch) => DeleteCall(v, id, ifMatch)
    case Complete(id, now, manifest, w) => CompleteCall(c, v, id, now, manifest, w)
  }

  function StepsOf(v: State, call: Call): seq<Action> {
    match call
    case Create(org, size, sha256, key, expiresAt) => [DoLockForCreate(org, size), DoReadQuota(sha256), DoInsertUpload(key, expiresAt)]
    case Get(id, now) => [DoReadUpload(id), DoExpireViewed(now)]
    case Register(id, now, number, part) => [DoReadUpload(id), DoRegisterPart(now, number, part)]
    case Cancel(id, now, fault) => [DoReadUpload(id), DoAbortRemote(now, fault), DoCommitCancel]
    case Sign(id, now, remote, fault, signs) => [DoLockForSign(id), DoStartRemote(now, remote, fault, signs), DoCommitStarted(signs)]
    case Delete(id, ifMatch) => [DoReadArtifact(id), DoRequestDeletion(ifMatch)]
    case Complete(id, now, manifest, w) =>
      [DoLockForComplete(id), DoCheckManifest(now, manifest), DoRelock]
      + [DoCompleteRemote(w.completing), DoHeadAfterFailure(w.looking)]
      + [DoVerifyStored(w.head, ChunksAt(RemoteCall(CheckCall(v, id, now, manifest), w), w.sizes), w.verifying), DoPublish]
  }

  /** The actions one after the other, from the front. */
  function ActAll(c: Config, s: State, actions: seq<Action>): State
    decreases |actions|
  {
    if actions == [] then s else ActAll(c, Act(c, s, T, actions[0]), actions[1..])
  }

  lemma ActTwo(c: Config, s: State, a: Action, b: Action)
    ensures ActAll(c, s, [a, b]) == Act(c, Act(c, s, T, a), T, b)
  {
    hide Act;
    var s1 := Act(c, s, T, a);
    assert [a, b][1..] == [b] && [b][1..] == [];
    assert ActAll(c, s1, [b]) == ActAll(c, Act(c, s1, T, b), []);
  }

  lemma ActThree(c: Config, s: State, a: Action, b: Action, d: Action)
    ensures ActAll(c, s, [a, b, d]) == Act(c, Act(c, Act(c, s, T, a), T, b), T, d)
  {
    hide Act;
    assert [a, b, d][1..] == [b, d];
    ActTwo(c, Act(c, s, T, a), b, d);
  }

  lemma {:induction false} ActJoins(c: Config, s: State, a: seq<Action>, b: seq<Action>)
    ensures ActAll(c, s, a + b) == ActAll(c, ActAll(c, s, a), b)
    decreases |a|
  {
    hide Act;
    if a == [] {
      assert a + b == b;
    } else {
      ActJoins(c, Act(c, s, T, a[0]), a[1..], b);
      assert (a + b)[1..] == a[1..] + b;
    }
  }

  lemma CallIsActions(c: Config, v: State, call: Call)
    ensures Handled(c, v, call) == ActAll(c, v, StepsOf(v, call))
  {
    hide ActAll, ChunksAt, CompleteCall;
    hide LockForCreate, ReadQuota, InsertUpload, ReadUpload, ExpireViewed, RegisterPart, AbortRemote, CommitCancel, LockForSign, StartRemote;
    hide CommitStarted, ReadArtifact, RequestDeletion, CheckCall, RemoteCall, PublishCall;
    match call
    case Create(org, size, sha256, key, expiresAt) =>
      ActThree(c, v, DoLockForCreate(org, size), DoReadQuota(sha256), DoInsertUpload(key, expiresAt));
    case Get(id, now) => ActTwo(c, v, DoReadUpload(id), DoExpireViewed(now));
    case Register(id, now, number, part) => ActTwo(c, v, DoReadUpload(id), DoRegisterPart(now, number, part));
    case Cancel(id, now, fault) => ActThree(c, v, DoReadUpload(id), DoAbortRemote(now, fault), DoCommitCancel);
    case Sign(id, now, remote, fault, signs) => ActThree(c, v, DoLockForSign(id), DoStartRemote(now, remote, fault, signs), DoCommitStarted(signs));
    case Delete(id, ifMatch) => ActTwo(c, v, DoReadArtifact(id), DoRequestDeletion(ifMatch));
    case Complete(id, now, manifest, w) => CompleteIsActions(c, v, id, now, manifest, w);
  }

  lemma CompleteIsActions(c: Config, v: State, id: nat, now: Time, manifest: Manifest, w: Weather)
    ensures CompleteCall(c, v, id, now, manifest, w) == ActAll(c, v, StepsOf(v, Complete(id, now, manifest, w)))
  {
    hide ActAll, ChunksAt, LockForComplete, CheckManifest, Relock, CompleteRemote, HeadAfterFailure, VerifyStored, Publish;
    var checked := CheckCall(v, id, now, manifest);
    var done := RemoteCall(checked, w);
    var check := [DoLockForComplete(id), DoCheckManifest(now, manifest), DoRelock];
    var remote := [DoCompleteRemote(w.completing), DoHeadAfterFailure(w.looking)];
    var verify := DoVerifyStored(w.head, ChunksAt(done, w.sizes), w.verifying);
    ActThree(c, v, DoLockForComplete(id), DoCheckManifest(now, manifest), DoRelock);
    ActTwo(c, checked, DoCompleteRemote(w.completing), DoHeadAfterFailure(w.looking));
    ActTwo(c, done, verify, DoPublish);
    assert ActAll(c, v, check) == checked && ActAll(c, checked, remote) == done && ActAll(c, done, [verify, DoPublish]) == PublishCall(c, done, w);
    hide Act, CheckCall, RemoteCall, PublishCall;
    ActJoins(c, v, check, remote);
    ActJoins(c, v, check + remote, [verify, DoPublish]);
  }

  function RunOf(actions: seq<Action>): seq<Step> { seq(|actions|, i requires 0 <= i < |actions| => By(T, actions[i])) }

  lemma {:induction false} ActionsAreRun(c: Config, s: State, actions: seq<Action>)
    ensures ActAll(c, s, actions) == Run(c, s, RunOf(actions))
    decreases |actions|
  {
    hide Act;
    if actions != [] {
      var rest := RunOf(actions[1..]);
      assert RunOf(actions) == [By(T, actions[0])] + rest;
      RunJoins(c, s, [By(T, actions[0])], rest);
      RunOne(c, s, By(T, actions[0]));
      ActionsAreRun(c, Act(c, s, T, actions[0]), actions[1..]);
    }
  }

  /** A call that runs alone is a run of the machine: what the methods above leave behind is a state that
      concurrent calls can leave behind too, and satisfies the invariant. */
  lemma CallIsRun(c: Config, v: State, call: Call, after: State, reply: Reply)
    requires Inv(c, v) && v.locals == map[] && after.locals == map[]
    requires At(after, Finished(reply)) == Handled(c, v, call)
    ensures At(after, Finished(reply)) == Run(c, v, RunOf(StepsOf(v, call)))
    ensures Inv(c, after)
  {
    hide Inv, Handled, StepsOf, ActAll, Run, RunOf, At;
    CallIsActions(c, v, call);
    ActionsAreRun(c, v, StepsOf(v, call));
    RunKeepsInv(c, v, RunOf(StepsOf(v, call)));
    ClosedKeepsInv(c, after, reply);
  }

  lemma ClosedKeepsInv(c: Config, v: State, reply: Reply)
    requires Inv(c, At(v, Finished(reply))) && v.locals == map[]
    ensures Inv(c, v)
  {
    hide RowsOk, KeysOk, QuotaOk, PublicationOk, RemotesOk, WrittenOk, ContentsOk, OutboxOk, DeletesOk;
  }

  /** A completed session answers every further complete call with its one artifact, whatever the manifest,
      the clock and the store, and nothing changes. */
  lemma CompletedIsReplayed(c: Config, v: State, id: nat, now: Time, manifest: Manifest, w: Weather)
    requires Inv(c, v) && v.locals == map[] && id < |v.uploads| && v.uploads[id].status.Completed?
    ensures HasArtifact(v, id) && CompleteCall(c, v, id, now, manifest, w) == At(v, Finished(Replayed(ArtifactOf(v, id))))
  {
    UploadSteps.CompletedHasArtifact(c, v, id);
    CheckedAlone(v, id, now, manifest);
    hide Inv, CheckCall, RemoteCall, PublishCall, HasArtifact;
    AnsweredStays(c, v, Replayed(ArtifactOf(v, id)), w);
  }
}
