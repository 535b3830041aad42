/** The upload, publish and delete protocol over the database and the object store, as a
    transition system.  Any number of request handlers and sweepers run at once; each step
    is what one of them does between two points where others may run.
  */
module UploadProtocol {
  import opened ArtifactDomain
  import opened ObjectStore
  import opened Completion

  type Txn = nat

  datatype Config = Config(maxFile: nat, maxActive: nat, maxReserved: nat, batch: nat, hash: Bytes -> Digest)

  datatype EventKind = ArtifactVerified | ArtifactQuarantined | ObjectMissing | DeletionRequested | ArtifactDeleted
  datatype Event = Event(artifact: nat, kind: EventKind)

  datatype Reply =
    | Done
    | Created(artifact: nat)
    | Replayed(artifact: nat)
    | Refused(reason: Reason)

  datatype Reason =
    | UploadTooLarge | ConcurrencyLimit | QuotaExceeded | UploadExpired | StateConflict | InvalidPartNumber | PartConflict
    | PartListMismatch | ObjectGone | StorageUnavailable | VersionMismatch | UploadNotFound | ArtifactNotFound | StaleData | Interrupted

  datatype Task = Task(id: nat, key: Key, remote: RemoteId)
  datatype Target = Target(id: nat, key: Key)

  /** Where a sweeper is with the first task of its list. */
  datatype Phase<Row> = Next | Acknowledged | Rejected | Loaded(row: Row, acknowledged: bool)

  /** A running handler or sweeper: what it holds locked and what it remembers. */
  datatype Local =
    | CreateLocked(org: nat, size: nat)
    | CreateReady(org: nat, size: nat, sha256: Digest, activeSeen: nat, reservedSeen: nat)
    | Viewed(id: nat, row: Upload)
    | CancelReady(id: nat, row: Upload, next: Upload)
    | SignLocked(id: nat, row: Upload)
    | SignStarted(id: nat, row: Upload, started: RemoteId)
    | CompleteLocked(id: nat, row: Upload)
    | Checkpointed(id: nat, manifest: Manifest)
    | Relocked(id: nat, row: Upload, manifest: Manifest)
    | RemoteFailed(id: nat, row: Upload, code: ErrorCode)
    | RemoteDone(id: nat, row: Upload)
    | ObjectVerified(id: nat, row: Upload, verification: Verification)
    | ArtifactViewed(id: nat, artifact: Artifact)
    | Selected(now: Time, rows: map<nat, Upload>)
    | Sweeping(now: Time, tasks: seq<Task>, phase: Phase<Upload>)
    | Purging(now: Time, targets: seq<Target>, purge: Phase<Artifact>)
    | Reconciling(targets: seq<Target>, purge: Phase<Artifact>)
    | OrphanListed(key: Key)
    | OrphanUnknown(key: Key)
    | OrphanCondemned(key: Key)
    | Finished(reply: Reply)

  datatype State = State(
    uploads: seq<Upload>,            // upload_sessions, in commit order
    parts: seq<map<nat, Part>>,      // upload_parts of each session
    artifacts: seq<Artifact>,
    outbox: seq<Event>,
    store: Store,
    locals: map<Txn, Local>,
    usedKeys: set<Key>,              // every key a session or an object ever had
    usedRemotes: set<RemoteId>,
    written: map<Key, Bytes>,        // every object complete_multipart ever published
    deleteCalls: set<Key>)           // every key a sweeper ever passed to delete

  const EMPTY := State([], [], [], [], Store(map[], map[]), map[], {}, {}, map[], {})

  // ----- Queries

  predicate CountsFor(u: Upload, org: nat) { u.org == org && IsActive(u.status) }

  /** `_active_quota`: the number of active sessions and the sum of their reserved bytes. */
  function ActiveCount(uploads: seq<Upload>, org: nat): nat {
    if uploads == [] then 0
    else ActiveCount(uploads[..|uploads| - 1], org) + if CountsFor(uploads[|uploads| - 1], org) then 1 else 0
  }

  function ActiveBytes(uploads: seq<Upload>, org: nat): nat {
    if uploads == [] then 0
    else ActiveBytes(uploads[..|uploads| - 1], org) + if CountsFor(uploads[|uploads| - 1], org) then uploads[|uploads| - 1].reserved else 0
  }

  predicate HasArtifact(s: State, id: nat) { exists a | 0 <= a < |s.artifacts| :: s.artifacts[a].upload == id }

  function ArtifactOf(s: State, id: nat): (a: nat)
    requires HasArtifact(s, id)
    ensures a < |s.artifacts| && s.artifacts[a].upload == id
  {
    ArtifactFrom(s.artifacts, id)
  }

  function ArtifactFrom(artifacts: seq<Artifact>, id: nat): (a: nat)
    requires exists a | 0 <= a < |artifacts| :: artifacts[a].upload == id
    ensures a < |artifacts| && artifacts[a].upload == id
  {
    if artifacts[|artifacts| - 1].upload == id then |artifacts| - 1 else ArtifactFrom(artifacts[..|artifacts| - 1], id)
  }

  const MAX_PART := 10_000

  /** The registered parts from a number on, ordered by part number. */
  function RegisteredFrom(parts: map<nat, Part>, number: nat): seq<(nat, Part)>
    decreases MAX_PART + 1 - number
  {
    if number > MAX_PART then []
    else (if number in parts then [(number, parts[number])] else []) + RegisteredFrom(parts, number + 1)
  }

  function ManifestOf(registered: seq<(nat, Part)>): Manifest {
    seq(|registered|, i requires 0 <= i < |registered| => (registered[i].0, registered[i].1.etag))
  }

  function TotalSize(registered: seq<(nat, Part)>): nat {
    if registered == [] then 0 else TotalSize(registered[..|registered| - 1]) + registered[|registered| - 1].1.size
  }

  /** The part list check of complete. */
  predicate ManifestAccepted(parts: map<nat, Part>, size: nat, manifest: Manifest) {
    var registered := RegisteredFrom(parts, 1);
    manifest == ManifestOf(registered) && TotalSize(registered) == size
  }

  // ----- Locks

  predicate LocksUpload(l: Local, id: nat) {
    (l.SignLocked? || l.SignStarted? || l.CompleteLocked? || l.Relocked? || l.RemoteFailed? || l.RemoteDone? || l.ObjectVerified?)
    && l.id == id
  }

  predicate LocksOrg(l: Local, org: nat) { (l.CreateLocked? || l.CreateReady?) && l.org == org }

  predicate UploadFree(s: State, t: Txn, id: nat) {
    forall u | u in s.locals && u != t :: !LocksUpload(s.locals[u], id)
  }

  predicate OrgFree(s: State, t: Txn, org: nat) {
    forall u | u in s.locals && u != t :: !LocksOrg(s.locals[u], org)
  }

  // ----- Building blocks of a step

  function Go(s: State, t: Txn, l: Local): State { s.(locals := s.locals[t := l]) }
  function Finish(s: State, t: Txn, reply: Reply): State { Go(s, t, Finished(reply)) }
  function Refuse(s: State, t: Txn, reason: Reason): State { Finish(s, t, Refused(reason)) }

  function SetUpload(s: State, id: nat, row: Upload): State
    requires id < |s.uploads|
  {
    s.(uploads := s.uploads[id := row])
  }

  function SetArtifact(s: State, id: nat, row: Artifact): State
    requires id < |s.artifacts|
  {
    s.(artifacts := s.artifacts[id := row])
  }

  function Emit(s: State, artifact: nat, kind: EventKind): State { s.(outbox := s.outbox + [Event(artifact, kind)]) }

  /** UPDATE ... WHERE version = remembered version, then COMMIT; it waits while another holds the row. */
  function UpdateUpload(s: State, t: Txn, id: nat, seen: Upload, next: Upload, done: Local): State {
    if id >= |s.uploads| || !UploadFree(s, t, id) then s
    else if s.uploads[id].version != seen.version then Refuse(s, t, StaleData)
    else Go(SetUpload(s, id, next), t, done)
  }

  function UpdateArtifact(s: State, t: Txn, id: nat, seen: Artifact, next: Artifact, kind: Option<EventKind>, done: Local): State {
    if id >= |s.artifacts| then s
    else if s.artifacts[id].version != seen.version then Refuse(s, t, StaleData)
    else
      var s1 := Go(SetArtifact(s, id, next), t, done);
      if kind.Some? then Emit(s1, id, kind.value) else s1
  }

  // ----- create_upload_session

  function LockForCreate(c: Config, s: State, t: Txn, org: nat, size: nat): State {
    if t in s.locals then s
    else if size > c.maxFile then Refuse(s, t, UploadTooLarge)
    else if !OrgFree(s, t, org) then s
    else Go(s, t, CreateLocked(org, size))
  }

  function ReadQuota(c: Config, s: State, t: Txn, sha256: Digest): State {
    if t !in s.locals || !s.locals[t].CreateLocked? then s
    else
      var org, size := s.locals[t].org, s.locals[t].size;
      var active, reserved := ActiveCount(s.uploads, org), ActiveBytes(s.uploads, org);
      if active >= c.maxActive then Refuse(s, t, ConcurrencyLimit)
      else if reserved + size > c.maxReserved then Refuse(s, t, QuotaExceeded)
      else Go(s, t, CreateReady(org, size, sha256, active, reserved))
  }

  /** The random key is one that neither a session nor an object ever had. */
  function InsertUpload(s: State, t: Txn, key: Key, expiresAt: Time): State {
    if t !in s.locals || !s.locals[t].CreateReady? || key in s.usedKeys then s
    else
      var l := s.locals[t];
      Finish(s.(uploads := s.uploads + [NewUpload(l.org, key, l.size, l.sha256, expiresAt)],
                parts := s.parts + [map[]],
                usedKeys := s.usedKeys + {key}), t, Done)
  }

  // ----- Handlers that read without a lock: get, register, cancel

  function ReadUpload(s: State, t: Txn, id: nat): State {
    if t in s.locals || id >= |s.uploads| then s else Go(s, t, Viewed(id, s.uploads[id]))
  }

  function ExpireViewed(s: State, t: Txn, now: Time): State {
    if t !in s.locals || !s.locals[t].Viewed? then s
    else
      var l := s.locals[t];
      if IsPastDue(l.row, now) then UpdateUpload(s, t, l.id, l.row, ExpiredRow(l.row), Finished(Done)) else Finish(s, t, Done)
  }

  function RegisterPart(s: State, t: Txn, now: Time, number: nat, part: Part): State {
    if t !in s.locals || !s.locals[t].Viewed? then s
    else
      var l := s.locals[t];
      if number < 1 || number > MAX_PART then Refuse(s, t, InvalidPartNumber)
      else if IsPastDue(l.row, now) then UpdateUpload(s, t, l.id, l.row, ExpiredRow(l.row), Finished(Refused(UploadExpired)))
      else if !l.row.status.Uploading? then Refuse(s, t, StateConflict)
      else if l.id >= |s.parts| then s
      else if number in s.parts[l.id] then
        if s.parts[l.id][number] != part then Refuse(s, t, PartConflict) else Finish(s, t, Done)
      else
        var registered: map<nat, Part> := s.parts[l.id][number := part];
        Finish(s.(parts := s.parts[l.id := registered]), t, Done)
  }

  /** cancel, up to and including the abort call. */
  function AbortRemote(s: State, t: Txn, now: Time, fault: Fault): State {
    if t !in s.locals || !s.locals[t].Viewed? then s
    else
      var l := s.locals[t];
      if IsPastDue(l.row, now) then Go(s, t, CancelReady(l.id, l.row, ExpiredRow(l.row)))
      else if !IsCancellable(l.row.status) then Refuse(s, t, StateConflict)
      else
        var next := if l.row.status.Aborted? then l.row else AbortedRow(l.row);
        if l.row.remote.None? then Go(s, t, CancelReady(l.id, l.row, next))
        else
          var (store, outcome) := AbortMultipart(s.store, l.row.key, l.row.remote.value, fault);
          if outcome.Some? then Refuse(s.(store := store), t, StorageUnavailable)
          else Go(s.(store := store), t, CancelReady(l.id, l.row, next))
  }

  /** An unchanged row is not flushed, so its version is not checked. */
  function CommitCancel(s: State, t: Txn): State {
    if t !in s.locals || !s.locals[t].CancelReady? then s
    else
      var l := s.locals[t];
      if l.next == l.row then Finish(s, t, Done) else UpdateUpload(s, t, l.id, l.row, l.next, Finished(Done))
  }

  // ----- sign_upload_parts

  function LockForSign(s: State, t: Txn, id: nat): State {
    if t in s.locals || id >= |s.uploads| || !UploadFree(s, t, id) then s else Go(s, t, SignLocked(id, s.uploads[id]))
  }

  /** Signing the URLs of the parts comes last and changes nothing; signs tells whether it succeeds. */
  function SigningAnswer(signs: bool): Reply { if signs then Done else Refused(StorageUnavailable) }

  function StartRemote(s: State, t: Txn, now: Time, remote: RemoteId, fault: Fault, signs: bool): State {
    if t !in s.locals || !s.locals[t].SignLocked? then s
    else
      var l := s.locals[t];
      if IsPastDue(l.row, now) then UpdateUpload(s, t, l.id, l.row, ExpiredRow(l.row), Finished(Refused(UploadExpired)))
      else if l.row.status.PendingUpload? then
        if fault.FailsBefore? then Refuse(s, t, StorageUnavailable)
        else if remote in s.usedRemotes then s
        else
          var s1 := s.(store := StartMultipart(s.store, l.row.key, remote), usedRemotes := s.usedRemotes + {remote});
          if fault.FailsAfter? then Refuse(s1, t, StorageUnavailable) else Go(s1, t, SignStarted(l.id, l.row, remote))
      else if !l.row.status.Uploading? || l.row.remote.None? then Refuse(s, t, StateConflict)
      else Finish(s, t, SigningAnswer(signs))
  }

  function CommitStarted(s: State, t: Txn, signs: bool): State {
    if t !in s.locals || !s.locals[t].SignStarted? then s
    else
      var l := s.locals[t];
      UpdateUpload(s, t, l.id, l.row, StartedRow(l.row, l.started), Finished(SigningAnswer(signs)))
  }

  // ----- complete_upload_session

  function LockForComplete(s: State, t: Txn, id: nat): State {
    if t in s.locals || id >= |s.uploads| || !UploadFree(s, t, id) then s else Go(s, t, CompleteLocked(id, s.uploads[id]))
  }

  /** The checks under the first lock, then the durable COMPLETING checkpoint. */
  function CheckManifest(s: State, t: Txn, now: Time, manifest: Manifest): State {
    if t !in s.locals || !s.locals[t].CompleteLocked? || s.locals[t].id >= |s.parts| then s
    else
      var l := s.locals[t];
      if l.row.status.Completed? && HasArtifact(s, l.id) then Finish(s, t, Replayed(ArtifactOf(s, l.id)))
      else if IsPastDue(l.row, now) then UpdateUpload(s, t, l.id, l.row, ExpiredRow(l.row), Finished(Refused(UploadExpired)))
      else if !l.row.status.Uploading? && !l.row.status.Completing? then Refuse(s, t, StateConflict)
      else if l.row.remote.None? then Refuse(s, t, StateConflict)
      else if !ManifestAccepted(s.parts[l.id], l.row.size, manifest) then Refuse(s, t, PartListMismatch)
      else if l.row.status.Uploading? then UpdateUpload(s, t, l.id, l.row, CheckpointRow(l.row), Checkpointed(l.id, manifest))
      else Go(s, t, Relocked(l.id, l.row, manifest))
  }

  function Relock(s: State, t: Txn): State {
    if t !in s.locals || !s.locals[t].Checkpointed? then s
    else
      var l := s.locals[t];
      if l.id >= |s.uploads| || !UploadFree(s, t, l.id) then s
      else if s.uploads[l.id].status.Completed? && HasArtifact(s, l.id) then Finish(s, t, Replayed(ArtifactOf(s, l.id)))
      else Go(s, t, Relocked(l.id, s.uploads[l.id], l.manifest))
  }

  function CompleteRemote(s: State, t: Txn, fault: Fault): State {
    if t !in s.locals || !s.locals[t].Relocked? then s
    else
      var l := s.locals[t];
      var (store, outcome) := CompleteMultipart(s.store, l.row.key, l.row.remote, l.manifest, fault);
      var data := if fault.FailsBefore? then None else Assembled(s.store, l.row.key, l.row.remote, l.manifest);
      var s1 := s.(store := store, written := if data.Some? then s.written[l.row.key := data.value] else s.written);
      if outcome.Some? then Go(s1, t, RemoteFailed(l.id, l.row, outcome.value)) else Go(s1, t, RemoteDone(l.id, l.row))
  }

  /** HEAD after a failed completion: an object that is there lets the handler go on. */
  function HeadAfterFailure(s: State, t: Txn, fault: Fault): State {
    if t !in s.locals || !s.locals[t].RemoteFailed? then s
    else
      var l := s.locals[t];
      if Head(s.store, l.row.key, fault).None? then Go(s, t, RemoteDone(l.id, l.row))
      else Refuse(s, t, if l.code.NotFound? then ObjectGone else StorageUnavailable)
  }

  function VerifyStored(c: Config, s: State, t: Txn, head: Metadata, chunks: seq<Bytes>, fault: Fault): State {
    if t !in s.locals || !s.locals[t].RemoteDone? then s
    else
      var l := s.locals[t];
      var outcome := Head(s.store, l.row.key, fault);
      if outcome.Some? then Refuse(s, t, if outcome.value.NotFound? then ObjectGone else StorageUnavailable)
      else if Flatten(chunks) != s.store.objects[l.row.key] then s
      else Go(s, t, ObjectVerified(l.id, l.row, Verified(c.hash, head, Flatten(chunks))))
  }

  function NewArtifact(id: nat, row: Upload, v: Verification): Artifact {
    var size := if v.metadata.size < 0 then 0 else v.metadata.size;
    var verified := v.metadata.size == row.size && v.sha256 == row.sha256;
    Artifact(id, row.key, size, v.sha256, verified, if verified then Available else Quarantined, 1, NO_CLEANUP)
  }

  /** Inserts the artifact (unique per session and per key), completes the session and emits the event. */
  function Publish(s: State, t: Txn): State {
    if t !in s.locals || !s.locals[t].ObjectVerified? then s
    else
      var l := s.locals[t];
      var a := NewArtifact(l.id, l.row, l.verification);
      if exists i | 0 <= i < |s.artifacts| :: s.artifacts[i].upload == l.id || s.artifacts[i].key == a.key then Refuse(s, t, StaleData)
      else if l.id >= |s.uploads| || s.uploads[l.id].version != l.row.version then Refuse(s, t, StaleData)
      else
        var s1 := SetUpload(s, l.id, CompletedRow(l.row)).(artifacts := s.artifacts + [a]);
        Finish(Emit(s1, |s.artifacts|, if a.verified then ArtifactVerified else ArtifactQuarantined), t, Created(|s.artifacts|))
  }

  // ----- delete_artifact

  function ReadArtifact(s: State, t: Txn, id: nat): State {
    if t in s.locals || id >= |s.artifacts| then s else Go(s, t, ArtifactViewed(id, s.artifacts[id]))
  }

  /** A row already DELETING is not flushed, so its version is not checked again. */
  function RequestDeletion(s: State, t: Txn, ifMatch: int): State {
    if t !in s.locals || !s.locals[t].ArtifactViewed? then s
    else
      var l := s.locals[t];
      if l.artifact.version != ifMatch then Refuse(s, t, VersionMismatch)
      else if l.artifact.status.Deleted? then Refuse(s, t, ArtifactNotFound)
      else if l.artifact.status.Deleting? then Emit(Finish(s, t, Done), l.id, DeletionRequested)
      else UpdateArtifact(s, t, l.id, l.artifact, ArtifactRow(l.artifact, Deleting), Some(DeletionRequested), Finished(Done))
  }

  // ----- _expire_sessions

  predicate NeedsSweep(u: Upload, now: Time) {
    (IsPastDue(u, now) || ((u.status.Expired? || u.status.Aborted? || u.status.UploadFailed?) && u.remote.Some?))
    && RetryDue(u.cleanup, now)
  }

  /** The batch query: some of the rows that match, at most the batch size. */
  function SelectUploads(c: Config, s: State, t: Txn, now: Time, picked: set<nat>): State {
    if t in s.locals || |picked| > c.batch || (exists id | id in picked :: id >= |s.uploads| || !NeedsSweep(s.uploads[id], now)) then s
    else Go(s, t, Selected(now, map id | id in picked :: s.uploads[id]))
  }

  predicate ExpiresIn(rows: map<nat, Upload>, id: nat) { id in rows && IsActive(rows[id].status) }

  function ExpireBatch(uploads: seq<Upload>, rows: map<nat, Upload>): (after: seq<Upload>)
    ensures |after| == |uploads|
  {
    seq(|uploads|, i requires 0 <= i < |uploads| => if ExpiresIn(rows, i) then ExpiredRow(rows[i]) else uploads[i])
  }

  predicate TasksOf(rows: map<nat, Upload>, tasks: seq<Task>) {
    && (forall i | 0 <= i < |tasks| :: tasks[i].id in rows && rows[tasks[i].id].key == tasks[i].key && rows[tasks[i].id].remote == Some(tasks[i].remote))
    && (forall id | id in rows && rows[id].remote.Some? :: Task(id, rows[id].key, rows[id].remote.value) in tasks)
  }

  /** One transaction expires every active row of the batch, or none if any of them is stale. */
  function CommitExpired(s: State, t: Txn, tasks: seq<Task>): State {
    if t !in s.locals || !s.locals[t].Selected? || !TasksOf(s.locals[t].rows, tasks) then s
    else
      var rows := s.locals[t].rows;
      if exists id | id in rows :: id >= |s.uploads| || (ExpiresIn(rows, id) && !UploadFree(s, t, id)) then s
      else if exists id | id in rows :: ExpiresIn(rows, id) && s.uploads[id].version != rows[id].version then Refuse(s, t, StaleData)
      else
        Go(s.(uploads := ExpireBatch(s.uploads, rows)), t, Sweeping(s.locals[t].now, tasks, Next))
  }

  function AbortSelected(s: State, t: Txn, fault: Fault): State {
    if t !in s.locals || !s.locals[t].Sweeping? || !s.locals[t].phase.Next? then s
    else
      var l := s.locals[t];
      if l.tasks == [] then Finish(s, t, Done)
      else
        var (store, outcome) := AbortMultipart(s.store, l.tasks[0].key, l.tasks[0].remote, fault);
        Go(s.(store := store), t, Sweeping(l.now, l.tasks, if outcome.None? || outcome.value.NotFound? then Acknowledged else Rejected))
  }

  function ReadSelected(s: State, t: Txn): State {
    if t !in s.locals || !s.locals[t].Sweeping? then s
    else
      var l := s.locals[t];
      if !(l.phase.Acknowledged? || l.phase.Rejected?) || l.tasks == [] || l.tasks[0].id >= |s.uploads| then s
      else Go(s, t, Sweeping(l.now, l.tasks, Loaded(s.uploads[l.tasks[0].id], l.phase.Acknowledged?)))
  }

  function FinishSelected(s: State, t: Txn): State {
    if t !in s.locals || !s.locals[t].Sweeping? || !s.locals[t].phase.Loaded? || s.locals[t].tasks == [] then s
    else
      var l := s.locals[t];
      var row, rest := l.phase.row, Sweeping(l.now, l.tasks[1..], Next);
      if !l.phase.acknowledged then UpdateUpload(s, t, l.tasks[0].id, row, RetryUploadRow(row, l.now), rest)
      else if row.remote == Some(l.tasks[0].remote) then UpdateUpload(s, t, l.tasks[0].id, row, ClearedRow(row), rest)
      else Go(s, t, rest)
  }

  // ----- _delete_artifacts

  predicate Picks(c: Config, s: State, targets: seq<Target>) {
    |targets| <= c.batch && forall i | 0 <= i < |targets| :: targets[i].id < |s.artifacts| && s.artifacts[targets[i].id].key == targets[i].key
  }

  function SelectDeleting(c: Config, s: State, t: Txn, now: Time, targets: seq<Target>): State {
    if t in s.locals || !Picks(c, s, targets)
       || (exists i | 0 <= i < |targets| :: !s.artifacts[targets[i].id].status.Deleting? || !RetryDue(s.artifacts[targets[i].id].cleanup, now)) then s
    else Go(s, t, Purging(now, targets, Next))
  }

  function DeleteTarget(s: State, t: Txn, fault: Fault): State {
    if t !in s.locals || !s.locals[t].Purging? || !s.locals[t].purge.Next? then s
    else
      var l := s.locals[t];
      if l.targets == [] then Finish(s, t, Done)
      else
        var (store, outcome) := DeleteObject(s.store, l.targets[0].key, fault);
        Go(s.(store := store, deleteCalls := s.deleteCalls + {l.targets[0].key}), t,
           Purging(l.now, l.targets, if outcome.None? || outcome.value.NotFound? then Acknowledged else Rejected))
  }

  /** The row is read again after the store answered, by the deleting and the reconciling sweeper. */
  function ReadTarget(s: State, t: Txn): State {
    if t !in s.locals || !(s.locals[t].Purging? || s.locals[t].Reconciling?) then s
    else
      var l := s.locals[t];
      if !(l.purge.Acknowledged? || l.purge.Rejected?) || l.targets == [] || l.targets[0].id >= |s.artifacts| then s
      else
        var loaded := Loaded(s.artifacts[l.targets[0].id], l.purge.Acknowledged?);
        Go(s, t, if l.Purging? then Purging(l.now, l.targets, loaded) else Reconciling(l.targets, loaded))
  }

  function FinishDeleted(s: State, t: Txn): State {
    if t !in s.locals || !s.locals[t].Purging? || !s.locals[t].purge.Loaded? || s.locals[t].targets == [] then s
    else
      var l := s.locals[t];
      var row, rest := l.purge.row, Purging(l.now, l.targets[1..], Next);
      if !l.purge.acknowledged then UpdateArtifact(s, t, l.targets[0].id, row, RetryArtifactRow(row, l.now), None, rest)
      else if row.status.Deleting? then UpdateArtifact(s, t, l.targets[0].id, row, DeletedRow(row), Some(ArtifactDeleted), rest)
      else Go(s, t, rest)
  }

  // ----- _reconcile_missing

  function SelectAvailable(c: Config, s: State, t: Txn, targets: seq<Target>): State {
    if t in s.locals || !Picks(c, s, targets) || (exists i | 0 <= i < |targets| :: !s.artifacts[targets[i].id].status.Available?) then s
    else Go(s, t, Reconciling(targets, Next))
  }

  function HeadTarget(s: State, t: Txn, fault: Fault): State {
    if t !in s.locals || !s.locals[t].Reconciling? || !s.locals[t].purge.Next? then s
    else
      var l := s.locals[t];
      if l.targets == [] then Finish(s, t, Done)
      else
        var outcome := Head(s.store, l.targets[0].key, fault);
        if outcome.Some? && outcome.value.NotFound? then Go(s, t, Reconciling(l.targets, Acknowledged))
        else Go(s, t, Reconciling(l.targets[1..], Next))
  }

  function FinishMissing(s: State, t: Txn): State {
    if t !in s.locals || !s.locals[t].Reconciling? || !s.locals[t].purge.Loaded? || s.locals[t].targets == [] then s
    else
      var l := s.locals[t];
      var row, rest := l.purge.row, Reconciling(l.targets[1..], Next);
      if row.status.Available? then UpdateArtifact(s, t, l.targets[0].id, row, ArtifactRow(row, Failed), Some(ObjectMissing), rest)
      else Go(s, t, rest)
  }

  // ----- _delete_orphans: two queries, then the delete call

  function ListOrphan(s: State, t: Txn, key: Key): State {
    if t in s.locals || key !in s.store.objects then s else Go(s, t, OrphanListed(key))
  }

  function CheckOrphanUpload(s: State, t: Txn): State {
    if t !in s.locals || !s.locals[t].OrphanListed? then s
    else
      var key := s.locals[t].key;
      if exists i | 0 <= i < |s.uploads| :: s.uploads[i].key == key then Finish(s, t, Done) else Go(s, t, OrphanUnknown(key))
  }

  function CheckOrphanArtifact(s: State, t: Txn): State {
    if t !in s.locals || !s.locals[t].OrphanUnknown? then s
    else
      var key := s.locals[t].key;
      if exists i | 0 <= i < |s.artifacts| :: s.artifacts[i].key == key && !s.artifacts[i].status.Deleted? then Finish(s, t, Done)
      else Go(s, t, OrphanCondemned(key))
  }

  function DeleteOrphan(s: State, t: Txn, fault: Fault): State {
    if t !in s.locals || !s.locals[t].OrphanCondemned? then s
    else
      var (store, outcome) := DeleteObject(s.store, s.locals[t].key, fault);
      Finish(s.(store := store, deleteCalls := s.deleteCalls + {s.locals[t].key}), t, Done)
  }

  // ----- Interruption and the outside world

  /** A crash, a lost connection or a failed commit: uncommitted work and locks are gone. */
  function Interrupt(s: State, t: Txn): State {
    if t in s.locals then Refuse(s, t, Interrupted) else s
  }

  /** A client uploads a part through a presigned URL. */
  function PutPart(s: State, remote: RemoteId, number: nat, part: StoredPart): State {
    if remote !in s.store.multiparts then s
    else
      var m := s.store.multiparts[remote];
      s.(store := s.store.(multiparts := s.store.multiparts[remote := m.(parts := m.parts[number := part])]))
  }

  /** Somebody else puts an object under a key that no session has. */
  function PutForeign(s: State, key: Key, data: Bytes): State {
    if exists i | 0 <= i < |s.uploads| :: s.uploads[i].key == key then s
    else s.(store := s.store.(objects := s.store.objects[key := data]), usedKeys := s.usedKeys + {key})
  }

  function LoseObject(s: State, key: Key): State { s.(store := s.store.(objects := s.store.objects - {key})) }

  // ----- Steps and runs

  datatype Action =
    | DoLockForCreate(org: nat, size: nat) | DoReadQuota(sha256: Digest) | DoInsertUpload(key: Key, expiresAt: Time)
    | DoReadUpload(id: nat) | DoExpireViewed(now: Time) | DoRegisterPart(now: Time, number: nat, part: Part)
    | DoAbortRemote(now: Time, fault: Fault) | DoCommitCancel
    | DoLockForSign(id: nat) | DoStartRemote(now: Time, remote: RemoteId, fault: Fault, signs: bool) | DoCommitStarted(signs: bool)
    | DoLockForComplete(id: nat) | DoCheckManifest(now: Time, manifest: Manifest) | DoRelock
    | DoCompleteRemote(fault: Fault) | DoHeadAfterFailure(fault: Fault)
    | DoVerifyStored(head: Metadata, chunks: seq<Bytes>, fault: Fault) | DoPublish
    | DoReadArtifact(id: nat) | DoRequestDeletion(ifMatch: int) | DoInterrupt

  datatype Chore =
    | DoSelectUploads(now: Time, picked: set<nat>) | DoCommitExpired(tasks: seq<Task>)
    | DoAbortSelected(fault: Fault) | DoReadSelected | DoFinishSelected
    | DoSelectDeleting(now: Time, targets: seq<Target>) | DoDeleteTarget(fault: Fault) | DoReadTarget | DoFinishDeleted
    | DoSelectAvailable(targets: seq<Target>) | DoHeadTarget(fault: Fault) | DoFinishMissing
    | DoListOrphan(key: Key) | DoCheckOrphanUpload | DoCheckOrphanArtifact | DoDeleteOrphan(fault: Fault)

  datatype Step =
    | By(t: Txn, action: Action)
    | Sweeper(t: Txn, chore: Chore)
    | PartArrives(remote: RemoteId, number: nat, part: StoredPart)
    | ForeignObject(key: Key, data: Bytes)
    | ObjectLost(key: Key)

  function Act(c: Config, s: State, t: Txn, a: Action): State {
    match a
    case DoLockForCreate(org, size) => LockForCreate(c, s, t, org, size)
    case DoReadQuota(sha256) => ReadQuota(c, s, t, sha256)
    case DoInsertUpload(key, expiresAt) => InsertUpload(s, t, key, expiresAt)
    case DoReadUpload(id) => ReadUpload(s, t, id)
    case DoExpireViewed(now) => ExpireViewed(s, t, now)
    case DoRegisterPart(now, number, part) => RegisterPart(s, t, now, number, part)
    case DoAbortRemote(now, fault) => AbortRemote(s, t, now, fault)
    case DoCommitCancel => CommitCancel(s, t)
    case DoLockForSign(id) => LockForSign(s, t, id)
    case DoStartRemote(now, remote, fault, signs) => StartRemote(s, t, now, remote, fault, signs)
    case DoCommitStarted(signs) => CommitStarted(s, t, signs)
    case DoLockForComplete(id) => LockForComplete(s, t, id)
    case DoCheckManifest(now, manifest) => CheckManifest(s, t, now, manifest)
    case DoRelock => Relock(s, t)
    case DoCompleteRemote(fault) => CompleteRemote(s, t, fault)
    case DoHeadAfterFailure(fault) => HeadAfterFailure(s, t, fault)
    case DoVerifyStored(head, chunks, fault) => VerifyStored(c, s, t, head, chunks, fault)
    case DoPublish => Publish(s, t)
    case DoReadArtifact(id) => ReadArtifact(s, t, id)
    case DoRequestDeletion(ifMatch) => RequestDeletion(s, t, ifMatch)
    case DoInterrupt => Interrupt(s, t)
  }

  function Sweep(c: Config, s: State, t: Txn, chore: Chore): State {
    match chore
    case DoSelectUploads(now, picked) => SelectUploads(c, s, t, now, picked)
    case DoCommitExpired(tasks) => CommitExpired(s, t, tasks)
    case DoAbortSelected(fault) => AbortSelected(s, t, fault)
    case DoReadSelected => ReadSelected(s, t)
    case DoFinishSelected => FinishSelected(s, t)
    case DoSelectDeleting(now, targets) => SelectDeleting(c, s, t, now, targets)
    case DoDeleteTarget(fault) => DeleteTarget(s, t, fault)
    case DoReadTarget => ReadTarget(s, t)
    case DoFinishDeleted => FinishDeleted(s, t)
    case DoSelectAvailable(targets) => SelectAvailable(c, s, t, targets)
    case DoHeadTarget(fault) => HeadTarget(s, t, fault)
    case DoFinishMissing => FinishMissing(s, t)
    case DoListOrphan(key) => ListOrphan(s, t, key)
    case DoCheckOrphanUpload => CheckOrphanUpload(s, t)
    case DoCheckOrphanArtifact => CheckOrphanArtifact(s, t)
    case DoDeleteOrphan(fault) => DeleteOrphan(s, t, fault)
  }

  function Apply(c: Config, s: State, step: Step): State {
    match step
    case By(t, action) => Act(c, s, t, action)
    case Sweeper(t, chore) => Sweep(c, s, t, chore)
    case PartArrives(remote, number, part) => PutPart(s, remote, number, part)
    case ForeignObject(key, data) => PutForeign(s, key, data)
    case ObjectLost(key) => LoseObject(s, key)
  }

  function Run(c: Config, s: State, steps: seq<Step>): State {
    if steps == [] then s else Apply(c, Run(c, s, steps[..|steps| - 1]), steps[|steps| - 1])
  }
}
