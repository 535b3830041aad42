/** Every step keeps the invariant: first the building blocks, then the steps themselves. */
module UploadSteps {
  import opened ArtifactDomain
  import opened ObjectStore
  import opened Completion
  import opened UploadProtocol
  import opened UploadInvariant

  /** A step of t that keeps the tables in order, respects the others and leaves t well placed. */
  ghost predicate Good(c: Config, s: State, s': State, t: Txn) {
    && TablesOk(c, s') && Moves(s, s', Some(t))
    && t in s'.locals && LocalOk(c, s', s'.locals[t]) && TakesFreeLocks(s, t, s'.locals[t])
    && ObjectsKept(s, s')
  }

  /** Objects leave the store only by a recorded delete call; what is newly written is there. */
  predicate ObjectsKept(s: State, s': State) {
    && (forall k | k in s.store.objects :: k in s'.store.objects || k in s'.deleteCalls)
    && (forall k | k in s'.written :: k in s.written || k in s'.store.objects)
  }

  ghost predicate TakesFreeLocks(s: State, t: Txn, l: Local) {
    && (forall id: nat | LocksUpload(l, id) :: UploadFree(s, t, id))
    && (forall org: nat | LocksOrg(l, org) :: OrgFree(s, t, org))
  }

  lemma GoodKeepsInv(c: Config, s: State, s': State, t: Txn)
    requires Inv(c, s) && Good(c, s, s', t)
    ensures Inv(c, s')
  {
    assert LocalsOk(c, s') by {
      hide UploadsMove, ArtifactsMove, LocksRespected, FreshOnly, LocalOk;
      forall u | u in s'.locals ensures LocalOk(c, s', s'.locals[u]) {
        if u != t {
          LocalStable(c, s, s', Some(t), u);
        }
      }
    }
    assert Exclusive(s') by {
      hide TablesOk, LocalOk, LocalsOk, UploadsMove, ArtifactsMove, LocksRespected, FreshOnly;
      ExclusiveKept(s, s', t);
    }
  }

  lemma ExclusiveKept(s: State, s': State, t: Txn)
    requires Exclusive(s) && OthersKept(s, s', Some(t)) && t in s'.locals && TakesFreeLocks(s, t, s'.locals[t])
    ensures Exclusive(s')
  {
    hide LocksUpload, LocksOrg;
  }

  lemma HolderIsFree(s: State, t: Txn)
    requires Exclusive(s) && t in s.locals
    ensures TakesFreeLocks(s, t, s.locals[t])
  {
    hide LocksUpload, LocksOrg;
  }

  // ----- Blocks

  predicate LocksNothing(l: Local) {
    !(l.SignLocked? || l.SignStarted? || l.CompleteLocked? || l.Relocked? || l.RemoteFailed? || l.RemoteDone? || l.ObjectVerified?
      || l.CreateLocked? || l.CreateReady?)
  }

  lemma GoGood(c: Config, s: State, t: Txn, l: Local)
    requires Inv(c, s) && LocalOk(c, s, l) && TakesFreeLocks(s, t, l)
    ensures Good(c, s, Go(s, t, l), t)
  {
    var s' := Go(s, t, l);
    assert TablesOk(c, s') by {
      hide RowsOk, KeysOk, QuotaOk, PublicationOk, RemotesOk, WrittenOk, ContentsOk, OutboxOk, DeletesOk;
    }
    assert LocalOk(c, s', l) by {
      assert s'.uploads == s.uploads;
      SameTablesSameLocal(c, s, s', l);
    }
  }

  /** What a transaction assumes does not depend on where the others are. */
  lemma SameTablesSameLocal(c: Config, s: State, s': State, l: Local)
    requires s' == s.(locals := s'.locals) && LocalOk(c, s, l)
    ensures LocalOk(c, s', l)
  {
  }

  // ----- Replacing rows of the upload table

  /** next may replace the current row of a session that stays published or unpublished. */
  predicate Writable(s: State, row: Upload, next: Upload) {
    && row.version < next.version && SameUpload(row, next) && StatusReaches(row.status, next.status) && RemoteReaches(row, next)
    && RowOk(next) && (next.status.Completed? <==> row.status.Completed?)
    && RemoteOk(next, s.store.multiparts, s.usedRemotes, s.written)
  }

  ghost predicate Replaces(s: State, uploads: seq<Upload>) {
    |uploads| == |s.uploads| && forall i | 0 <= i < |uploads| :: uploads[i] == s.uploads[i] || Writable(s, s.uploads[i], uploads[i])
  }

  lemma ReplacedMove(s: State, uploads: seq<Upload>)
    requires Replaces(s, uploads)
    ensures |uploads| == |s.uploads|
    ensures forall i | 0 <= i < |uploads| :: Evolves(s.uploads[i], uploads[i]) && SameUpload(s.uploads[i], uploads[i])
    ensures forall i | 0 <= i < |uploads| :: uploads[i].status.Completed? <==> s.uploads[i].status.Completed?
  {
    hide RowOk, RemoteOk;
  }

  lemma ReplacedQuota(c: Config, s: State, uploads: seq<Upload>)
    requires Replaces(s, uploads) && RowsOk(s.uploads) && RowsOk(uploads) && QuotaOk(c, s.uploads)
    ensures QuotaOk(c, uploads)
  {
    hide Replaces, RowsOk;
    ReplacedMove(s, uploads);
    forall org: nat ensures ActiveCount(uploads, org) <= c.maxActive && ActiveBytes(uploads, org) <= c.maxReserved {
      QuotaShrinks(s.uploads, uploads, org);
    }
  }

  lemma ReplacedTables(c: Config, s: State, uploads: seq<Upload>)
    requires TablesOk(c, s) && Replaces(s, uploads)
    ensures TablesOk(c, s.(uploads := uploads))
  {
    assert RowsOk(uploads) by { hide *; ReplacedRows(s, uploads); }
    hide RowOk, RemoteOk, ContentOk, StatusReaches, OutboxOk, Evolves;
    ReplacedMove(s, uploads);
    hide Replaces;
    ReplacedQuota(c, s, uploads);
    hide QuotaOk;
    assert KeysOk(uploads, s.usedKeys);
    assert PublicationOk(uploads, s.artifacts);
    assert RemotesOk(uploads, s.store.multiparts, s.usedRemotes, s.written) by { ReplacedRows(s, uploads); }
    assert WrittenOk(uploads, s.store.objects, s.written, s.usedKeys);
    assert ContentsOk(c, uploads, s.artifacts, s.written) by { ReplacedContents(c, s, uploads); }
    assert DeletesOk(uploads, s.artifacts, s.deleteCalls, s.usedKeys);
  }

  lemma ReplacedRows(s: State, uploads: seq<Upload>)
    requires RowsOk(s.uploads) && Replaces(s, uploads)
    requires RemotesOk(s.uploads, s.store.multiparts, s.usedRemotes, s.written)
    ensures RowsOk(uploads) && RemotesOk(uploads, s.store.multiparts, s.usedRemotes, s.written)
  {
    hide RowOk, RemoteOk, StatusReaches;
  }

  lemma ReplacedContents(c: Config, s: State, uploads: seq<Upload>)
    requires ContentsOk(c, s.uploads, s.artifacts, s.written)
    requires |uploads| == |s.uploads| && forall i | 0 <= i < |uploads| :: SameUpload(s.uploads[i], uploads[i])
    ensures ContentsOk(c, uploads, s.artifacts, s.written)
  {
    forall a | 0 <= a < |s.artifacts|
      ensures s.artifacts[a].upload < |uploads| && ContentOk(c, s.artifacts[a], uploads[s.artifacts[a].upload], s.written)
    {
      assert ContentOk(c, s.artifacts[a], s.uploads[s.artifacts[a].upload], s.written);
    }
  }

  /** A transaction may replace rows that no other one holds. */
  lemma ReplaceGood(c: Config, s: State, t: Txn, uploads: seq<Upload>, l: Local)
    requires Inv(c, s) && Replaces(s, uploads)
    requires forall i | 0 <= i < |uploads| && uploads[i] != s.uploads[i] :: UploadFree(s, t, i)
    requires LocalOk(c, s.(uploads := uploads), l) && LocksNothing(l)
    ensures Good(c, s, Go(s.(uploads := uploads), t, l), t)
  {
    var s1 := s.(uploads := uploads);
    var s' := Go(s1, t, l);
    ReplacedTables(c, s, uploads);
    assert TablesOk(c, s') by {
      hide RowsOk, KeysOk, QuotaOk, PublicationOk, RemotesOk, WrittenOk, ContentsOk, OutboxOk, DeletesOk, Replaces;
    }
    assert Moves(s, s', Some(t)) by {
      hide TablesOk, LocalsOk, LocalOk, Exclusive, Evolves, Writable;
      ReplacedMove(s, uploads);
    }
    assert ObjectsKept(s, s');
    hide *;
    SameTablesSameLocal(c, s1, s', l);
    NothingLocked(s, t, l);
    GoodFrom(c, s, s', t);
  }

  lemma NothingLocked(s: State, t: Txn, l: Local)
    requires LocksNothing(l)
    ensures TakesFreeLocks(s, t, l)
  {
  }

  lemma GoodFrom(c: Config, s: State, s': State, t: Txn)
    requires TablesOk(c, s') && Moves(s, s', Some(t))
    requires t in s'.locals && LocalOk(c, s', s'.locals[t]) && TakesFreeLocks(s, t, s'.locals[t])
    requires ObjectsKept(s, s')
    ensures Good(c, s, s', t)
  {
    hide TablesOk, Moves, LocalOk, TakesFreeLocks, ObjectsKept;
  }

  lemma RefuseGood(c: Config, s: State, t: Txn, reply: Reply)
    requires Inv(c, s)
    ensures Good(c, s, Finish(s, t, reply), t)
  {
    hide Inv, Good;
    GoGood(c, s, t, Finished(reply));
  }

  lemma UpdateUploadGood(c: Config, s: State, t: Txn, id: nat, seen: Upload, next: Upload, done: Local)
    requires Inv(c, s) && Remembers(s, id, seen) && LocksNothing(done)
    requires s.uploads[id] == seen ==> Writable(s, seen, next) && LocalOk(c, SetUpload(s, id, next), done)
    ensures var s' := UpdateUpload(s, t, id, seen, next, done); s' == s || Good(c, s, s', t)
  {
    hide Inv, Good, Writable, LocalOk, LocksNothing;
    if UploadFree(s, t, id) {
      if s.uploads[id].version != seen.version {
        RefuseGood(c, s, t, Refused(StaleData));
      } else {
        assert s.uploads[id] == seen;
        ReplaceGood(c, s, t, s.uploads[id := next], done);
      }
    }
  }

  lemma CurrentRow(c: Config, s: State, id: nat)
    requires Inv(c, s) && id < |s.uploads|
    ensures RowOk(s.uploads[id]) && RemoteOk(s.uploads[id], s.store.multiparts, s.usedRemotes, s.written)
  {
    hide LocalsOk, Exclusive, KeysOk, QuotaOk, PublicationOk, WrittenOk, ContentsOk, OutboxOk, DeletesOk, RowOk, RemoteOk;
  }

  lemma ExpireWritable(c: Config, s: State, id: nat, row: Upload)
    requires Inv(c, s) && Holds(s, id, row) && IsActive(row.status)
    ensures Writable(s, row, ExpiredRow(row))
  {
    CurrentRow(c, s, id);
    hide Inv;
  }

  lemma ExpireUploadGood(c: Config, s: State, t: Txn, id: nat, row: Upload, reply: Reply)
    requires Inv(c, s) && Remembers(s, id, row) && IsActive(row.status)
    ensures var s' := UpdateUpload(s, t, id, row, ExpiredRow(row), Finished(reply)); s' == s || Good(c, s, s', t)
  {
    hide Inv, Good, Writable, UpdateUpload;
    if s.uploads[id] == row {
      ExpireWritable(c, s, id, row);
    }
    UpdateUploadGood(c, s, t, id, row, ExpiredRow(row), Finished(reply));
  }

  lemma InvTables(c: Config, s: State)
    requires Inv(c, s)
    ensures TablesOk(c, s)
  {
    hide TablesOk, LocalsOk, Exclusive;
  }

  lemma OwnLocal(c: Config, s: State, t: Txn)
    requires Inv(c, s) && t in s.locals
    ensures LocalOk(c, s, s.locals[t]) && TakesFreeLocks(s, t, s.locals[t])
  {
    hide TablesOk, LocalOk;
    HolderIsFree(s, t);
  }

  // ----- create

  lemma LockForCreateGood(c: Config, s: State, t: Txn, org: nat, size: nat)
    requires Inv(c, s)
    ensures var s' := LockForCreate(c, s, t, org, size); s' == s || Good(c, s, s', t)
  {
    hide Inv, Good;
    if size > c.maxFile {
      RefuseGood(c, s, t, Refused(UploadTooLarge));
    } else if t !in s.locals && OrgFree(s, t, org) {
      GoGood(c, s, t, CreateLocked(org, size));
    }
  }

  lemma ReadQuotaGood(c: Config, s: State, t: Txn, sha256: Digest)
    requires Inv(c, s)
    ensures var s' := ReadQuota(c, s, t, sha256); s' == s || Good(c, s, s', t)
  {
    hide Inv, Good, UploadFree, OrgFree;
    if t in s.locals && s.locals[t].CreateLocked? {
      OwnLocal(c, s, t);
      var org, size := s.locals[t].org, s.locals[t].size;
      assert LocksOrg(s.locals[t], org);
      var active, reserved := ActiveCount(s.uploads, org), ActiveBytes(s.uploads, org);
      if active >= c.maxActive {
        RefuseGood(c, s, t, Refused(ConcurrencyLimit));
      } else if reserved + size > c.maxReserved {
        RefuseGood(c, s, t, Refused(QuotaExceeded));
      } else {
        GoGood(c, s, t, CreateReady(org, size, sha256, active, reserved));
      }
    }
  }

  // ----- handlers without a lock

  lemma ReadUploadGood(c: Config, s: State, t: Txn, id: nat)
    requires Inv(c, s)
    ensures var s' := ReadUpload(s, t, id); s' == s || Good(c, s, s', t)
  {
    hide Inv, Good;
    if t !in s.locals && id < |s.uploads| {
      GoGood(c, s, t, Viewed(id, s.uploads[id]));
    }
  }

  lemma ExpireViewedGood(c: Config, s: State, t: Txn, now: Time)
    requires Inv(c, s)
    ensures var s' := ExpireViewed(s, t, now); s' == s || Good(c, s, s', t)
  {
    hide Inv, Good, UpdateUpload, ExpiredRow;
    if t in s.locals && s.locals[t].Viewed? {
      OwnLocal(c, s, t);
      var l := s.locals[t];
      if IsPastDue(l.row, now) {
        ExpireUploadGood(c, s, t, l.id, l.row, Done);
      } else {
        RefuseGood(c, s, t, Done);
      }
    }
  }

  lemma CommitCancelGood(c: Config, s: State, t: Txn)
    requires Inv(c, s)
    ensures var s' := CommitCancel(s, t); s' == s || Good(c, s, s', t)
  {
    hide Inv, Good, UpdateUpload, Writable;
    if t in s.locals && s.locals[t].CancelReady? {
      OwnLocal(c, s, t);
      var l := s.locals[t];
      if l.next == l.row {
        RefuseGood(c, s, t, Done);
      } else {
        if s.uploads[l.id] == l.row {
          CancelWritable(c, s, l.id, l.row, l.next);
        }
        UpdateUploadGood(c, s, t, l.id, l.row, l.next, Finished(Done));
      }
    }
  }

  lemma CancelWritable(c: Config, s: State, id: nat, row: Upload, next: Upload)
    requires Inv(c, s) && Holds(s, id, row)
    requires (IsActive(row.status) && next == ExpiredRow(row)) || (IsCancellable(row.status) && next == AbortedRow(row))
    ensures Writable(s, row, next)
  {
    CurrentRow(c, s, id);
    hide Inv;
  }

  // ----- sign

  lemma LockForSignGood(c: Config, s: State, t: Txn, id: nat)
    requires Inv(c, s)
    ensures var s' := LockForSign(s, t, id); s' == s || Good(c, s, s', t)
  {
    hide Inv, Good;
    if t !in s.locals && id < |s.uploads| && UploadFree(s, t, id) {
      GoGood(c, s, t, SignLocked(id, s.uploads[id]));
    }
  }

  lemma CommitStartedGood(c: Config, s: State, t: Txn, signs: bool)
    requires Inv(c, s)
    ensures var s' := CommitStarted(s, t, signs); s' == s || Good(c, s, s', t)
  {
    hide Inv, Good, UpdateUpload;
    if t in s.locals && s.locals[t].SignStarted? {
      OwnLocal(c, s, t);
      var l := s.locals[t];
      CurrentRow(c, s, l.id);
      assert Writable(s, l.row, StartedRow(l.row, l.started));
      UpdateUploadGood(c, s, t, l.id, l.row, StartedRow(l.row, l.started), Finished(SigningAnswer(signs)));
    }
  }

  // ----- complete

  lemma LockForCompleteGood(c: Config, s: State, t: Txn, id: nat)
    requires Inv(c, s)
    ensures var s' := LockForComplete(s, t, id); s' == s || Good(c, s, s', t)
  {
    hide Inv, Good;
    if t !in s.locals && id < |s.uploads| && UploadFree(s, t, id) {
      GoGood(c, s, t, CompleteLocked(id, s.uploads[id]));
    }
  }

  lemma KeepLockGood(c: Config, s: State, t: Txn, id: nat, l: Local)
    requires Inv(c, s) && t in s.locals && LocksUpload(s.locals[t], id) && LocksUpload(l, id)
    requires LocalOk(c, s, l)
    ensures Good(c, s, Go(s, t, l), t)
  {
    hide Inv, Good, UploadFree, OrgFree, LocalOk;
    OwnLocal(c, s, t);
    GoGood(c, s, t, l);
  }

  lemma CheckManifestGood(c: Config, s: State, t: Txn, now: Time, manifest: Manifest)
    requires Inv(c, s)
    ensures var s' := CheckManifest(s, t, now, manifest); s' == s || Good(c, s, s', t)
  {
    hide Inv, Good, UpdateUpload, Writable, ManifestAccepted, HasArtifact;
    if t in s.locals && s.locals[t].CompleteLocked? && s.locals[t].id < |s.parts| {
      OwnLocal(c, s, t);
      var l := s.locals[t];
      if l.row.status.Completed? && HasArtifact(s, l.id) {
        RefuseGood(c, s, t, Replayed(ArtifactOf(s, l.id)));
      } else if IsPastDue(l.row, now) {
        ExpireUploadGood(c, s, t, l.id, l.row, Refused(UploadExpired));
      } else if (!l.row.status.Uploading? && !l.row.status.Completing?) || l.row.remote.None? {
        RefuseGood(c, s, t, Refused(StateConflict));
      } else if !ManifestAccepted(s.parts[l.id], l.row.size, manifest) {
        RefuseGood(c, s, t, Refused(PartListMismatch));
      } else if l.row.status.Uploading? {
        CheckpointWritable(c, s, l.id, l.row);
        UpdateUploadGood(c, s, t, l.id, l.row, CheckpointRow(l.row), Checkpointed(l.id, manifest));
      } else {
        KeepLockGood(c, s, t, l.id, Relocked(l.id, l.row, manifest));
      }
    }
  }

  lemma CheckpointWritable(c: Config, s: State, id: nat, row: Upload)
    requires Inv(c, s) && Holds(s, id, row) && row.status.Uploading?
    ensures Writable(s, row, CheckpointRow(row))
  {
    CurrentRow(c, s, id);
    hide Inv;
  }

  lemma RelockGood(c: Config, s: State, t: Txn)
    requires Inv(c, s)
    ensures var s' := Relock(s, t); s' == s || Good(c, s, s', t)
  {
    hide Inv, Good, HasArtifact;
    if t in s.locals && s.locals[t].Checkpointed? {
      OwnLocal(c, s, t);
      var l := s.locals[t];
      if l.id < |s.uploads| && UploadFree(s, t, l.id) {
        if s.uploads[l.id].status.Completed? && HasArtifact(s, l.id) {
          RefuseGood(c, s, t, Replayed(ArtifactOf(s, l.id)));
        } else {
          CompletedHasArtifact(c, s, l.id);
          GoGood(c, s, t, Relocked(l.id, s.uploads[l.id], l.manifest));
        }
      }
    }
  }

  lemma CompletedHasArtifact(c: Config, s: State, id: nat)
    requires Inv(c, s) && id < |s.uploads|
    ensures s.uploads[id].status.Completed? <==> HasArtifact(s, id)
  {
    hide LocalsOk, Exclusive, RowsOk, KeysOk, QuotaOk, RemotesOk, WrittenOk, ContentsOk, OutboxOk, DeletesOk;
  }

  lemma HeadAfterFailureGood(c: Config, s: State, t: Txn, fault: Fault)
    requires Inv(c, s)
    ensures var s' := HeadAfterFailure(s, t, fault); s' == s || Good(c, s, s', t)
  {
    hide Inv, Good, Head;
    if t in s.locals && s.locals[t].RemoteFailed? {
      OwnLocal(c, s, t);
      var l := s.locals[t];
      if Head(s.store, l.row.key, fault).None? {
        KeepLockGood(c, s, t, l.id, RemoteDone(l.id, l.row));
      } else {
        RefuseGood(c, s, t, Refused(if l.code.NotFound? then ObjectGone else StorageUnavailable));
      }
    }
  }

  lemma VerifyStoredGood(c: Config, s: State, t: Txn, head: Metadata, chunks: seq<Bytes>, fault: Fault)
    requires Inv(c, s)
    ensures var s' := VerifyStored(c, s, t, head, chunks, fault); s' == s || Good(c, s, s', t)
  {
    hide Inv, Good, Flatten;
    if t in s.locals && s.locals[t].RemoteDone? {
      OwnLocal(c, s, t);
      var l := s.locals[t];
      var outcome := Head(s.store, l.row.key, fault);
      if outcome.Some? {
        RefuseGood(c, s, t, Refused(if outcome.value.NotFound? then ObjectGone else StorageUnavailable));
      } else if Flatten(chunks) == s.store.objects[l.row.key] {
        ObjectIsWritten(c, s, l.id);
        KeepLockGood(c, s, t, l.id, ObjectVerified(l.id, l.row, Verified(c.hash, head, Flatten(chunks))));
      }
    }
  }

  lemma ObjectIsWritten(c: Config, s: State, id: nat)
    requires Inv(c, s) && id < |s.uploads| && s.uploads[id].key in s.store.objects
    ensures s.uploads[id].key in s.written && s.store.objects[s.uploads[id].key] == s.written[s.uploads[id].key]
  {
    hide LocalsOk, Exclusive, RowsOk, KeysOk, QuotaOk, RemotesOk, PublicationOk, ContentsOk, OutboxOk, DeletesOk;
  }

  // ----- sweeping uploads

  lemma SelectUploadsGood(c: Config, s: State, t: Txn, now: Time, picked: set<nat>)
    requires Inv(c, s)
    ensures var s' := SelectUploads(c, s, t, now, picked); s' == s || Good(c, s, s', t)
  {
    hide Inv, Good, NeedsSweep;
    if SelectUploads(c, s, t, now, picked) != s {
      GoGood(c, s, t, Selected(now, map id | id in picked :: s.uploads[id]));
    }
  }

  lemma ReadSelectedGood(c: Config, s: State, t: Txn)
    requires Inv(c, s)
    ensures var s' := ReadSelected(s, t); s' == s || Good(c, s, s', t)
  {
    hide Inv, Good, TaskOk;
    if ReadSelected(s, t) != s {
      OwnLocal(c, s, t);
      var l := s.locals[t];
      GoGood(c, s, t, Sweeping(l.now, l.tasks, Loaded(s.uploads[l.tasks[0].id], l.phase.Acknowledged?)));
    }
  }

  lemma FinishSelectedGood(c: Config, s: State, t: Txn)
    requires Inv(c, s)
    ensures var s' := FinishSelected(s, t); s' == s || Good(c, s, s', t)
  {
    hide Inv, Good, UpdateUpload, Writable, TaskOk, Remembers;
    if t in s.locals && s.locals[t].Sweeping? && s.locals[t].phase.Loaded? && s.locals[t].tasks != [] {
      OwnLocal(c, s, t);
      var l := s.locals[t];
      var id, row, rest := l.tasks[0].id, l.phase.row, Sweeping(l.now, l.tasks[1..], Next);
      if l.phase.acknowledged && row.remote != Some(l.tasks[0].remote) {
        GoGood(c, s, t, rest);
      } else {
        var next := if l.phase.acknowledged then ClearedRow(row) else RetryUploadRow(row, l.now);
        if Holds(s, id, row) {
          assert TaskOk(s, l.tasks[0]);
          HeldTask(s, l.tasks[0], row);
          SweptWritable(c, s, l.now, id, row, next);
          RestStable(s, id, row, next, l.tasks[1..]);
        }
        RememberedIndex(s, id, row);
        UpdateUploadGood(c, s, t, id, row, next, rest);
      }
    }
  }

  lemma HeldTask(s: State, task: Task, row: Upload)
    requires TaskOk(s, task) && Holds(s, task.id, row)
    ensures !IsActive(row.status)
  {
  }

  lemma RememberedIndex(s: State, id: nat, row: Upload)
    requires Remembers(s, id, row)
    ensures id < |s.uploads| && (s.uploads[id] == row ==> Holds(s, id, row))
  {
  }

  lemma SweptWritable(c: Config, s: State, now: Time, id: nat, row: Upload, next: Upload)
    requires Inv(c, s) && Holds(s, id, row) && !IsActive(row.status)
    requires next == ClearedRow(row) || next == RetryUploadRow(row, now)
    ensures Writable(s, row, next)
  {
    CurrentRow(c, s, id);
    hide Inv, Backoff;
  }

  lemma RestStable(s: State, id: nat, row: Upload, next: Upload, rest: seq<Task>)
    requires Holds(s, id, row) && Writable(s, row, next) && forall i | 0 <= i < |rest| :: TaskOk(s, rest[i])
    ensures forall i | 0 <= i < |rest| :: TaskOk(SetUpload(s, id, next), rest[i])
  {
    hide RowOk, RemoteOk;
    forall i | 0 <= i < |rest| ensures TaskOk(SetUpload(s, id, next), rest[i]) {
      assert TaskOk(s, rest[i]);
    }
  }
}
