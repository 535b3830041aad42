/** The steps that change the store or add and change rows of the tables keep the invariant. */
module UploadWrites {
  import opened ArtifactDomain
  import opened ObjectStore
  import opened Completion
  import opened UploadProtocol
  import opened UploadInvariant
  import opened UploadSteps

  // ----- Calls that take something out of the store

  predicate Narrower(before: Store, after: Store) {
    && (forall k | k in after.objects :: k in before.objects && after.objects[k] == before.objects[k])
    && (forall r | r in after.multiparts :: r in before.multiparts && after.multiparts[r].key == before.multiparts[r].key)
  }

  lemma NarrowTables(c: Config, s: State, store: Store)
    requires TablesOk(c, s) && Narrower(s.store, store)
    ensures TablesOk(c, s.(store := store))
  {
    hide RowsOk, KeysOk, QuotaOk, PublicationOk, ContentsOk, OutboxOk, DeletesOk;
  }

  lemma NarrowLocal(c: Config, s: State, s': State, l: Local)
    requires LocalOk(c, s, l) && Narrower(s.store, s'.store)
    requires s' == s.(store := s'.store, deleteCalls := s'.deleteCalls)
    ensures LocalOk(c, s', l)
  {
  }

  /** A call that aborts an upload or deletes an object of a key nobody serves. */
  lemma NarrowGood(c: Config, s: State, t: Txn, store: Store, calls: set<Key>, l: Local)
    requires Inv(c, s) && Narrower(s.store, store) && DeletesOk(s.uploads, s.artifacts, calls, s.usedKeys)
    requires LocalOk(c, s, l) && TakesFreeLocks(s, t, l)
    requires s.deleteCalls <= calls && forall k | k in s.store.objects :: k in store.objects || k in calls
    ensures Good(c, s, Go(s.(store := store, deleteCalls := calls), t, l), t)
  {
    var s1 := s.(store := store, deleteCalls := calls);
    var s' := Go(s1, t, l);
    assert TablesOk(c, s') by {
      NarrowTables(c, s, store);
      hide RowsOk, KeysOk, QuotaOk, PublicationOk, RemotesOk, WrittenOk, ContentsOk, OutboxOk, DeletesOk, Narrower;
    }
    assert Moves(s, s', Some(t)) by {
      hide TablesOk, LocalsOk, LocalOk, Exclusive, DeletesOk, TakesFreeLocks;
    }
    assert LocalOk(c, s', l) by {
      hide *;
      NarrowLocal(c, s, s1, l);
      SameTablesSameLocal(c, s1, s', l);
    }
    assert ObjectsKept(s, s');
    hide *;
    GoodFrom(c, s, s', t);
  }

  lemma TablesDeletes(c: Config, s: State)
    requires Inv(c, s)
    ensures DeletesOk(s.uploads, s.artifacts, s.deleteCalls, s.usedKeys)
  {
    hide LocalsOk, Exclusive, RowsOk, KeysOk, QuotaOk, RemotesOk, WrittenOk, PublicationOk, ContentsOk, OutboxOk, DeletesOk;
  }

  lemma AbortNarrows(s: Store, key: Key, remote: RemoteId, fault: Fault)
    ensures Narrower(s, AbortMultipart(s, key, remote, fault).0)
    ensures AbortMultipart(s, key, remote, fault).0.objects == s.objects
  {
  }

  lemma DeleteNarrows(s: Store, key: Key, fault: Fault)
    ensures Narrower(s, DeleteObject(s, key, fault).0)
    ensures forall k | k in s.objects :: k in DeleteObject(s, key, fault).0.objects || k == key
  {
  }

  lemma AbortRemoteGood(c: Config, s: State, t: Txn, now: Time, fault: Fault)
    requires Inv(c, s)
    ensures var s' := AbortRemote(s, t, now, fault); s' == s || Good(c, s, s', t)
  {
    hide Inv, Good, Remembers, AbortMultipart, DeletesOk, Narrower, TakesFreeLocks;
    if t in s.locals && s.locals[t].Viewed? {
      OwnLocal(c, s, t);
      TablesDeletes(c, s);
      var l := s.locals[t];
      if IsPastDue(l.row, now) {
        NothingLocked(s, t, CancelReady(l.id, l.row, ExpiredRow(l.row)));
        GoGood(c, s, t, CancelReady(l.id, l.row, ExpiredRow(l.row)));
      } else if !IsCancellable(l.row.status) {
        RefuseGood(c, s, t, Refused(StateConflict));
      } else {
        var next := if l.row.status.Aborted? then l.row else AbortedRow(l.row);
        var ready := CancelReady(l.id, l.row, next);
        NothingLocked(s, t, ready);
        if l.row.remote.None? {
          GoGood(c, s, t, ready);
        } else {
          var (store, outcome) := AbortMultipart(s.store, l.row.key, l.row.remote.value, fault);
          AbortNarrows(s.store, l.row.key, l.row.remote.value, fault);
          var done := if outcome.Some? then Finished(Refused(StorageUnavailable)) else ready;
          NothingLocked(s, t, done);
          NarrowGood(c, s, t, store, s.deleteCalls, done);
        }
      }
    }
  }

  lemma AbortSelectedGood(c: Config, s: State, t: Txn, fault: Fault)
    requires Inv(c, s)
    ensures var s' := AbortSelected(s, t, fault); s' == s || Good(c, s, s', t)
  {
    hide Inv, Good, TaskOk, AbortMultipart, DeletesOk, Narrower, TakesFreeLocks;
    if t in s.locals && s.locals[t].Sweeping? && s.locals[t].phase.Next? {
      OwnLocal(c, s, t);
      TablesDeletes(c, s);
      var l := s.locals[t];
      if l.tasks == [] {
        RefuseGood(c, s, t, Done);
      } else {
        var (store, outcome) := AbortMultipart(s.store, l.tasks[0].key, l.tasks[0].remote, fault);
        AbortNarrows(s.store, l.tasks[0].key, l.tasks[0].remote, fault);
        var done := Sweeping(l.now, l.tasks, if outcome.None? || outcome.value.NotFound? then Acknowledged else Rejected);
        NothingLocked(s, t, done);
        NarrowGood(c, s, t, store, s.deleteCalls, done);
      }
    }
  }

  // ----- Deletes: no key of a served artifact is ever passed to the store

  /** The object of a target belongs to one artifact, which is on its way out. */
  lemma TargetMayBeDeleted(c: Config, s: State, target: Target)
    requires Inv(c, s) && TargetOk(s, target, true)
    ensures DeletesOk(s.uploads, s.artifacts, s.deleteCalls + {target.key}, s.usedKeys)
  {
    hide LocalsOk, Exclusive, RowsOk, QuotaOk, RemotesOk, WrittenOk, ContentsOk, OutboxOk;
    var owner := s.artifacts[target.id].upload;
    assert s.uploads[owner].key == target.key;
    forall a | 0 <= a < |s.artifacts| && s.artifacts[a].key == target.key ensures a == target.id {
      assert s.uploads[s.artifacts[a].upload].key == target.key;
    }
  }

  lemma OrphanMayBeDeleted(c: Config, s: State, key: Key)
    requires Inv(c, s) && key in s.usedKeys && NoSessionKey(s, key)
    ensures DeletesOk(s.uploads, s.artifacts, s.deleteCalls + {key}, s.usedKeys)
  {
    hide LocalsOk, Exclusive, RowsOk, KeysOk, QuotaOk, RemotesOk, WrittenOk, ContentsOk, OutboxOk;
  }

  lemma DeleteTargetGood(c: Config, s: State, t: Txn, fault: Fault)
    requires Inv(c, s)
    ensures var s' := DeleteTarget(s, t, fault); s' == s || Good(c, s, s', t)
  {
    hide Inv, Good, TargetOk, DeleteObject, DeletesOk, Narrower, TakesFreeLocks;
    if t in s.locals && s.locals[t].Purging? && s.locals[t].purge.Next? {
      OwnLocal(c, s, t);
      var l := s.locals[t];
      if l.targets == [] {
        RefuseGood(c, s, t, Done);
      } else {
        var (store, outcome) := DeleteObject(s.store, l.targets[0].key, fault);
        DeleteNarrows(s.store, l.targets[0].key, fault);
        TargetMayBeDeleted(c, s, l.targets[0]);
        var done := Purging(l.now, l.targets, if outcome.None? || outcome.value.NotFound? then Acknowledged else Rejected);
        NothingLocked(s, t, done);
        NarrowGood(c, s, t, store, s.deleteCalls + {l.targets[0].key}, done);
      }
    }
  }

  lemma DeleteOrphanGood(c: Config, s: State, t: Txn, fault: Fault)
    requires Inv(c, s)
    ensures var s' := DeleteOrphan(s, t, fault); s' == s || Good(c, s, s', t)
  {
    hide Inv, Good, DeleteObject, DeletesOk, Narrower, TakesFreeLocks, NoSessionKey;
    if t in s.locals && s.locals[t].OrphanCondemned? {
      OwnLocal(c, s, t);
      var key := s.locals[t].key;
      var (store, outcome) := DeleteObject(s.store, key, fault);
      DeleteNarrows(s.store, key, fault);
      OrphanMayBeDeleted(c, s, key);
      NothingLocked(s, t, Finished(Done));
      NarrowGood(c, s, t, store, s.deleteCalls + {key}, Finished(Done));
    }
  }

  lemma OrphanQueriesGood(c: Config, s: State, t: Txn, key: Key)
    requires Inv(c, s)
    ensures var s' := ListOrphan(s, t, key); s' == s || Good(c, s, s', t)
    ensures var s' := CheckOrphanUpload(s, t); s' == s || Good(c, s, s', t)
    ensures var s' := CheckOrphanArtifact(s, t); s' == s || Good(c, s, s', t)
  {
    hide Inv, Good, LocalOk;
    RefuseGood(c, s, t, Done);
    if t !in s.locals {
      if key in s.store.objects {
        ObjectKeyUsed(c, s, key);
        OrphanGood(c, s, t, OrphanListed(key));
      }
    } else {
      OwnLocal(c, s, t);
      var l := s.locals[t];
      OrphanLocal(c, s, l);
      if l.OrphanListed? && NoSessionKey(s, l.key) {
        OrphanGood(c, s, t, OrphanUnknown(l.key));
      } else if l.OrphanUnknown? {
        OrphanGood(c, s, t, OrphanCondemned(l.key));
      }
    }
  }

  lemma OrphanLocal(c: Config, s: State, l: Local)
    requires LocalOk(c, s, l)
    ensures l.OrphanListed? || l.OrphanUnknown? ==> l.key in s.usedKeys
    ensures l.OrphanUnknown? ==> NoSessionKey(s, l.key)
  {
  }

  lemma OrphanGood(c: Config, s: State, t: Txn, l: Local)
    requires Inv(c, s) && (l.OrphanListed? || l.OrphanUnknown? || l.OrphanCondemned?) && l.key in s.usedKeys
    requires !l.OrphanListed? ==> NoSessionKey(s, l.key)
    ensures Good(c, s, Go(s, t, l), t)
  {
    hide Inv, Good, NoSessionKey;
    GoGood(c, s, t, l);
  }

  lemma ObjectKeyUsed(c: Config, s: State, key: Key)
    requires Inv(c, s) && key in s.store.objects
    ensures key in s.usedKeys
  {
    hide LocalsOk, Exclusive, RowsOk, KeysOk, QuotaOk, RemotesOk, PublicationOk, ContentsOk, OutboxOk, DeletesOk;
  }

  // ----- A new session

  lemma InsertedTables(c: Config, s: State, row: Upload)
    requires TablesOk(c, s) && row.key !in s.usedKeys && row.status.PendingUpload? && row.remote.None? && row.reserved == row.size
    requires ActiveCount(s.uploads, row.org) < c.maxActive && ActiveBytes(s.uploads, row.org) + row.reserved <= c.maxReserved
    ensures TablesOk(c, s.(uploads := s.uploads + [row], parts := s.parts + [map[]], usedKeys := s.usedKeys + {row.key}))
  {
    var uploads := s.uploads + [row];
    assert RowsOk(uploads) by { hide KeysOk, QuotaOk, PublicationOk, RemotesOk, WrittenOk, ContentsOk, OutboxOk, DeletesOk; }
    assert KeysOk(uploads, s.usedKeys + {row.key}) by { hide RowsOk, QuotaOk, PublicationOk, RemotesOk, WrittenOk, ContentsOk, OutboxOk, DeletesOk; }
    assert QuotaOk(c, uploads) by {
      hide RowsOk, KeysOk, PublicationOk, RemotesOk, WrittenOk, ContentsOk, OutboxOk, DeletesOk;
      forall org: nat ensures ActiveCount(uploads, org) <= c.maxActive && ActiveBytes(uploads, org) <= c.maxReserved {
        QuotaOfAppended(s.uploads, row, org);
      }
    }
    assert PublicationOk(uploads, s.artifacts) by { hide RowsOk, QuotaOk, KeysOk, RemotesOk, WrittenOk, ContentsOk, OutboxOk, DeletesOk; }
    hide RowsOk, QuotaOk, OutboxOk, RowOk, ContentOk, PublicationOk;
    assert RemotesOk(uploads, s.store.multiparts, s.usedRemotes, s.written);
    assert WrittenOk(uploads, s.store.objects, s.written, s.usedKeys + {row.key});
    assert ContentsOk(c, uploads, s.artifacts, s.written);
    assert DeletesOk(uploads, s.artifacts, s.deleteCalls, s.usedKeys + {row.key});
  }

  lemma InsertUploadGood(c: Config, s: State, t: Txn, key: Key, expiresAt: Time)
    requires Inv(c, s)
    ensures var s' := InsertUpload(s, t, key, expiresAt); s' == s || Good(c, s, s', t)
  {
    if t in s.locals && s.locals[t].CreateReady? && key !in s.usedKeys {
      var l := s.locals[t];
      var row := NewUpload(l.org, key, l.size, l.sha256, expiresAt);
      var s' := InsertUpload(s, t, key, expiresAt);
      assert TablesOk(c, s') by {
        hide *;
        InsertedState(c, s, t, key, expiresAt);
      }
      assert Moves(s, s', Some(t)) by {
        assert OrgFree(s, t, l.org) by { hide *; OwnLocal(c, s, t); OrgLockFree(s, t, l); }
        assert KeysOk(s.uploads, s.usedKeys);
        hide *;
        InsertedMoves(s, t, key, expiresAt);
      }
      hide Inv, TablesOk, Moves;
      assert ObjectsKept(s, s');
      hide *;
      NothingLocked(s, t, Finished(Done));
      FinishedOk(c, s', t, s.locals[t], key, expiresAt, s);
      GoodFrom(c, s, s', t);
    }
  }

  lemma InsertedState(c: Config, s: State, t: Txn, key: Key, expiresAt: Time)
    requires Inv(c, s) && t in s.locals && s.locals[t].CreateReady? && key !in s.usedKeys
    ensures TablesOk(c, InsertUpload(s, t, key, expiresAt))
  {
    var l := s.locals[t];
    assert LocalOk(c, s, l) && TablesOk(c, s);
    hide Inv, RowsOk, KeysOk, QuotaOk, PublicationOk, RemotesOk, WrittenOk, ContentsOk, OutboxOk, DeletesOk;
    InsertedTables(c, s, NewUpload(l.org, key, l.size, l.sha256, expiresAt));
  }

  lemma InsertedMoves(s: State, t: Txn, key: Key, expiresAt: Time)
    requires t in s.locals && s.locals[t].CreateReady? && key !in s.usedKeys && OrgFree(s, t, s.locals[t].org)
    ensures Moves(s, InsertUpload(s, t, key, expiresAt), Some(t))
  {
  }

  lemma OrgLockFree(s: State, t: Txn, l: Local)
    requires l.CreateReady? && TakesFreeLocks(s, t, l)
    ensures OrgFree(s, t, l.org)
  {
    assert LocksOrg(l, l.org);
  }

  lemma FinishedOk(c: Config, s': State, t: Txn, l: Local, key: Key, expiresAt: Time, s: State)
    requires s' == InsertUpload(s, t, key, expiresAt) && t in s.locals && s.locals[t] == l && l.CreateReady? && key !in s.usedKeys
    ensures t in s'.locals && s'.locals[t] == Finished(Done) && LocalOk(c, s', s'.locals[t])
  {
  }

  lemma RegisterPartGood(c: Config, s: State, t: Txn, now: Time, number: nat, part: Part)
    requires Inv(c, s)
    ensures var s' := RegisterPart(s, t, now, number, part); s' == s || Good(c, s, s', t)
  {
    hide Inv, Good, UpdateUpload, Remembers, ExpiredRow;
    if t in s.locals && s.locals[t].Viewed? {
      OwnLocal(c, s, t);
      var l := s.locals[t];
      if number < 1 || number > MAX_PART {
        RefuseGood(c, s, t, Refused(InvalidPartNumber));
      } else if IsPastDue(l.row, now) {
        ExpireUploadGood(c, s, t, l.id, l.row, Refused(UploadExpired));
      } else if !l.row.status.Uploading? {
        RefuseGood(c, s, t, Refused(StateConflict));
      } else if l.id < |s.parts| {
        if number in s.parts[l.id] {
          RefuseGood(c, s, t, if s.parts[l.id][number] != part then Refused(PartConflict) else Done);
        } else {
          var registered: map<nat, Part> := s.parts[l.id][number := part];
          PartsGood(c, s, t, s.parts[l.id := registered], Done);
        }
      }
    }
  }

  /** Nothing but the part list check reads the registered parts. */
  lemma PartsGood(c: Config, s: State, t: Txn, parts: seq<map<nat, Part>>, reply: Reply)
    requires Inv(c, s) && |parts| == |s.parts|
    ensures Good(c, s, Finish(s.(parts := parts), t, reply), t)
  {
    hide RowsOk, KeysOk, QuotaOk, PublicationOk, RemotesOk, WrittenOk, ContentsOk, OutboxOk, DeletesOk, LocalsOk, Exclusive;
  }

  // ----- Starting and completing the multipart upload

  lemma StartRemoteGood(c: Config, s: State, t: Txn, now: Time, remote: RemoteId, fault: Fault, signs: bool)
    requires Inv(c, s)
    ensures var s' := StartRemote(s, t, now, remote, fault, signs); s' == s || Good(c, s, s', t)
  {
    hide Inv, Good, UpdateUpload, ExpiredRow, StartMultipart;
    if t in s.locals && s.locals[t].SignLocked? {
      OwnLocal(c, s, t);
      var l := s.locals[t];
      if IsPastDue(l.row, now) {
        ExpireUploadGood(c, s, t, l.id, l.row, Refused(UploadExpired));
      } else if l.row.status.PendingUpload? {
        if fault.FailsBefore? {
          RefuseGood(c, s, t, Refused(StorageUnavailable));
        } else if remote !in s.usedRemotes {
          var done := if fault.FailsAfter? then Finished(Refused(StorageUnavailable)) else SignStarted(l.id, l.row, remote);
          StartedGood(c, s, t, l.id, l.row, remote, done);
        }
      } else if !l.row.status.Uploading? || l.row.remote.None? {
        RefuseGood(c, s, t, Refused(StateConflict));
      } else {
        RefuseGood(c, s, t, SigningAnswer(signs));
      }
    }
  }

  lemma StartedGood(c: Config, s: State, t: Txn, id: nat, row: Upload, remote: RemoteId, done: Local)
    requires Inv(c, s) && t in s.locals && s.locals[t] == SignLocked(id, row) && Holds(s, id, row) && row.status.PendingUpload?
    requires remote !in s.usedRemotes && (done == Finished(Refused(StorageUnavailable)) || done == SignStarted(id, row, remote))
    ensures Good(c, s, Go(s.(store := StartMultipart(s.store, row.key, remote), usedRemotes := s.usedRemotes + {remote}), t, done), t)
  {
    var s' := Go(s.(store := StartMultipart(s.store, row.key, remote), usedRemotes := s.usedRemotes + {remote}), t, done);
    hide Inv;
    InvTables(c, s);
    assert TablesOk(c, s') by {
      hide RowsOk, KeysOk, QuotaOk, PublicationOk, WrittenOk, ContentsOk, OutboxOk, DeletesOk, LocalOk;
    }
    hide TablesOk;
    assert Moves(s, s', Some(t)) by {
      hide LocalOk;
    }
    hide Moves;
    assert LocalOk(c, s', done);
    assert t in s'.locals && s'.locals[t] == done && ObjectsKept(s, s');
    assert LocksUpload(s.locals[t], id) && (done.Finished? || LocksUpload(done, id));
    hide *;
    LockKept(c, s, t, id, done);
    GoodFrom(c, s, s', t);
  }

  lemma LockKept(c: Config, s: State, t: Txn, id: nat, l: Local)
    requires Inv(c, s) && t in s.locals && LocksUpload(s.locals[t], id)
    requires l.Finished? || LocksUpload(l, id)
    ensures TakesFreeLocks(s, t, l)
  {
    hide Inv, UploadFree, OrgFree, LocalOk;
    OwnLocal(c, s, t);
  }

  lemma PublishedRemotes(s: State, id: nat, remote: RemoteId, data: Bytes)
    requires KeysOk(s.uploads, s.usedKeys) && RemotesOk(s.uploads, s.store.multiparts, s.usedRemotes, s.written)
    requires id < |s.uploads| && s.uploads[id].remote == Some(remote) && !s.uploads[id].status.PendingUpload?
    ensures RemotesOk(s.uploads, s.store.multiparts - {remote}, s.usedRemotes, s.written[s.uploads[id].key := data])
  {
    hide RemoteOk;
    forall i | 0 <= i < |s.uploads|
      ensures RemoteOk(s.uploads[i], s.store.multiparts - {remote}, s.usedRemotes, s.written[s.uploads[id].key := data])
    {
      assert i != id ==> s.uploads[i].key != s.uploads[id].key;
      RemoteKept(s.uploads[i], s.uploads[id], remote, s.store.multiparts, s.usedRemotes, s.written, data);
    }
  }

  lemma RemoteKept(u: Upload, owner: Upload, remote: RemoteId, multiparts: map<RemoteId, Multipart>, used: set<RemoteId>, written: map<Key, Bytes>, data: Bytes)
    requires RemoteOk(u, multiparts, used, written) && owner.remote == Some(remote) && !owner.status.PendingUpload?
    requires u == owner || u.key != owner.key
    ensures RemoteOk(u, multiparts - {remote}, used, written[owner.key := data])
  {
  }

  lemma PublishedContents(c: Config, s: State, key: Key, data: Bytes)
    requires ContentsOk(c, s.uploads, s.artifacts, s.written) && key !in s.written
    ensures ContentsOk(c, s.uploads, s.artifacts, s.written[key := data])
  {
    hide StatusFits;
    forall a | 0 <= a < |s.artifacts|
      ensures s.artifacts[a].upload < |s.uploads| && ContentOk(c, s.artifacts[a], s.uploads[s.artifacts[a].upload], s.written[key := data])
    {
      assert ContentOk(c, s.artifacts[a], s.uploads[s.artifacts[a].upload], s.written);
    }
  }

  /** complete_multipart puts an object under a key that never had one. */
  lemma CompletedStore(c: Config, s: State, id: nat, remote: RemoteId, data: Bytes)
    requires TablesOk(c, s) && id < |s.uploads| && s.uploads[id].remote == Some(remote) && !s.uploads[id].status.PendingUpload?
    requires remote in s.store.multiparts
    ensures s.uploads[id].key !in s.written
    ensures var key := s.uploads[id].key;
            TablesOk(c, s.(store := Store(s.store.objects[key := data], s.store.multiparts - {remote}), written := s.written[key := data]))
  {
    var key := s.uploads[id].key;
    assert key !in s.written by {
      hide RowsOk, KeysOk, QuotaOk, PublicationOk, WrittenOk, ContentsOk, OutboxOk, DeletesOk;
      assert RemoteOk(s.uploads[id], s.store.multiparts, s.usedRemotes, s.written);
    }
    hide RowsOk, QuotaOk, PublicationOk, ContentsOk, OutboxOk, DeletesOk, RemotesOk;
    PublishedRemotes(s, id, remote, data);
    PublishedContents(c, s, key, data);
    assert WrittenOk(s.uploads, s.store.objects[key := data], s.written[key := data], s.usedKeys);
  }

  lemma CompleteRemoteGood(c: Config, s: State, t: Txn, fault: Fault)
    requires Inv(c, s)
    ensures var s' := CompleteRemote(s, t, fault); s' == s || Good(c, s, s', t)
  {
    hide Inv, Good, Assembled, Go;
    if t in s.locals && s.locals[t].Relocked? {
      OwnLocal(c, s, t);
      var l := s.locals[t];
      var (store, outcome) := CompleteMultipart(s.store, l.row.key, l.row.remote, l.manifest, fault);
      var done := if outcome.Some? then RemoteFailed(l.id, l.row, outcome.value) else RemoteDone(l.id, l.row);
      var data := if fault.FailsBefore? then None else Assembled(s.store, l.row.key, l.row.remote, l.manifest);
      if data.None? {
        assert s.(store := store, written := s.written) == s;
        KeepLockGood(c, s, t, l.id, done);
      } else {
        AssembledRemote(s.store, l.row.key, l.row.remote, l.manifest);
        StoredGood(c, s, t, l.id, l.row, l.manifest, l.row.remote.value, data.value, done);
      }
    }
  }

  lemma AssembledRemote(store: Store, key: Key, remote: Option<RemoteId>, manifest: Manifest)
    requires Assembled(store, key, remote, manifest).Some?
    ensures remote.Some? && remote.value in store.multiparts
  {
  }

  lemma StoredGood(c: Config, s: State, t: Txn, id: nat, row: Upload, manifest: Manifest, remote: RemoteId, data: Bytes, done: Local)
    requires Inv(c, s) && t in s.locals && s.locals[t] == Relocked(id, row, manifest) && Holds(s, id, row) && PastCheckpoint(row.status)
    requires row.remote == Some(remote) && remote in s.store.multiparts
    requires done == RemoteDone(id, row) || (done.RemoteFailed? && done.id == id && done.row == row)
    ensures Good(c, s, Go(s.(store := Store(s.store.objects[row.key := data], s.store.multiparts - {remote}), written := s.written[row.key := data]), t, done), t)
  {
    var s1 := s.(store := Store(s.store.objects[row.key := data], s.store.multiparts - {remote}), written := s.written[row.key := data]);
    var s' := Go(s1, t, done);
    hide Inv;
    InvTables(c, s);
    assert row.key !in s.written && TablesOk(c, s') by {
      hide RowsOk, KeysOk, QuotaOk, PublicationOk, RemotesOk, WrittenOk, ContentsOk, OutboxOk, DeletesOk, LocalOk;
      CompletedStore(c, s, id, remote, data);
    }
    hide TablesOk;
    assert Moves(s, s', Some(t)) by {
      hide LocalOk;
    }
    hide Moves;
    assert LocalOk(c, s', done);
    assert t in s'.locals && s'.locals[t] == done && ObjectsKept(s, s');
    assert LocksUpload(s.locals[t], id) && (done.Finished? || LocksUpload(done, id));
    hide *;
    LockKept(c, s, t, id, done);
    GoodFrom(c, s, s', t);
  }
}
