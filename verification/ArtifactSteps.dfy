/** Publishing, deleting and reconciling artifacts, the batch expiry, and the steps of the
    outside world keep the invariant; so does every run.
  */
module ArtifactSteps {
  import opened ArtifactDomain
  import opened ObjectStore
  import opened Completion
  import opened UploadProtocol
  import opened UploadInvariant
  import opened UploadSteps
  import opened UploadWrites

  // ----- The outbox

  lemma EmitOther(outbox: seq<Event>, e: Event, id: nat)
    requires e.artifact != id
    ensures Highest(outbox + [e], id) == Highest(outbox, id) && CountDeleted(outbox + [e], id) == CountDeleted(outbox, id)
  {
    assert (outbox + [e])[..|outbox|] == outbox;
  }

  lemma EmitOwn(outbox: seq<Event>, id: nat, kind: EventKind)
    ensures Highest(outbox + [Event(id, kind)], id)
         == (if Highest(outbox, id).None? || Rank(Highest(outbox, id).value) <= Rank(kind) then Some(kind) else Highest(outbox, id))
    ensures CountDeleted(outbox + [Event(id, kind)], id) == CountDeleted(outbox, id) + if kind.ArtifactDeleted? then 1 else 0
  {
    hide Rank;
    assert (outbox + [Event(id, kind)])[..|outbox|] == outbox;
  }

  /** The only status changes are the ones that emit a higher-ranked event. */
  predicate Announces(kind: EventKind, from: ArtifactStatus, to: ArtifactStatus) {
    match kind
    case ArtifactVerified => false
    case ArtifactQuarantined => false
    case ObjectMissing => from.Available? && to.Failed?
    case DeletionRequested => (from == to && (from.Deleting? || from.Deleted?)) || (to.Deleting? && !from.Deleting? && !from.Deleted?)
    case ArtifactDeleted => from.Deleting? && to.Deleted?
  }

  lemma EventsFollow(outbox: seq<Event>, id: nat, from: ArtifactStatus, to: ArtifactStatus, kind: EventKind)
    requires EventsFit(outbox, id, from) && Announces(kind, from, to)
    ensures EventsFit(outbox + [Event(id, kind)], id, to)
  {
    EmitOwn(outbox, id, kind);
  }

  lemma EmitOutbox(artifacts: seq<Artifact>, outbox: seq<Event>, id: nat, row: Artifact, kind: EventKind)
    requires OutboxOk(artifacts, outbox) && id < |artifacts| && Announces(kind, artifacts[id].status, row.status)
    ensures OutboxOk(artifacts[id := row], outbox + [Event(id, kind)])
  {
    hide Announces, EventsFit;
    var after := artifacts[id := row];
    forall a: nat | a < |after| ensures EventsFit(outbox + [Event(id, kind)], a, after[a].status) {
      if a == id {
        EventsFollow(outbox, id, artifacts[id].status, row.status, kind);
      } else {
        EventsKept(outbox, Event(id, kind), a, artifacts[a].status);
      }
    }
  }

  lemma EventsKept(outbox: seq<Event>, e: Event, id: nat, status: ArtifactStatus)
    requires EventsFit(outbox, id, status) && e.artifact != id
    ensures EventsFit(outbox + [e], id, status)
  {
    EmitOther(outbox, e, id);
  }

  lemma SilentOutbox(artifacts: seq<Artifact>, outbox: seq<Event>, id: nat, row: Artifact)
    requires OutboxOk(artifacts, outbox) && id < |artifacts| && row.status == artifacts[id].status
    ensures OutboxOk(artifacts[id := row], outbox)
  {
    hide EventsFit;
  }

  /** The first event of an artifact names the status it is published with. */
  lemma {:induction false} NoEventsYet(artifacts: seq<Artifact>, outbox: seq<Event>, id: nat)
    requires forall e | e in outbox :: e.artifact != id
    ensures Highest(outbox, id).None? && CountDeleted(outbox, id) == 0
  {
    if outbox != [] {
      NoEventsYet(artifacts, outbox[..|outbox| - 1], id);
    }
  }

  lemma PublishedOutbox(artifacts: seq<Artifact>, outbox: seq<Event>, a: Artifact)
    requires OutboxOk(artifacts, outbox) && a.status == (if a.verified then Available else Quarantined)
    ensures OutboxOk(artifacts + [a], outbox + [Event(|artifacts|, if a.verified then ArtifactVerified else ArtifactQuarantined)])
  {
    var id, kind := |artifacts|, if a.verified then ArtifactVerified else ArtifactQuarantined;
    NoEventsYet(artifacts, outbox, id);
    EmitOwn(outbox, id, kind);
    assert EventsFit(outbox + [Event(id, kind)], id, a.status);
    hide EventsFit;
    forall b: nat | b < |artifacts| ensures EventsFit(outbox + [Event(id, kind)], b, artifacts[b].status) {
      EventsKept(outbox, Event(id, kind), b, artifacts[b].status);
    }
  }

  // ----- Replacing an artifact row

  predicate ArtifactWritable(row: Artifact, next: Artifact) {
    && row.version < next.version && SameArtifact(row, next) && ArtifactReaches(row.status, next.status)
    && (StatusFits(row) ==> StatusFits(next))
  }

  lemma WrittenArtifactTables(c: Config, s: State, id: nat, next: Artifact, outbox: seq<Event>)
    requires TablesOk(c, s) && id < |s.artifacts| && ArtifactWritable(s.artifacts[id], next)
    requires OutboxOk(s.artifacts[id := next], outbox)
    ensures TablesOk(c, s.(artifacts := s.artifacts[id := next], outbox := outbox))
  {
    var artifacts := s.artifacts[id := next];
    hide RowsOk, KeysOk, QuotaOk, RemotesOk, WrittenOk, OutboxOk, StatusFits;
    assert PublicationOk(s.uploads, artifacts) by { hide ContentsOk, DeletesOk, ArtifactReaches; PublicationKept(s, id, next); }
    assert ContentsOk(c, s.uploads, artifacts, s.written) by { hide PublicationOk, DeletesOk, ArtifactReaches; }
    assert DeletesOk(s.uploads, artifacts, s.deleteCalls, s.usedKeys) by { hide PublicationOk, ContentsOk; }
  }

  lemma PublicationKept(s: State, id: nat, next: Artifact)
    requires PublicationOk(s.uploads, s.artifacts) && id < |s.artifacts| && SameArtifact(s.artifacts[id], next)
    ensures PublicationOk(s.uploads, s.artifacts[id := next])
  {
    var artifacts := s.artifacts[id := next];
    forall i | 0 <= i < |s.uploads| && s.uploads[i].status.Completed?
      ensures exists a | 0 <= a < |artifacts| :: artifacts[a].upload == i
    {
      var a :| 0 <= a < |s.artifacts| && s.artifacts[a].upload == i;
      assert artifacts[a].upload == i;
    }
  }

  lemma WriteArtifactGood(c: Config, s: State, t: Txn, id: nat, next: Artifact, outbox: seq<Event>, l: Local)
    requires Inv(c, s) && id < |s.artifacts| && ArtifactWritable(s.artifacts[id], next)
    requires OutboxOk(s.artifacts[id := next], outbox)
    requires LocalOk(c, SetArtifact(s, id, next), l) && LocksNothing(l)
    ensures Good(c, s, Go(s.(artifacts := s.artifacts[id := next], outbox := outbox), t, l), t)
  {
    var s1 := s.(artifacts := s.artifacts[id := next], outbox := outbox);
    var s' := Go(s1, t, l);
    hide Inv, OutboxOk;
    InvTables(c, s);
    assert TablesOk(c, s') by {
      hide *;
      WrittenArtifactTables(c, s, id, next, outbox);
      GoTables(c, s1, t, l);
    }
    assert Moves(s, s', Some(t)) by {
      hide *;
      WrittenMoves(s, t, id, next, outbox, l);
    }
    assert LocalOk(c, s', l) by {
      hide TablesOk, Moves, ArtifactWritable;
      SameOutboxSameLocal(c, SetArtifact(s, id, next), s', l);
    }
    assert ObjectsKept(s, s');
    hide *;
    NothingLocked(s, t, l);
    GoodFrom(c, s, s', t);
  }

  lemma WrittenMoves(s: State, t: Txn, id: nat, next: Artifact, outbox: seq<Event>, l: Local)
    requires id < |s.artifacts| && ArtifactWritable(s.artifacts[id], next)
    ensures Moves(s, Go(s.(artifacts := s.artifacts[id := next], outbox := outbox), t, l), Some(t))
  {
    hide StatusFits;
  }

  lemma SameOutboxSameLocal(c: Config, s: State, s': State, l: Local)
    requires s' == s.(locals := s'.locals, outbox := s'.outbox) && LocalOk(c, s, l)
    ensures LocalOk(c, s', l)
  {
  }

  lemma UpdateArtifactGood(c: Config, s: State, t: Txn, id: nat, seen: Artifact, next: Artifact, kind: Option<EventKind>, done: Local)
    requires Inv(c, s) && RemembersArtifact(s, id, seen) && LocksNothing(done) && ArtifactWritable(seen, next)
    requires if kind.Some? then Announces(kind.value, seen.status, next.status) else seen.status == next.status
    requires s.artifacts[id] == seen ==> LocalOk(c, SetArtifact(s, id, next), done)
    ensures var s' := UpdateArtifact(s, t, id, seen, next, kind, done); s' == s || Good(c, s, s', t)
  {
    hide Good, ArtifactWritable, LocalOk, LocksNothing, Announces, OutboxOk;
    if s.artifacts[id].version != seen.version {
      hide Inv;
      RefuseGood(c, s, t, Refused(StaleData));
    } else {
      assert s.artifacts[id] == seen;
      assert OutboxOk(s.artifacts, s.outbox);
      hide Inv;
      if kind.Some? {
        EmitOutbox(s.artifacts, s.outbox, id, next, kind.value);
        WriteArtifactGood(c, s, t, id, next, s.outbox + [Event(id, kind.value)], done);
      } else {
        SilentOutbox(s.artifacts, s.outbox, id, next);
        WriteArtifactGood(c, s, t, id, next, s.outbox, done);
      }
    }
  }

  // ----- delete_artifact

  lemma ReadArtifactGood(c: Config, s: State, t: Txn, id: nat)
    requires Inv(c, s)
    ensures var s' := ReadArtifact(s, t, id); s' == s || Good(c, s, s', t)
  {
    hide Inv, Good;
    if t !in s.locals && id < |s.artifacts| {
      GoGood(c, s, t, ArtifactViewed(id, s.artifacts[id]));
    }
  }

  /** A repeated request on a row read as DELETING only adds another event. */
  lemma RepeatedRequestGood(c: Config, s: State, t: Txn, id: nat)
    requires Inv(c, s) && id < |s.artifacts| && (s.artifacts[id].status.Deleting? || s.artifacts[id].status.Deleted?)
    ensures Good(c, s, Emit(Finish(s, t, Done), id, DeletionRequested), t)
  {
    var outbox := s.outbox + [Event(id, DeletionRequested)];
    assert s.artifacts[id := s.artifacts[id]] == s.artifacts;
    hide RowsOk, KeysOk, QuotaOk, PublicationOk, RemotesOk, WrittenOk, ContentsOk, OutboxOk, DeletesOk, LocalsOk, Exclusive, EventsFit;
    EmitOutbox(s.artifacts, s.outbox, id, s.artifacts[id], DeletionRequested);
    OutboxGood(c, s, t, outbox, Done);
  }

  lemma OutboxGood(c: Config, s: State, t: Txn, outbox: seq<Event>, reply: Reply)
    requires Inv(c, s) && OutboxOk(s.artifacts, outbox)
    ensures Good(c, s, Finish(s, t, reply).(outbox := outbox), t)
  {
    hide RowsOk, KeysOk, QuotaOk, PublicationOk, RemotesOk, WrittenOk, ContentsOk, OutboxOk, DeletesOk, LocalsOk, Exclusive;
  }

  lemma RequestDeletionGood(c: Config, s: State, t: Txn, ifMatch: int)
    requires Inv(c, s)
    ensures var s' := RequestDeletion(s, t, ifMatch); s' == s || Good(c, s, s', t)
  {
    hide Inv, Good, UpdateArtifact;
    if t in s.locals && s.locals[t].ArtifactViewed? {
      OwnLocal(c, s, t);
      var l := s.locals[t];
      if l.artifact.version != ifMatch {
        RefuseGood(c, s, t, Refused(VersionMismatch));
      } else if l.artifact.status.Deleted? {
        RefuseGood(c, s, t, Refused(ArtifactNotFound));
      } else if l.artifact.status.Deleting? {
        RepeatedRequestGood(c, s, t, l.id);
      } else {
        UpdateArtifactGood(c, s, t, l.id, l.artifact, ArtifactRow(l.artifact, Deleting), Some(DeletionRequested), Finished(Done));
      }
    }
  }

  // ----- the deleting and the reconciling sweeper

  lemma SelectDeletingGood(c: Config, s: State, t: Txn, now: Time, targets: seq<Target>)
    requires Inv(c, s)
    ensures var s' := SelectDeleting(c, s, t, now, targets); s' == s || Good(c, s, s', t)
  {
    hide Inv, Good, RetryDue;
    if SelectDeleting(c, s, t, now, targets) != s {
      forall i | 0 <= i < |targets| ensures TargetOk(s, targets[i], true) {
      }
      GoGood(c, s, t, Purging(now, targets, Next));
    }
  }

  lemma SelectAvailableGood(c: Config, s: State, t: Txn, targets: seq<Target>)
    requires Inv(c, s)
    ensures var s' := SelectAvailable(c, s, t, targets); s' == s || Good(c, s, s', t)
  {
    hide Inv, Good;
    if SelectAvailable(c, s, t, targets) != s {
      forall i | 0 <= i < |targets| ensures TargetOk(s, targets[i], false) {
      }
      GoGood(c, s, t, Reconciling(targets, Next));
    }
  }

  lemma ReadTargetGood(c: Config, s: State, t: Txn)
    requires Inv(c, s)
    ensures var s' := ReadTarget(s, t); s' == s || Good(c, s, s', t)
  {
    hide Inv, Good, TargetOk;
    if ReadTarget(s, t) != s {
      OwnLocal(c, s, t);
      var l := s.locals[t];
      var loaded := Loaded(s.artifacts[l.targets[0].id], l.purge.Acknowledged?);
      GoGood(c, s, t, if l.Purging? then Purging(l.now, l.targets, loaded) else Reconciling(l.targets, loaded));
    }
  }

  lemma HeadTargetGood(c: Config, s: State, t: Txn, fault: Fault)
    requires Inv(c, s)
    ensures var s' := HeadTarget(s, t, fault); s' == s || Good(c, s, s', t)
  {
    hide Inv, Good, TargetOk, Head;
    if t in s.locals && s.locals[t].Reconciling? && s.locals[t].purge.Next? {
      OwnLocal(c, s, t);
      var l := s.locals[t];
      if l.targets == [] {
        RefuseGood(c, s, t, Done);
      } else {
        GoGood(c, s, t, Reconciling(l.targets, Acknowledged));
        GoGood(c, s, t, Reconciling(l.targets[1..], Next));
      }
    }
  }

  lemma OtherTargets(s: State, id: nat, seen: Artifact, next: Artifact, targets: seq<Target>, deleting: bool)
    requires id < |s.artifacts| && s.artifacts[id] == seen && ArtifactWritable(seen, next)
    requires forall i | 0 <= i < |targets| :: TargetOk(s, targets[i], deleting)
    ensures forall i | 0 <= i < |targets| :: TargetOk(SetArtifact(s, id, next), targets[i], deleting)
  {
    hide StatusFits;
    forall i | 0 <= i < |targets| ensures TargetOk(SetArtifact(s, id, next), targets[i], deleting) {
      assert TargetOk(s, targets[i], deleting);
    }
  }

  lemma FinishTargetGood(c: Config, s: State, t: Txn, targets: seq<Target>, row: Artifact, next: Artifact, kind: Option<EventKind>, deleting: bool, rest: Local)
    requires Inv(c, s) && targets != [] && RemembersArtifact(s, targets[0].id, row) && ArtifactWritable(row, next)
    requires forall i | 0 <= i < |targets| :: TargetOk(s, targets[i], deleting)
    requires if kind.Some? then Announces(kind.value, row.status, next.status) else row.status == next.status
    requires (rest.Purging? && deleting) || (rest.Reconciling? && !deleting)
    requires rest.targets == targets[1..] && rest.purge.Next?
    ensures var s' := UpdateArtifact(s, t, targets[0].id, row, next, kind, rest); s' == s || Good(c, s, s', t)
  {
    hide Inv, Good, UpdateArtifact, ArtifactWritable, Announces;
    if s.artifacts[targets[0].id] == row {
      OtherTargets(s, targets[0].id, row, next, targets[1..], deleting);
    }
    hide TargetOk;
    UpdateArtifactGood(c, s, t, targets[0].id, row, next, kind, rest);
  }

  lemma FinishDeletedGood(c: Config, s: State, t: Txn)
    requires Inv(c, s)
    ensures var s' := FinishDeleted(s, t); s' == s || Good(c, s, s', t)
  {
    hide Inv, Good, UpdateArtifact, TargetOk, RemembersArtifact, NextRetry;
    if t in s.locals && s.locals[t].Purging? && s.locals[t].purge.Loaded? && s.locals[t].targets != [] {
      OwnLocal(c, s, t);
      var l := s.locals[t];
      var row, rest := l.purge.row, Purging(l.now, l.targets[1..], Next);
      if !l.purge.acknowledged {
        FinishTargetGood(c, s, t, l.targets, row, RetryArtifactRow(row, l.now), None, true, rest);
      } else if row.status.Deleting? {
        FinishTargetGood(c, s, t, l.targets, row, DeletedRow(row), Some(ArtifactDeleted), true, rest);
      } else {
        GoGood(c, s, t, rest);
      }
    }
  }

  lemma FinishMissingGood(c: Config, s: State, t: Txn)
    requires Inv(c, s)
    ensures var s' := FinishMissing(s, t); s' == s || Good(c, s, s', t)
  {
    hide Inv, Good, UpdateArtifact, TargetOk, RemembersArtifact;
    if t in s.locals && s.locals[t].Reconciling? && s.locals[t].purge.Loaded? && s.locals[t].targets != [] {
      OwnLocal(c, s, t);
      var l := s.locals[t];
      var row, rest := l.purge.row, Reconciling(l.targets[1..], Next);
      if row.status.Available? {
        FinishTargetGood(c, s, t, l.targets, row, ArtifactRow(row, Failed), Some(ObjectMissing), false, rest);
      } else {
        GoGood(c, s, t, rest);
      }
    }
  }

  // ----- publication

  lemma PublishPublication(s: State, id: nat, a: Artifact)
    requires PublicationOk(s.uploads, s.artifacts) && KeysOk(s.uploads, s.usedKeys)
    requires id < |s.uploads| && !s.uploads[id].status.Completed? && a.upload == id && a.key == s.uploads[id].key
    ensures PublicationOk(s.uploads[id := CompletedRow(s.uploads[id])], s.artifacts + [a])
  {
    var uploads, artifacts := s.uploads[id := CompletedRow(s.uploads[id])], s.artifacts + [a];
    forall i | 0 <= i < |uploads| && uploads[i].status.Completed?
      ensures exists b | 0 <= b < |artifacts| :: artifacts[b].upload == i
    {
      if i == id {
        assert artifacts[|s.artifacts|].upload == i;
      } else {
        var b :| 0 <= b < |s.artifacts| && s.artifacts[b].upload == i;
        assert artifacts[b].upload == i;
      }
    }
  }

  /** Completing the row, seen apart from inserting the artifact. */
  lemma CompletedRows(c: Config, s: State, id: nat)
    requires TablesOk(c, s) && id < |s.uploads| && PastCheckpoint(s.uploads[id].status)
    ensures var uploads := s.uploads[id := CompletedRow(s.uploads[id])];
            RowsOk(uploads) && KeysOk(uploads, s.usedKeys) && QuotaOk(c, uploads)
            && RemotesOk(uploads, s.store.multiparts, s.usedRemotes, s.written)
            && WrittenOk(uploads, s.store.objects, s.written, s.usedKeys)
            && ContentsOk(c, uploads, s.artifacts, s.written)
  {
    var uploads := s.uploads[id := CompletedRow(s.uploads[id])];
    assert RowOk(s.uploads[id]) && RemoteOk(s.uploads[id], s.store.multiparts, s.usedRemotes, s.written);
    assert Evolves(s.uploads[id], uploads[id]) && RowOk(uploads[id]) && RemoteOk(uploads[id], s.store.multiparts, s.usedRemotes, s.written);
    hide RowOk, RemoteOk, StatusReaches, OutboxOk, DeletesOk, PublicationOk;
    assert RowsOk(uploads) && RemotesOk(uploads, s.store.multiparts, s.usedRemotes, s.written);
    assert QuotaOk(c, uploads) by {
      hide RowsOk, RemotesOk, KeysOk, WrittenOk, ContentsOk;
      forall org: nat ensures ActiveCount(uploads, org) <= c.maxActive && ActiveBytes(uploads, org) <= c.maxReserved {
        QuotaShrinks(s.uploads, uploads, org);
      }
    }
    hide RowsOk, RemotesOk, QuotaOk, Evolves;
    assert KeysOk(uploads, s.usedKeys) && WrittenOk(uploads, s.store.objects, s.written, s.usedKeys);
    ReplacedContents(c, s, uploads);
  }

  lemma PublishedTables(c: Config, s: State, id: nat, a: Artifact)
    requires TablesOk(c, s) && id < |s.uploads| && PastCheckpoint(s.uploads[id].status)
    requires a.upload == id && a.key == s.uploads[id].key && ContentOk(c, a, s.uploads[id], s.written)
    requires a.status == (if a.verified then Available else Quarantined)
    ensures var event := Event(|s.artifacts|, if a.verified then ArtifactVerified else ArtifactQuarantined);
            TablesOk(c, s.(uploads := s.uploads[id := CompletedRow(s.uploads[id])], artifacts := s.artifacts + [a], outbox := s.outbox + [event]))
  {
    var uploads, artifacts := s.uploads[id := CompletedRow(s.uploads[id])], s.artifacts + [a];
    assert uploads[id].size == s.uploads[id].size && uploads[id].sha256 == s.uploads[id].sha256;
    CompletedRows(c, s, id);
    assert ContentsOk(c, uploads, artifacts, s.written) by {
      hide RowsOk, KeysOk, QuotaOk, PublicationOk, RemotesOk, WrittenOk, OutboxOk, DeletesOk, StatusFits;
    }
    hide ContentOk, RowsOk, QuotaOk, RemotesOk, WrittenOk, ContentsOk;
    assert OutboxOk(artifacts, s.outbox + [Event(|s.artifacts|, if a.verified then ArtifactVerified else ArtifactQuarantined)]) by {
      hide KeysOk, PublicationOk, DeletesOk, OutboxOk;
      PublishedOutbox(s.artifacts, s.outbox, a);
    }
    hide OutboxOk;
    PublishPublication(s, id, a);
    hide PublicationOk;
    assert DeletesOk(uploads, artifacts, s.deleteCalls, s.usedKeys);
  }

  lemma VerdictContent(c: Config, s: State, id: nat, row: Upload, v: Verification)
    requires LocalOk(c, s, ObjectVerified(id, row, v))
    ensures ContentOk(c, NewArtifact(id, row, v), row, s.written)
    ensures NewArtifact(id, row, v).upload == id && NewArtifact(id, row, v).key == row.key
    ensures id < |s.uploads| && row == s.uploads[id] && PastCheckpoint(row.status)
  {
  }

  lemma PublishGood(c: Config, s: State, t: Txn)
    requires Inv(c, s)
    ensures var s' := Publish(s, t); s' == s || Good(c, s, s', t)
  {
    hide Inv, Good, LocalOk, NewArtifact, CompletedRow;
    if t in s.locals && s.locals[t].ObjectVerified? {
      OwnLocal(c, s, t);
      var l := s.locals[t];
      VerdictContent(c, s, l.id, l.row, l.verification);
      var a := NewArtifact(l.id, l.row, l.verification);
      if exists i | 0 <= i < |s.artifacts| :: s.artifacts[i].upload == l.id || s.artifacts[i].key == a.key {
        RefuseGood(c, s, t, Refused(StaleData));
      } else {
        PublishedGood(c, s, t, l.id, l.row, a);
      }
    }
  }

  lemma NewArtifactStatus(id: nat, row: Upload, v: Verification)
    ensures var a := NewArtifact(id, row, v); a.status == (if a.verified then Available else Quarantined)
  {
  }

  lemma PublishedGood(c: Config, s: State, t: Txn, id: nat, row: Upload, a: Artifact)
    requires Inv(c, s) && t in s.locals && s.locals[t].ObjectVerified? && s.locals[t].id == id && s.locals[t].row == row
    requires id < |s.uploads| && row == s.uploads[id] && PastCheckpoint(row.status)
    requires a == NewArtifact(id, row, s.locals[t].verification) && a.upload == id && a.key == row.key && ContentOk(c, a, row, s.written)
    ensures var event := Event(|s.artifacts|, if a.verified then ArtifactVerified else ArtifactQuarantined);
            Good(c, s, Finish(s.(uploads := s.uploads[id := CompletedRow(row)], artifacts := s.artifacts + [a], outbox := s.outbox + [event]), t, Created(|s.artifacts|)), t)
  {
    var event := Event(|s.artifacts|, if a.verified then ArtifactVerified else ArtifactQuarantined);
    var s1 := s.(uploads := s.uploads[id := CompletedRow(row)], artifacts := s.artifacts + [a], outbox := s.outbox + [event]);
    var s' := Finish(s1, t, Created(|s.artifacts|));
    assert TablesOk(c, s') by {
      hide *;
      PublishedState(c, s, t, id, row, a);
      GoTables(c, s1, t, Finished(Created(|s.artifacts|)));
    }
    assert Moves(s, s', Some(t)) by {
      hide *;
      RowLockFree(c, s, t, id);
      PublishedMoves(s, t, id, s.artifacts + [a], s.outbox + [event], Finished(Created(|s.artifacts|)));
    }
    hide *;
    FinishPlaces(c, s1, t, Created(|s.artifacts|));
    SameStoreKept(s, s');
    NothingLocked(s, t, s'.locals[t]);
    GoodFrom(c, s, s', t);
  }

  lemma FinishPlaces(c: Config, s: State, t: Txn, reply: Reply)
    ensures var s' := Finish(s, t, reply);
            && t in s'.locals && s'.locals[t] == Finished(reply) && LocalOk(c, s', s'.locals[t]) && LocksNothing(s'.locals[t])
            && s'.store == s.store && s'.written == s.written && s'.deleteCalls == s.deleteCalls
  {
  }

  lemma SameStoreKept(s: State, s': State)
    requires s'.store == s.store && s'.written == s.written && s'.deleteCalls == s.deleteCalls
    ensures ObjectsKept(s, s')
  {
  }

  lemma PublishedState(c: Config, s: State, t: Txn, id: nat, row: Upload, a: Artifact)
    requires Inv(c, s) && t in s.locals && s.locals[t].ObjectVerified? && s.locals[t].id == id && s.locals[t].row == row
    requires id < |s.uploads| && row == s.uploads[id] && PastCheckpoint(row.status)
    requires a == NewArtifact(id, row, s.locals[t].verification) && a.upload == id && a.key == row.key && ContentOk(c, a, row, s.written)
    ensures var event := Event(|s.artifacts|, if a.verified then ArtifactVerified else ArtifactQuarantined);
            TablesOk(c, s.(uploads := s.uploads[id := CompletedRow(row)], artifacts := s.artifacts + [a], outbox := s.outbox + [event]))
  {
    hide Inv, ContentOk, NewArtifact, TablesOk, LocalOk;
    InvTables(c, s);
    NewArtifactStatus(id, row, s.locals[t].verification);
    PublishedTables(c, s, id, a);
  }

  /** The tables do not know where transactions stand. */
  lemma GoTables(c: Config, s: State, t: Txn, l: Local)
    requires TablesOk(c, s)
    ensures TablesOk(c, Go(s, t, l))
  {
    hide RowsOk, KeysOk, QuotaOk, PublicationOk, RemotesOk, WrittenOk, ContentsOk, OutboxOk, DeletesOk;
  }

  lemma PublishedMoves(s: State, t: Txn, id: nat, artifacts: seq<Artifact>, outbox: seq<Event>, l: Local)
    requires id < |s.uploads| && PastCheckpoint(s.uploads[id].status) && UploadFree(s, t, id) && s.artifacts <= artifacts
    ensures Moves(s, Go(s.(uploads := s.uploads[id := CompletedRow(s.uploads[id])], artifacts := artifacts, outbox := outbox), t, l), Some(t))
  {
  }

  lemma RowLockFree(c: Config, s: State, t: Txn, id: nat)
    requires Inv(c, s) && t in s.locals && s.locals[t].ObjectVerified? && s.locals[t].id == id
    ensures UploadFree(s, t, id)
  {
    hide Inv, UploadFree, LocalOk;
    OwnLocal(c, s, t);
    assert LocksUpload(s.locals[t], id);
  }

  // ----- batch expiry

  lemma BatchReplaces(c: Config, s: State, t: Txn, rows: map<nat, Upload>)
    requires Inv(c, s) && (forall id | id in rows :: Remembers(s, id, rows[id]))
    requires forall id | id in rows && ExpiresIn(rows, id) :: id < |s.uploads| && s.uploads[id].version == rows[id].version && UploadFree(s, t, id)
    ensures Replaces(s, ExpireBatch(s.uploads, rows))
    ensures forall i | 0 <= i < |s.uploads| && ExpireBatch(s.uploads, rows)[i] != s.uploads[i] :: UploadFree(s, t, i)
  {
    hide Inv, Writable, ExpiredRow, UploadFree;
    var uploads := ExpireBatch(s.uploads, rows);
    forall i | 0 <= i < |uploads| ensures uploads[i] == s.uploads[i] || Writable(s, s.uploads[i], uploads[i]) {
      if ExpiresIn(rows, i) {
        assert Remembers(s, i, rows[i]);
        ExpireWritable(c, s, i, rows[i]);
      }
    }
  }

  /** After the batch commit every row with a remote upload in the work list is inactive. */
  lemma BatchTasks(s: State, rows: map<nat, Upload>, tasks: seq<Task>)
    requires (forall id | id in rows :: Remembers(s, id, rows[id])) && TasksOf(rows, tasks)
    ensures forall i | 0 <= i < |tasks| :: TaskOk(s.(uploads := ExpireBatch(s.uploads, rows)), tasks[i])
  {
    forall i | 0 <= i < |tasks| ensures TaskOk(s.(uploads := ExpireBatch(s.uploads, rows)), tasks[i]) {
      assert Remembers(s, tasks[i].id, rows[tasks[i].id]);
    }
  }

  lemma CommitExpiredGood(c: Config, s: State, t: Txn, tasks: seq<Task>)
    requires Inv(c, s)
    ensures var s' := CommitExpired(s, t, tasks); s' == s || Good(c, s, s', t)
  {
    hide Inv, Good, Remembers, TasksOf, UploadFree, TaskOk, ExpireBatch, Replaces;
    if t in s.locals && s.locals[t].Selected? && TasksOf(s.locals[t].rows, tasks) {
      OwnLocal(c, s, t);
      var rows := s.locals[t].rows;
      if exists id | id in rows :: id >= |s.uploads| || (ExpiresIn(rows, id) && !UploadFree(s, t, id)) {
      } else if exists id | id in rows :: ExpiresIn(rows, id) && s.uploads[id].version != rows[id].version {
        RefuseGood(c, s, t, Refused(StaleData));
      } else {
        BatchReplaces(c, s, t, rows);
        BatchTasks(s, rows, tasks);
        ReplaceGood(c, s, t, ExpireBatch(s.uploads, rows), Sweeping(s.locals[t].now, tasks, Next));
      }
    }
  }

  // ----- interruption and the world

  lemma InterruptGood(c: Config, s: State, t: Txn)
    requires Inv(c, s)
    ensures var s' := Interrupt(s, t); s' == s || Good(c, s, s', t)
  {
    hide Inv, Good;
    if t in s.locals {
      RefuseGood(c, s, t, Refused(Interrupted));
    }
  }

  lemma WorldKeepsInv(c: Config, s: State, s': State)
    requires Inv(c, s) && TablesOk(c, s') && Moves(s, s', None) && s'.locals == s.locals
    ensures Inv(c, s')
  {
    hide UploadsMove, ArtifactsMove, LocksRespected, FreshOnly, LocalOk;
    forall u | u in s'.locals ensures LocalOk(c, s', s'.locals[u]) {
      LocalStable(c, s, s', None, u);
    }
  }

  lemma NarrowWorld(c: Config, s: State, store: Store)
    requires Inv(c, s) && Narrower(s.store, store)
    ensures Inv(c, s.(store := store))
  {
    var s' := s.(store := store);
    assert TablesOk(c, s') by {
      hide RowsOk, KeysOk, QuotaOk, PublicationOk, RemotesOk, WrittenOk, ContentsOk, OutboxOk, DeletesOk, LocalsOk, Exclusive, Narrower;
      NarrowTables(c, s, store);
    }
    assert Moves(s, s', None) by {
      hide TablesOk, LocalsOk, Exclusive;
    }
    hide TablesOk, Moves, LocalsOk, Exclusive, Narrower;
    WorldKeepsInv(c, s, s');
  }

  lemma PutForeignKeepsInv(c: Config, s: State, key: Key, data: Bytes)
    requires Inv(c, s)
    ensures Inv(c, PutForeign(s, key, data))
  {
    var s' := PutForeign(s, key, data);
    if s' != s {
      assert TablesOk(c, s') by {
        hide RowsOk, QuotaOk, PublicationOk, RemotesOk, ContentsOk, OutboxOk, LocalsOk, Exclusive;
      }
      assert Moves(s, s', None) by {
        hide TablesOk, LocalsOk, Exclusive;
      }
      hide TablesOk, Moves, LocalsOk, Exclusive;
      WorldKeepsInv(c, s, s');
    }
  }

  // ----- every step and every run

  lemma ActGood(c: Config, s: State, t: Txn, a: Action)
    requires Inv(c, s)
    ensures var s' := Act(c, s, t, a); s' == s || Good(c, s, s', t)
  {
    hide Inv, Good;
    hide LockForCreate, ReadQuota, InsertUpload, ReadUpload, ExpireViewed, RegisterPart, AbortRemote,
      CommitCancel, LockForSign, StartRemote, CommitStarted, LockForComplete, CheckManifest, Relock,
      CompleteRemote, HeadAfterFailure, VerifyStored, Publish, ReadArtifact, RequestDeletion, Interrupt;
    match a
    case DoLockForCreate(org, size) => LockForCreateGood(c, s, t, org, size);
    case DoReadQuota(sha256) => ReadQuotaGood(c, s, t, sha256);
    case DoInsertUpload(key, expiresAt) => InsertUploadGood(c, s, t, key, expiresAt);
    case DoReadUpload(id) => ReadUploadGood(c, s, t, id);
    case DoExpireViewed(now) => ExpireViewedGood(c, s, t, now);
    case DoRegisterPart(now, number, part) => RegisterPartGood(c, s, t, now, number, part);
    case DoAbortRemote(now, fault) => AbortRemoteGood(c, s, t, now, fault);
    case DoCommitCancel => CommitCancelGood(c, s, t);
    case DoLockForSign(id) => LockForSignGood(c, s, t, id);
    case DoStartRemote(now, remote, fault, signs) => StartRemoteGood(c, s, t, now, remote, fault, signs);
    case DoCommitStarted(signs) => CommitStartedGood(c, s, t, signs);
    case DoLockForComplete(id) => LockForCompleteGood(c, s, t, id);
    case DoCheckManifest(now, manifest) => CheckManifestGood(c, s, t, now, manifest);
    case DoRelock => RelockGood(c, s, t);
    case DoCompleteRemote(fault) => CompleteRemoteGood(c, s, t, fault);
    case DoHeadAfterFailure(fault) => HeadAfterFailureGood(c, s, t, fault);
    case DoVerifyStored(head, chunks, fault) => VerifyStoredGood(c, s, t, head, chunks, fault);
    case DoPublish => PublishGood(c, s, t);
    case DoReadArtifact(id) => ReadArtifactGood(c, s, t, id);
    case DoRequestDeletion(ifMatch) => RequestDeletionGood(c, s, t, ifMatch);
    case DoInterrupt => InterruptGood(c, s, t);
  }

  lemma SweepGood(c: Config, s: State, t: Txn, chore: Chore)
    requires Inv(c, s)
    ensures var s' := Sweep(c, s, t, chore); s' == s || Good(c, s, s', t)
  {
    hide Inv, Good;
    hide SelectUploads, CommitExpired, AbortSelected, ReadSelected, FinishSelected, SelectDeleting, DeleteTarget,
      ReadTarget, FinishDeleted, SelectAvailable, HeadTarget, FinishMissing, ListOrphan, CheckOrphanUpload,
      CheckOrphanArtifact, DeleteOrphan;
    match chore
    case DoSelectUploads(now, picked) => SelectUploadsGood(c, s, t, now, picked);
    case DoCommitExpired(tasks) => CommitExpiredGood(c, s, t, tasks);
    case DoAbortSelected(fault) => AbortSelectedGood(c, s, t, fault);
    case DoReadSelected => ReadSelectedGood(c, s, t);
    case DoFinishSelected => FinishSelectedGood(c, s, t);
    case DoSelectDeleting(now, targets) => SelectDeletingGood(c, s, t, now, targets);
    case DoDeleteTarget(fault) => DeleteTargetGood(c, s, t, fault);
    case DoReadTarget => ReadTargetGood(c, s, t);
    case DoFinishDeleted => FinishDeletedGood(c, s, t);
    case DoSelectAvailable(targets) => SelectAvailableGood(c, s, t, targets);
    case DoHeadTarget(fault) => HeadTargetGood(c, s, t, fault);
    case DoFinishMissing => FinishMissingGood(c, s, t);
    case DoListOrphan(key) => OrphanQueriesGood(c, s, t, key);
    case DoCheckOrphanUpload => OrphanQueriesGood(c, s, t, "");
    case DoCheckOrphanArtifact => OrphanQueriesGood(c, s, t, "");
    case DoDeleteOrphan(fault) => DeleteOrphanGood(c, s, t, fault);
  }

  lemma StepKeepsInv(c: Config, s: State, step: Step)
    requires Inv(c, s)
    ensures Inv(c, Apply(c, s, step))
  {
    hide Inv, Act, Sweep, Good, PutForeign;
    match step
    case By(t, action) =>
      ActGood(c, s, t, action);
      if Act(c, s, t, action) != s {
        GoodKeepsInv(c, s, Act(c, s, t, action), t);
      }
    case Sweeper(t, chore) =>
      SweepGood(c, s, t, chore);
      if Sweep(c, s, t, chore) != s {
        GoodKeepsInv(c, s, Sweep(c, s, t, chore), t);
      }
    case PartArrives(remote, number, part) =>
      if remote in s.store.multiparts {
        NarrowWorld(c, s, PutPart(s, remote, number, part).store);
      }
    case ForeignObject(key, data) => PutForeignKeepsInv(c, s, key, data);
    case ObjectLost(key) => NarrowWorld(c, s, LoseObject(s, key).store);
  }

  lemma EmptyInv(c: Config)
    ensures Inv(c, EMPTY)
  {
    forall org: nat ensures ActiveCount(EMPTY.uploads, org) == 0 && ActiveBytes(EMPTY.uploads, org) == 0 {
    }
  }

  lemma {:induction false} RunKeepsInv(c: Config, s: State, steps: seq<Step>)
    requires Inv(c, s)
    ensures Inv(c, Run(c, s, steps))
  {
    hide Inv, Apply;
    if steps != [] {
      RunKeepsInv(c, s, steps[..|steps| - 1]);
      StepKeepsInv(c, Run(c, s, steps[..|steps| - 1]), steps[|steps| - 1]);
    }
  }
}
