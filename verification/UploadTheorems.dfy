/** What holds of every run of the upload protocol, from the empty database on, with any
    number of concurrent handlers and sweepers, injected failures and lost commits.
  */
module UploadTheorems {
  import opened ArtifactDomain
  import opened ObjectStore
  import opened Completion
  import opened UploadProtocol
  import opened UploadInvariant
  import opened UploadSteps
  import opened UploadWrites
  import opened ArtifactSteps

  function Reached(c: Config, steps: seq<Step>): State { Run(c, EMPTY, steps) }

  lemma ReachedInv(c: Config, steps: seq<Step>)
    ensures Inv(c, Reached(c, steps))
  {
    hide Inv, Run;
    EmptyInv(c);
    RunKeepsInv(c, EMPTY, steps);
  }

  // ----- Quota

  /** The active sessions of an organization. */
  function ActiveSessions(s: State, org: nat): set<nat> {
    set i: nat | i < |s.uploads| && s.uploads[i].org == org && IsActive(s.uploads[i].status)
  }

  function SessionsOf(uploads: seq<Upload>, org: nat): set<nat> { set i: nat | i < |uploads| && CountsFor(uploads[i], org) }

  lemma {:induction false} CountIsSize(uploads: seq<Upload>, org: nat)
    ensures ActiveCount(uploads, org) == |SessionsOf(uploads, org)|
  {
    if uploads == [] {
      assert SessionsOf(uploads, org) == {};
    } else {
      var last := |uploads| - 1;
      CountIsSize(uploads[..last], org);
      assert SessionsOf(uploads, org) == SessionsOf(uploads[..last], org) + if CountsFor(uploads[last], org) then {last} else {};
    }
  }

  /** No interleaving of creates, completions, cancellations, expiries and sweeps exceeds a limit. */
  lemma QuotaHolds(c: Config, steps: seq<Step>, org: nat)
    ensures |ActiveSessions(Reached(c, steps), org)| <= c.maxActive
    ensures ActiveBytes(Reached(c, steps).uploads, org) <= c.maxReserved
  {
    hide Run;
    var s := Reached(c, steps);
    ReachedInv(c, steps);
    InvTables(c, s);
    hide Inv, RowsOk, KeysOk, PublicationOk, RemotesOk, WrittenOk, ContentsOk, OutboxOk, DeletesOk;
    CountIsSize(s.uploads, org);
    assert ActiveSessions(s, org) == SessionsOf(s.uploads, org);
  }

  // ----- Publication

  function ArtifactsFor(s: State, id: nat): set<nat> {
    set a | 0 <= a < |s.artifacts| && s.artifacts[a].upload == id
  }

  lemma PublicationMeansOne(s: State, id: nat)
    requires PublicationOk(s.uploads, s.artifacts) && id < |s.uploads|
    ensures |ArtifactsFor(s, id)| == if s.uploads[id].status.Completed? then 1 else 0
  {
    if s.uploads[id].status.Completed? {
      var a :| 0 <= a < |s.artifacts| && s.artifacts[a].upload == id;
      assert ArtifactsFor(s, id) == {a};
    } else {
      assert ArtifactsFor(s, id) == {};
    }
  }

  /** A session is completed if and only if exactly one artifact refers to it; otherwise none does. */
  lemma PublishedExactlyOnce(c: Config, steps: seq<Step>, id: nat)
    requires id < |Reached(c, steps).uploads|
    ensures var s := Reached(c, steps);
            |ArtifactsFor(s, id)| == if s.uploads[id].status.Completed? then 1 else 0
  {
    hide Run;
    ReachedInv(c, steps);
    InvTables(c, Reached(c, steps));
    hide Inv, RowsOk, KeysOk, QuotaOk, PublicationOk, RemotesOk, WrittenOk, ContentsOk, OutboxOk, DeletesOk, ArtifactsFor;
    PublicationMeansOne(Reached(c, steps), id);
  }

  /** The unique constraints and the version check never turn down a completer that got as far as publishing. */
  lemma PublishNeverConflicts(c: Config, s: State, t: Txn)
    requires Inv(c, s) && t in s.locals && s.locals[t].ObjectVerified?
    ensures var l := s.locals[t];
            && l.id < |s.uploads| && s.uploads[l.id] == l.row
            && Publish(s, t).locals[t] == Finished(Created(|s.artifacts|))
            && Publish(s, t).artifacts == s.artifacts + [NewArtifact(l.id, l.row, l.verification)]
            && Publish(s, t).uploads == s.uploads[l.id := CompletedRow(l.row)]
  {
    OwnLocal(c, s, t);
    InvTables(c, s);
    hide Inv, RowsOk, QuotaOk, RemotesOk, WrittenOk, ContentsOk, OutboxOk, DeletesOk, NewArtifact;
    var l := s.locals[t];
    VerdictContent(c, s, l.id, l.row, l.verification);
    hide ContentOk;
    forall i | 0 <= i < |s.artifacts| ensures s.artifacts[i].upload != l.id && s.artifacts[i].key != l.row.key {
      assert s.uploads[s.artifacts[i].upload].status.Completed? && s.uploads[s.artifacts[i].upload].key == s.artifacts[i].key;
    }
  }

  // ----- How rows change over any further steps

  predicate Later(s: State, s': State) {
    && UploadsMove(s, s') && ArtifactsMove(s, s')
    && (forall k | k in s.written :: k in s'.written && s'.written[k] == s.written[k])
    && s.deleteCalls <= s'.deleteCalls
  }

  lemma LaterTransitive(s: State, s1: State, s2: State)
    requires Later(s, s1) && Later(s1, s2)
    ensures Later(s, s2)
  {
    forall id | 0 <= id < |s.uploads| ensures Evolves(s.uploads[id], s2.uploads[id]) {
      EvolvesTransitive(s.uploads[id], s1.uploads[id], s2.uploads[id]);
    }
    forall id | 0 <= id < |s.artifacts| ensures ArtifactEvolves(s.artifacts[id], s2.artifacts[id]) {
      ArtifactEvolvesTransitive(s.artifacts[id], s1.artifacts[id], s2.artifacts[id]);
    }
  }

  lemma StepIsLater(c: Config, s: State, step: Step)
    requires Inv(c, s)
    ensures Later(s, Apply(c, s, step))
  {
    hide Inv, Act, Sweep, TablesOk, LocalOk, UploadsMove, ArtifactsMove, LocksRespected, OthersKept, TakesFreeLocks, PutForeign;
    SameIsLater(s, s);
    match step
    case By(t, action) =>
      ActGood(c, s, t, action);
    case Sweeper(t, chore) =>
      SweepGood(c, s, t, chore);
    case PartArrives(remote, number, part) => SameIsLater(s, Apply(c, s, step));
    case ForeignObject(key, data) => ForeignIsLater(s, key, data);
    case ObjectLost(key) => SameIsLater(s, Apply(c, s, step));
  }

  lemma ForeignIsLater(s: State, key: Key, data: Bytes)
    ensures Later(s, PutForeign(s, key, data))
  {
  }

  lemma SameIsLater(s: State, s': State)
    requires s' == s.(store := s'.store)
    ensures Later(s, s')
  {
  }

  lemma {:induction false} RunIsLater(c: Config, s: State, steps: seq<Step>)
    requires Inv(c, s)
    ensures Later(s, Run(c, s, steps))
  {
    hide Inv, Apply, Later;
    if steps == [] {
      SameIsLater(s, s);
    } else {
      var before := Run(c, s, steps[..|steps| - 1]);
      RunIsLater(c, s, steps[..|steps| - 1]);
      RunKeepsInv(c, s, steps[..|steps| - 1]);
      StepIsLater(c, before, steps[|steps| - 1]);
      LaterTransitive(s, before, Run(c, s, steps));
    }
  }

  /** Sessions: what a later state may show of a session that was there before. */
  lemma SessionLifecycle(c: Config, steps: seq<Step>, more: seq<Step>, id: nat)
    requires id < |Reached(c, steps).uploads|
    ensures var s, s' := Reached(c, steps), Run(c, Reached(c, steps), more);
            && id < |s'.uploads|
            && (var u, u' := s.uploads[id], s'.uploads[id];
                && u.reserved == (if IsActive(u.status) then u.size else 0)
                && SameUpload(u, u') && u.version <= u'.version && (u.version == u'.version ==> u == u')
                && (!IsActive(u.status) ==> !IsActive(u'.status))
                && (u.status.Completed? || u.status.Aborted? ==> u'.status == u.status)
                && (u.status.Expired? ==> u'.status.Expired? || u'.status.Completed?))
  {
    var s := Reached(c, steps);
    ReachedInv(c, steps);
    RunIsLater(c, s, more);
    InvTables(c, s);
    hide Inv, Run, KeysOk, QuotaOk, PublicationOk, RemotesOk, WrittenOk, ContentsOk, OutboxOk, DeletesOk;
    assert RowOk(s.uploads[id]);
    assert Evolves(s.uploads[id], Run(c, s, more).uploads[id]);
  }

  // ----- Deletion

  /** Once a sweeper has called delete on a key, no artifact of that key is served then or ever after,
      not even one that was read as DELETING from a stale work list, nor one published later. */
  lemma NeverDeletesServed(c: Config, steps: seq<Step>, more: seq<Step>, key: Key, a: nat)
    requires key in Reached(c, steps).deleteCalls
    requires a < |Run(c, Reached(c, steps), more).artifacts| && Run(c, Reached(c, steps), more).artifacts[a].key == key
    ensures var status := Run(c, Reached(c, steps), more).artifacts[a].status; status.Deleting? || status.Deleted?
  {
    var s := Reached(c, steps);
    var s' := Run(c, s, more);
    ReachedInv(c, steps);
    RunIsLater(c, s, more);
    RunKeepsInv(c, s, more);
    InvTables(c, s');
    hide Inv, Run, RowsOk, KeysOk, QuotaOk, PublicationOk, RemotesOk, WrittenOk, ContentsOk, OutboxOk;
  }

  // ----- Integrity

  /** An artifact is AVAILABLE only if the bytes once stored under its key have the declared size and
      digest; it was published QUARANTINED otherwise, and that verdict is final. */
  lemma IntegrityHolds(c: Config, steps: seq<Step>, more: seq<Step>, a: nat)
    requires a < |Reached(c, steps).artifacts|
    ensures var s, s' := Reached(c, steps), Run(c, Reached(c, steps), more);
            && a < |s'.artifacts| && s.artifacts[a].upload < |s.uploads|
            && (var art, art', u := s.artifacts[a], s'.artifacts[a], s.uploads[s.artifacts[a].upload];
                && art.key == u.key && art.key in s.written
                && (var data := s.written[art.key];
                    && art.size == |data| && art.sha256 == c.hash(data)
                    && (art.status.Available? || art'.status.Available? || art.status.Failed? ==> |data| == u.size && c.hash(data) == u.sha256)
                    && (art.status.Quarantined? ==> |data| != u.size || c.hash(data) != u.sha256)
                    && SameArtifact(art, art') && art.key in s'.written && s'.written[art.key] == data))
  {
    var s := Reached(c, steps);
    var s' := Run(c, s, more);
    ReachedInv(c, steps);
    RunIsLater(c, s, more);
    RunKeepsInv(c, s, more);
    InvTables(c, s);
    InvTables(c, s');
    hide Inv, Run, RowsOk, KeysOk, QuotaOk, RemotesOk, WrittenOk, OutboxOk, DeletesOk;
    assert ContentOk(c, s.artifacts[a], s.uploads[s.artifacts[a].upload], s.written);
    assert ContentOk(c, s'.artifacts[a], s'.uploads[s'.artifacts[a].upload], s'.written);
    assert ArtifactEvolves(s.artifacts[a], s'.artifacts[a]);
  }

  // ----- Outbox

  lemma {:induction false} HighestIsTop(outbox: seq<Event>, a: nat)
    ensures Highest(outbox, a).None? <==> forall e | e in outbox :: e.artifact != a
    ensures Highest(outbox, a).Some? ==> Event(a, Highest(outbox, a).value) in outbox
    ensures Highest(outbox, a).Some? ==> forall e | e in outbox && e.artifact == a :: Rank(e.kind) <= Rank(Highest(outbox, a).value)
  {
    if outbox != [] {
      HighestIsTop(outbox[..|outbox| - 1], a);
      assert forall e | e in outbox :: e in outbox[..|outbox| - 1] || e == outbox[|outbox| - 1];
    }
  }

  lemma {:induction false} CountIsMultiplicity(outbox: seq<Event>, a: nat)
    ensures CountDeleted(outbox, a) == multiset(outbox)[Event(a, ArtifactDeleted)]
  {
    if outbox != [] {
      CountIsMultiplicity(outbox[..|outbox| - 1], a);
      assert outbox == outbox[..|outbox| - 1] + [outbox[|outbox| - 1]];
    }
  }

  /** The table and the outbox agree: the highest-ranked event committed for an artifact names its status, and
      DELETED rows are the ones with a deleted event, exactly one. */
  lemma OutboxAgrees(c: Config, steps: seq<Step>, a: nat)
    requires a < |Reached(c, steps).artifacts|
    ensures var s := Reached(c, steps);
            && (exists e :: e in s.outbox && e.artifact == a && StatusNamed(e.kind) == s.artifacts[a].status
                            && forall e' | e' in s.outbox && e'.artifact == a :: Rank(e'.kind) <= Rank(e.kind))
            && multiset(s.outbox)[Event(a, ArtifactDeleted)] == if s.artifacts[a].status.Deleted? then 1 else 0
  {
    hide Run;
    var s := Reached(c, steps);
    ReachedInv(c, steps);
    InvTables(c, s);
    hide Inv, RowsOk, KeysOk, QuotaOk, PublicationOk, RemotesOk, WrittenOk, ContentsOk, DeletesOk;
    assert EventsFit(s.outbox, a, s.artifacts[a].status);
    HighestIsTop(s.outbox, a);
    CountIsMultiplicity(s.outbox, a);
    hide Highest, CountDeleted, OutboxOk, StatusNamed, Rank;
    assert Event(a, Highest(s.outbox, a).value) in s.outbox;
  }

  // ----- Served objects

  predicate Present(s: State) {
    forall k | k in s.written :: k in s.store.objects || k in s.deleteCalls
  }

  lemma StepKeepsPresent(c: Config, s: State, step: Step)
    requires Inv(c, s) && Present(s) && !step.ObjectLost?
    ensures Present(Apply(c, s, step))
  {
    hide Inv, Act, Sweep, TablesOk, LocalOk, UploadsMove, ArtifactsMove, LocksRespected, OthersKept, TakesFreeLocks;
    match step
    case By(t, action) => ActGood(c, s, t, action);
    case Sweeper(t, chore) => SweepGood(c, s, t, chore);
    case PartArrives(remote, number, part) =>
    case ForeignObject(key, data) =>
  }

  lemma EmptyPresent()
    ensures Present(EMPTY)
  {
  }

  predicate NothingLost(steps: seq<Step>) { forall i | 0 <= i < |steps| :: !steps[i].ObjectLost? }

  lemma {:induction false} RunKeepsPresent(c: Config, s: State, steps: seq<Step>)
    requires Inv(c, s) && Present(s) && NothingLost(steps)
    ensures Present(Run(c, s, steps))
  {
    hide Inv, Apply, Present;
    if steps != [] {
      var before := steps[..|steps| - 1];
      RunKeepsPresent(c, s, before);
      RunKeepsInv(c, s, before);
      StepKeepsPresent(c, Run(c, s, before), steps[|steps| - 1]);
    }
  }

  /** Unless an object is lost by outside action, the object of every artifact that is not being deleted
      is in the store, with the very bytes that were verified. */
  lemma ServedObjectsAreThere(c: Config, steps: seq<Step>, a: nat)
    requires NothingLost(steps)
    requires a < |Reached(c, steps).artifacts|
    ensures var s, art := Reached(c, steps), Reached(c, steps).artifacts[a];
            art.status.Deleting? || art.status.Deleted?
            || (art.key in s.store.objects && art.size == |s.store.objects[art.key]| && art.sha256 == c.hash(s.store.objects[art.key]))
  {
    hide Run;
    var s := Reached(c, steps);
    EmptyInv(c);
    EmptyPresent();
    RunKeepsPresent(c, EMPTY, steps);
    ReachedInv(c, steps);
    InvTables(c, s);
    hide Inv, RowsOk, KeysOk, QuotaOk, RemotesOk, OutboxOk;
    var art := s.artifacts[a];
    assert ContentOk(c, art, s.uploads[art.upload], s.written);
    assert s.uploads[art.upload].key == art.key;
  }

  // ----- Crash recovery

  /** The rest of a completion after the remote call, without faults. */
  function CarryOn(c: Config, s: State, t: Txn, head: Metadata, chunks: seq<Bytes>): State {
    Publish(VerifyStored(c, s, t, head, chunks, NoFault), t)
  }

  /** A whole fault-free call on a session that is already COMPLETING. */
  function Retry(c: Config, s: State, t: Txn, id: nat, now: Time, manifest: Manifest, head: Metadata, chunks: seq<Bytes>): State {
    var checked := CheckManifest(LockForComplete(s, t, id), t, now, manifest);
    CarryOn(c, HeadAfterFailure(CompleteRemote(checked, t, NoFault), t, NoFault), t, head, chunks)
  }

  predicate MayRetry(s: State, t: Txn, id: nat, now: Time, manifest: Manifest, chunks: seq<Bytes>) {
    && t !in s.locals && id < |s.uploads| && id < |s.parts| && UploadFree(s, t, id)
    && s.uploads[id].status.Completing? && now < s.uploads[id].expiresAt
    && ManifestAccepted(s.parts[id], s.uploads[id].size, manifest)
    && s.uploads[id].key in s.store.objects && Flatten(chunks) == s.store.objects[s.uploads[id].key]
  }

  lemma ConsumedRemote(c: Config, s: State, id: nat)
    requires Inv(c, s) && id < |s.uploads| && s.uploads[id].status.Completing? && s.uploads[id].key in s.store.objects
    ensures s.uploads[id].remote.Some? && s.uploads[id].remote.value !in s.store.multiparts
    ensures s.uploads[id].key in s.written && s.store.objects[s.uploads[id].key] == s.written[s.uploads[id].key]
  {
    ObjectIsWritten(c, s, id);
    CurrentRow(c, s, id);
    hide Inv;
  }

  lemma GoAgain(s: State, t: Txn, l: Local, l': Local)
    ensures Go(Go(s, t, l), t, l') == Go(s, t, l')
  {
    assert s.locals[t := l][t := l'] == s.locals[t := l'];
  }

  lemma RetryChecks(c: Config, s: State, t: Txn, id: nat, now: Time, manifest: Manifest, chunks: seq<Bytes>)
    requires Inv(c, s) && MayRetry(s, t, id, now, manifest, chunks)
    ensures CheckManifest(LockForComplete(s, t, id), t, now, manifest) == Go(s, t, Relocked(id, s.uploads[id], manifest))
  {
    ConsumedRemote(c, s, id);
    hide Inv, ManifestAccepted, HasArtifact, UploadFree, Flatten, Go;
    GoAgain(s, t, CompleteLocked(id, s.uploads[id]), Relocked(id, s.uploads[id], manifest));
    assert LockForComplete(s, t, id) == Go(s, t, CompleteLocked(id, s.uploads[id]));
    GoFields(s, t, CompleteLocked(id, s.uploads[id]));
  }

  lemma GoFields(s: State, t: Txn, l: Local)
    ensures var s' := Go(s, t, l); s' == s.(locals := s'.locals) && t in s'.locals && s'.locals[t] == l
  {
  }

  /** The remote upload is gone, so completing again reports NOT_FOUND; HEAD finds the object. */
  lemma RetryFindsObject(s: State, t: Txn, id: nat, row: Upload, manifest: Manifest)
    requires row.remote.Some? && row.remote.value !in s.store.multiparts && row.key in s.store.objects
    ensures HeadAfterFailure(CompleteRemote(Go(s, t, Relocked(id, row, manifest)), t, NoFault), t, NoFault) == Go(s, t, RemoteDone(id, row))
  {
    hide Go;
    GoFields(s, t, Relocked(id, row, manifest));
    GoAgain(s, t, Relocked(id, row, manifest), RemoteFailed(id, row, NotFound));
    assert CompleteRemote(Go(s, t, Relocked(id, row, manifest)), t, NoFault) == Go(s, t, RemoteFailed(id, row, NotFound)) by {
      hide HeadAfterFailure;
      SameStore(Go(s, t, Relocked(id, row, manifest)));
    }
    GoFields(s, t, RemoteFailed(id, row, NotFound));
    GoAgain(s, t, RemoteFailed(id, row, NotFound), RemoteDone(id, row));
  }

  lemma SameStore(s: State)
    ensures s.(store := s.store, written := s.written) == s
  {
  }

  lemma VerifyFound(c: Config, s: State, t: Txn, id: nat, row: Upload, head: Metadata, chunks: seq<Bytes>)
    requires row.key in s.store.objects && Flatten(chunks) == s.store.objects[row.key]
    ensures VerifyStored(c, Go(s, t, RemoteDone(id, row)), t, head, chunks, NoFault)
         == Go(s, t, ObjectVerified(id, row, Verified(c.hash, head, Flatten(chunks))))
  {
    hide Go, Verified, Flatten;
    GoFields(s, t, RemoteDone(id, row));
    GoAgain(s, t, RemoteDone(id, row), ObjectVerified(id, row, Verified(c.hash, head, Flatten(chunks))));
  }

  /** The verdict on the bytes of a session; what HEAD reported plays no part in it. */
  function Verdict(c: Config, id: nat, row: Upload, data: Bytes): Artifact {
    NewArtifact(id, row, Verified(c.hash, Metadata(0, None, None), data))
  }

  lemma VerdictFollows(c: Config, id: nat, row: Upload, row': Upload, head: Metadata, data: Bytes)
    requires SameUpload(row, row')
    ensures NewArtifact(id, row', Verified(c.hash, head, data)) == Verdict(c, id, row, data)
  {
  }

  /** t has published this one artifact for session id and told its caller so. */
  predicate Publishes(s: State, s': State, t: Txn, id: nat, a: Artifact) {
    && t in s'.locals && s'.locals[t] == Finished(Created(|s.artifacts|))
    && s'.artifacts == s.artifacts + [a]
    && id < |s'.uploads| && s'.uploads[id].status.Completed?
  }

  lemma VerifiedPublishes(c: Config, s: State, t: Txn, id: nat, row: Upload, row': Upload, head: Metadata, data: Bytes)
    requires Inv(c, Go(s, t, ObjectVerified(id, row', Verified(c.hash, head, data)))) && SameUpload(row, row')
    ensures Publishes(s, Publish(Go(s, t, ObjectVerified(id, row', Verified(c.hash, head, data))), t), t, id, Verdict(c, id, row, data))
  {
    hide Inv, NewArtifact, Verified, Verdict;
    var ready := Go(s, t, ObjectVerified(id, row', Verified(c.hash, head, data)));
    PublishNeverConflicts(c, ready, t);
    VerdictFollows(c, id, row, row', head, data);
    FinishedInPublish(c, ready, t);
  }

  lemma FinishedInPublish(c: Config, s: State, t: Txn)
    requires t in s.locals && s.locals[t].ObjectVerified?
    ensures t in Publish(s, t).locals
  {
    hide NewArtifact;
  }

  /** A fault-free retry publishes one artifact, with the verdict on the bytes under the key. */
  lemma RetryPublishes(c: Config, s: State, t: Txn, id: nat, now: Time, manifest: Manifest, head: Metadata, chunks: seq<Bytes>, row: Upload)
    requires Inv(c, s) && MayRetry(s, t, id, now, manifest, chunks) && SameUpload(row, s.uploads[id])
    ensures Publishes(s, Retry(c, s, t, id, now, manifest, head, chunks), t, id, Verdict(c, id, row, Flatten(chunks)))
  {
    var v := ObjectVerified(id, s.uploads[id], Verified(c.hash, head, Flatten(chunks)));
    RetryChecks(c, s, t, id, now, manifest, chunks);
    ConsumedRemote(c, s, id);
    hide Inv, CheckManifest, LockForComplete, HeadAfterFailure, CompleteRemote, VerifyStored, Publish, ManifestAccepted, UploadFree, OrgFree, Go, Flatten, Verdict, Publishes;
    RetryFindsObject(s, t, id, s.uploads[id], manifest);
    VerifyFound(c, s, t, id, s.uploads[id], head, chunks);
    hide Good;
    GoGood(c, s, t, v);
    GoodKeepsInv(c, s, Go(s, t, v), t);
    hide Verified;
    VerifiedPublishes(c, s, t, id, row, s.uploads[id], head, Flatten(chunks));
  }

  /** t is about to call complete_multipart, which would assemble the given chunks. */
  predicate AboutToComplete(s: State, t: Txn, chunks: seq<Bytes>)
    ensures AboutToComplete(s, t, chunks) ==> t in s.locals && s.locals[t].Relocked?
  {
    && t in s.locals && s.locals[t].Relocked?
    && Assembled(s.store, s.locals[t].row.key, s.locals[t].row.remote, s.locals[t].manifest) == Some(Flatten(chunks))
  }

  lemma RemoteTakesEffect(c: Config, s: State, t: Txn, fault: Fault, chunks: seq<Bytes>)
    requires Inv(c, s) && AboutToComplete(s, t, chunks) && !fault.FailsBefore?
    ensures var done, l := CompleteRemote(s, t, fault), s.locals[t];
            && Inv(c, done) && l.id < |s.uploads| && l.row == s.uploads[l.id]
            && done.uploads == s.uploads && done.artifacts == s.artifacts && t in done.locals
            && l.row.key in done.store.objects && done.store.objects[l.row.key] == Flatten(chunks)
            && l.row.key in done.written && done.written[l.row.key] == Flatten(chunks)
            && (fault.NoFault? ==> done.locals[t] == RemoteDone(l.id, l.row))
  {
    hide Inv, CompleteRemote, AboutToComplete, Flatten, TakesFreeLocks;
    OwnLocal(c, s, t);
    StepKeepsInv(c, s, By(t, DoCompleteRemote(fault)));
    RemoteEffect(s, t, fault, chunks);
  }

  lemma RemoteEffect(s: State, t: Txn, fault: Fault, chunks: seq<Bytes>)
    requires AboutToComplete(s, t, chunks) && !fault.FailsBefore?
    ensures var done, l := CompleteRemote(s, t, fault), s.locals[t];
            && done.uploads == s.uploads && done.artifacts == s.artifacts && t in done.locals
            && l.row.key in done.store.objects && done.store.objects[l.row.key] == Flatten(chunks)
            && l.row.key in done.written && done.written[l.row.key] == Flatten(chunks)
            && (fault.NoFault? ==> done.locals[t] == RemoteDone(l.id, l.row))
  {
    hide Assembled, Flatten;
    var l := s.locals[t];
    AssembledRemote(s.store, l.row.key, l.row.remote, l.manifest);
  }

  lemma PublishesFrom(s: State, done: State, s': State, t: Txn, id: nat, a: Artifact)
    requires done.artifacts == s.artifacts && Publishes(done, s', t, id, a)
    ensures Publishes(s, s', t, id, a)
  {
  }

  /** The handler that meets no fault. */
  lemma CrashFree(c: Config, s: State, t: Txn, head: Metadata, chunks: seq<Bytes>)
    requires Inv(c, s) && AboutToComplete(s, t, chunks)
    ensures var l := s.locals[t];
            Publishes(s, CarryOn(c, CompleteRemote(s, t, NoFault), t, head, chunks), t, l.id, Verdict(c, l.id, l.row, Flatten(chunks)))
  {
    hide Inv, AboutToComplete, Flatten, CompleteRemote, Verified, Verdict, VerifyStored, Publish, Publishes, Go;
    var l, done := s.locals[t], CompleteRemote(s, t, NoFault);
    var verified := Go(done, t, ObjectVerified(l.id, l.row, Verified(c.hash, head, Flatten(chunks))));
    RemoteTakesEffect(c, s, t, NoFault, chunks);
    StayPut(done, t);
    VerifyFound(c, done, t, l.id, l.row, head, chunks);
    StepKeepsInv(c, done, By(t, DoVerifyStored(head, chunks, NoFault)));
    VerifiedPublishes(c, done, t, l.id, l.row, l.row, head, Flatten(chunks));
    PublishesFrom(s, done, Publish(verified, t), t, l.id, Verdict(c, l.id, l.row, Flatten(chunks)));
  }

  lemma StayPut(s: State, t: Txn)
    requires t in s.locals
    ensures Go(s, t, s.locals[t]) == s
  {
    assert s.locals[t := s.locals[t]] == s.locals;
  }

  /** complete_multipart took effect (even if its answer was lost) and then the handler died before
      its last commit.  After any further steps of anyone, a fault-free retry publishes the very
      artifact that the handler would have published. */
  lemma CrashRecovery(c: Config, s: State, t: Txn, fault: Fault, head: Metadata, chunks: seq<Bytes>,
                      between: seq<Step>, t': Txn, now: Time, manifest: Manifest, head': Metadata, chunks': seq<Bytes>)
    requires Inv(c, s) && AboutToComplete(s, t, chunks) && !fault.FailsBefore?
    requires MayRetry(Run(c, Interrupt(CompleteRemote(s, t, fault), t), between), t', s.locals[t].id, now, manifest, chunks')
    ensures var l := s.locals[t];
            var later := Run(c, Interrupt(CompleteRemote(s, t, fault), t), between);
            var verdict := Verdict(c, l.id, l.row, Flatten(chunks));
            && Publishes(s, CarryOn(c, CompleteRemote(s, t, NoFault), t, head, chunks), t, l.id, verdict)
            && Publishes(later, Retry(c, later, t', l.id, now, manifest, head', chunks'), t', l.id, verdict)
  {
    hide Inv, CarryOn, Retry, CompleteRemote, Run, AboutToComplete, Flatten, Verdict, Publishes, MayRetry;
    var l, crashed := s.locals[t], Interrupt(CompleteRemote(s, t, fault), t);
    var later := Run(c, crashed, between);
    CrashFree(c, s, t, head, chunks);
    RemoteTakesEffect(c, s, t, fault, chunks);
    StepKeepsInv(c, CompleteRemote(s, t, fault), By(t, DoInterrupt));
    RunIsLater(c, crashed, between);
    RunKeepsInv(c, crashed, between);
    assert later.written[l.row.key] == Flatten(chunks);
    hide Later;
    RecoveredRow(c, crashed, later, l.id, t', now, manifest, chunks');
    RetryPublishes(c, later, t', l.id, now, manifest, head', chunks', l.row);
  }

  /** The retry does find the object, unless an outsider lost it: while the session is COMPLETING nobody else
      removes or replaces it. */
  lemma RecoveryFindsObject(c: Config, s: State, t: Txn, fault: Fault, chunks: seq<Bytes>, between: seq<Step>)
    requires Inv(c, s) && Present(s) && AboutToComplete(s, t, chunks) && !fault.FailsBefore? && NothingLost(between)
    ensures var l := s.locals[t];
            var later := Run(c, Interrupt(CompleteRemote(s, t, fault), t), between);
            && l.id < |later.uploads|
            && (later.uploads[l.id].status.Completing? ==>
                  later.uploads[l.id].key in later.store.objects && later.store.objects[later.uploads[l.id].key] == Flatten(chunks))
  {
    var l, done := s.locals[t], CompleteRemote(s, t, fault);
    var crashed := Interrupt(done, t);
    var later := Run(c, crashed, between);
    RemoteTakesEffect(c, s, t, fault, chunks);
    StepKeepsPresent(c, s, By(t, DoCompleteRemote(fault)));
    hide Inv, CompleteRemote, Run, AboutToComplete, Flatten, Act, NothingLost;
    ActIsCompleteRemote(c, s, t, fault);
    StepKeepsInv(c, done, By(t, DoInterrupt));
    StepKeepsPresent(c, done, By(t, DoInterrupt));
    InterruptKeeps(c, done, t);
    RunIsLater(c, crashed, between);
    RunKeepsInv(c, crashed, between);
    RunKeepsPresent(c, crashed, between);
    hide Interrupt;
    assert later.written[l.row.key] == Flatten(chunks);
    assert Evolves(crashed.uploads[l.id], later.uploads[l.id]);
    hide Later;
    if later.uploads[l.id].status.Completing? {
      NotDeletedWhileCompleting(c, later, l.id);
    }
  }

  lemma ActIsCompleteRemote(c: Config, s: State, t: Txn, fault: Fault)
    ensures Act(c, s, t, DoCompleteRemote(fault)) == CompleteRemote(s, t, fault)
  {
    hide CompleteRemote;
  }

  lemma InterruptKeeps(c: Config, s: State, t: Txn)
    ensures Act(c, s, t, DoInterrupt) == Interrupt(s, t)
    ensures Interrupt(s, t).uploads == s.uploads && Interrupt(s, t).written == s.written && Interrupt(s, t).store == s.store
  {
  }

  lemma NotDeletedWhileCompleting(c: Config, s: State, id: nat)
    requires Inv(c, s) && Present(s) && id < |s.uploads| && s.uploads[id].status.Completing? && s.uploads[id].key in s.written
    ensures s.uploads[id].key in s.store.objects && s.store.objects[s.uploads[id].key] == s.written[s.uploads[id].key]
  {
    InvTables(c, s);
    hide Inv, RowsOk, KeysOk, QuotaOk, PublicationOk, RemotesOk, ContentsOk, OutboxOk;
  }

  lemma RecoveredRow(c: Config, crashed: State, later: State, id: nat, t: Txn, now: Time, manifest: Manifest, chunks: seq<Bytes>)
    requires Later(crashed, later) && id < |crashed.uploads| && Inv(c, later) && MayRetry(later, t, id, now, manifest, chunks)
    ensures id < |later.uploads| && SameUpload(crashed.uploads[id], later.uploads[id])
    ensures later.uploads[id].key in later.written && Flatten(chunks) == later.written[later.uploads[id].key]
  {
    ConsumedRemote(c, later, id);
    hide Inv, Flatten, ManifestAccepted, UploadFree;
    assert Evolves(crashed.uploads[id], later.uploads[id]);
  }

  /** Whoever publishes a session, now or later, gives the verdict on the first bytes written under its key. */
  lemma OneVerdict(c: Config, s: State, more: seq<Step>, id: nat, a: nat)
    requires Inv(c, s) && id < |s.uploads| && s.uploads[id].key in s.written
    requires a < |Run(c, s, more).artifacts| && Run(c, s, more).artifacts[a].upload == id
    ensures SameArtifact(Verdict(c, id, s.uploads[id], s.written[s.uploads[id].key]), Run(c, s, more).artifacts[a])
  {
    var s' := Run(c, s, more);
    RunIsLater(c, s, more);
    RunKeepsInv(c, s, more);
    InvTables(c, s');
    hide Inv, Run, RowsOk, KeysOk, QuotaOk, RemotesOk, WrittenOk, OutboxOk, DeletesOk;
    assert Evolves(s.uploads[id], s'.uploads[id]);
    assert ContentOk(c, s'.artifacts[a], s'.uploads[id], s'.written);
  }

  // ----- What the code does not promise

  /** A delete request decides by the row it read without a lock: it is recorded if and only if that row had the
      version asked for and was not DELETED, and was DELETING already or has not been written since.  So it may
      be recorded for a row that is DELETED by then, and refused for a row that is still AVAILABLE. */
  lemma DeletionIsRecorded(c: Config, s: State, t: Txn, ifMatch: int)
    requires Inv(c, s) && t in s.locals && s.locals[t].ArtifactViewed?
    ensures var l, s' := s.locals[t], RequestDeletion(s, t, ifMatch);
            && l.id < |s.artifacts|
            && (var now := s.artifacts[l.id];
                var recorded := l.artifact.version == ifMatch && !l.artifact.status.Deleted?
                                && (l.artifact.status.Deleting? || now.version == l.artifact.version);
                && s'.outbox == (if recorded then s.outbox + [Event(l.id, DeletionRequested)] else s.outbox)
                && s'.artifacts == (if recorded && !l.artifact.status.Deleting? then s.artifacts[l.id := ArtifactRow(now, Deleting)] else s.artifacts)
                && t in s'.locals && (s'.locals[t] == Finished(Done) <==> recorded)
                && (recorded ==> s'.artifacts[l.id].status.Deleting? || s'.artifacts[l.id].status.Deleted?))
  {
    OwnLocal(c, s, t);
    hide Inv, TakesFreeLocks;
  }

  /** With nobody in between: recorded if and only if the version matches and the artifact is not DELETED. */
  lemma DeletionIsRecordedEachTime(c: Config, s: State, t: Txn, id: nat, ifMatch: int)
    requires Inv(c, s) && t !in s.locals && id < |s.artifacts|
    ensures var a, s' := s.artifacts[id], RequestDeletion(ReadArtifact(s, t, id), t, ifMatch);
            if a.version == ifMatch && !a.status.Deleted?
            then s'.outbox == s.outbox + [Event(id, DeletionRequested)] && id < |s'.artifacts| && s'.artifacts[id].status.Deleting?
            else s'.outbox == s.outbox && s'.artifacts == s.artifacts
  {
    hide Inv, RequestDeletion, ReadArtifact;
    StepKeepsInv(c, s, By(t, DoReadArtifact(id)));
    ReadIsAct(c, s, t, id);
    DeletionIsRecorded(c, ReadArtifact(s, t, id), t, ifMatch);
  }

  lemma ReadIsAct(c: Config, s: State, t: Txn, id: nat)
    requires t !in s.locals && id < |s.artifacts|
    ensures Act(c, s, t, DoReadArtifact(id)) == ReadArtifact(s, t, id)
    ensures ReadArtifact(s, t, id) == s.(locals := s.locals[t := ArtifactViewed(id, s.artifacts[id])])
  {
  }
}
