/** What the handlers decide, told by the stored rows and the request alone.  Statuses, times, sums and the fields
    of a row are written out here, independently of the predicates and queries that the handlers and the machine
    share.  A call runs alone; UploadHandlers.CallIsRun makes it a run of the machine.
  */
module UploadDecisions {
  import opened ArtifactDomain
  import opened ObjectStore
  import opened Completion
  import opened UploadProtocol
  import opened UploadInvariant
  import opened UploadHandlers
  import opened PartLists
  import UploadSteps

  /** The call has answered and these are the tables and the store. */
  predicate Answers(s: State, v: State, reply: Reply) { s == At(v, Finished(reply)) }

  predicate IsOpen(row: Upload) { row.status == PendingUpload || row.status == Uploading || row.status == Completing }

  /** The session is open and its time is up. */
  predicate Overdue(row: Upload, now: Time) { IsOpen(row) && row.expiresAt <= now }

  function With(v: State, id: nat, row: Upload): State
    requires id < |v.uploads|
  {
    v.(uploads := v.uploads[id := row])
  }

  function Ended(row: Upload, status: UploadStatus): Upload { row.(status := status, reserved := 0, version := row.version + 1) }

  // ----- create

  /** The open sessions of an organization. */
  function OpenSessions(v: State, org: nat): set<nat> {
    set i: nat | i < |v.uploads| && v.uploads[i].org == org && IsOpen(v.uploads[i])
  }

  function Reservations(v: State): nat -> nat { (i: nat) => if i < |v.uploads| then v.uploads[i].reserved else 0 }

  function OpenBelow(v: State, org: nat, k: nat): set<nat> { set i | i in OpenSessions(v, org) && i < k }

  lemma OneMore(v: State, org: nat, k: nat)
    requires k < |v.uploads|
    ensures var before, open := OpenBelow(v, org, k), OpenBelow(v, org, k + 1);
            if CountsFor(v.uploads[k], org) then k in open && k !in before && open == before + {k} && open - {k} == before else open == before
  {
  }

  lemma {:induction false} QueryCounts(v: State, org: nat, k: nat)
    requires k <= |v.uploads|
    ensures ActiveCount(v.uploads[..k], org) == |OpenBelow(v, org, k)|
    ensures ActiveBytes(v.uploads[..k], org) == Sum(OpenBelow(v, org, k), Reservations(v))
  {
    var rows, open := v.uploads[..k], OpenBelow(v, org, k);
    if k == 0 {
      assert open == {};
    } else {
      QueryCounts(v, org, k - 1);
      OneMore(v, org, k - 1);
      assert rows[..k - 1] == v.uploads[..k - 1] && rows[k - 1] == v.uploads[k - 1];
      assert ActiveCount(rows, org) == ActiveCount(rows[..k - 1], org) + if CountsFor(rows[k - 1], org) then 1 else 0;
      assert ActiveBytes(rows, org) == ActiveBytes(rows[..k - 1], org) + if CountsFor(rows[k - 1], org) then rows[k - 1].reserved else 0;
      hide CountsFor, OpenBelow, ActiveCount, ActiveBytes, Sum;
      if CountsFor(rows[k - 1], org) {
        SumWithout(open, Reservations(v), k - 1);
      }
    }
  }

  /** A file that is too large is refused, then the number of open sessions of the organization and the sum of their
      reservations decide; a session that is created reserves its whole size. */
  lemma CreateDecides(c: Config, v: State, org: nat, size: nat, sha256: Digest, key: Key, expiresAt: Time)
    requires v.locals == map[] && key !in v.usedKeys
    ensures var open, s' := OpenSessions(v, org), CreateCall(c, v, org, size, sha256, key, expiresAt);
            if size > c.maxFile then Answers(s', v, Refused(UploadTooLarge))
            else if |open| >= c.maxActive then Answers(s', v, Refused(ConcurrencyLimit))
            else if Sum(open, Reservations(v)) + size > c.maxReserved then Answers(s', v, Refused(QuotaExceeded))
            else
              var row := Upload(org, key, size, sha256, expiresAt, PendingUpload, None, size, 1, Cleanup(0, None));
              Answers(s', v.(uploads := v.uploads + [row], parts := v.parts + [map[]], usedKeys := v.usedKeys + {key}), Done)
  {
    CreatedAlone(c, v, org, size, sha256, key, expiresAt);
    QueryCounts(v, org, |v.uploads|);
    assert v.uploads[..|v.uploads|] == v.uploads;
    assert OpenBelow(v, org, |v.uploads|) == OpenSessions(v, org);
    hide CreateCall, ActiveCount, ActiveBytes, Sum, OpenSessions, Reservations;
  }

  // ----- get

  /** Reading a session expires it if it is overdue, and changes nothing else. */
  lemma GetDecides(v: State, id: nat, now: Time)
    requires id < |v.uploads| && v.locals == map[]
    ensures var row := v.uploads[id];
            Answers(GetCall(v, id, now), if Overdue(row, now) then With(v, id, Ended(row, Expired)) else v, Done)
  {
    var row := v.uploads[id];
    ViewedAnswers(v, id);
    UpdateAt(v, Viewed(id, row), id, ExpiredRow(row), Finished(Done));
    hide UpdateUpload, ReadUpload, Finish;
  }

  // ----- register

  /** The number comes first, then the time and the status; a number that is on record is confirmed with the same
      part and refused with another, a new one is recorded. */
  lemma RegisterDecides(v: State, id: nat, now: Time, number: nat, part: Part)
    requires id < |v.uploads| && |v.parts| == |v.uploads| && v.locals == map[]
    ensures var row, s' := v.uploads[id], RegisterCall(v, id, now, number, part);
            if number == 0 || number > 10_000 then Answers(s', v, Refused(InvalidPartNumber))
            else if Overdue(row, now) then Answers(s', With(v, id, Ended(row, Expired)), Refused(UploadExpired))
            else if row.status != Uploading then Answers(s', v, Refused(StateConflict))
            else if number in v.parts[id] && v.parts[id][number] != part then Answers(s', v, Refused(PartConflict))
            else if number in v.parts[id] then Answers(s', v, Done)
            else
              var after: map<nat, Part> := v.parts[id][number := part];
              Answers(s', v.(parts := v.parts[id := after]), Done)
  {
    var row := v.uploads[id];
    ViewedAnswers(v, id);
    UpdateAt(v, Viewed(id, row), id, ExpiredRow(row), Finished(Refused(UploadExpired)));
    var after: map<nat, Part> := v.parts[id][number := part];
    ViewedAnswersIn(v.(parts := v.parts[id := after]), id, row);
    hide UpdateUpload, ReadUpload, Go;
  }

  // ----- cancel

  /** The abort call that cancel makes, if the session has a remote upload, fails. */
  predicate AbortFails(v: State, row: Upload, fault: Fault) {
    row.remote.Some? && AbortMultipart(v.store, row.key, row.remote.value, fault).1.Some?
  }

  /** A cancel of a session that is not overdue, whose abort call does not fail, cancels it if and only if it is
      PENDING_UPLOAD, UPLOADING or ABORTED: then it ends ABORTED with nothing reserved and no remote upload in the store.
      A COMPLETING, COMPLETED, EXPIRED or FAILED session is refused and nothing changes. */
  lemma CancelsIff(c: Config, v: State, id: nat, now: Time, fault: Fault)
    requires Inv(c, v) && v.locals == map[] && id < |v.uploads|
    requires !Overdue(v.uploads[id], now) && !AbortFails(v, v.uploads[id], fault)
    ensures var row, s' := v.uploads[id], CancelCall(v, id, now, fault);
            && T in s'.locals && |s'.uploads| == |v.uploads|
            && (row.status == PendingUpload || row.status == Uploading || row.status == Aborted
                <==> s'.locals[T] == Finished(Done) && s'.uploads[id].status == Aborted && s'.uploads[id].reserved == 0)
            && (row.status == Completing || row.status == Completed || row.status == Expired || row.status == UploadFailed
                <==> Answers(s', v, Refused(StateConflict)))
            && (s'.uploads[id].status == Aborted && row.remote.Some? ==> row.remote.value !in s'.store.multiparts)
  {
    UploadSteps.CurrentRow(c, v, id);
    hide Inv;
    CancelledAlone(v, id, now, fault);
    hide CancelCall;
  }

  /** In all cases: an overdue session is expired instead; a call to abort that fails leaves the tables as they are. */
  lemma CancelDecides(v: State, id: nat, now: Time, fault: Fault)
    requires id < |v.uploads| && v.locals == map[]
    ensures var row, s' := v.uploads[id], CancelCall(v, id, now, fault);
            if Overdue(row, now) then Answers(s', With(v, id, Ended(row, Expired)), Done)
            else if row.status == Completing || row.status == Completed || row.status == Expired || row.status == UploadFailed
            then Answers(s', v, Refused(StateConflict))
            else
              var v1 := if row.remote.Some? then v.(store := AbortMultipart(v.store, row.key, row.remote.value, fault).0) else v;
              if AbortFails(v, row, fault) then Answers(s', v1, Refused(StorageUnavailable))
              else Answers(s', if row.status == Aborted then v1 else With(v1, id, Ended(row, Aborted)), Done)
  {
    CancelledAlone(v, id, now, fault);
    hide CancelCall, AbortMultipart;
  }

  // ----- sign

  function WithRemote(v: State, key: Key, remote: RemoteId): State {
    v.(store := v.store.(multiparts := v.store.multiparts[remote := Multipart(key, map[])]), usedRemotes := v.usedRemotes + {remote})
  }

  /** The first call to sign starts the remote upload and records it, an UPLOADING session is only signed for, and no
      other is; a failure of the store leaves the row as it is, of signing only the answer. */
  lemma SignDecides(c: Config, v: State, id: nat, now: Time, remote: RemoteId, fault: Fault, signs: bool)
    requires Inv(c, v) && v.locals == map[] && id < |v.uploads| && remote !in v.usedRemotes
    ensures var row, s' := v.uploads[id], SignCall(v, id, now, remote, fault, signs);
            var answer := if signs then Done else Refused(StorageUnavailable);
            if Overdue(row, now) then Answers(s', With(v, id, Ended(row, Expired)), Refused(UploadExpired))
            else if row.status == PendingUpload then
              if fault.FailsBefore? then Answers(s', v, Refused(StorageUnavailable))
              else if fault.FailsAfter? then Answers(s', WithRemote(v, row.key, remote), Refused(StorageUnavailable))
              else
                Answers(s', With(WithRemote(v, row.key, remote), id,
                                 row.(status := Uploading, remote := Some(remote), version := row.version + 1)), answer)
            else if row.status == Uploading then Answers(s', v, answer)
            else Answers(s', v, Refused(StateConflict))
  {
    var row := v.uploads[id];
    UploadSteps.CurrentRow(c, v, id);
    hide Inv, RemoteOk;
    LockedForSign(v, id, now, remote, fault, signs);
    if row.status == PendingUpload && !Overdue(row, now) {
      RemoteStarts(v, id, now, remote, fault, signs);
      RemoteCommitted(Started(v, row.key, remote), id, remote, signs);
      hide StartRemote, CommitStarted, SignCall;
    } else {
      SignedFor(v, id, now, remote, fault, signs);
      hide StartRemote, CommitStarted, SignCall;
    }
  }

  lemma LockedForSign(v: State, id: nat, now: Time, remote: RemoteId, fault: Fault, signs: bool)
    requires v.locals == map[] && id < |v.uploads|
    ensures SignCall(v, id, now, remote, fault, signs)
         == CommitStarted(StartRemote(At(v, SignLocked(id, v.uploads[id])), T, now, remote, fault, signs), T, signs)
  {
    var locked := SignLocked(id, v.uploads[id]);
    FreeAt(v, locked, id);
    GoAt(v, locked, locked);
    hide StartRemote, CommitStarted, UploadFree;
  }

  lemma SignedFor(v: State, id: nat, now: Time, remote: RemoteId, fault: Fault, signs: bool)
    requires id < |v.uploads|
    ensures var row := v.uploads[id];
            var locked := At(v, SignLocked(id, row));
            var s' := CommitStarted(StartRemote(locked, T, now, remote, fault, signs), T, signs);
            if Overdue(row, now) then Answers(s', With(v, id, Ended(row, Expired)), Refused(UploadExpired))
            else if row.status == PendingUpload then true
            else if row.status == Uploading && row.remote.Some? then Answers(s', v, if signs then Done else Refused(StorageUnavailable))
            else Answers(s', v, Refused(StateConflict))
  {
    var row := v.uploads[id];
    var locked := SignLocked(id, row);
    UpdateAt(v, locked, id, ExpiredRow(row), Finished(Refused(UploadExpired)));
    GoAt(v, locked, Finished(Refused(StateConflict)));
    GoAt(v, locked, Finished(SigningAnswer(signs)));
    hide UpdateUpload, Go, StartMultipart;
  }

  // ----- complete, up to the remote call

  /** A completed session is answered with its artifact; then the time, the status and the part list decide, and an
      UPLOADING session that passes is checkpointed. */
  lemma CheckDecides(c: Config, v: State, id: nat, now: Time, manifest: Manifest)
    requires Inv(c, v) && v.locals == map[] && id < |v.uploads| && id < |v.parts| && Numbered(v.parts[id])
    ensures var row, s' := v.uploads[id], CheckCall(v, id, now, manifest);
            if row.status == Completed then exists a: nat | a < |v.artifacts| && v.artifacts[a].upload == id :: Answers(s', v, Replayed(a))
            else if Overdue(row, now) then Answers(s', With(v, id, Ended(row, Expired)), Refused(UploadExpired))
            else if !MayComplete(row) then Answers(s', v, Refused(StateConflict))
            else if !IsWhole(v.parts[id], row.size, manifest) then Answers(s', v, Refused(PartListMismatch))
            else
              var row' := if row.status == Uploading then row.(status := Completing, version := row.version + 1) else row;
              s' == At(With(v, id, row'), Relocked(id, row', manifest))
  {
    var row := v.uploads[id];
    UploadSteps.CurrentRow(c, v, id);
    assert |v.parts| == |v.uploads|;
    if row.status == Completed {
      UploadSteps.CompletedHasArtifact(c, v, id);
    }
    hide Inv, RemoteOk;
    CheckedAlone(v, id, now, manifest);
    AcceptedIffWhole(v.parts[id], row.size, manifest);
    if row.status == Completed {
      FoundArtifact(v, id);
    }
    hide CheckCall, ManifestAccepted, IsWhole, HasArtifact, ArtifactOf, At, SetUpload;
    assert v.uploads[id := row] == v.uploads;
  }

  lemma FoundArtifact(v: State, id: nat)
    requires HasArtifact(v, id)
    ensures ArtifactOf(v, id) < |v.artifacts| && v.artifacts[ArtifactOf(v, id)].upload == id
  {
  }

  // ----- complete, from the verification on

  /** Size and digest of the object decide the verdict; the artifact, the completed session and the event say so. */
  lemma PublishDecides(c: Config, v: State, id: nat, w: Weather)
    requires Inv(c, v) && id < |v.uploads| && !v.uploads[id].status.Completed? && v.uploads[id].key in v.store.objects && w.verifying == NoFault
    ensures var row := v.uploads[id];
            var data := v.store.objects[row.key];
            var same := |data| == row.size && c.hash(data) == row.sha256;
            var artifact := Artifact(id, row.key, |data|, c.hash(data), same, if same then Available else Quarantined, 1, Cleanup(0, None));
            Answers(PublishCall(c, At(v, RemoteDone(id, row)), w),
                    v.(uploads := v.uploads[id := Ended(row, Completed)], artifacts := v.artifacts + [artifact],
                       outbox := v.outbox + [Event(|v.artifacts|, if same then ArtifactVerified else ArtifactQuarantined)]),
                    Created(|v.artifacts|))
  {
    var row := v.uploads[id];
    VerifiedAlone(c, v, id, row, w);
    PublishedAlone(v, id, row, Verified(c.hash, w.head, v.store.objects[row.key]));
    NothingPublished(c, v, id);
    hide Inv, PublishCall, Publish;
  }

  lemma NothingPublished(c: Config, v: State, id: nat)
    requires Inv(c, v) && id < |v.uploads| && !v.uploads[id].status.Completed?
    ensures forall i | 0 <= i < |v.artifacts| :: v.artifacts[i].upload != id && v.artifacts[i].key != v.uploads[id].key
  {
    hide RowsOk, QuotaOk, RemotesOk, WrittenOk, ContentsOk, OutboxOk, DeletesOk, LocalsOk, Exclusive;
  }

  // ----- delete

  /** The version comes first, then whether the artifact is deleted already; a request is recorded every time. */
  lemma DeleteDecides(v: State, id: nat, ifMatch: int)
    requires id < |v.artifacts| && v.locals == map[]
    ensures var a, s' := v.artifacts[id], DeleteCall(v, id, ifMatch);
            var recorded := v.(outbox := v.outbox + [Event(id, DeletionRequested)]);
            if a.version != ifMatch then Answers(s', v, Refused(VersionMismatch))
            else if a.status == Deleted then Answers(s', v, Refused(ArtifactNotFound))
            else if a.status == Deleting then Answers(s', recorded, Done)
            else Answers(s', recorded.(artifacts := v.artifacts[id := a.(status := Deleting, version := a.version + 1)]), Done)
  {
    var a := v.artifacts[id];
    var read := ArtifactViewed(id, a);
    GoAt(v, read, read);
    GoAt(v, read, Finished(Refused(VersionMismatch)));
    GoAt(v, read, Finished(Refused(ArtifactNotFound)));
    GoAt(v, read, Finished(Done));
    GoAt(v.(artifacts := v.artifacts[id := a.(status := Deleting, version := a.version + 1)]), read, Finished(Done));
    hide Go;
  }
}
