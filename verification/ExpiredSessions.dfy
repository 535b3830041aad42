/** EXPIRED is not final: a completer that committed the checkpoint before the session expired may go on
    and complete it.  Whether some run does can be read off the state: ExpiredIsFinal.
  */
module ExpiredSessions {
  import opened ArtifactDomain
  import opened ObjectStore
  import opened Completion
  import opened UploadProtocol
  import opened UploadInvariant
  import opened UploadSteps
  import opened ArtifactSteps
  import opened UploadLocals
  import opened UploadRuns
  import opened UploadTheorems

  /** The step publishes session id. */
  predicate PublishesSession(s: State, step: Step, id: nat) {
    step.By? && step.action.DoPublish? && step.t in s.locals && s.locals[step.t].ObjectVerified? && s.locals[step.t].id == id
  }

  lemma OnlyPublishInserts(c: Config, s: State, step: Step)
    requires !(step.By? && step.action.DoPublish? && step.t in s.locals && s.locals[step.t].ObjectVerified?)
    ensures |Apply(c, s, step).artifacts| == |s.artifacts|
  {
    if step.By? {
      ActInsertsNone(c, s, step.t, step.action);
    } else if step.Sweeper? {
      hide Act;
      SweepInsertsNone(c, s, step.t, step.chore);
    }
  }

  lemma ActInsertsNone(c: Config, s: State, t: Txn, a: Action)
    requires !(a.DoPublish? && t in s.locals && s.locals[t].ObjectVerified?)
    ensures |Act(c, s, t, a).artifacts| == |s.artifacts|
  {
    hide ManifestAccepted, HasArtifact, NewArtifact, UploadFree, OrgFree, IsPastDue, CompleteMultipart, AbortMultipart, Head, Verified;
  }

  lemma SweepInsertsNone(c: Config, s: State, t: Txn, chore: Chore)
    ensures |Sweep(c, s, t, chore).artifacts| == |s.artifacts|
  {
    hide NeedsSweep, UploadFree, ExpireBatch, TasksOf, Picks, AbortMultipart, DeleteObject, Head, RetryDue, RetryUploadRow, RetryArtifactRow;
  }

  /** Without a new artifact no session becomes completed. */
  lemma CompletedNeedsArtifact(s: State, s': State, id: nat)
    requires PublicationOk(s.uploads, s.artifacts) && PublicationOk(s'.uploads, s'.artifacts)
    requires UploadsMove(s, s') && ArtifactsMove(s, s') && |s'.artifacts| == |s.artifacts| && id < |s.uploads|
    ensures s'.uploads[id].status.Completed? ==> s.uploads[id].status.Completed?
  {
    if s'.uploads[id].status.Completed? {
      var a :| 0 <= a < |s'.artifacts| && s'.artifacts[a].upload == id;
      assert ArtifactEvolves(s.artifacts[a], s'.artifacts[a]);
      assert s.artifacts[a].upload == id;
    }
  }

  /** In every reachable state: the step that publishes the session, and no other, takes it out of EXPIRED. */
  lemma LeavesExpiredOnlyByPublishing(c: Config, s: State, step: Step, id: nat)
    requires Inv(c, s) && id < |s.uploads| && s.uploads[id].status.Expired?
    ensures id < |Apply(c, s, step).uploads|
    ensures !Apply(c, s, step).uploads[id].status.Expired? <==> PublishesSession(s, step, id)
  {
    var s' := Apply(c, s, step);
    StepIsLater(c, s, step);
    StepKeepsInv(c, s, step);
    InvTables(c, s);
    InvTables(c, s');
    hide Inv, RowsOk, KeysOk, QuotaOk, RemotesOk, WrittenOk, ContentsOk, OutboxOk, DeletesOk, Act, Sweep, TakesFreeLocks;
    assert Evolves(s.uploads[id], s'.uploads[id]);
    if step.By? && step.action.DoPublish? && step.t in s.locals && s.locals[step.t].ObjectVerified? {
      PublishNeverConflicts(c, s, step.t);
      PublishIsAct(c, s, step.t);
      hide Publish, PublicationOk, ArtifactsMove, NewArtifact, UploadsMove;
    } else {
      OnlyPublishInserts(c, s, step);
      CompletedNeedsArtifact(s, s', id);
    }
  }

  lemma PublishIsAct(c: Config, s: State, t: Txn)
    ensures Act(c, s, t, DoPublish) == Publish(s, t)
  {
    hide Publish;
  }

  // ----- When an expired session can still be completed

  /** No part number is listed under two etags: the parts can be there all at once. */
  predicate Assemblable(m: Manifest) { forall i, j | 0 <= i < |m| && 0 <= j < |m| && m[i].0 == m[j].0 :: m[i].1 == m[j].1 }

  /** The transaction has yet to call complete_multipart for the session. */
  predicate MayAssemble(l: Local, id: nat) { (l.Checkpointed? || l.Relocked?) && l.id == id && Assemblable(l.manifest) }

  predicate HasVerifier(s: State, id: nat) { exists t | t in s.locals :: s.locals[t].ObjectVerified? && s.locals[t].id == id }
  predicate HasCompleter(s: State, id: nat) { exists t | t in s.locals :: PastTheCheckpoint(s.locals[t], id) }
  predicate HasAssembler(s: State, id: nat) { exists t | t in s.locals :: MayAssemble(s.locals[t], id) }

  predicate ObjectExists(s: State, id: nat)
    requires id < |s.uploads|
  {
    s.uploads[id].key in s.store.objects
  }

  predicate RemoteExists(s: State, id: nat)
    requires id < |s.uploads|
  {
    s.uploads[id].remote.Some? && s.uploads[id].remote.value in s.store.multiparts
  }

  /** Some completer past the checkpoint has verified the object, or can find it, or can still make it. */
  predicate StillCompletable(s: State, id: nat)
    requires id < |s.uploads|
  {
    HasVerifier(s, id) || (ObjectExists(s, id) && HasCompleter(s, id)) || (RemoteExists(s, id) && HasAssembler(s, id))
  }

  lemma {:induction false} AssembledIsAssemblable(parts: map<nat, StoredPart>, m: Manifest)
    requires Assemble(parts, m).Some?
    ensures forall i | 0 <= i < |m| :: m[i].0 in parts && parts[m[i].0].etag == m[i].1
    ensures Assemblable(m)
  {
    if m != [] {
      AssembledIsAssemblable(parts, m[1..]);
      forall i | 0 <= i < |m| ensures m[i].0 in parts && parts[m[i].0].etag == m[i].1 {
        if i > 0 {
          assert m[i] == m[1..][i - 1];
        }
      }
    }
  }

  // ----- Once it cannot be completed, no step makes it completable

  lemma ActKeepsObjects(c: Config, s: State, t: Txn, a: Action)
    requires !a.DoCompleteRemote?
    ensures Act(c, s, t, a).store.objects.Keys <= s.store.objects.Keys
  {
    hide ManifestAccepted, HasArtifact, NewArtifact, UploadFree, OrgFree, IsPastDue, Head, Verified, UpdateUpload, UpdateArtifact;
    if t in s.locals {
      UpdatesKeepStore(s, t);
    }
  }

  lemma UpdatesKeepStore(s: State, t: Txn)
    ensures forall id, seen, next, done :: UpdateUpload(s, t, id, seen, next, done).store == s.store
    ensures forall id, seen, next, kind, done :: UpdateArtifact(s, t, id, seen, next, kind, done).store == s.store
  {
    hide UploadFree;
  }

  lemma SweepKeepsObjects(c: Config, s: State, t: Txn, chore: Chore)
    ensures Sweep(c, s, t, chore).store.objects.Keys <= s.store.objects.Keys
  {
    hide NeedsSweep, UploadFree, ExpireBatch, TasksOf, Picks, Head, RetryDue, RetryUploadRow, RetryArtifactRow, UpdateUpload, UpdateArtifact;
    UpdatesKeepStore(s, t);
  }

  /** complete_multipart makes the object of the session it is called for, if its parts can be put together. */
  lemma CompleteRemoteMakes(s: State, t: Txn, fault: Fault, key: Key)
    requires key in CompleteRemote(s, t, fault).store.objects && key !in s.store.objects
    ensures t in s.locals && s.locals[t].Relocked? && s.locals[t].row.key == key
    ensures var l := s.locals[t];
            l.row.remote.Some? && l.row.remote.value in s.store.multiparts && Assemblable(l.manifest)
  {
    var l := s.locals[t];
    hide Assemblable, Assemble;
    AssembledIsAssemblable(s.store.multiparts[l.row.remote.value].parts, l.manifest);
  }

  lemma SameKeySameSession(s: State, id: nat, id': nat)
    requires KeysOk(s.uploads, s.usedKeys) && id < |s.uploads| && id' < |s.uploads| && s.uploads[id].key == s.uploads[id'].key
    ensures id == id'
  {
  }

  lemma ObjectsStayAway(c: Config, s: State, step: Step, id: nat)
    requires Inv(c, s) && id < |s.uploads| && !ObjectExists(s, id) && !(RemoteExists(s, id) && HasAssembler(s, id))
    ensures s.uploads[id].key !in Apply(c, s, step).store.objects
  {
    hide Act, Sweep, LocalOk, Assemblable, CompleteRemote, TakesFreeLocks;
    var key := s.uploads[id].key;
    match step
    case By(t, action) =>
      hide Inv;
      if !action.DoCompleteRemote? {
        ActKeepsObjects(c, s, t, action);
      } else {
        RemoteIsAct(c, s, t, action.fault);
        if key in CompleteRemote(s, t, action.fault).store.objects {
          CompleteRemoteMakes(s, t, action.fault, key);
          RelockedRow(c, s, t, id);
          assert false;
        }
      }
    case Sweeper(t, chore) => hide Inv; SweepKeepsObjects(c, s, t, chore);
    case PartArrives(_, _, _) =>
    case ForeignObject(_, _) =>
    case ObjectLost(_) =>
  }

  lemma RemoteIsAct(c: Config, s: State, t: Txn, fault: Fault)
    ensures Act(c, s, t, DoCompleteRemote(fault)) == CompleteRemote(s, t, fault)
  {
    hide CompleteRemote;
  }

  lemma RelockedRow(c: Config, s: State, t: Txn, id: nat)
    requires Inv(c, s) && t in s.locals && s.locals[t].Relocked? && id < |s.uploads| && s.locals[t].row.key == s.uploads[id].key
    ensures s.locals[t].id == id && s.locals[t].row == s.uploads[id]
  {
    OwnLocal(c, s, t);
    InvTables(c, s);
    hide Inv, RowsOk, QuotaOk, PublicationOk, RemotesOk, WrittenOk, ContentsOk, OutboxOk, DeletesOk, TakesFreeLocks;
    SameKeySameSession(s, s.locals[t].id, id);
  }

  lemma RemoteStaysAway(c: Config, s: State, step: Step, id: nat)
    requires Inv(c, s) && id < |s.uploads| && s.uploads[id].status.Expired? && !RemoteExists(s, id)
    ensures id < |Apply(c, s, step).uploads| && !RemoteExists(Apply(c, s, step), id)
  {
    StepIsLater(c, s, step);
    CurrentRow(c, s, id);
    FreshRemotes(c, s, step);
    hide Inv, Act, Sweep, PutPart, PutForeign;
    assert Evolves(s.uploads[id], Apply(c, s, step).uploads[id]);
  }

  lemma FreshRemotes(c: Config, s: State, step: Step)
    requires Inv(c, s)
    ensures forall r | r in s.usedRemotes && r in Apply(c, s, step).store.multiparts :: r in s.store.multiparts
  {
    hide Inv, Act, Sweep, TakesFreeLocks, UploadsMove, ArtifactsMove, LocksRespected, OthersKept;
    match step
    case By(t, action) => ActGood(c, s, t, action);
    case Sweeper(t, chore) => SweepGood(c, s, t, chore);
    case _ =>
  }

  /** What the step of a completer shows about its transaction before the step. */
  lemma CompleterCameFrom(c: Config, s: State, t: Txn, a: Action, id: nat)
    requires CompletionStep(a) && t in s.locals && LocalOk(c, s, s.locals[t]) && id < |s.uploads| && s.uploads[id].status.Expired?
    requires t in Act(c, s, t, a).locals && PastTheCheckpoint(Act(c, s, t, a).locals[t], id)
    ensures var l, l' := s.locals[t], Act(c, s, t, a).locals[t];
            && PastTheCheckpoint(l, id) && (MayAssemble(l', id) ==> MayAssemble(l, id))
            && (l'.ObjectVerified? && !l.ObjectVerified? ==> ObjectExists(s, id))
  {
    hide ManifestAccepted, HasArtifact, UploadFree, CompleteMultipart, Assembled, Verified, Evolves, Flatten, Assemblable;
    match a
    case DoCheckManifest(now, manifest) =>
    case DoRelock =>
    case _ =>
  }

  lemma OwnCompleter(c: Config, s: State, t: Txn, a: Action, id: nat)
    requires Inv(c, s) && id < |s.uploads| && s.uploads[id].status.Expired?
    requires t in Act(c, s, t, a).locals && PastTheCheckpoint(Act(c, s, t, a).locals[t], id)
    ensures t in s.locals
    ensures var l, l' := s.locals[t], Act(c, s, t, a).locals[t];
            && PastTheCheckpoint(l, id) && (MayAssemble(l', id) ==> MayAssemble(l, id))
            && (l'.ObjectVerified? && !l.ObjectVerified? ==> ObjectExists(s, id))
  {
    if t in s.locals && CompletionStep(a) {
      OwnLocal(c, s, t);
      hide Inv, Act, PastTheCheckpoint, LocalOk, MayAssemble;
      CompleterCameFrom(c, s, t, a, id);
    } else if CompletionStep(a) {
      NothingToDo(c, s, t, a);
    } else if a.DoReadUpload? {
      ReadViewsRow(c, s, t, a.id);
      hide Act, Inv;
    } else {
      ActEntersNothing(c, s, t, a);
      hide Act, Inv;
    }
  }

  lemma NothingToDo(c: Config, s: State, t: Txn, a: Action)
    requires CompletionStep(a) && t !in s.locals
    ensures Act(c, s, t, a) == s
  {
    hide Inv;
  }

  /** Whoever is past the checkpoint after a step was so before it. */
  lemma CompletersStay(c: Config, s: State, step: Step, id: nat, t: Txn)
    requires Inv(c, s) && id < |s.uploads| && s.uploads[id].status.Expired?
    requires t in Apply(c, s, step).locals && PastTheCheckpoint(Apply(c, s, step).locals[t], id)
    ensures t in s.locals
    ensures var l, l' := s.locals[t], Apply(c, s, step).locals[t];
            && PastTheCheckpoint(l, id) && (MayAssemble(l', id) ==> MayAssemble(l, id))
            && (l'.ObjectVerified? && !l.ObjectVerified? ==> ObjectExists(s, id))
  {
    hide Inv, Act, Sweep, PastTheCheckpoint, MayAssemble, TakesFreeLocks, UploadsMove, ArtifactsMove, LocksRespected, FreshOnly, ObjectExists;
    match step
    case By(u, action) =>
      if u == t {
        OwnCompleter(c, s, t, action, id);
      } else {
        ActGood(c, s, u, action);
      }
    case Sweeper(u, chore) =>
      if u == t {
        SweepEntersNothing(c, s, t, chore);
        CompleterIsTracked(s, Sweep(c, s, t, chore), t, id);
      } else {
        SweepGood(c, s, u, chore);
      }
    case PartArrives(_, _, _) =>
    case ForeignObject(_, _) =>
    case ObjectLost(_) =>
  }

  lemma CompleterIsTracked(s: State, s': State, t: Txn, id: nat)
    requires NothingEntered(s, s', t) && t in s'.locals && PastTheCheckpoint(s'.locals[t], id)
    ensures t in s.locals && s.locals[t] == s'.locals[t]
  {
  }

  lemma StepKeepsLost(c: Config, s: State, step: Step, id: nat)
    requires Inv(c, s) && id < |s.uploads| && s.uploads[id].status.Expired? && !StillCompletable(s, id)
    ensures var s' := Apply(c, s, step);
            id < |s'.uploads| && s'.uploads[id].status.Expired? && !StillCompletable(s', id)
  {
    var s' := Apply(c, s, step);
    LeavesExpiredOnlyByPublishing(c, s, step, id);
    RowKeepsKey(c, s, step, id);
    hide Inv, Apply, PastTheCheckpoint, MayAssemble;
    if t :| t in s'.locals && PastTheCheckpoint(s'.locals[t], id) {
      CompletersStay(c, s, step, id, t);
      if !ObjectExists(s, id) {
        ObjectsStayAway(c, s, step, id);
      }
    }
    if !RemoteExists(s, id) {
      RemoteStaysAway(c, s, step, id);
    }
    if HasVerifier(s', id) {
      var t :| t in s'.locals && s'.locals[t].ObjectVerified? && s'.locals[t].id == id;
      VerifierIsPast(s'.locals[t], id);
      CompletersStay(c, s, step, id, t);
      assert false;
    }
    if HasAssembler(s', id) && RemoteExists(s', id) {
      var t :| t in s'.locals && MayAssemble(s'.locals[t], id);
      AssemblerIsPast(s'.locals[t], id);
      CompletersStay(c, s, step, id, t);
      assert false;
    }
  }

  lemma VerifierIsPast(l: Local, id: nat)
    requires l.ObjectVerified? && l.id == id
    ensures PastTheCheckpoint(l, id)
  {
  }

  lemma AssemblerIsPast(l: Local, id: nat)
    requires MayAssemble(l, id)
    ensures PastTheCheckpoint(l, id)
  {
  }

  lemma RowKeepsKey(c: Config, s: State, step: Step, id: nat)
    requires Inv(c, s) && id < |s.uploads|
    ensures id < |Apply(c, s, step).uploads| && Apply(c, s, step).uploads[id].key == s.uploads[id].key
  {
    StepIsLater(c, s, step);
    hide Inv, Apply;
    assert Evolves(s.uploads[id], Apply(c, s, step).uploads[id]);
  }

  lemma {:induction false} LostStaysExpired(c: Config, s: State, steps: seq<Step>, id: nat)
    requires Inv(c, s) && id < |s.uploads| && s.uploads[id].status.Expired? && !StillCompletable(s, id)
    ensures var s' := Run(c, s, steps);
            id < |s'.uploads| && s'.uploads[id].status.Expired? && !StillCompletable(s', id)
  {
    hide Inv, Apply, StillCompletable;
    if steps != [] {
      LostStaysExpired(c, s, steps[..|steps| - 1], id);
      RunKeepsInv(c, s, steps[..|steps| - 1]);
      StepKeepsLost(c, Run(c, s, steps[..|steps| - 1]), steps[|steps| - 1], id);
    }
  }

  // ----- While it can be completed, some steps complete it

  predicate CompletedBy(c: Config, s: State, steps: seq<Step>, id: nat) {
    var s' := Run(c, s, steps);
    id < |s'.uploads| && s'.uploads[id].status.Completed?
  }

  lemma FirstThen(c: Config, s: State, first: Step, rest: seq<Step>, id: nat)
    requires CompletedBy(c, Apply(c, s, first), rest, id)
    ensures CompletedBy(c, s, [first] + rest, id)
  {
    hide Run, Apply;
    RunJoins(c, s, [first], rest);
    RunOne(c, s, first);
  }

  lemma VerifierCompletes(c: Config, s: State, t: Txn, id: nat) returns (steps: seq<Step>)
    requires Inv(c, s) && t in s.locals && s.locals[t].ObjectVerified? && s.locals[t].id == id
    ensures CompletedBy(c, s, steps, id)
  {
    steps := [By(t, DoPublish)];
    PublishNeverConflicts(c, s, t);
    PublishIsAct(c, s, t);
    RunOne(c, s, By(t, DoPublish));
    hide Inv, Publish, Run, Act, NewArtifact;
  }

  lemma FlattenOne(data: Bytes)
    ensures Flatten([data]) == data
  {
    var none: seq<Bytes> := [];
    assert [data][..0] == none;
  }

  lemma VerifiesWhole(c: Config, s: State, t: Txn)
    requires t in s.locals && s.locals[t].RemoteDone? && s.locals[t].row.key in s.store.objects
    ensures var a := DoVerifyStored(Metadata(0, None, None), [s.store.objects[s.locals[t].row.key]], NoFault);
            var s' := Act(c, s, t, a);
            t in s'.locals && s'.locals[t].ObjectVerified? && s'.locals[t].id == s.locals[t].id
  {
    var data := s.store.objects[s.locals[t].row.key];
    FlattenOne(data);
    hide Flatten;
  }

  lemma HeldRow(c: Config, s: State, t: Txn, id: nat)
    requires Inv(c, s) && t in s.locals && PastTheCheckpoint(s.locals[t], id) && !s.locals[t].Checkpointed?
    ensures id < |s.uploads| && s.locals[t].row == s.uploads[id]
  {
    OwnLocal(c, s, t);
    hide Inv, TakesFreeLocks;
  }

  lemma DoneCompletes(c: Config, s: State, t: Txn, id: nat) returns (steps: seq<Step>)
    requires Inv(c, s) && t in s.locals && s.locals[t].RemoteDone? && s.locals[t].id == id
    requires id < |s.uploads| && ObjectExists(s, id)
    ensures CompletedBy(c, s, steps, id)
  {
    HeldRow(c, s, t, id);
    hide Inv, Act, CompletedBy;
    VerifiesWhole(c, s, t);
    var first := By(t, DoVerifyStored(Metadata(0, None, None), [s.store.objects[s.locals[t].row.key]], NoFault));
    StepKeepsInv(c, s, first);
    steps := VerifierCompletes(c, Apply(c, s, first), t, id);
    FirstThen(c, s, first, steps, id);
    steps := [first] + steps;
  }

  lemma FailedCompletes(c: Config, s: State, t: Txn, id: nat) returns (steps: seq<Step>)
    requires Inv(c, s) && t in s.locals && s.locals[t].RemoteFailed? && s.locals[t].id == id
    requires id < |s.uploads| && ObjectExists(s, id)
    ensures CompletedBy(c, s, steps, id)
  {
    HeldRow(c, s, t, id);
    var first := By(t, DoHeadAfterFailure(NoFault));
    assert Apply(c, s, first) == Go(s, t, RemoteDone(id, s.locals[t].row)) by { hide Inv, Go; }
    hide Inv, Act, CompletedBy;
    StepKeepsInv(c, s, first);
    steps := DoneCompletes(c, Apply(c, s, first), t, id);
    FirstThen(c, s, first, steps, id);
    steps := [first] + steps;
  }

  /** With the object there, a call that fails at once sends the completer to the HEAD fallback. */
  lemma FindsObject(c: Config, s: State, t: Txn, id: nat) returns (steps: seq<Step>)
    requires Inv(c, s) && t in s.locals && s.locals[t].Relocked? && s.locals[t].id == id
    requires id < |s.uploads| && ObjectExists(s, id)
    ensures CompletedBy(c, s, steps, id)
  {
    var l := s.locals[t];
    var first := By(t, DoCompleteRemote(FailsBefore(Internal)));
    assert Apply(c, s, first) == Go(s, t, RemoteFailed(l.id, l.row, Internal)) by { hide Inv, Go; assert s.(store := s.store, written := s.written) == s; }
    hide Inv, Act, CompletedBy;
    StepKeepsInv(c, s, first);
    steps := FailedCompletes(c, Apply(c, s, first), t, id);
    FirstThen(c, s, first, steps, id);
    steps := [first] + steps;
  }

  // ----- Clients may still upload what the manifest lists

  predicate Stored(parts: map<nat, StoredPart>, m: Manifest, k: nat)
    requires k <= |m|
  {
    forall i | 0 <= i < k :: m[i].0 in parts && parts[m[i].0].etag == m[i].1
  }

  lemma {:induction false} StoredAssembles(parts: map<nat, StoredPart>, m: Manifest)
    requires Stored(parts, m, |m|)
    ensures Assemble(parts, m).Some?
  {
    if m != [] {
      forall i | 0 <= i < |m| - 1 ensures m[1..][i].0 in parts && parts[m[1..][i].0].etag == m[1..][i].1 {
        assert m[1..][i] == m[i + 1];
      }
      StoredAssembles(parts, m[1..]);
    }
  }

  /** The first k parts of the manifest arrive. */
  lemma {:induction false} PartsArriveFirst(c: Config, s: State, remote: RemoteId, m: Manifest, k: nat) returns (steps: seq<Step>)
    requires remote in s.store.multiparts && Assemblable(m) && k <= |m|
    ensures var s' := Run(c, s, steps);
            && remote in s'.store.multiparts && s'.store.multiparts[remote].key == s.store.multiparts[remote].key
            && Stored(s'.store.multiparts[remote].parts, m, k) && s' == s.(store := s'.store)
  {
    steps := [];
    if k > 0 {
      steps := PartsArriveFirst(c, s, remote, m, k - 1);
      var last := PartArrives(remote, m[k - 1].0, StoredPart(m[k - 1].1, []));
      hide Run, Assemblable, Stored;
      RunNext(c, s, steps, last);
      OneMoreStored(Run(c, s, steps).store.multiparts[remote].parts, m, k);
      steps := steps + [last];
    }
  }

  lemma OneMoreStored(parts: map<nat, StoredPart>, m: Manifest, k: nat)
    requires 0 < k <= |m| && Assemblable(m) && Stored(parts, m, k - 1)
    ensures Stored(parts[m[k - 1].0 := StoredPart(m[k - 1].1, [])], m, k)
  {
  }

  lemma MakesObject(c: Config, s: State, t: Txn, id: nat) returns (steps: seq<Step>)
    requires Inv(c, s) && t in s.locals && s.locals[t].Relocked? && s.locals[t].id == id && Assemblable(s.locals[t].manifest)
    requires id < |s.uploads| && RemoteExists(s, id)
    ensures CompletedBy(c, s, steps, id)
  {
    var m, remote := s.locals[t].manifest, s.uploads[id].remote.value;
    HeldRow(c, s, t, id);
    CurrentRow(c, s, id);
    var arrivals := PartsArriveFirst(c, s, remote, m, |m|);
    RunKeepsInv(c, s, arrivals);
    hide Inv, Run, Act, CompletedBy, Assemblable;
    var s1 := Run(c, s, arrivals);
    StoredAssembles(s1.store.multiparts[remote].parts, m);
    var data := Assemble(s1.store.multiparts[remote].parts, m).value;
    FlattenOne(data);
    hide Assemble, Flatten, Stored;
    assert AboutToComplete(s1, t, [data]);
    RemoteTakesEffect(c, s1, t, NoFault, [data]);
    hide AboutToComplete, CompleteRemote;
    RemoteIsAct(c, s1, t, NoFault);
    var first := By(t, DoCompleteRemote(NoFault));
    steps := DoneCompletes(c, Apply(c, s1, first), t, id);
    FirstThen(c, s1, first, steps, id);
    RunsJoin(c, s, arrivals, [first] + steps, id);
    steps := arrivals + ([first] + steps);
  }

  lemma RunsJoin(c: Config, s: State, steps: seq<Step>, more: seq<Step>, id: nat)
    requires CompletedBy(c, Run(c, s, steps), more, id)
    ensures CompletedBy(c, s, steps + more, id)
  {
    hide Run;
    RunJoins(c, s, steps, more);
  }

  lemma RelockedCompletes(c: Config, s: State, t: Txn, id: nat) returns (steps: seq<Step>)
    requires Inv(c, s) && t in s.locals && s.locals[t].Relocked? && s.locals[t].id == id
    requires id < |s.uploads| && (ObjectExists(s, id) || (RemoteExists(s, id) && Assemblable(s.locals[t].manifest)))
    ensures CompletedBy(c, s, steps, id)
  {
    hide Inv, CompletedBy, Assemblable;
    if ObjectExists(s, id) {
      steps := FindsObject(c, s, t, id);
    } else {
      steps := MakesObject(c, s, t, id);
    }
  }

  /** With the row free, a completer takes it again. */
  lemma FreeCompletes(c: Config, s: State, t: Txn, id: nat) returns (steps: seq<Step>)
    requires Inv(c, s) && t in s.locals && s.locals[t].Checkpointed? && s.locals[t].id == id && UploadFree(s, t, id)
    requires id < |s.uploads| && s.uploads[id].status.Expired? && (ObjectExists(s, id) || (RemoteExists(s, id) && Assemblable(s.locals[t].manifest)))
    ensures CompletedBy(c, s, steps, id)
  {
    var first := By(t, DoRelock);
    RelocksExpired(s, t, id, s.locals[t].manifest);
    assert Apply(c, s, first) == Relock(s, t) by { hide Inv, Relock; }
    hide Inv, Act, CompletedBy, Assemblable, Relock, UploadFree;
    StepKeepsInv(c, s, first);
    steps := RelockedCompletes(c, Apply(c, s, first), t, id);
    FirstThen(c, s, first, steps, id);
    steps := [first] + steps;
  }

  /** Whoever holds the row may be interrupted first. */
  lemma CheckpointedCompletes(c: Config, s: State, t: Txn, id: nat) returns (steps: seq<Step>)
    requires Inv(c, s) && t in s.locals && s.locals[t].Checkpointed? && s.locals[t].id == id
    requires id < |s.uploads| && s.uploads[id].status.Expired? && (ObjectExists(s, id) || (RemoteExists(s, id) && Assemblable(s.locals[t].manifest)))
    ensures CompletedBy(c, s, steps, id)
  {
    hide CompletedBy, Assemblable;
    if UploadFree(s, t, id) {
      hide Inv;
      steps := FreeCompletes(c, s, t, id);
    } else {
      var u :| u in s.locals && u != t && LocksUpload(s.locals[u], id);
      InterruptFrees(c, s, t, u, id);
      hide Inv, Act, UploadFree;
      var first := By(u, DoInterrupt);
      StepKeepsInv(c, s, first);
      steps := FreeCompletes(c, Apply(c, s, first), t, id);
      FirstThen(c, s, first, steps, id);
      steps := [first] + steps;
    }
  }

  lemma InterruptFrees(c: Config, s: State, t: Txn, u: Txn, id: nat)
    requires Inv(c, s) && t in s.locals && u in s.locals && u != t && LocksUpload(s.locals[u], id)
    ensures var s' := Act(c, s, u, DoInterrupt);
            && UploadFree(s', t, id) && s' == s.(locals := s'.locals) && t in s'.locals && s'.locals[t] == s.locals[t]
  {
    hide TablesOk, LocalsOk;
    assert Act(c, s, u, DoInterrupt) == Go(s, u, Finished(Refused(Interrupted)));
    forall v | v in s.locals && v != u ensures !LocksUpload(s.locals[v], id) {
    }
  }

  lemma CompleterCompletes(c: Config, s: State, t: Txn, id: nat) returns (steps: seq<Step>)
    requires Inv(c, s) && t in s.locals && PastTheCheckpoint(s.locals[t], id) && id < |s.uploads| && s.uploads[id].status.Expired?
    requires s.locals[t].ObjectVerified? || ObjectExists(s, id) || (RemoteExists(s, id) && MayAssemble(s.locals[t], id))
    ensures CompletedBy(c, s, steps, id)
  {
    hide Inv, CompletedBy, Assemblable;
    var l := s.locals[t];
    if l.ObjectVerified? {
      steps := VerifierCompletes(c, s, t, id);
    } else if l.RemoteDone? {
      steps := DoneCompletes(c, s, t, id);
    } else if l.RemoteFailed? {
      steps := FailedCompletes(c, s, t, id);
    } else if l.Relocked? {
      steps := RelockedCompletes(c, s, t, id);
    } else {
      steps := CheckpointedCompletes(c, s, t, id);
    }
  }

  lemma CompletableIsCompleted(c: Config, s: State, id: nat) returns (steps: seq<Step>)
    requires Inv(c, s) && id < |s.uploads| && s.uploads[id].status.Expired? && StillCompletable(s, id)
    ensures CompletedBy(c, s, steps, id)
  {
    hide Inv, CompletedBy, Assemblable;
    if HasVerifier(s, id) {
      var t :| t in s.locals && s.locals[t].ObjectVerified? && s.locals[t].id == id;
      steps := CompleterCompletes(c, s, t, id);
    } else if ObjectExists(s, id) && HasCompleter(s, id) {
      var t :| t in s.locals && PastTheCheckpoint(s.locals[t], id);
      steps := CompleterCompletes(c, s, t, id);
    } else {
      var t :| t in s.locals && MayAssemble(s.locals[t], id);
      steps := CompleterCompletes(c, s, t, id);
    }
  }

  /** The exact condition, on any consistent state: some run completes an expired session if and only if a
      completer past the checkpoint has verified the object, or the object exists and some completer is past the
      checkpoint, or the remote upload exists and some completer has yet to complete it. */
  lemma ExpiredCompletesIff(c: Config, s: State, id: nat)
    requires Inv(c, s) && id < |s.uploads| && s.uploads[id].status.Expired?
    ensures (exists steps :: CompletedBy(c, s, steps, id)) <==> StillCompletable(s, id)
  {
    hide Inv, StillCompletable;
    if StillCompletable(s, id) {
      var steps := CompletableIsCompleted(c, s, id);
    } else {
      forall steps ensures !CompletedBy(c, s, steps, id) {
        LostStaysExpired(c, s, steps, id);
      }
    }
  }

  // ----- In reachable states every manifest can be assembled

  predicate ManifestsOk(s: State) {
    forall t | t in s.locals && (s.locals[t].Checkpointed? || s.locals[t].Relocked?) :: Assemblable(s.locals[t].manifest)
  }

  lemma {:induction false} RegisteredAscends(parts: map<nat, Part>, from: nat)
    ensures forall i | 0 <= i < |RegisteredFrom(parts, from)| :: RegisteredFrom(parts, from)[i].0 >= from
    ensures forall i, j | 0 <= i < j < |RegisteredFrom(parts, from)| :: RegisteredFrom(parts, from)[i].0 < RegisteredFrom(parts, from)[j].0
    decreases MAX_PART + 1 - from
  {
    if from <= MAX_PART {
      RegisteredAscends(parts, from + 1);
    }
  }

  lemma AcceptedIsAssemblable(parts: map<nat, Part>, size: nat, m: Manifest)
    requires ManifestAccepted(parts, size, m)
    ensures Assemblable(m)
  {
    RegisteredAscends(parts, 1);
    hide RegisteredFrom, TotalSize;
  }

  lemma StepKeepsManifests(c: Config, s: State, step: Step)
    requires Inv(c, s) && ManifestsOk(s)
    ensures ManifestsOk(Apply(c, s, step))
  {
    hide Inv, Act, Sweep, Assemblable, TakesFreeLocks, UploadsMove, ArtifactsMove, LocksRespected, FreshOnly;
    match step
    case By(t, action) => ActGood(c, s, t, action); ActKeepsManifest(c, s, t, action);
    case Sweeper(t, chore) => SweepGood(c, s, t, chore); SweepEntersNothing(c, s, t, chore);
    case PartArrives(_, _, _) =>
    case ForeignObject(_, _) =>
    case ObjectLost(_) =>
  }

  lemma ActKeepsManifest(c: Config, s: State, t: Txn, a: Action)
    requires ManifestsOk(s)
    ensures var s' := Act(c, s, t, a);
            t in s'.locals && (s'.locals[t].Checkpointed? || s'.locals[t].Relocked?) ==> Assemblable(s'.locals[t].manifest)
  {
    hide Assemblable;
    if CompletionStep(a) {
      CompletionKeepsManifest(c, s, t, a);
    } else if a.DoReadUpload? {
      ReadViewsRow(c, s, t, a.id);
      hide Act;
    } else {
      ActEntersNothing(c, s, t, a);
      hide Act;
    }
  }

  predicate AtManifest(s: State, t: Txn) { t in s.locals && (s.locals[t].Checkpointed? || s.locals[t].Relocked?) }

  lemma UpdateGoesTo(s: State, t: Txn, id: nat, seen: Upload, next: Upload, done: Local)
    requires t in s.locals
    ensures var s' := UpdateUpload(s, t, id, seen, next, done);
            t in s'.locals && (s'.locals[t] == s.locals[t] || s'.locals[t].Finished? || s'.locals[t] == done)
  {
    hide UploadFree;
  }

  lemma CheckKeepsManifest(s: State, t: Txn, now: Time, manifest: Manifest)
    requires ManifestsOk(s)
    ensures var s' := CheckManifest(s, t, now, manifest); AtManifest(s', t) ==> Assemblable(s'.locals[t].manifest)
  {
    hide Assemblable, HasArtifact, UpdateUpload, ManifestAccepted, IsPastDue, ArtifactFrom;
    if t in s.locals && s.locals[t].CompleteLocked? && s.locals[t].id < |s.parts| {
      var l := s.locals[t];
      UpdateGoesTo(s, t, l.id, l.row, ExpiredRow(l.row), Finished(Refused(UploadExpired)));
      UpdateGoesTo(s, t, l.id, l.row, CheckpointRow(l.row), Checkpointed(l.id, manifest));
      if ManifestAccepted(s.parts[l.id], l.row.size, manifest) {
        AcceptedIsAssemblable(s.parts[l.id], l.row.size, manifest);
      }
      hide ExpiredRow, CheckpointRow;
    }
  }

  lemma RelockKeepsManifest(s: State, t: Txn)
    requires ManifestsOk(s)
    ensures var s' := Relock(s, t); AtManifest(s', t) ==> Assemblable(s'.locals[t].manifest)
  {
    hide Assemblable, HasArtifact, UploadFree;
  }

  lemma RestKeepsManifest(c: Config, s: State, t: Txn, a: Action)
    requires ManifestsOk(s) && (a.DoCompleteRemote? || a.DoHeadAfterFailure? || a.DoVerifyStored?)
    ensures var s' := Act(c, s, t, a); AtManifest(s', t) ==> Assemblable(s'.locals[t].manifest)
  {
    hide Assemblable, CompleteMultipart, Assembled, Verified, Head, Flatten;
  }

  lemma CompletionKeepsManifest(c: Config, s: State, t: Txn, a: Action)
    requires ManifestsOk(s) && CompletionStep(a)
    ensures var s' := Act(c, s, t, a); AtManifest(s', t) ==> Assemblable(s'.locals[t].manifest)
  {
    hide Assemblable, CheckManifest, Relock, ManifestsOk, AtManifest;
    match a
    case DoCheckManifest(now, manifest) => CheckKeepsManifest(s, t, now, manifest);
    case DoRelock => RelockKeepsManifest(s, t);
    case _ =>
      hide Act;
      RestKeepsManifest(c, s, t, a);
  }

  lemma {:induction false} ReachedManifests(c: Config, steps: seq<Step>)
    ensures ManifestsOk(Reached(c, steps))
  {
    hide Inv, Apply;
    if steps != [] {
      ReachedManifests(c, steps[..|steps| - 1]);
      ReachedInv(c, steps[..|steps| - 1]);
      StepKeepsManifests(c, Reached(c, steps[..|steps| - 1]), steps[|steps| - 1]);
    }
  }

  /** The transaction has yet to call complete_multipart for session id. */
  predicate BeforeRemote(l: Local, id: nat) { (l.Checkpointed? || l.Relocked?) && l.id == id }

  lemma AllMayAssemble(s: State, id: nat)
    requires ManifestsOk(s)
    ensures HasAssembler(s, id) <==> exists t | t in s.locals :: BeforeRemote(s.locals[t], id)
  {
    hide Assemblable;
    if t :| t in s.locals && BeforeRemote(s.locals[t], id) {
      assert MayAssemble(s.locals[t], id);
    }
    if t :| t in s.locals && MayAssemble(s.locals[t], id) {
      assert BeforeRemote(s.locals[t], id);
    }
  }

  /** In every reachable state: an expired session stays EXPIRED for ever if and only if no transaction has
      verified its object, none is past its checkpoint while the object is in the store, and none is before its
      remote call while the remote upload exists. */
  lemma ExpiredIsFinal(c: Config, steps: seq<Step>, id: nat)
    requires id < |Reached(c, steps).uploads| && Reached(c, steps).uploads[id].status.Expired?
    ensures var s := Reached(c, steps);
            (forall more :: id < |Run(c, s, more).uploads| && Run(c, s, more).uploads[id].status.Expired?)
              <==> && !HasVerifier(s, id)
                   && !(ObjectExists(s, id) && HasCompleter(s, id))
                   && !(RemoteExists(s, id) && exists t | t in s.locals :: BeforeRemote(s.locals[t], id))
  {
    var s := Reached(c, steps);
    ReachedInv(c, steps);
    ReachedManifests(c, steps);
    hide Inv, Run, Assemblable, PastTheCheckpoint;
    AllMayAssemble(s, id);
    hide ManifestsOk, BeforeRemote, HasAssembler, HasVerifier, HasCompleter, ObjectExists, RemoteExists;
    if StillCompletable(s, id) {
      var more := CompletableIsCompleted(c, s, id);
      assert !Run(c, s, more).uploads[id].status.Expired?;
    } else {
      forall more ensures id < |Run(c, s, more).uploads| && Run(c, s, more).uploads[id].status.Expired? {
        LostStaysExpired(c, s, more, id);
      }
    }
  }

  // ----- How an expired session is completed

  /** While t stands past the checkpoint, another handler u reads the session after its time and expires it. */
  function ExpireBy(s: State, u: Txn, id: nat, now: Time): State { ExpireViewed(ReadUpload(s, u, id), u, now) }

  lemma ExpiresPastCheckpoint(s: State, t: Txn, u: Txn, id: nat, manifest: Manifest, now: Time)
    requires t in s.locals && s.locals[t] == Checkpointed(id, manifest) && u !in s.locals
    requires id < |s.uploads| && IsPastDue(s.uploads[id], now) && UploadFree(s, u, id)
    ensures var s1 := ExpireBy(s, u, id, now);
            && s1 == s.(uploads := s.uploads[id := ExpiredRow(s.uploads[id])], locals := s.locals[u := Finished(Done)])
            && s1.uploads[id].status.Expired? && s1.locals[t] == Checkpointed(id, manifest)
  {
    var s0 := ReadUpload(s, u, id);
    assert UploadFree(s0, u, id);
    assert s.locals[u := Viewed(id, s.uploads[id])][u := Finished(Done)] == s.locals[u := Finished(Done)];
    hide UploadFree;
  }

  lemma RelocksExpired(s: State, t: Txn, id: nat, manifest: Manifest)
    requires t in s.locals && s.locals[t] == Checkpointed(id, manifest) && id < |s.uploads| && s.uploads[id].status.Expired? && UploadFree(s, t, id)
    ensures Relock(s, t) == Go(s, t, Relocked(id, s.uploads[id], manifest))
  {
    hide UploadFree;
  }

  /** The session is EXPIRED, and the completer publishes it all the same. */
  lemma ExpiredIsCompleted(c: Config, s: State, t: Txn, u: Txn, id: nat, manifest: Manifest, now: Time, head: Metadata, chunks: seq<Bytes>)
    requires Inv(c, s) && t in s.locals && s.locals[t] == Checkpointed(id, manifest) && u !in s.locals
    requires id < |s.uploads| && IsPastDue(s.uploads[id], now) && UploadFree(s, u, id)
    requires Assembled(s.store, s.uploads[id].key, s.uploads[id].remote, manifest) == Some(Flatten(chunks))
    ensures var expired := ExpireBy(s, u, id, now);
            var done := CarryOn(c, CompleteRemote(Relock(expired, t), t, NoFault), t, head, chunks);
            && expired.uploads[id].status.Expired?
            && id < |done.uploads| && done.uploads[id].status.Completed?
  {
    var expired := ExpireBy(s, u, id, now);
    ExpiresPastCheckpoint(s, t, u, id, manifest, now);
    assert UploadFree(expired, t, id);
    ExpireByKeepsInv(c, s, u, id, now);
    hide UploadFree, Flatten, Assembled, Inv, CarryOn, CompleteRemote, ExpireBy, IsPastDue;
    RelocksExpired(expired, t, id, manifest);
    RelockKeepsInv(c, expired, t);
    hide Relock;
    CrashFree(c, Relock(expired, t), t, head, chunks);
  }

  lemma ExpireByKeepsInv(c: Config, s: State, u: Txn, id: nat, now: Time)
    requires Inv(c, s)
    ensures Inv(c, ExpireBy(s, u, id, now))
  {
    hide Inv, ReadUpload, ExpireViewed;
    StepKeepsInv(c, s, By(u, DoReadUpload(id)));
    StepKeepsInv(c, ReadUpload(s, u, id), By(u, DoExpireViewed(now)));
  }

  lemma RelockKeepsInv(c: Config, s: State, t: Txn)
    requires Inv(c, s)
    ensures Inv(c, Relock(s, t))
  {
    hide Inv, Relock;
    StepKeepsInv(c, s, By(t, DoRelock));
  }
}
