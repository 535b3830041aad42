/** The sweeper's loops are runs of the protocol machine: one transaction that takes its steps with
    nobody in between.  So what holds of every run holds of the service.
  */
module MaintenanceRuns {
  import opened ArtifactDomain
  import opened ObjectStore
  import opened UploadProtocol
  import opened Keyset
  import opened Maintenance
  import opened MaintenanceTheorems
  import opened UploadInvariant
  import opened UploadSteps
  import opened ArtifactSteps
  import opened UploadRuns

  function LedgerOf(s: State): Ledger { Ledger(s.uploads, s.artifacts, s.outbox, s.store, NO_METRICS) }

  /** The state with the tables of l, and t at the given point. */
  function Place(s: State, t: Txn, l: Ledger, at: Local): State {
    s.(uploads := l.uploads, artifacts := l.artifacts, outbox := l.outbox, store := l.store, locals := s.locals[t := at])
  }

  /** Nobody holds the row of session id. */
  predicate Unheld(s: State, id: nat) { forall u | u in s.locals :: !LocksUpload(s.locals[u], id) }

  predicate AllUnheld(s: State, ids: seq<nat>) { forall i | 0 <= i < |ids| :: Unheld(s, ids[i]) }

  predicate TasksUnheld(s: State, tasks: seq<Task>) { forall i | 0 <= i < |tasks| :: Unheld(s, tasks[i].id) }

  lemma FreeWhenPlaced(s: State, t: Txn, l: Ledger, at: Local, id: nat)
    requires Unheld(s, id)
    ensures UploadFree(Place(s, t, l, at), t, id)
  {
  }

  lemma GoPlaced(s: State, t: Txn, l: Ledger, at: Local, next: Local)
    ensures Go(Place(s, t, l, at), t, next) == Place(s, t, l, next)
  {
    assert s.locals[t := at][t := next] == s.locals[t := next];
  }

  lemma PlacedLocal(s: State, t: Txn, l: Ledger, at: Local)
    ensures var p := Place(s, t, l, at);
            && t in p.locals && p.locals[t] == at
            && p.uploads == l.uploads && p.artifacts == l.artifacts && p.outbox == l.outbox && p.store == l.store
            && p.deleteCalls == s.deleteCalls
  {
  }

  function CallMade(l: Ledger, task: Task, fault: Fault): Ledger {
    l.(store := AbortMultipart(l.store, task.key, task.remote, fault).0)
  }

  function Answered(l: Ledger, task: Task, fault: Fault): Phase<Upload> {
    if IsGone(AbortMultipart(l.store, task.key, task.remote, fault).1) then Acknowledged else Rejected
  }

  lemma AbortStep(s: State, t: Txn, l: Ledger, now: Time, tasks: seq<Task>, fault: Fault)
    requires tasks != []
    ensures AbortSelected(Place(s, t, l, Sweeping(now, tasks, Next)), t, fault)
         == Place(s, t, CallMade(l, tasks[0], fault), Sweeping(now, tasks, Answered(l, tasks[0], fault)))
  {
    hide AbortMultipart;
    PlacedLocal(s, t, l, Sweeping(now, tasks, Next));
    GoPlaced(s, t, CallMade(l, tasks[0], fault), Sweeping(now, tasks, Next), Sweeping(now, tasks, Answered(l, tasks[0], fault)));
  }

  lemma ReadStep(s: State, t: Txn, l: Ledger, now: Time, tasks: seq<Task>, phase: Phase<Upload>)
    requires tasks != [] && tasks[0].id < |l.uploads| && (phase.Acknowledged? || phase.Rejected?)
    ensures ReadSelected(Place(s, t, l, Sweeping(now, tasks, phase)), t)
         == Place(s, t, l, Sweeping(now, tasks, Loaded(l.uploads[tasks[0].id], phase.Acknowledged?)))
  {
    PlacedLocal(s, t, l, Sweeping(now, tasks, phase));
    GoPlaced(s, t, l, Sweeping(now, tasks, phase), Sweeping(now, tasks, Loaded(l.uploads[tasks[0].id], phase.Acknowledged?)));
    hide Place, Go;
  }

  function RowWritten(l: Ledger, task: Task, now: Time, acknowledged: bool): Ledger
    requires task.id < |l.uploads|
  {
    var row := l.uploads[task.id];
    if !acknowledged then WithUpload(l, task.id, RetryUploadRow(row, now))
    else if row.remote == Some(task.remote) then WithUpload(l, task.id, ClearedRow(row))
    else l
  }

  lemma FinishStep(s: State, t: Txn, l: Ledger, now: Time, tasks: seq<Task>, acknowledged: bool)
    requires tasks != [] && tasks[0].id < |l.uploads| && Unheld(s, tasks[0].id)
    ensures FinishSelected(Place(s, t, l, Sweeping(now, tasks, Loaded(l.uploads[tasks[0].id], acknowledged))), t)
         == Place(s, t, RowWritten(l, tasks[0], now, acknowledged), Sweeping(now, tasks[1..], Next))
  {
    var at, rest := Sweeping(now, tasks, Loaded(l.uploads[tasks[0].id], acknowledged)), Sweeping(now, tasks[1..], Next);
    var p := Place(s, t, l, at);
    PlacedLocal(s, t, l, at);
    FreeWhenPlaced(s, t, l, at, tasks[0].id);
    GoPlaced(s, t, RowWritten(l, tasks[0], now, acknowledged), at, rest);
    hide RetryUploadRow, ClearedRow, Unheld, UploadFree;
    assert forall row :: SetUpload(p, tasks[0].id, row) == Place(s, t, WithUpload(l, tasks[0].id, row), at);
    hide Go;
  }

  /** Same tables; the machine counts nothing. */
  predicate SameTables(a: Ledger, b: Ledger) {
    a.uploads == b.uploads && a.artifacts == b.artifacts && a.outbox == b.outbox && a.store == b.store
  }

  lemma TaskIsThreeSteps(c: Config, s: State, t: Txn, l: Ledger, now: Time, tasks: seq<Task>, fault: Fault)
    requires tasks != [] && tasks[0].id < |l.uploads| && Unheld(s, tasks[0].id)
    ensures FinishSelected(ReadSelected(AbortSelected(Place(s, t, l, Sweeping(now, tasks, Next)), t, fault), t), t)
         == Place(s, t, AbortOne(l, tasks[0], now, fault), Sweeping(now, tasks[1..], Next))
  {
    hide AbortMultipart, Unheld, RetryUploadRow, ClearedRow, AbortSelected, ReadSelected, FinishSelected, IsGone;
    var l1, phase := CallMade(l, tasks[0], fault), Answered(l, tasks[0], fault);
    AbortStep(s, t, l, now, tasks, fault);
    ReadStep(s, t, l1, now, tasks, phase);
    FinishStep(s, t, l1, now, tasks, phase.Acknowledged?);
    SamePlace(s, t, RowWritten(l1, tasks[0], now, phase.Acknowledged?), AbortOne(l, tasks[0], now, fault), Sweeping(now, tasks[1..], Next));
  }

  lemma SamePlace(s: State, t: Txn, a: Ledger, b: Ledger, at: Local)
    requires SameTables(a, b)
    ensures Place(s, t, a, at) == Place(s, t, b, at)
  {
  }

  // ----- The whole pass

  /** The steps of the second loop, up to the k-th task. */
  function LoopSteps(t: Txn, faults: nat -> Fault, k: nat): seq<Step> {
    if k == 0 then []
    else LoopSteps(t, faults, k - 1) + [Sweeper(t, DoAbortSelected(faults(k - 1)))] + [Sweeper(t, DoReadSelected)] + [Sweeper(t, DoFinishSelected)]
  }

  lemma ThreeMore(c: Config, s: State, steps: seq<Step>, t: Txn, fault: Fault)
    ensures Run(c, s, steps + [Sweeper(t, DoAbortSelected(fault))] + [Sweeper(t, DoReadSelected)] + [Sweeper(t, DoFinishSelected)])
         == FinishSelected(ReadSelected(AbortSelected(Run(c, s, steps), t, fault), t), t)
  {
    hide Run, AbortSelected, ReadSelected, FinishSelected;
    var abort, read, finish := Sweeper(t, DoAbortSelected(fault)), Sweeper(t, DoReadSelected), Sweeper(t, DoFinishSelected);
    RunNext(c, s, steps, abort);
    RunNext(c, s, steps + [abort], read);
    RunNext(c, s, steps + [abort] + [read], finish);
  }

  lemma {:induction false} LoopIsRun(c: Config, s: State, t: Txn, l: Ledger, now: Time, tasks: seq<Task>, faults: nat -> Fault, k: nat)
    requires TasksUnheld(s, tasks) && TasksFit(l, tasks) && k <= |tasks|
    ensures Run(c, Place(s, t, l, Sweeping(now, tasks, Next)), LoopSteps(t, faults, k))
         == Place(s, t, AbortFirst(l, tasks, now, faults, k), Sweeping(now, tasks[k..], Next))
  {
    hide Unheld, AbortSelected, ReadSelected, FinishSelected, Place, AbortOne, Run, LoopSteps, AbortFirst;
    var start := Place(s, t, l, Sweeping(now, tasks, Next));
    LoopUnfolds(c, start, t, l, now, tasks, faults, k);
    if k > 0 {
      LoopIsRun(c, s, t, l, now, tasks, faults, k - 1);
      assert tasks[k - 1..][1..] == tasks[k..] && tasks[k - 1..][0] == tasks[k - 1];
      TaskIsThreeSteps(c, s, t, AbortFirst(l, tasks, now, faults, k - 1), now, tasks[k - 1..], faults(k - 1));
    } else {
      assert tasks[0..] == tasks;
    }
  }

  lemma LoopUnfolds(c: Config, s: State, t: Txn, l: Ledger, now: Time, tasks: seq<Task>, faults: nat -> Fault, k: nat)
    requires TasksFit(l, tasks) && k <= |tasks|
    ensures k == 0 ==> Run(c, s, LoopSteps(t, faults, k)) == s && AbortFirst(l, tasks, now, faults, k) == l
    ensures k > 0 ==> Run(c, s, LoopSteps(t, faults, k))
                        == FinishSelected(ReadSelected(AbortSelected(Run(c, s, LoopSteps(t, faults, k - 1)), t, faults(k - 1)), t), t)
    ensures k > 0 ==> AbortFirst(l, tasks, now, faults, k) == AbortOne(AbortFirst(l, tasks, now, faults, k - 1), tasks[k - 1], now, faults(k - 1))
  {
    hide AbortSelected, ReadSelected, FinishSelected, AbortOne;
    if k > 0 {
      ThreeMore(c, s, LoopSteps(t, faults, k - 1), t, faults(k - 1));
      hide Run;
    }
  }

  function IdSet(ids: seq<nat>): set<nat> { set i | i in ids }

  lemma {:induction false} IdSetSize(ids: seq<nat>)
    ensures |IdSet(ids)| <= |ids|
  {
    if ids != [] {
      var before := ids[..|ids| - 1];
      IdSetSize(before);
      assert ids == before + [ids[|ids| - 1]];
      assert IdSet(ids) == IdSet(before) + {ids[|ids| - 1]};
    }
  }

  function RowsOf(uploads: seq<Upload>, ids: set<nat>): map<nat, Upload>
    requires forall id | id in ids :: id < |uploads|
  {
    map id | id in ids :: uploads[id]
  }

  lemma WorkIsTasks(uploads: seq<Upload>, ids: seq<nat>)
    requires (forall i | 0 <= i < |ids| :: ids[i] < |uploads|) && Distinct(ids)
    ensures (forall id | id in IdSet(ids) :: id < |uploads|) && TasksOf(RowsOf(uploads, IdSet(ids)), Work(uploads, ids))
  {
    WorkIsComplete(uploads, ids);
    hide Work, Distinct, WorkOf;
    var tasks := Work(uploads, ids);
    forall id | id in IdSet(ids) && uploads[id].remote.Some? ensures Task(id, uploads[id].key, uploads[id].remote.value) in tasks {
      WorkHas(uploads, ids, tasks, id);
    }
    forall i | 0 <= i < |tasks|
      ensures tasks[i].id in ids && tasks[i].id < |uploads| && uploads[tasks[i].id].key == tasks[i].key && uploads[tasks[i].id].remote == Some(tasks[i].remote)
    {
      WorkFitsAt(uploads, ids, tasks, i);
    }
  }

  lemma WorkHas(uploads: seq<Upload>, ids: seq<nat>, tasks: seq<Task>, id: nat)
    requires WorkOf(uploads, ids, tasks) && id in ids && id < |uploads| && uploads[id].remote.Some?
    ensures Task(id, uploads[id].key, uploads[id].remote.value) in tasks
  {
    var i :| 0 <= i < |tasks| && tasks[i].id == id;
    assert tasks[i] == Task(id, uploads[id].key, uploads[id].remote.value);
  }

  lemma WorkFitsAt(uploads: seq<Upload>, ids: seq<nat>, tasks: seq<Task>, i: nat)
    requires WorkOf(uploads, ids, tasks) && i < |tasks|
    ensures tasks[i].id in ids && tasks[i].id < |uploads| && uploads[tasks[i].id].key == tasks[i].key && uploads[tasks[i].id].remote == Some(tasks[i].remote)
  {
  }

  lemma ExpiredTogether(l: Ledger, ids: seq<nat>)
    requires forall i | 0 <= i < |ids| :: ids[i] < |l.uploads|
    ensures (forall id | id in IdSet(ids) :: id < |l.uploads|)
    ensures UploadProtocol.ExpireBatch(l.uploads, RowsOf(l.uploads, IdSet(ids))) == ExpireRows(l, ids).uploads
  {
    forall id | 0 <= id < |l.uploads|
      ensures UploadProtocol.ExpireBatch(l.uploads, RowsOf(l.uploads, IdSet(ids)))[id] == ExpireRows(l, ids).uploads[id]
    {
      RowExpires(l, ids, id);
    }
  }

  lemma {:induction false} ExpireTouchesUploads(l: Ledger, ids: seq<nat>)
    requires forall i | 0 <= i < |ids| :: ids[i] < |l.uploads|
    ensures SameTables(ExpireRows(l, ids), l.(uploads := ExpireRows(l, ids).uploads))
  {
    if ids != [] {
      ExpireTouchesUploads(l, ids[..|ids| - 1]);
    }
  }

  lemma SelectStep(c: Config, s: State, t: Txn, now: Time)
    requires t !in s.locals
    ensures var ids := Selection(LedgerOf(s), now, c.batch);
            && (forall id | id in IdSet(ids) :: id < |s.uploads|)
            && SelectUploads(c, s, t, now, IdSet(ids)) == Place(s, t, LedgerOf(s), Selected(now, RowsOf(s.uploads, IdSet(ids))))
  {
    SelectionIsDue(s.uploads, now, c.batch);
    hide NeedsSweep, DueUploads, Sorted;
    var ids := Selection(LedgerOf(s), now, c.batch);
    IdSetSize(ids);
    assert RowsOf(s.uploads, IdSet(ids)) == map id | id in IdSet(ids) :: s.uploads[id];
  }

  lemma HeldByNobody(s: State, ids: seq<nat>, id: nat)
    requires AllUnheld(s, ids) && id in IdSet(ids)
    ensures Unheld(s, id)
  {
    hide Unheld;
  }

  lemma WorkIsUnheld(s: State, ids: seq<nat>)
    requires AllUnheld(s, ids) && (forall i | 0 <= i < |ids| :: ids[i] < |s.uploads|) && Distinct(ids)
    ensures TasksUnheld(s, Work(s.uploads, ids))
  {
    WorkIsComplete(s.uploads, ids);
    hide Unheld, Work, Distinct;
    forall i | 0 <= i < |Work(s.uploads, ids)| ensures Unheld(s, Work(s.uploads, ids)[i].id) {
      HeldByNobody(s, ids, Work(s.uploads, ids)[i].id);
    }
  }

  lemma CommitStep(s: State, t: Txn, now: Time, ids: seq<nat>)
    requires AllUnheld(s, ids) && (forall i | 0 <= i < |ids| :: ids[i] < |s.uploads|) && Distinct(ids)
    ensures (forall id | id in IdSet(ids) :: id < |s.uploads|)
    ensures CommitExpired(Place(s, t, LedgerOf(s), Selected(now, RowsOf(s.uploads, IdSet(ids)))), t, Work(s.uploads, ids))
         == Place(s, t, ExpireRows(LedgerOf(s), ids), Sweeping(now, Work(s.uploads, ids), Next))
  {
    var at := Selected(now, RowsOf(s.uploads, IdSet(ids)));
    var tasks, l := Work(s.uploads, ids), LedgerOf(s);
    WorkIsTasks(s.uploads, ids);
    ExpiredTogether(l, ids);
    ExpireTouchesUploads(l, ids);
    PlacedLocal(s, t, l, at);
    forall id | id in IdSet(ids) ensures UploadFree(Place(s, t, l, at), t, id) {
      assert Unheld(s, id) by { hide *; HeldByNobody(s, ids, id); }
      FreeWhenPlaced(s, t, l, at, id);
    }
    GoPlaced(s, t, ExpireRows(l, ids), at, Sweeping(now, tasks, Next));
    hide AllUnheld, UploadFree, TasksOf, ExpireRows, Work, UploadProtocol.ExpireBatch, Distinct, Go, IsActive;
    assert Place(s, t, l, at).(uploads := ExpireRows(l, ids).uploads) == Place(s, t, ExpireRows(l, ids), at);
  }

  function PassSteps(c: Config, s: State, t: Txn, now: Time, faults: nat -> Fault): seq<Step> {
    var ids := Selection(LedgerOf(s), now, c.batch);
    [Sweeper(t, DoSelectUploads(now, IdSet(ids)))] + [Sweeper(t, DoCommitExpired(Work(s.uploads, ids)))]
    + LoopSteps(t, faults, |Work(s.uploads, ids)|) + [Sweeper(t, DoAbortSelected(NoFault))]
  }

  /** `_expire_sessions`, faults included, is a run of the machine, whatever else is open, as long as nobody holds
      a row of its batch; for a row that is held it waits. */
  lemma PassIsRun(c: Config, s: State, t: Txn, now: Time, faults: nat -> Fault)
    requires t !in s.locals && AllUnheld(s, Selection(LedgerOf(s), now, c.batch))
    ensures Run(c, s, PassSteps(c, s, t, now, faults))
         == Place(s, t, ExpireSessionsSpec(LedgerOf(s), now, c.batch, faults), Finished(Done))
  {
    hide AllUnheld, TasksUnheld, LoopSteps, Work, ExpireRows, Run, Place, AbortFirst, SelectUploads, CommitExpired, AbortSelected, Selection, Distinct;
    var l, ids := LedgerOf(s), Selection(LedgerOf(s), now, c.batch);
    var tasks := Work(s.uploads, ids);
    WorkFits(s.uploads, ids);
    var l1 := ExpireRows(l, ids);
    var select, commit, loop := Sweeper(t, DoSelectUploads(now, IdSet(ids))), Sweeper(t, DoCommitExpired(tasks)), LoopSteps(t, faults, |tasks|);
    SelectStep(c, s, t, now);
    SelectionIsDistinct(l, now, c.batch);
    WorkIsUnheld(s, ids);
    CommitStep(s, t, now, ids);
    LoopIsRun(c, s, t, l1, now, tasks, faults, |tasks|);
    assert tasks[|tasks|..] == [];
    LastStep(s, t, AbortFirst(l1, tasks, now, faults, |tasks|), now);
    RunOne(c, s, select);
    RunNext(c, s, [select], commit);
    RunJoins(c, s, [select] + [commit], loop);
    RunNext(c, s, [select] + [commit] + loop, Sweeper(t, DoAbortSelected(NoFault)));
  }

  lemma LastStep(s: State, t: Txn, l: Ledger, now: Time)
    ensures AbortSelected(Place(s, t, l, Sweeping(now, [], Next)), t, NoFault) == Place(s, t, l, Finished(Done))
  {
    PlacedLocal(s, t, l, Sweeping(now, [], Next));
    GoPlaced(s, t, l, Sweeping(now, [], Next), Finished(Done));
  }

  // ----- Handlers leave the retry bookkeeping alone

  lemma UpdateKeepsBookkeeping(s: State, t: Txn, id: nat, seen: Upload, next: Upload, done: Local)
    requires Remembers(s, id, seen) && next.cleanup == seen.cleanup
    ensures KeepsBookkeeping(LedgerOf(s), LedgerOf(UpdateUpload(s, t, id, seen, next, done)))
  {
    hide UploadFree;
  }

  lemma AppendKeepsBookkeeping(s: State, s': State, row: Upload)
    requires s'.uploads == s.uploads + [row]
    ensures KeepsBookkeeping(LedgerOf(s), LedgerOf(s'))
  {
  }

  lemma SameKeepsBookkeeping(s: State, s': State)
    requires s'.uploads == s.uploads
    ensures KeepsBookkeeping(LedgerOf(s), LedgerOf(s'))
  {
  }

  lemma ExpireKeepsBookkeeping(s: State, t: Txn, now: Time)
    requires t in s.locals && s.locals[t].Viewed? && Remembers(s, s.locals[t].id, s.locals[t].row)
    ensures KeepsBookkeeping(LedgerOf(s), LedgerOf(ExpireViewed(s, t, now)))
  {
    var l := s.locals[t];
    UpdateKeepsBookkeeping(s, t, l.id, l.row, ExpiredRow(l.row), Finished(Done));
    SameKeepsBookkeeping(s, Finish(s, t, Done));
    hide UpdateUpload, KeepsBookkeeping, LedgerOf, Remembers, IsPastDue;
  }

  lemma RegisterKeepsBookkeeping(s: State, t: Txn, now: Time, number: nat, part: Part)
    requires t in s.locals && s.locals[t].Viewed? && Remembers(s, s.locals[t].id, s.locals[t].row)
    ensures KeepsBookkeeping(LedgerOf(s), LedgerOf(RegisterPart(s, t, now, number, part)))
  {
    var l, s' := s.locals[t], RegisterPart(s, t, now, number, part);
    UpdateKeepsBookkeeping(s, t, l.id, l.row, ExpiredRow(l.row), Finished(Refused(UploadExpired)));
    hide UpdateUpload, KeepsBookkeeping, LedgerOf, Remembers, IsPastDue;
    if s'.uploads == s.uploads {
      SameKeepsBookkeeping(s, s');
    }
  }

  lemma CancelKeepsBookkeeping(c: Config, s: State, t: Txn)
    requires t in s.locals && s.locals[t].CancelReady? && LocalOk(c, s, s.locals[t])
    ensures KeepsBookkeeping(LedgerOf(s), LedgerOf(CommitCancel(s, t)))
  {
    var l := s.locals[t];
    UpdateKeepsBookkeeping(s, t, l.id, l.row, l.next, Finished(Done));
    SameKeepsBookkeeping(s, Finish(s, t, Done));
    hide UpdateUpload, KeepsBookkeeping, LedgerOf, Remembers;
  }

  lemma StartKeepsBookkeeping(s: State, t: Txn, now: Time, remote: RemoteId, fault: Fault, signs: bool)
    requires t in s.locals && s.locals[t].SignLocked? && Remembers(s, s.locals[t].id, s.locals[t].row)
    ensures KeepsBookkeeping(LedgerOf(s), LedgerOf(StartRemote(s, t, now, remote, fault, signs)))
  {
    var l, s' := s.locals[t], StartRemote(s, t, now, remote, fault, signs);
    UpdateKeepsBookkeeping(s, t, l.id, l.row, ExpiredRow(l.row), Finished(Refused(UploadExpired)));
    hide UpdateUpload, KeepsBookkeeping, LedgerOf, Remembers, IsPastDue, StartMultipart;
    if s'.uploads == s.uploads {
      SameKeepsBookkeeping(s, s');
    }
  }

  lemma CheckKeepsBookkeeping(s: State, t: Txn, now: Time, manifest: Manifest)
    requires t in s.locals && s.locals[t].CompleteLocked? && Remembers(s, s.locals[t].id, s.locals[t].row)
    ensures KeepsBookkeeping(LedgerOf(s), LedgerOf(CheckManifest(s, t, now, manifest)))
  {
    var l, s' := s.locals[t], CheckManifest(s, t, now, manifest);
    UpdateKeepsBookkeeping(s, t, l.id, l.row, ExpiredRow(l.row), Finished(Refused(UploadExpired)));
    UpdateKeepsBookkeeping(s, t, l.id, l.row, CheckpointRow(l.row), Checkpointed(l.id, manifest));
    hide UpdateUpload, KeepsBookkeeping, LedgerOf, Remembers, IsPastDue, ManifestAccepted, HasArtifact;
    if s'.uploads == s.uploads {
      SameKeepsBookkeeping(s, s');
    }
  }

  lemma PublishKeepsBookkeeping(s: State, t: Txn)
    requires t in s.locals && s.locals[t].ObjectVerified? && Holds(s, s.locals[t].id, s.locals[t].row)
    ensures KeepsBookkeeping(LedgerOf(s), LedgerOf(Publish(s, t)))
  {
    hide NewArtifact;
  }

  /** Every step of a handler, on any row, at any point of a run. */
  lemma ActKeepsBookkeeping(c: Config, s: State, t: Txn, a: Action)
    requires Inv(c, s)
    ensures KeepsBookkeeping(LedgerOf(s), LedgerOf(Act(c, s, t, a)))
  {
    hide Inv, KeepsBookkeeping, LedgerOf, UpdateUpload, ManifestAccepted, HasArtifact, NewArtifact, UploadFree, OrgFree, IsPastDue, TakesFreeLocks, Evolves;
    var s' := Act(c, s, t, a);
    if s'.uploads == s.uploads {
      SameKeepsBookkeeping(s, s');
    } else {
      assert t in s.locals;
      OwnLocal(c, s, t);
      if a.DoInsertUpload? {
        AppendKeepsBookkeeping(s, s', s'.uploads[|s.uploads|]);
      } else {
        WritingActKeepsBookkeeping(c, s, t, a);
      }
    }
  }

  lemma WritingActKeepsBookkeeping(c: Config, s: State, t: Txn, a: Action)
    requires t in s.locals && LocalOk(c, s, s.locals[t]) && Act(c, s, t, a).uploads != s.uploads && !a.DoInsertUpload?
    ensures KeepsBookkeeping(LedgerOf(s), LedgerOf(Act(c, s, t, a)))
  {
    hide KeepsBookkeeping, LedgerOf;
    if a.DoExpireViewed? || a.DoRegisterPart? || a.DoCommitCancel? {
      hide Act;
      UnlockedWriteKeepsBookkeeping(c, s, t, a);
    } else {
      hide Act;
      LockedWriteKeepsBookkeeping(c, s, t, a);
    }
  }

  lemma UnlockedWriteKeepsBookkeeping(c: Config, s: State, t: Txn, a: Action)
    requires t in s.locals && LocalOk(c, s, s.locals[t]) && Act(c, s, t, a).uploads != s.uploads
    requires a.DoExpireViewed? || a.DoRegisterPart? || a.DoCommitCancel?
    ensures KeepsBookkeeping(LedgerOf(s), LedgerOf(Act(c, s, t, a)))
  {
    hide KeepsBookkeeping, LedgerOf, UpdateUpload, UploadFree, OrgFree, IsPastDue, Evolves;
    match a
    case DoExpireViewed(now) => ExpireKeepsBookkeeping(s, t, now);
    case DoRegisterPart(now, number, part) => RegisterKeepsBookkeeping(s, t, now, number, part);
    case DoCommitCancel => CancelKeepsBookkeeping(c, s, t);
  }

  lemma LockedWriteKeepsBookkeeping(c: Config, s: State, t: Txn, a: Action)
    requires t in s.locals && LocalOk(c, s, s.locals[t]) && Act(c, s, t, a).uploads != s.uploads
    requires !a.DoInsertUpload? && !a.DoExpireViewed? && !a.DoRegisterPart? && !a.DoCommitCancel?
    ensures KeepsBookkeeping(LedgerOf(s), LedgerOf(Act(c, s, t, a)))
  {
    hide KeepsBookkeeping, LedgerOf, UpdateUpload, ManifestAccepted, HasArtifact, NewArtifact, UploadFree, OrgFree, IsPastDue, Evolves;
    var l := s.locals[t];
    match a
    case DoStartRemote(now, remote, fault, signs) => HoldsRemembers(s, l.id, l.row); StartKeepsBookkeeping(s, t, now, remote, fault, signs);
    case DoCommitStarted(signs) =>
      HoldsRemembers(s, l.id, l.row);
      UpdateKeepsBookkeeping(s, t, l.id, l.row, StartedRow(l.row, l.started), Finished(SigningAnswer(signs)));
    case DoCheckManifest(now, manifest) => HoldsRemembers(s, l.id, l.row); CheckKeepsBookkeeping(s, t, now, manifest);
    case DoPublish => PublishKeepsBookkeeping(s, t);
    case _ =>
  }

  lemma HoldsRemembers(s: State, id: nat, row: Upload)
    requires Holds(s, id, row)
    ensures Remembers(s, id, row)
  {
  }

  predicate ByHandlers(steps: seq<Step>) { forall i | 0 <= i < |steps| :: !steps[i].Sweeper? }

  /** So whatever handlers, clients and the outside world do between two passes is a plausible turn of the
      others in MaintenanceTheorems. */
  lemma {:induction false} HandlersArePlausible(c: Config, s: State, steps: seq<Step>)
    requires Inv(c, s) && ByHandlers(steps)
    ensures Plausible(LedgerOf(s), Others(LedgerOf(Run(c, s, steps))))
  {
    hide Inv, Apply;
    if steps != [] {
      var before, last := steps[..|steps| - 1], steps[|steps| - 1];
      var s1 := Run(c, s, before);
      HandlersArePlausible(c, s, before);
      RunKeepsInv(c, s, before);
      StepKeepsBookkeeping(c, s1, last);
    }
  }

  lemma StepKeepsBookkeeping(c: Config, s: State, step: Step)
    requires Inv(c, s) && !step.Sweeper?
    ensures KeepsBookkeeping(LedgerOf(s), LedgerOf(Apply(c, s, step)))
  {
    hide Inv, KeepsBookkeeping, LedgerOf, Act, PutPart;
    if step.By? {
      ActKeepsBookkeeping(c, s, step.t, step.action);
    } else {
      SameUploads(c, s, step);
      SameKeepsBookkeeping(s, Apply(c, s, step));
    }
  }

  lemma SameUploads(c: Config, s: State, step: Step)
    requires !step.Sweeper? && !step.By?
    ensures Apply(c, s, step).uploads == s.uploads
  {
  }
}
