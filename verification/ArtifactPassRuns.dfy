/** The passes over deleting and available artifacts are runs of the protocol machine, like the pass over
    expired sessions in MaintenanceRuns.
  */
module ArtifactPassRuns {
  import opened ArtifactDomain
  import opened ObjectStore
  import opened UploadProtocol
  import opened Keyset
  import opened Maintenance
  import opened MaintenanceRuns
  import opened UploadRuns

  /** The state with the tables of l, t at the given point, and more keys passed to delete. */
  function PlaceWith(s: State, t: Txn, l: Ledger, at: Local, calls: set<Key>): State {
    Place(s, t, l, at).(deleteCalls := s.deleteCalls + calls)
  }

  lemma GoPlacedWith(s: State, t: Txn, l: Ledger, at: Local, next: Local, calls: set<Key>)
    ensures Go(PlaceWith(s, t, l, at, calls), t, next) == PlaceWith(s, t, l, next, calls)
    ensures var p := PlaceWith(s, t, l, at, calls);
            && t in p.locals && p.locals[t] == at && p.deleteCalls == s.deleteCalls + calls
            && p.uploads == l.uploads && p.artifacts == l.artifacts && p.outbox == l.outbox && p.store == l.store
  {
    assert s.locals[t := at][t := next] == s.locals[t := next];
  }

  lemma SamePlaceWith(s: State, t: Txn, a: Ledger, b: Ledger, at: Local, calls: set<Key>)
    requires SameTables(a, b)
    ensures PlaceWith(s, t, a, at, calls) == PlaceWith(s, t, b, at, calls)
  {
  }

  function Seen(outcome: Outcome): Phase<Artifact> { if IsGone(outcome) then Acknowledged else Rejected }

  lemma ReadTargetStep(s: State, t: Txn, l: Ledger, at: Local, calls: set<Key>)
    requires (at.Purging? || at.Reconciling?) && (at.purge.Acknowledged? || at.purge.Rejected?)
    requires at.targets != [] && at.targets[0].id < |l.artifacts|
    ensures var loaded := Loaded(l.artifacts[at.targets[0].id], at.purge.Acknowledged?);
            ReadTarget(PlaceWith(s, t, l, at, calls), t)
              == PlaceWith(s, t, l, if at.Purging? then Purging(at.now, at.targets, loaded) else Reconciling(at.targets, loaded), calls)
  {
    var loaded := Loaded(l.artifacts[at.targets[0].id], at.purge.Acknowledged?);
    GoPlacedWith(s, t, l, at, if at.Purging? then Purging(at.now, at.targets, loaded) else Reconciling(at.targets, loaded), calls);
    hide PlaceWith, Go;
  }

  lemma UpdatePlaced(s: State, t: Txn, l: Ledger, at: Local, calls: set<Key>, id: nat, next: Artifact, kind: Option<EventKind>, done: Local)
    requires id < |l.artifacts|
    ensures var l1 := WithArtifact(l, id, next);
            UpdateArtifact(PlaceWith(s, t, l, at, calls), t, id, l.artifacts[id], next, kind, done)
              == PlaceWith(s, t, if kind.Some? then l1.(outbox := l.outbox + [Event(id, kind.value)]) else l1, done, calls)
  {
    GoPlacedWith(s, t, WithArtifact(l, id, next), at, done, calls);
  }

  // ----- _delete_artifacts

  lemma CallStep(s: State, t: Txn, l: Ledger, now: Time, targets: seq<Target>, fault: Fault, calls: set<Key>)
    requires targets != []
    ensures var (store, outcome) := DeleteObject(l.store, targets[0].key, fault);
            DeleteTarget(PlaceWith(s, t, l, Purging(now, targets, Next), calls), t, fault)
              == PlaceWith(s, t, l.(store := store), Purging(now, targets, Seen(outcome)), calls + {targets[0].key})
  {
    var (store, outcome) := DeleteObject(l.store, targets[0].key, fault);
    var more := calls + {targets[0].key};
    GoPlacedWith(s, t, l, Purging(now, targets, Next), Purging(now, targets, Next), calls);
    GoPlacedWith(s, t, l.(store := store), Purging(now, targets, Next), Purging(now, targets, Seen(outcome)), more);
    assert s.deleteCalls + calls + {targets[0].key} == s.deleteCalls + more;
    hide Go, DeleteObject;
  }

  lemma FinishDeleteStep(s: State, t: Txn, l: Ledger, now: Time, targets: seq<Target>, acknowledged: bool, calls: set<Key>)
    requires targets != [] && targets[0].id < |l.artifacts|
    ensures var id, row := targets[0].id, l.artifacts[targets[0].id];
            FinishDeleted(PlaceWith(s, t, l, Purging(now, targets, Loaded(row, acknowledged)), calls), t)
              == PlaceWith(s, t, if !acknowledged then WithArtifact(l, id, RetryArtifactRow(row, now))
                                 else if row.status.Deleting? then WithArtifact(l, id, DeletedRow(row)).(outbox := l.outbox + [Event(id, ArtifactDeleted)])
                                 else l, Purging(now, targets[1..], Next), calls)
  {
    var id, row, rest := targets[0].id, l.artifacts[targets[0].id], Purging(now, targets[1..], Next);
    var at := Purging(now, targets, Loaded(row, acknowledged));
    GoPlacedWith(s, t, l, at, rest, calls);
    UpdatePlaced(s, t, l, at, calls, id, RetryArtifactRow(row, now), None, rest);
    UpdatePlaced(s, t, l, at, calls, id, DeletedRow(row), Some(ArtifactDeleted), rest);
    hide PlaceWith, Go, UpdateArtifact, RetryArtifactRow, DeletedRow;
  }

  lemma TargetIsThreeSteps(s: State, t: Txn, l: Ledger, now: Time, targets: seq<Target>, fault: Fault, calls: set<Key>)
    requires targets != [] && targets[0].id < |l.artifacts|
    ensures FinishDeleted(ReadTarget(DeleteTarget(PlaceWith(s, t, l, Purging(now, targets, Next), calls), t, fault), t), t)
         == PlaceWith(s, t, DeleteOne(l, targets[0], now, fault), Purging(now, targets[1..], Next), calls + {targets[0].key})
  {
    var (store, outcome) := DeleteObject(l.store, targets[0].key, fault);
    var l1, more := l.(store := store), calls + {targets[0].key};
    var id, row := targets[0].id, l.artifacts[targets[0].id];
    hide DeleteObject, RetryArtifactRow, DeletedRow, DeleteTarget, ReadTarget, FinishDeleted, IsGone;
    CallStep(s, t, l, now, targets, fault, calls);
    ReadTargetStep(s, t, l1, Purging(now, targets, Seen(outcome)), more);
    FinishDeleteStep(s, t, l1, now, targets, Seen(outcome).Acknowledged?, more);
    var l2 := if !IsGone(outcome) then WithArtifact(l1, id, RetryArtifactRow(row, now))
              else if row.status.Deleting? then WithArtifact(l1, id, DeletedRow(row)).(outbox := l.outbox + [Event(id, ArtifactDeleted)])
              else l1;
    SamePlaceWith(s, t, l2, DeleteOne(l, targets[0], now, fault), Purging(now, targets[1..], Next), more);
  }

  function KeysOf(targets: seq<Target>, k: nat): set<Key>
    requires k <= |targets|
  {
    if k == 0 then {} else KeysOf(targets, k - 1) + {targets[k - 1].key}
  }

  function DeleteSteps(t: Txn, faults: nat -> Fault, k: nat): seq<Step> {
    if k == 0 then []
    else DeleteSteps(t, faults, k - 1) + [Sweeper(t, DoDeleteTarget(faults(k - 1)))] + [Sweeper(t, DoReadTarget)] + [Sweeper(t, DoFinishDeleted)]
  }

  lemma DeleteThree(c: Config, s: State, steps: seq<Step>, t: Txn, fault: Fault)
    ensures Run(c, s, steps + [Sweeper(t, DoDeleteTarget(fault))] + [Sweeper(t, DoReadTarget)] + [Sweeper(t, DoFinishDeleted)])
         == FinishDeleted(ReadTarget(DeleteTarget(Run(c, s, steps), t, fault), t), t)
  {
    hide Run, DeleteTarget, ReadTarget, FinishDeleted;
    var call, read, finish := Sweeper(t, DoDeleteTarget(fault)), Sweeper(t, DoReadTarget), Sweeper(t, DoFinishDeleted);
    RunNext(c, s, steps, call);
    RunNext(c, s, steps + [call], read);
    RunNext(c, s, steps + [call] + [read], finish);
  }

  lemma {:induction false} DeleteLoopIsRun(c: Config, s: State, t: Txn, l: Ledger, now: Time, targets: seq<Target>, faults: nat -> Fault, k: nat)
    requires TargetsFit(l, targets) && k <= |targets|
    ensures Run(c, PlaceWith(s, t, l, Purging(now, targets, Next), {}), DeleteSteps(t, faults, k))
         == PlaceWith(s, t, DeleteFirst(l, targets, now, faults, k), Purging(now, targets[k..], Next), KeysOf(targets, k))
  {
    hide DeleteTarget, ReadTarget, FinishDeleted, PlaceWith, DeleteOne, Run, DeleteSteps, DeleteFirst, KeysOf;
    var start := PlaceWith(s, t, l, Purging(now, targets, Next), {});
    DeleteLoopUnfolds(c, start, t, l, now, targets, faults, k);
    if k > 0 {
      DeleteLoopIsRun(c, s, t, l, now, targets, faults, k - 1);
      assert targets[k - 1..][1..] == targets[k..] && targets[k - 1..][0] == targets[k - 1];
      TargetIsThreeSteps(s, t, DeleteFirst(l, targets, now, faults, k - 1), now, targets[k - 1..], faults(k - 1), KeysOf(targets, k - 1));
    } else {
      assert targets[0..] == targets;
    }
  }

  lemma DeleteLoopUnfolds(c: Config, s: State, t: Txn, l: Ledger, now: Time, targets: seq<Target>, faults: nat -> Fault, k: nat)
    requires TargetsFit(l, targets) && k <= |targets|
    ensures k == 0 ==> Run(c, s, DeleteSteps(t, faults, k)) == s && DeleteFirst(l, targets, now, faults, k) == l && KeysOf(targets, k) == {}
    ensures k > 0 ==> Run(c, s, DeleteSteps(t, faults, k))
                        == FinishDeleted(ReadTarget(DeleteTarget(Run(c, s, DeleteSteps(t, faults, k - 1)), t, faults(k - 1)), t), t)
    ensures k > 0 ==> DeleteFirst(l, targets, now, faults, k) == DeleteOne(DeleteFirst(l, targets, now, faults, k - 1), targets[k - 1], now, faults(k - 1))
                      && KeysOf(targets, k) == KeysOf(targets, k - 1) + {targets[k - 1].key}
  {
    hide DeleteTarget, ReadTarget, FinishDeleted, DeleteOne;
    if k > 0 {
      DeleteThree(c, s, DeleteSteps(t, faults, k - 1), t, faults(k - 1));
      hide Run;
    }
  }

  /** The targets that the pass picks. */
  function Deletions(s: State, now: Time, limit: nat, updatedAt: nat -> int): seq<Target> {
    TargetList(LedgerOf(s), Batch(DueDeletions(s.artifacts, now, updatedAt), limit))
  }

  lemma {:induction false} ListedTargets(l: Ledger, ids: seq<nat>)
    ensures |TargetList(l, ids)| <= |ids|
    ensures forall i | 0 <= i < |TargetList(l, ids)| ::
              TargetList(l, ids)[i].id in ids && TargetList(l, ids)[i].id < |l.artifacts| && TargetList(l, ids)[i].key == l.artifacts[TargetList(l, ids)[i].id].key
  {
    if ids != [] {
      ListedTargets(l, ids[..|ids| - 1]);
    }
  }

  lemma BatchIsFrom(rows: set<RowKey>, limit: nat, id: nat)
    requires HasIds(rows) && id in Batch(rows, limit)
    ensures exists k | k in rows :: k.1 == id
  {
    hide Sorted;
    var ids, ordered := Batch(rows, limit), Sorted(Ascending, rows);
    var i :| 0 <= i < |ids| && ids[i] == id;
    assert ordered[i] in ordered;
  }

  lemma DeletionsArePicked(c: Config, s: State, t: Txn, now: Time, updatedAt: nat -> int)
    requires t !in s.locals
    ensures var targets := Deletions(s, now, c.batch, updatedAt);
            SelectDeleting(c, s, t, now, targets) == Go(s, t, Purging(now, targets, Next))
  {
    var rows := DueDeletions(s.artifacts, now, updatedAt);
    var ids, targets := Batch(rows, c.batch), Deletions(s, now, c.batch, updatedAt);
    ListedTargets(LedgerOf(s), ids);
    hide Batch, TargetList, Sorted, RetryDue;
    forall i | 0 <= i < |targets|
      ensures s.artifacts[targets[i].id].status.Deleting? && RetryDue(s.artifacts[targets[i].id].cleanup, now)
    {
      BatchIsFrom(rows, c.batch, targets[i].id);
    }
  }

  function DeletePassSteps(c: Config, s: State, t: Txn, now: Time, updatedAt: nat -> int, faults: nat -> Fault): seq<Step> {
    var targets := Deletions(s, now, c.batch, updatedAt);
    [Sweeper(t, DoSelectDeleting(now, targets))] + DeleteSteps(t, faults, |targets|) + [Sweeper(t, DoDeleteTarget(NoFault))]
  }

  lemma LastDeleteStep(s: State, t: Txn, l: Ledger, now: Time, calls: set<Key>)
    ensures DeleteTarget(PlaceWith(s, t, l, Purging(now, [], Next), calls), t, NoFault) == PlaceWith(s, t, l, Finished(Done), calls)
  {
    GoPlacedWith(s, t, l, Purging(now, [], Next), Finished(Done), calls);
    hide Go, DeleteObject;
  }

  lemma StartsPlaced(s: State, t: Txn, at: Local)
    ensures Go(s, t, at) == PlaceWith(s, t, LedgerOf(s), at, {})
  {
    assert s.deleteCalls + {} == s.deleteCalls;
  }

  /** `_delete_artifacts`, faults included, is a run of the machine, and calls delete for the keys of its batch. */
  lemma DeletePassIsRun(c: Config, s: State, t: Txn, now: Time, updatedAt: nat -> int, faults: nat -> Fault)
    requires t !in s.locals
    ensures var targets := Deletions(s, now, c.batch, updatedAt);
            Run(c, s, DeletePassSteps(c, s, t, now, updatedAt, faults))
              == PlaceWith(s, t, DeleteFirst(LedgerOf(s), targets, now, faults, |targets|), Finished(Done), KeysOf(targets, |targets|))
  {
    hide DeleteSteps, Run, PlaceWith, DeleteFirst, SelectDeleting, DeleteTarget, Deletions, KeysOf;
    var targets := Deletions(s, now, c.batch, updatedAt);
    assert TargetsFit(LedgerOf(s), targets) by { DeletionsFit(s, now, c.batch, updatedAt); }
    var select, loop := Sweeper(t, DoSelectDeleting(now, targets)), DeleteSteps(t, faults, |targets|);
    DeletionsArePicked(c, s, t, now, updatedAt);
    StartsPlaced(s, t, Purging(now, targets, Next));
    DeleteLoopIsRun(c, s, t, LedgerOf(s), now, targets, faults, |targets|);
    assert targets[|targets|..] == [];
    LastDeleteStep(s, t, DeleteFirst(LedgerOf(s), targets, now, faults, |targets|), now, KeysOf(targets, |targets|));
    RunOne(c, s, select);
    RunJoins(c, s, [select], loop);
    RunNext(c, s, [select] + loop, Sweeper(t, DoDeleteTarget(NoFault)));
  }

  lemma DeletionsFit(s: State, now: Time, limit: nat, updatedAt: nat -> int)
    ensures TargetsFit(LedgerOf(s), Deletions(s, now, limit, updatedAt))
  {
    hide Batch, DueDeletions;
  }

  // ----- _reconcile_missing

  lemma HeadStep(s: State, t: Txn, l: Ledger, targets: seq<Target>, fault: Fault)
    requires targets != []
    ensures var outcome := Head(l.store, targets[0].key, fault);
            HeadTarget(PlaceWith(s, t, l, Reconciling(targets, Next), {}), t, fault)
              == PlaceWith(s, t, l, if outcome.Some? && outcome.value.NotFound? then Reconciling(targets, Acknowledged) else Reconciling(targets[1..], Next), {})
  {
    GoPlacedWith(s, t, l, Reconciling(targets, Next), Reconciling(targets, Acknowledged), {});
    GoPlacedWith(s, t, l, Reconciling(targets, Next), Reconciling(targets[1..], Next), {});
    hide PlaceWith, Go, Head;
  }

  lemma FinishMissingStep(s: State, t: Txn, l: Ledger, targets: seq<Target>)
    requires targets != [] && targets[0].id < |l.artifacts|
    ensures var id, row := targets[0].id, l.artifacts[targets[0].id];
            FinishMissing(PlaceWith(s, t, l, Reconciling(targets, Loaded(row, true)), {}), t)
              == PlaceWith(s, t, if row.status.Available? then WithArtifact(l, id, ArtifactRow(row, Failed)).(outbox := l.outbox + [Event(id, ObjectMissing)])
                                 else l, Reconciling(targets[1..], Next), {})
  {
    var id, row, rest := targets[0].id, l.artifacts[targets[0].id], Reconciling(targets[1..], Next);
    var at := Reconciling(targets, Loaded(row, true));
    GoPlacedWith(s, t, l, at, rest, {});
    UpdatePlaced(s, t, l, at, {}, id, ArtifactRow(row, Failed), Some(ObjectMissing), rest);
    hide PlaceWith, Go, UpdateArtifact, ArtifactRow;
  }

  /** With an object that is there, or a failed call, the other two steps do nothing. */
  lemma NothingToFinish(s: State, t: Txn, l: Ledger, targets: seq<Target>)
    ensures var p := PlaceWith(s, t, l, Reconciling(targets, Next), {}); FinishMissing(ReadTarget(p, t), t) == p
  {
    GoPlacedWith(s, t, l, Reconciling(targets, Next), Reconciling(targets, Next), {});
    hide PlaceWith;
  }

  lemma CheckIsThreeSteps(s: State, t: Txn, l: Ledger, targets: seq<Target>, fault: Fault)
    requires targets != [] && targets[0].id < |l.artifacts|
    ensures FinishMissing(ReadTarget(HeadTarget(PlaceWith(s, t, l, Reconciling(targets, Next), {}), t, fault), t), t)
         == PlaceWith(s, t, CheckOne(l, targets[0], fault), Reconciling(targets[1..], Next), {})
  {
    var outcome, id, row := Head(l.store, targets[0].key, fault), targets[0].id, l.artifacts[targets[0].id];
    var rest := Reconciling(targets[1..], Next);
    hide Head, ArtifactRow, HeadTarget, ReadTarget, FinishMissing;
    HeadStep(s, t, l, targets, fault);
    if outcome.Some? && outcome.value.NotFound? {
      ReadTargetStep(s, t, l, Reconciling(targets, Acknowledged), {});
      FinishMissingStep(s, t, l, targets);
      var l1 := if row.status.Available? then WithArtifact(l, id, ArtifactRow(row, Failed)).(outbox := l.outbox + [Event(id, ObjectMissing)]) else l;
      SamePlaceWith(s, t, l1, CheckOne(l, targets[0], fault), rest, {});
    } else {
      NothingToFinish(s, t, l, targets[1..]);
      SamePlaceWith(s, t, l, CheckOne(l, targets[0], fault), rest, {});
    }
  }

  function CheckSteps(t: Txn, faults: nat -> Fault, k: nat): seq<Step> {
    if k == 0 then []
    else CheckSteps(t, faults, k - 1) + [Sweeper(t, DoHeadTarget(faults(k - 1)))] + [Sweeper(t, DoReadTarget)] + [Sweeper(t, DoFinishMissing)]
  }

  lemma CheckThree(c: Config, s: State, steps: seq<Step>, t: Txn, fault: Fault)
    ensures Run(c, s, steps + [Sweeper(t, DoHeadTarget(fault))] + [Sweeper(t, DoReadTarget)] + [Sweeper(t, DoFinishMissing)])
         == FinishMissing(ReadTarget(HeadTarget(Run(c, s, steps), t, fault), t), t)
  {
    hide Run, HeadTarget, ReadTarget, FinishMissing;
    var head, read, finish := Sweeper(t, DoHeadTarget(fault)), Sweeper(t, DoReadTarget), Sweeper(t, DoFinishMissing);
    RunNext(c, s, steps, head);
    RunNext(c, s, steps + [head], read);
    RunNext(c, s, steps + [head] + [read], finish);
  }

  lemma {:induction false} CheckLoopIsRun(c: Config, s: State, t: Txn, l: Ledger, targets: seq<Target>, faults: nat -> Fault, k: nat)
    requires TargetsFit(l, targets) && k <= |targets|
    ensures Run(c, PlaceWith(s, t, l, Reconciling(targets, Next), {}), CheckSteps(t, faults, k))
         == PlaceWith(s, t, CheckFirst(l, targets, faults, k), Reconciling(targets[k..], Next), {})
  {
    hide HeadTarget, ReadTarget, FinishMissing, PlaceWith, CheckOne, Run, CheckSteps, CheckFirst;
    var start := PlaceWith(s, t, l, Reconciling(targets, Next), {});
    CheckLoopUnfolds(c, start, t, l, targets, faults, k);
    if k > 0 {
      CheckLoopIsRun(c, s, t, l, targets, faults, k - 1);
      assert targets[k - 1..][1..] == targets[k..] && targets[k - 1..][0] == targets[k - 1];
      CheckIsThreeSteps(s, t, CheckFirst(l, targets, faults, k - 1), targets[k - 1..], faults(k - 1));
    } else {
      assert targets[0..] == targets;
    }
  }

  lemma CheckLoopUnfolds(c: Config, s: State, t: Txn, l: Ledger, targets: seq<Target>, faults: nat -> Fault, k: nat)
    requires TargetsFit(l, targets) && k <= |targets|
    ensures k == 0 ==> Run(c, s, CheckSteps(t, faults, k)) == s && CheckFirst(l, targets, faults, k) == l
    ensures k > 0 ==> Run(c, s, CheckSteps(t, faults, k))
                        == FinishMissing(ReadTarget(HeadTarget(Run(c, s, CheckSteps(t, faults, k - 1)), t, faults(k - 1)), t), t)
    ensures k > 0 ==> CheckFirst(l, targets, faults, k) == CheckOne(CheckFirst(l, targets, faults, k - 1), targets[k - 1], faults(k - 1))
  {
    hide HeadTarget, ReadTarget, FinishMissing, CheckOne;
    if k > 0 {
      CheckThree(c, s, CheckSteps(t, faults, k - 1), t, faults(k - 1));
      hide Run;
    }
  }

  function Reconciliations(s: State, limit: nat, updatedAt: nat -> int): seq<Target> {
    TargetList(LedgerOf(s), Batch(Served(s.artifacts, updatedAt), limit))
  }

  lemma ReconciliationsArePicked(c: Config, s: State, t: Txn, updatedAt: nat -> int)
    requires t !in s.locals
    ensures var targets := Reconciliations(s, c.batch, updatedAt);
            TargetsFit(LedgerOf(s), targets) && SelectAvailable(c, s, t, targets) == Go(s, t, Reconciling(targets, Next))
  {
    var rows := Served(s.artifacts, updatedAt);
    var ids, targets := Batch(rows, c.batch), Reconciliations(s, c.batch, updatedAt);
    ListedTargets(LedgerOf(s), ids);
    hide Batch, TargetList, Sorted;
    forall i | 0 <= i < |targets| ensures s.artifacts[targets[i].id].status.Available? {
      BatchIsFrom(rows, c.batch, targets[i].id);
    }
  }

  function ReconcilePassSteps(c: Config, s: State, t: Txn, updatedAt: nat -> int, faults: nat -> Fault): seq<Step> {
    var targets := Reconciliations(s, c.batch, updatedAt);
    [Sweeper(t, DoSelectAvailable(targets))] + CheckSteps(t, faults, |targets|) + [Sweeper(t, DoHeadTarget(NoFault))]
  }

  lemma LastHeadStep(s: State, t: Txn, l: Ledger)
    ensures HeadTarget(PlaceWith(s, t, l, Reconciling([], Next), {}), t, NoFault) == PlaceWith(s, t, l, Finished(Done), {})
  {
    GoPlacedWith(s, t, l, Reconciling([], Next), Finished(Done), {});
    hide Go, Head;
  }

  /** `_reconcile_missing`, faults included, is a run of the machine that calls delete for nothing. */
  lemma ReconcilePassIsRun(c: Config, s: State, t: Txn, updatedAt: nat -> int, faults: nat -> Fault)
    requires t !in s.locals
    ensures var targets := Reconciliations(s, c.batch, updatedAt);
            && TargetsFit(LedgerOf(s), targets)
            && Run(c, s, ReconcilePassSteps(c, s, t, updatedAt, faults))
                 == PlaceWith(s, t, CheckFirst(LedgerOf(s), targets, faults, |targets|), Finished(Done), {})
  {
    hide CheckSteps, Run, PlaceWith, CheckFirst, SelectAvailable, HeadTarget, Reconciliations;
    var targets := Reconciliations(s, c.batch, updatedAt);
    ReconciliationsArePicked(c, s, t, updatedAt);
    var select, loop := Sweeper(t, DoSelectAvailable(targets)), CheckSteps(t, faults, |targets|);
    StartsPlaced(s, t, Reconciling(targets, Next));
    CheckLoopIsRun(c, s, t, LedgerOf(s), targets, faults, |targets|);
    assert targets[|targets|..] == [];
    LastHeadStep(s, t, CheckFirst(LedgerOf(s), targets, faults, |targets|));
    RunOne(c, s, select);
    RunJoins(c, s, [select], loop);
    RunNext(c, s, [select] + loop, Sweeper(t, DoHeadTarget(NoFault)));
  }

  // ----- A request overtaken by the pass

  /** t reads a DELETING artifact, the sweeper u deletes it, and t goes on. */
  function Overtaken(c: Config, s: State, t: Txn, u: Txn, id: nat, now: Time): State
    requires id < |s.artifacts|
  {
    var selected := SelectDeleting(c, ReadArtifact(s, t, id), u, now, [Target(id, s.artifacts[id].key)]);
    FinishDeleted(ReadTarget(DeleteTarget(selected, u, NoFault), u), u)
  }

  lemma OvertakenIsPlaced(c: Config, s: State, t: Txn, u: Txn, id: nat, now: Time)
    requires t !in s.locals && u !in s.locals && t != u && id < |s.artifacts| && c.batch >= 1
    requires s.artifacts[id].status.Deleting? && RetryDue(s.artifacts[id].cleanup, now)
    ensures var s1 := ReadArtifact(s, t, id);
            var target := Target(id, s.artifacts[id].key);
            Overtaken(c, s, t, u, id, now) == PlaceWith(s1, u, DeleteOne(LedgerOf(s), target, now, NoFault), Purging(now, [], Next), {target.key})
  {
    var s1 := ReadArtifact(s, t, id);
    var targets := [Target(id, s.artifacts[id].key)];
    assert SelectDeleting(c, s1, u, now, targets) == Go(s1, u, Purging(now, targets, Next)) by { hide RetryDue, Go; }
    StartsPlaced(s1, u, Purging(now, targets, Next));
    assert targets[1..] == [] && {} + {targets[0].key} == {targets[0].key};
    hide SelectDeleting, DeleteTarget, ReadTarget, FinishDeleted, PlaceWith, DeleteOne;
    TargetIsThreeSteps(s1, u, LedgerOf(s1), now, targets, NoFault, {});
  }

  /** The request is recorded for an artifact that is DELETED by then. */
  lemma RecordedAfterDeletion(c: Config, s: State, t: Txn, u: Txn, id: nat, now: Time)
    requires t !in s.locals && u !in s.locals && t != u && id < |s.artifacts| && c.batch >= 1
    requires s.artifacts[id].status.Deleting? && RetryDue(s.artifacts[id].cleanup, now)
    ensures var deleted := Overtaken(c, s, t, u, id, now);
            var s' := RequestDeletion(deleted, t, s.artifacts[id].version);
            && id < |deleted.artifacts| && deleted.artifacts[id].status.Deleted?
            && s'.artifacts == deleted.artifacts && s'.outbox == deleted.outbox + [Event(id, DeletionRequested)]
  {
    OvertakenIsPlaced(c, s, t, u, id, now);
    hide Overtaken, RetryDue;
  }
}
