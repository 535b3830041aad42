/** Which rows a pass of the sweeper takes, told by the rows alone: their status, when they may be tried again, and
    the order of their times and ids; and what follows for the deletion of artifacts and the check for missing ones.
  */
module SweeperBatches {
  import opened ArtifactDomain
  import opened ObjectStore
  import opened UploadProtocol
  import opened Keyset
  import opened Maintenance
  import opened MaintenanceTheorems

  /** No failed try keeps the row waiting. */
  predicate MayTry(c: Cleanup, now: Time) { c.nextAttempt == None || (c.nextAttempt.Some? && c.nextAttempt.value <= now) }

  /** Row i comes before row j: it is older, or as old and has the smaller id. */
  predicate Earlier(time: nat -> int, i: nat, j: nat) { time(i) < time(j) || (time(i) == time(j) && i < j) }

  /** The ids are the first of the waiting ones, as many as the limit allows, in order. */
  predicate TakesFirst(waiting: set<nat>, time: nat -> int, limit: nat, ids: seq<nat>) {
    && |ids| == Min(limit, |waiting|)
    && (forall i | 0 <= i < |ids| :: ids[i] in waiting)
    && (forall i, j | 0 <= i < j < |ids| :: Earlier(time, ids[i], ids[j]))
    && (forall i, id | 0 <= i < |ids| && id in waiting && id !in ids :: Earlier(time, ids[i], id))
  }

  // ----- The three queries

  /** An artifact that is to be deleted, and may be tried now. */
  predicate AwaitsDeletion(a: Artifact, now: Time) { a.status == Deleting && MayTry(a.cleanup, now) }

  function Doomed(artifacts: seq<Artifact>, now: Time): set<nat> { set i: nat | i < |artifacts| && AwaitsDeletion(artifacts[i], now) }

  function Offered(artifacts: seq<Artifact>): set<nat> { set i: nat | i < |artifacts| && artifacts[i].status == Available }

  /** A session whose time is up, or that has ended and left a remote upload behind, and may be tried now. */
  predicate AwaitsCleanup(u: Upload, now: Time) {
    && ((u.status in {PendingUpload, Uploading, Completing} && u.expiresAt <= now)
        || (u.status in {Expired, Aborted, UploadFailed} && u.remote.Some?))
    && MayTry(u.cleanup, now)
  }

  function Leftover(uploads: seq<Upload>, now: Time): set<nat> { set i: nat | i < |uploads| && AwaitsCleanup(uploads[i], now) }

  /** The keys of a set of rows by their times. */
  predicate KeysOf(rows: set<RowKey>, waiting: set<nat>, time: nat -> int) {
    && (forall id | id in waiting :: (time(id), id as int) in rows)
    && (forall k | k in rows :: k.1 >= 0 && (k.1 as nat) in waiting && k.0 == time(k.1))
  }

  lemma KeyCount(rows: set<RowKey>, waiting: set<nat>, time: nat -> int)
    requires KeysOf(rows, waiting, time)
    ensures |rows| == |waiting|
  {
    if rows == {} {
      assert waiting == {} by {
        if id :| id in waiting {
          assert (time(id), id as int) in rows;
        }
      }
    } else {
      var k :| k in rows;
      var id: nat := k.1;
      assert KeysOf(rows - {k}, waiting - {id}, time);
      KeyCount(rows - {k}, waiting - {id}, time);
    }
  }

  lemma BatchTakesFirst(rows: set<RowKey>, waiting: set<nat>, time: nat -> int, limit: nat)
    requires KeysOf(rows, waiting, time)
    ensures HasIds(rows) && TakesFirst(waiting, time, limit, Batch(rows, limit))
  {
    KeyCount(rows, waiting, time);
    hide Sorted;
    var ids, ordered := Batch(rows, limit), Sorted(Ascending, rows);
    hide Batch;
    forall i | 0 <= i < |ids| ensures ordered[i] == (time(ids[i]), ids[i] as int) && ids[i] in waiting {
      assert ordered[i] in ordered;
    }
    hide KeysOf;
    forall i, j | 0 <= i < j < |ids| ensures Earlier(time, ids[i], ids[j]) {
      assert Before(Ascending, ordered[i], ordered[j]);
    }
    forall i, id | 0 <= i < |ids| && id in waiting && id !in ids ensures Earlier(time, ids[i], id) {
      RestComesLater(rows, waiting, time, ids, i, id);
    }
  }

  lemma RestComesLater(rows: set<RowKey>, waiting: set<nat>, time: nat -> int, ids: seq<nat>, i: nat, id: nat)
    requires KeysOf(rows, waiting, time) && i < |ids| <= |Sorted(Ascending, rows)| && id in waiting && id !in ids
    requires forall j | 0 <= j < |ids| :: Sorted(Ascending, rows)[j] == (time(ids[j]), ids[j] as int)
    ensures Earlier(time, ids[i], id)
  {
    var ordered := Sorted(Ascending, rows);
    hide Sorted;
    assert (time(id), id as int) in ordered;
    var j :| 0 <= j < |ordered| && ordered[j] == (time(id), id as int);
    assert j >= |ids|;
    assert Before(Ascending, ordered[i], ordered[j]);
  }

  /** Deletion takes the DELETING artifacts that may be tried, the least recently changed first. */
  lemma DeletionTakes(artifacts: seq<Artifact>, now: Time, updatedAt: nat -> int, limit: nat)
    ensures TakesFirst(Doomed(artifacts, now), updatedAt, limit, Batch(DueDeletions(artifacts, now, updatedAt), limit))
  {
    DeletionKeys(artifacts, now, updatedAt);
    hide DueDeletions, Doomed, TakesFirst;
    BatchTakesFirst(DueDeletions(artifacts, now, updatedAt), Doomed(artifacts, now), updatedAt, limit);
  }

  lemma DeletionKeys(artifacts: seq<Artifact>, now: Time, updatedAt: nat -> int)
    ensures KeysOf(DueDeletions(artifacts, now, updatedAt), Doomed(artifacts, now), updatedAt)
  {
  }

  /** Reconciliation takes the AVAILABLE artifacts, the least recently changed first. */
  lemma ReconciliationTakes(artifacts: seq<Artifact>, updatedAt: nat -> int, limit: nat)
    ensures TakesFirst(Offered(artifacts), updatedAt, limit, Batch(Served(artifacts, updatedAt), limit))
  {
    ServedKeys(artifacts, updatedAt);
    hide Served, Offered, TakesFirst;
    BatchTakesFirst(Served(artifacts, updatedAt), Offered(artifacts), updatedAt, limit);
  }

  lemma ServedKeys(artifacts: seq<Artifact>, updatedAt: nat -> int)
    ensures KeysOf(Served(artifacts, updatedAt), Offered(artifacts), updatedAt)
  {
  }

  function ExpiryOf(uploads: seq<Upload>): nat -> int { (i: nat) => if i < |uploads| then uploads[i].expiresAt else 0 }

  /** Expiry takes the sessions that await cleanup, those that expired first at the front. */
  lemma ExpiryTakes(l: Ledger, now: Time, limit: nat)
    ensures TakesFirst(Leftover(l.uploads, now), ExpiryOf(l.uploads), limit, Selection(l, now, limit))
  {
    ExpiryKeys(l.uploads, now);
    hide DueUploads, Leftover, TakesFirst, ExpiryOf, Batch;
    BatchTakesFirst(DueUploads(l.uploads, now), Leftover(l.uploads, now), ExpiryOf(l.uploads), limit);
  }

  lemma ExpiryKeys(uploads: seq<Upload>, now: Time)
    ensures KeysOf(DueUploads(uploads, now), Leftover(uploads, now), ExpiryOf(uploads))
  {
    forall i: nat | i < |uploads| ensures NeedsSweep(uploads[i], now) <==> AwaitsCleanup(uploads[i], now) {
      SweptAwaits(uploads[i], now);
    }
    hide NeedsSweep, AwaitsCleanup;
  }

  lemma SweptAwaits(u: Upload, now: Time)
    ensures NeedsSweep(u, now) <==> AwaitsCleanup(u, now)
  {
  }

  /** ceil(n / batch) fault-free passes leave no session that awaits cleanup, and one pass fewer leaves some. */
  lemma SessionsDrain(l: Ledger, now: Time, limit: nat, count: nat)
    ensures var n := |Leftover(l.uploads, now)|;
            && |Leftover(Passes(l, now, limit, count).uploads, now)| == (if count * limit >= n then 0 else n - count * limit)
  {
    Drain(l, now, limit, count);
    ExpiryKeys(l.uploads, now);
    KeyCount(DueUploads(l.uploads, now), Leftover(l.uploads, now), ExpiryOf(l.uploads));
    var after := Passes(l, now, limit, count).uploads;
    ExpiryKeys(after, now);
    hide DueUploads, Leftover, ExpiryOf, Passes, KeysOf;
    KeyCount(DueUploads(after, now), Leftover(after, now), ExpiryOf(after));
  }

  // ----- What a pass over sessions counts

  predicate StillOpen(u: Upload) { u.status == PendingUpload || u.status == Uploading || u.status == Completing }

  /** The open sessions among the rows. */
  function OpenAmong(uploads: seq<Upload>, ids: seq<nat>): set<nat>
    requires forall i | 0 <= i < |ids| :: ids[i] < |uploads|
  {
    set id | id in ids && StillOpen(uploads[id])
  }

  lemma OpenAmongMore(uploads: seq<Upload>, ids: seq<nat>)
    requires (forall i | 0 <= i < |ids| :: ids[i] < |uploads|) && ids != [] && ids[|ids| - 1] !in ids[..|ids| - 1]
    ensures |OpenAmong(uploads, ids)| == |OpenAmong(uploads, ids[..|ids| - 1])| + if StillOpen(uploads[ids[|ids| - 1]]) then 1 else 0
  {
    hide StillOpen;
    var before, last := ids[..|ids| - 1], ids[|ids| - 1];
    assert OpenAmong(uploads, ids) == OpenAmong(uploads, before) + if StillOpen(uploads[last]) then {last} else {};
  }

  lemma {:induction false} ExpiredAreCounted(l: Ledger, ids: seq<nat>)
    requires (forall i | 0 <= i < |ids| :: ids[i] < |l.uploads|) && forall i, j | 0 <= i < j < |ids| :: ids[i] != ids[j]
    ensures ExpireRows(l, ids).metrics == l.metrics.(expired := l.metrics.expired + |OpenAmong(l.uploads, ids)|)
  {
    if ids == [] {
      assert OpenAmong(l.uploads, ids) == {};
    } else {
      var before, last := ids[..|ids| - 1], ids[|ids| - 1];
      ExpiredAreCounted(l, before);
      RowExpires(l, before, last);
      OpenAmongMore(l.uploads, ids);
      hide OpenAmong, ExpiredRow;
    }
  }

  lemma {:induction false} AbortsAreCounted(l: Ledger, tasks: seq<Task>, now: Time, faults: nat -> Fault, k: nat)
    requires TasksFit(l, tasks) && k <= |tasks| && forall i, j | 0 <= i < j < |tasks| :: tasks[i].id != tasks[j].id
    requires forall i | 0 <= i < |tasks| :: l.uploads[tasks[i].id].remote == Some(tasks[i].remote)
    ensures var m := AbortFirst(l, tasks, now, faults, k).metrics;
            m.aborted + m.failures == l.metrics.aborted + l.metrics.failures + k && m == l.metrics.(aborted := m.aborted, failures := m.failures)
  {
    if k > 0 {
      AbortsAreCounted(l, tasks, now, faults, k - 1);
      OtherRowsKept(l, tasks, now, faults, 0, k - 1, tasks[k - 1].id);
      OneIsCounted(AbortFirst(l, tasks, now, faults, k - 1), tasks[k - 1], now, faults(k - 1));
      hide AbortOne;
    }
  }

  lemma OneIsCounted(l: Ledger, task: Task, now: Time, fault: Fault)
    requires task.id < |l.uploads| && l.uploads[task.id].remote == Some(task.remote)
    ensures var m := AbortOne(l, task, now, fault).metrics;
            m.aborted + m.failures == l.metrics.aborted + l.metrics.failures + 1 && m == l.metrics.(aborted := m.aborted, failures := m.failures)
  {
    hide AbortMultipart, RetryUploadRow, ClearedRow;
  }

  /** A pass counts each session it expires once, and each remote upload of its batch once, as aborted or as failed. */
  lemma PassCounts(l: Ledger, now: Time, limit: nat, faults: nat -> Fault)
    ensures var ids, m, m' := Selection(l, now, limit), l.metrics, ExpireSessionsSpec(l, now, limit, faults).metrics;
            && m'.expired == m.expired + |OpenAmong(l.uploads, ids)|
            && m'.aborted + m'.failures == m.aborted + m.failures + |set id | id in ids && l.uploads[id].remote.Some?|
            && m'.deleted == m.deleted && m'.missing == m.missing && m'.orphans == m.orphans
  {
    var ids := Selection(l, now, limit);
    SelectionIsDistinct(l, now, limit);
    hide Selection;
    WorkFits(l.uploads, ids);
    WorkIsComplete(l.uploads, ids);
    ExpiredAreCounted(l, ids);
    var l1, tasks := ExpireRows(l, ids), Work(l.uploads, ids);
    forall i | 0 <= i < |tasks| ensures l1.uploads[tasks[i].id].remote == Some(tasks[i].remote) {
      RowExpires(l, ids, tasks[i].id);
    }
    hide ExpireRows, Work;
    AbortsAreCounted(l1, tasks, now, faults, |tasks|);
    WorkCounts(l.uploads, ids, tasks);
  }

  lemma WorkCounts(uploads: seq<Upload>, ids: seq<nat>, tasks: seq<Task>)
    requires WorkOf(uploads, ids, tasks)
    ensures |set id | id in ids && uploads[id].remote.Some?| == |tasks|
  {
    TasksAreDistinct(tasks);
    assert (set id | id in ids && uploads[id].remote.Some?) == set i | 0 <= i < |tasks| :: tasks[i].id;
  }

  lemma {:induction false} TasksAreDistinct(tasks: seq<Task>)
    requires forall i, j | 0 <= i < j < |tasks| :: tasks[i].id != tasks[j].id
    ensures |set i | 0 <= i < |tasks| :: tasks[i].id| == |tasks|
  {
    var ids := set i | 0 <= i < |tasks| :: tasks[i].id;
    if tasks == [] {
      assert ids == {};
    } else {
      var before := tasks[..|tasks| - 1];
      TasksAreDistinct(before);
      assert ids == (set i | 0 <= i < |before| :: before[i].id) + {tasks[|tasks| - 1].id};
    }
  }

  // ----- A pass over artifacts, row by row

  lemma {:induction false} TargetsOfIds(l: Ledger, ids: seq<nat>)
    requires forall i | 0 <= i < |ids| :: ids[i] < |l.artifacts|
    ensures |TargetList(l, ids)| == |ids|
    ensures forall i | 0 <= i < |ids| :: TargetList(l, ids)[i] == Target(ids[i], l.artifacts[ids[i]].key)
  {
    if ids != [] {
      TargetsOfIds(l, ids[..|ids| - 1]);
    }
  }

  lemma {:induction false} RowsDeleted(l: Ledger, targets: seq<Target>, now: Time, k: nat, id: nat)
    requires TargetsFit(l, targets) && k <= |targets| && id < |l.artifacts|
    requires forall i | 0 <= i < k && targets[i].id == id :: l.artifacts[id].status == Deleting
    requires forall i, j | 0 <= i < j < |targets| :: targets[i].id != targets[j].id
    ensures var a := l.artifacts[id];
            DeleteFirst(l, targets, now, Quiet, k).artifacts[id]
              == if Targeted(targets, k, id) then a.(status := Deleted, cleanup := Cleanup(0, None), version := a.version + 1) else a
  {
    if k > 0 {
      RowsDeleted(l, targets, now, k - 1, id);
      var before, target := DeleteFirst(l, targets, now, Quiet, k - 1), targets[k - 1];
      assert DeleteFirst(l, targets, now, Quiet, k) == DeleteOne(before, target, now, NoFault);
      hide DeleteOne, DeleteFirst;
      assert Targeted(targets, k, id) <==> Targeted(targets, k - 1, id) || target.id == id;
      assert target.id == id ==> !Targeted(targets, k - 1, id);
      hide Targeted;
      OneDeleted(before, target, now, id);
    }
  }

  lemma OneDeleted(l: Ledger, target: Target, now: Time, id: nat)
    requires target.id < |l.artifacts| && id < |l.artifacts| && (target.id == id ==> l.artifacts[id].status == Deleting)
    ensures var a := l.artifacts[id];
            DeleteOne(l, target, now, NoFault).artifacts[id]
              == if target.id == id then a.(status := Deleted, cleanup := Cleanup(0, None), version := a.version + 1) else a
  {
  }

  lemma {:induction false} RowsChecked(l: Ledger, targets: seq<Target>, k: nat, id: nat)
    requires TargetsMatch(l, targets) && k <= |targets| && id < |l.artifacts|
    ensures var a := l.artifacts[id];
            CheckFirst(l, targets, Quiet, k).artifacts[id]
              == if Targeted(targets, k, id) && a.status == Available && a.key !in l.store.objects
                 then a.(status := Failed, version := a.version + 1) else a
    ensures CheckFirst(l, targets, Quiet, k).store == l.store
  {
    if k > 0 {
      RowsChecked(l, targets, k - 1, id);
      OneChecked(CheckFirst(l, targets, Quiet, k - 1), targets[k - 1], id);
      hide CheckOne, TargetsFit;
    }
  }

  lemma OneChecked(l: Ledger, target: Target, id: nat)
    requires target.id < |l.artifacts| && id < |l.artifacts|
    ensures var a := l.artifacts[id];
            CheckOne(l, target, NoFault).artifacts[id]
              == if target.id == id && target.key !in l.store.objects && a.status == Available then a.(status := Failed, version := a.version + 1) else a
    ensures CheckOne(l, target, NoFault).store == l.store
  {
  }

  // ----- Deletion drains

  /** A pass of _delete_artifacts. */
  function DeletionPass(l: Ledger, now: Time, updatedAt: nat -> int, limit: nat, faults: nat -> Fault): Ledger {
    var targets := TargetList(l, Batch(DueDeletions(l.artifacts, now, updatedAt), limit));
    DeleteFirst(l, targets, now, faults, |targets|)
  }

  /** Fault-free passes with the same clock and no other writer; a row that still waits was not changed, so it keeps
      the time of its last change. */
  function DeletionPasses(l: Ledger, now: Time, updatedAt: nat -> int, limit: nat, count: nat): Ledger {
    if count == 0 then l else DeletionPass(DeletionPasses(l, now, updatedAt, limit, count - 1), now, updatedAt, limit, Quiet)
  }

  /** One fault-free pass deletes the artifacts it takes, and changes no other. */
  lemma DeletionPassDeletes(l: Ledger, now: Time, updatedAt: nat -> int, limit: nat, id: nat)
    requires id < |l.artifacts|
    ensures var a, ids := l.artifacts[id], Batch(DueDeletions(l.artifacts, now, updatedAt), limit);
            DeletionPass(l, now, updatedAt, limit, Quiet).artifacts[id]
              == if id in ids then a.(status := Deleted, cleanup := Cleanup(0, None), version := a.version + 1) else a
  {
    DeletionTakes(l.artifacts, now, updatedAt, limit);
    hide Batch, DueDeletions;
    var ids := Batch(DueDeletions(l.artifacts, now, updatedAt), limit);
    var targets := TargetList(l, ids);
    TargetsOfIds(l, ids);
    hide TargetList;
    DistinctTargets(updatedAt, ids, targets);
    forall i | 0 <= i < |targets| && targets[i].id == id ensures l.artifacts[id].status == Deleting {
      assert ids[i] in Doomed(l.artifacts, now);
    }
    RowsDeleted(l, targets, now, |targets|, id);
    if id in ids {
      var i :| 0 <= i < |ids| && ids[i] == id;
      assert targets[i].id == id;
    }
  }

  lemma DistinctTargets(time: nat -> int, ids: seq<nat>, targets: seq<Target>)
    requires forall i, j | 0 <= i < j < |ids| :: Earlier(time, ids[i], ids[j])
    requires |targets| == |ids| && forall i | 0 <= i < |ids| :: targets[i].id == ids[i]
    ensures forall i, j | 0 <= i < j < |targets| :: targets[i].id != targets[j].id
  {
  }

  lemma DeletionPassDoomed(l: Ledger, now: Time, updatedAt: nat -> int, limit: nat)
    ensures var ids := Batch(DueDeletions(l.artifacts, now, updatedAt), limit);
            Doomed(DeletionPass(l, now, updatedAt, limit, Quiet).artifacts, now) == Doomed(l.artifacts, now) - set id | id in ids
  {
    var ids, l' := Batch(DueDeletions(l.artifacts, now, updatedAt), limit), DeletionPass(l, now, updatedAt, limit, Quiet);
    hide Batch, DueDeletions;
    assert |l'.artifacts| == |l.artifacts|;
    hide DeletionPass;
    forall id: nat | id < |l.artifacts|
      ensures AwaitsDeletion(l'.artifacts[id], now) <==> AwaitsDeletion(l.artifacts[id], now) && id !in ids
    {
      DeletionPassDeletes(l, now, updatedAt, limit, id);
    }
    hide AwaitsDeletion;
  }

  lemma {:induction false} TakenAway(waiting: set<nat>, ids: seq<nat>)
    requires (forall i | 0 <= i < |ids| :: ids[i] in waiting) && forall i, j | 0 <= i < j < |ids| :: ids[i] != ids[j]
    ensures |waiting - set id | id in ids| == |waiting| - |ids|
  {
    if ids == [] {
      assert waiting - (set id | id in ids) == waiting;
    } else {
      var before, last := ids[..|ids| - 1], ids[|ids| - 1];
      TakenAway(waiting, before);
      assert last !in before;
      assert waiting - (set id | id in ids) == (waiting - set id | id in before) - {last};
    }
  }

  lemma PassTakesDoomed(l: Ledger, now: Time, updatedAt: nat -> int, limit: nat)
    ensures var n := |Doomed(l.artifacts, now)|;
            |Doomed(DeletionPass(l, now, updatedAt, limit, Quiet).artifacts, now)| == n - Min(limit, n)
  {
    hide Doomed, DeletionPass, Batch, DueDeletions;
    DeletionTakes(l.artifacts, now, updatedAt, limit);
    DeletionPassDoomed(l, now, updatedAt, limit);
    TakenAway(Doomed(l.artifacts, now), Batch(DueDeletions(l.artifacts, now, updatedAt), limit));
  }

  /** Every DELETING artifact whose turn it is, a failed one included, is deleted: of n that may be tried now,
      ceil(n / batch) fault-free passes leave none, and fewer passes leave n less a batch for each. */
  lemma {:induction false} DeletionsDrain(l: Ledger, now: Time, updatedAt: nat -> int, limit: nat, count: nat)
    ensures var n := |Doomed(l.artifacts, now)|;
            |Doomed(DeletionPasses(l, now, updatedAt, limit, count).artifacts, now)| == if count * limit >= n then 0 else n - count * limit
  {
    hide Doomed, DeletionPass;
    if count > 0 {
      DeletionsDrain(l, now, updatedAt, limit, count - 1);
      PassTakesDoomed(DeletionPasses(l, now, updatedAt, limit, count - 1), now, updatedAt, limit);
      assert (count - 1) * limit + limit == count * limit;
    }
  }

  lemma {:induction false} DeletionsAreCounted(l: Ledger, targets: seq<Target>, now: Time, faults: nat -> Fault, k: nat)
    requires TargetsFit(l, targets) && k <= |targets| && forall i, j | 0 <= i < j < |targets| :: targets[i].id != targets[j].id
    requires forall i | 0 <= i < |targets| :: l.artifacts[targets[i].id].status == Deleting
    ensures var l' := DeleteFirst(l, targets, now, faults, k);
            && l'.metrics.deleted + l'.metrics.failures == l.metrics.deleted + l.metrics.failures + k
            && l'.metrics == l.metrics.(deleted := l'.metrics.deleted, failures := l'.metrics.failures)
            && forall i | k <= i < |targets| :: l'.artifacts[targets[i].id] == l.artifacts[targets[i].id]
  {
    if k > 0 {
      DeletionsAreCounted(l, targets, now, faults, k - 1);
      OneDeletionIsCounted(DeleteFirst(l, targets, now, faults, k - 1), targets[k - 1], now, faults(k - 1));
      hide DeleteOne;
    }
  }

  lemma OneDeletionIsCounted(l: Ledger, target: Target, now: Time, fault: Fault)
    requires target.id < |l.artifacts| && l.artifacts[target.id].status == Deleting
    ensures var l' := DeleteOne(l, target, now, fault);
            && l'.metrics.deleted + l'.metrics.failures == l.metrics.deleted + l.metrics.failures + 1
            && l'.metrics == l.metrics.(deleted := l'.metrics.deleted, failures := l'.metrics.failures)
            && forall id: nat | id < |l.artifacts| && id != target.id :: l'.artifacts[id] == l.artifacts[id]
  {
    hide RetryArtifactRow, DeletedRow;
  }

  /** A pass counts each artifact of its batch once, as deleted or as failed. */
  lemma DeletionPassCounts(l: Ledger, now: Time, updatedAt: nat -> int, limit: nat, faults: nat -> Fault)
    ensures var m, m' := l.metrics, DeletionPass(l, now, updatedAt, limit, faults).metrics;
            && m'.deleted + m'.failures == m.deleted + m.failures + Min(limit, |Doomed(l.artifacts, now)|)
            && m' == m.(deleted := m'.deleted, failures := m'.failures)
  {
    DeletionTakes(l.artifacts, now, updatedAt, limit);
    hide Batch, DueDeletions;
    var ids := Batch(DueDeletions(l.artifacts, now, updatedAt), limit);
    var targets := TargetList(l, ids);
    TargetsOfIds(l, ids);
    hide TargetList;
    DistinctTargets(updatedAt, ids, targets);
    forall i | 0 <= i < |targets| ensures l.artifacts[targets[i].id].status == Deleting {
      assert ids[i] in Doomed(l.artifacts, now);
    }
    hide Doomed, TakesFirst, Earlier, DeleteFirst;
    DeletionsAreCounted(l, targets, now, faults, |targets|);
  }

  // ----- Reconciliation

  /** The calls that fail, other than by finding nothing. */
  function Failing(faults: nat -> Fault, k: nat): set<nat> { set i | 0 <= i < k && !faults(i).NoFault? && !faults(i).code.NotFound? }

  lemma OneCheckIsCounted(l: Ledger, target: Target, fault: Fault)
    requires target.id < |l.artifacts|
    ensures var l' := CheckOne(l, target, fault);
            && |l'.outbox| >= |l.outbox|
            && l'.metrics == l.metrics.(missing := l.metrics.missing + (|l'.outbox| - |l.outbox|),
                                        failures := l.metrics.failures + if !fault.NoFault? && !fault.code.NotFound? then 1 else 0)
  {
    hide ArtifactRow;
  }

  /** ... are counted as failures, and the rows that are failed as missing. */
  lemma {:induction false} ChecksAreCounted(l: Ledger, targets: seq<Target>, faults: nat -> Fault, k: nat)
    requires TargetsFit(l, targets) && k <= |targets|
    ensures var l' := CheckFirst(l, targets, faults, k);
            && |l'.outbox| >= |l.outbox|
            && l'.metrics == l.metrics.(missing := l.metrics.missing + (|l'.outbox| - |l.outbox|), failures := l.metrics.failures + |Failing(faults, k)|)
  {
    if k == 0 {
      assert Failing(faults, k) == {};
    } else {
      ChecksAreCounted(l, targets, faults, k - 1);
      OneCheckIsCounted(CheckFirst(l, targets, faults, k - 1), targets[k - 1], faults(k - 1));
      hide CheckOne;
      assert Failing(faults, k) == Failing(faults, k - 1) + if !faults(k - 1).NoFault? && !faults(k - 1).code.NotFound? then {k - 1} else {};
      hide Failing;
    }
  }

  /** A pass of _reconcile_missing. */
  function ReconciliationPass(l: Ledger, updatedAt: nat -> int, limit: nat, faults: nat -> Fault): Ledger {
    var targets := TargetList(l, Batch(Served(l.artifacts, updatedAt), limit));
    CheckFirst(l, targets, faults, |targets|)
  }

  /** One fault-free pass fails the artifacts of its batch whose objects are missing, and changes no other. */
  lemma ReconciliationFinds(l: Ledger, updatedAt: nat -> int, limit: nat, id: nat)
    requires id < |l.artifacts|
    ensures var a, ids := l.artifacts[id], Batch(Served(l.artifacts, updatedAt), limit);
            ReconciliationPass(l, updatedAt, limit, Quiet).artifacts[id]
              == if id in ids && a.key !in l.store.objects then a.(status := Failed, version := a.version + 1) else a
  {
    ReconciliationTakes(l.artifacts, updatedAt, limit);
    hide Batch, Served;
    var ids := Batch(Served(l.artifacts, updatedAt), limit);
    var targets := TargetList(l, ids);
    TargetsOfIds(l, ids);
    hide TargetList;
    RowsChecked(l, targets, |targets|, id);
    if i :| 0 <= i < |ids| && ids[i] == id {
      assert targets[i].id == id;
      assert ids[i] in Offered(l.artifacts);
    }
    if i :| 0 <= i < |targets| && targets[i].id == id {
      assert ids[i] == id;
    }
  }

  // ----- Orphans

  /** `v1/o/` and thirty-two hexadecimal digits in small letters. */
  predicate NamesObject(key: Key) {
    |key| == 37 && key[0] == 'v' && key[1] == '1' && key[2] == '/' && key[3] == 'o' && key[4] == '/'
    && forall i | 5 <= i < 37 :: key[i] in {'0', '1', '2', '3', '4', '5', '6', '7', '8', '9', 'a', 'b', 'c', 'd', 'e', 'f'}
  }

  /** Not changed since the cutoff, and named like the object of a session. */
  predicate IsOld(item: Listed, cutoff: Time) { item.lastModified <= cutoff && NamesObject(item.key) }

  /** No session has the key, and no artifact that is not DELETED. */
  predicate IsOrphan(l: Ledger, key: Key) {
    && (forall i | 0 <= i < |l.uploads| :: l.uploads[i].key != key)
    && (forall i | 0 <= i < |l.artifacts| && l.artifacts[i].key == key :: l.artifacts[i].status == Deleted)
  }

  function OldItems(listing: seq<Listed>, cutoff: Time, k: nat): set<nat>
    requires k <= |listing|
  {
    set i | 0 <= i < k && IsOld(listing[i], cutoff)
  }

  lemma SuspectIsOld(item: Listed, cutoff: Time)
    ensures Suspect(item, cutoff) <==> IsOld(item, cutoff)
  {
    if |item.key| == 37 {
      assert item.key[..5] == "v1/o/" <==> item.key[0] == 'v' && item.key[1] == '1' && item.key[2] == '/' && item.key[3] == 'o' && item.key[4] == '/';
      forall i | 5 <= i < 37
        ensures '0' <= item.key[i] <= '9' || 'a' <= item.key[i] <= 'f'
           <==> item.key[i] in {'0', '1', '2', '3', '4', '5', '6', '7', '8', '9', 'a', 'b', 'c', 'd', 'e', 'f'}
      {
        HexLetter(item.key[i]);
      }
    }
  }

  lemma HexLetter(c: char)
    ensures '0' <= c <= '9' || 'a' <= c <= 'f' <==> c in {'0', '1', '2', '3', '4', '5', '6', '7', '8', '9', 'a', 'b', 'c', 'd', 'e', 'f'}
  {
  }

  lemma {:induction false} SeenAreOld(l: Ledger, listing: seq<Listed>, cutoff: Time, limit: nat, faults: nat -> Fault, k: nat)
    requires k <= |listing|
    ensures OrphansFirst(l, listing, cutoff, limit, faults, k).1 == Min(limit, |OldItems(listing, cutoff, k)|)
  {
    hide IsOld, Suspect, Known, RemoveOrphan;
    if k == 0 {
      assert OldItems(listing, cutoff, k) == {};
    } else {
      SeenAreOld(l, listing, cutoff, limit, faults, k - 1);
      SuspectIsOld(listing[k - 1], cutoff);
      OneMoreItem(listing, cutoff, k);
    }
  }

  lemma NoneComesBack(l: Ledger, listing: seq<Listed>, cutoff: Time, limit: nat, faults: nat -> Fault, k: nat)
    requires 0 < k <= |listing|
    ensures OrphansFirst(l, listing, cutoff, limit, faults, k).0.store.objects.Keys
         <= OrphansFirst(l, listing, cutoff, limit, faults, k - 1).0.store.objects.Keys
  {
    hide Suspect, Known;
  }

  lemma OrphanIsUnknown(l: Ledger, l': Ledger, key: Key)
    requires IsOrphan(l, key) && l' == l.(store := l'.store, metrics := l'.metrics)
    ensures !Known(l', key)
  {
  }

  lemma UnknownIsRemoved(l: Ledger, listing: seq<Listed>, cutoff: Time, limit: nat, k: nat)
    requires 0 < k <= |listing|
    requires var (before, seen) := OrphansFirst(l, listing, cutoff, limit, Quiet, k - 1);
             seen < limit && Suspect(listing[k - 1], cutoff) && !Known(before, listing[k - 1].key)
    ensures listing[k - 1].key !in OrphansFirst(l, listing, cutoff, limit, Quiet, k).0.store.objects
  {
    hide Suspect, Known;
  }

  lemma OneMoreItem(listing: seq<Listed>, cutoff: Time, k: nat)
    requires 0 < k <= |listing|
    ensures |OldItems(listing, cutoff, k)| == |OldItems(listing, cutoff, k - 1)| + if IsOld(listing[k - 1], cutoff) then 1 else 0
  {
    hide IsOld;
    assert OldItems(listing, cutoff, k) == OldItems(listing, cutoff, k - 1) + if IsOld(listing[k - 1], cutoff) then {k - 1} else {};
  }

  /** A fault-free pass with room for all old items removes every old orphan of the listing. */
  lemma {:induction false} OrphansAreRemoved(l: Ledger, listing: seq<Listed>, cutoff: Time, limit: nat, k: nat, i: nat)
    requires i < k <= |listing| && |OldItems(listing, cutoff, k)| <= limit
    requires IsOld(listing[i], cutoff) && IsOrphan(l, listing[i].key)
    ensures listing[i].key !in OrphansFirst(l, listing, cutoff, limit, Quiet, k).0.store.objects
  {
    hide IsOld, Suspect, Known, IsOrphan, OldItems, OrphansFirst;
    OneMoreItem(listing, cutoff, k);
    if i < k - 1 {
      OrphansAreRemoved(l, listing, cutoff, limit, k - 1, i);
      NoneComesBack(l, listing, cutoff, limit, Quiet, k);
    } else {
      OnlyOrphansAreRemoved(l, listing, cutoff, limit, Quiet, i, listing[i].key);
      SeenAreOld(l, listing, cutoff, limit, Quiet, i);
      SuspectIsOld(listing[i], cutoff);
      OrphanIsUnknown(l, OrphansFirst(l, listing, cutoff, limit, Quiet, i).0, listing[i].key);
      UnknownIsRemoved(l, listing, cutoff, limit, k);
    }
  }

  /** The old orphans among the first items. */
  function OrphanItems(l: Ledger, listing: seq<Listed>, cutoff: Time, k: nat): set<nat>
    requires k <= |listing|
  {
    set i | 0 <= i < k && IsOld(listing[i], cutoff) && IsOrphan(l, listing[i].key)
  }

  lemma KnownIsNoOrphan(l: Ledger, l': Ledger, key: Key)
    requires l' == l.(store := l'.store, metrics := l'.metrics)
    ensures Known(l', key) <==> !IsOrphan(l, key)
  {
  }

  lemma OneMoreOrphan(l: Ledger, listing: seq<Listed>, cutoff: Time, k: nat)
    requires 0 < k <= |listing|
    ensures |OrphanItems(l, listing, cutoff, k)|
         == |OrphanItems(l, listing, cutoff, k - 1)| + if IsOld(listing[k - 1], cutoff) && IsOrphan(l, listing[k - 1].key) then 1 else 0
  {
    hide IsOld, IsOrphan;
    assert OrphanItems(l, listing, cutoff, k)
        == OrphanItems(l, listing, cutoff, k - 1) + if IsOld(listing[k - 1], cutoff) && IsOrphan(l, listing[k - 1].key) then {k - 1} else {};
  }

  lemma OneRemovalIsCounted(l: Ledger, key: Key, fault: Fault)
    ensures var m := RemoveOrphan(l, key, fault).metrics;
            m.orphans + m.failures == l.metrics.orphans + l.metrics.failures + 1 && m == l.metrics.(orphans := m.orphans, failures := m.failures)
  {
    hide DeleteObject;
  }

  /** With room for all old items a pass counts each old orphan once, as removed or as failed. */
  lemma {:induction false} OrphansAreCounted(l: Ledger, listing: seq<Listed>, cutoff: Time, limit: nat, faults: nat -> Fault, k: nat)
    requires k <= |listing| && |OldItems(listing, cutoff, k)| <= limit
    ensures var m := OrphansFirst(l, listing, cutoff, limit, faults, k).0.metrics;
            && m.orphans + m.failures == l.metrics.orphans + l.metrics.failures + |OrphanItems(l, listing, cutoff, k)|
            && m == l.metrics.(orphans := m.orphans, failures := m.failures)
  {
    if k == 0 {
      assert OrphanItems(l, listing, cutoff, k) == {};
    } else {
      hide IsOld, Suspect, Known, IsOrphan, OldItems, OrphanItems, RemoveOrphan;
      OneMoreItem(listing, cutoff, k);
      OneMoreOrphan(l, listing, cutoff, k);
      OrphansAreCounted(l, listing, cutoff, limit, faults, k - 1);
      OnlyOrphansAreRemoved(l, listing, cutoff, limit, faults, k - 1, listing[k - 1].key);
      SeenAreOld(l, listing, cutoff, limit, faults, k - 1);
      SuspectIsOld(listing[k - 1], cutoff);
      var before := OrphansFirst(l, listing, cutoff, limit, faults, k - 1).0;
      KnownIsNoOrphan(l, before, listing[k - 1].key);
      OneRemovalIsCounted(before, listing[k - 1].key, faults(k - 1));
    }
  }
}
