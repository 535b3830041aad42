/** One pass of the background sweeper (modules/artifact/maintenance.py): loops that change rows in
    place, each row in its own small transaction.  Here no other writer runs during a pass.
  */
module Maintenance {
  import opened ArtifactDomain
  import opened ObjectStore
  import opened UploadProtocol
  import opened Keyset

  datatype Metrics = Metrics(expired: nat, aborted: nat, deleted: nat, missing: nat, orphans: nat, failures: nat)

  const NO_METRICS := Metrics(0, 0, 0, 0, 0, 0)

  datatype Ledger = Ledger(uploads: seq<Upload>, artifacts: seq<Artifact>, outbox: seq<Event>, store: Store, metrics: Metrics)

  function WithUpload(l: Ledger, id: nat, row: Upload): Ledger
    requires id < |l.uploads|
  {
    l.(uploads := l.uploads[id := row])
  }

  function WithArtifact(l: Ledger, id: nat, row: Artifact): Ledger
    requires id < |l.artifacts|
  {
    l.(artifacts := l.artifacts[id := row])
  }

  /** The call did not fail, or only because there was nothing left to remove. */
  predicate IsGone(outcome: Outcome) { outcome.None? || outcome.value.NotFound? }

  // ----- Queries: ORDER BY ..., id LIMIT batch

  predicate HasIds(rows: set<RowKey>) { forall k | k in rows :: k.1 >= 0 }

  function Batch(rows: set<RowKey>, limit: nat): (ids: seq<nat>)
    requires HasIds(rows)
    ensures |ids| == Min(limit, |rows|)
    ensures forall i | 0 <= i < |ids| :: Sorted(Ascending, rows)[i].1 == ids[i]
  {
    var ordered := Sorted(Ascending, rows);
    seq(Min(limit, |ordered|), i requires 0 <= i < |ordered| => assert ordered[i] in ordered; ordered[i].1 as nat)
  }

  function DueUploads(uploads: seq<Upload>, now: Time): (rows: set<RowKey>)
    ensures HasIds(rows)
  {
    set i | 0 <= i < |uploads| && NeedsSweep(uploads[i], now) :: (uploads[i].expiresAt, i)
  }

  // ----- _expire_sessions

  /** The first loop: expires the active rows of the batch. */
  function ExpireRows(l: Ledger, ids: seq<nat>): (r: Ledger)
    requires forall i | 0 <= i < |ids| :: ids[i] < |l.uploads|
    ensures |r.uploads| == |l.uploads| && r.store == l.store
  {
    if ids == [] then l
    else
      var before, id := ExpireRows(l, ids[..|ids| - 1]), ids[|ids| - 1];
      if IsActive(before.uploads[id].status)
      then WithUpload(before, id, ExpiredRow(before.uploads[id])).(metrics := before.metrics.(expired := before.metrics.expired + 1))
      else before
  }

  /** The work list it leaves: a remote upload to abort for each row that has one. */
  function Work(uploads: seq<Upload>, ids: seq<nat>): seq<Task>
    requires forall i | 0 <= i < |ids| :: ids[i] < |uploads|
  {
    if ids == [] then []
    else
      var row := uploads[ids[|ids| - 1]];
      Work(uploads, ids[..|ids| - 1]) + if row.remote.Some? then [Task(ids[|ids| - 1], row.key, row.remote.value)] else []
  }

  function AbortOne(l: Ledger, task: Task, now: Time, fault: Fault): (r: Ledger)
    requires task.id < |l.uploads|
    ensures |r.uploads| == |l.uploads|
  {
    var (store, outcome) := AbortMultipart(l.store, task.key, task.remote, fault);
    var l1, row := l.(store := store), l.uploads[task.id];
    if !IsGone(outcome) then
      WithUpload(l1, task.id, RetryUploadRow(row, now)).(metrics := l.metrics.(failures := l.metrics.failures + 1))
    else if row.remote == Some(task.remote) then
      WithUpload(l1, task.id, ClearedRow(row)).(metrics := l.metrics.(aborted := l.metrics.aborted + 1))
    else l1
  }

  predicate TasksFit(l: Ledger, tasks: seq<Task>) { forall i | 0 <= i < |tasks| :: tasks[i].id < |l.uploads| }

  /** The second loop, up to its k-th task. */
  function AbortFirst(l: Ledger, tasks: seq<Task>, now: Time, faults: nat -> Fault, k: nat): (r: Ledger)
    requires TasksFit(l, tasks) && k <= |tasks|
    ensures |r.uploads| == |l.uploads|
  {
    if k == 0 then l else AbortOne(AbortFirst(l, tasks, now, faults, k - 1), tasks[k - 1], now, faults(k - 1))
  }

  lemma {:induction false} WorkFits(uploads: seq<Upload>, ids: seq<nat>)
    requires forall i | 0 <= i < |ids| :: ids[i] < |uploads|
    ensures forall i | 0 <= i < |Work(uploads, ids)| :: Work(uploads, ids)[i].id < |uploads|
  {
    if ids != [] {
      WorkFits(uploads, ids[..|ids| - 1]);
    }
  }

  function Selection(l: Ledger, now: Time, limit: nat): (ids: seq<nat>)
    ensures forall i | 0 <= i < |ids| :: ids[i] < |l.uploads|
  {
    SelectionIsDue(l.uploads, now, limit);
    Batch(DueUploads(l.uploads, now), limit)
  }

  lemma SelectionIsDue(uploads: seq<Upload>, now: Time, limit: nat)
    ensures var ids := Batch(DueUploads(uploads, now), limit);
            forall i | 0 <= i < |ids| :: ids[i] < |uploads| && NeedsSweep(uploads[ids[i]], now)
                                         && Sorted(Ascending, DueUploads(uploads, now))[i] == (uploads[ids[i]].expiresAt, ids[i])
  {
    hide NeedsSweep, Sorted;
    var rows := DueUploads(uploads, now);
    forall i | 0 <= i < |Batch(rows, limit)| ensures Sorted(Ascending, rows)[i] in rows {
      assert Sorted(Ascending, rows)[i] in Sorted(Ascending, rows);
    }
  }

  function ExpireSessionsSpec(l: Ledger, now: Time, limit: nat, faults: nat -> Fault): Ledger {
    var ids := Selection(l, now, limit);
    WorkFits(l.uploads, ids);
    AbortFirst(ExpireRows(l, ids), Work(l.uploads, ids), now, faults, |Work(l.uploads, ids)|)
  }

  // ----- _delete_artifacts and _reconcile_missing

  function DueDeletions(artifacts: seq<Artifact>, now: Time, updatedAt: nat -> int): (rows: set<RowKey>)
    ensures HasIds(rows)
  {
    set i: nat | i < |artifacts| && artifacts[i].status.Deleting? && RetryDue(artifacts[i].cleanup, now) :: (updatedAt(i), i)
  }

  function Served(artifacts: seq<Artifact>, updatedAt: nat -> int): (rows: set<RowKey>)
    ensures HasIds(rows)
  {
    set i: nat | i < |artifacts| && artifacts[i].status.Available? :: (updatedAt(i), i)
  }

  function DeleteOne(l: Ledger, target: Target, now: Time, fault: Fault): (r: Ledger)
    requires target.id < |l.artifacts|
    ensures |r.artifacts| == |l.artifacts|
  {
    var (store, outcome) := DeleteObject(l.store, target.key, fault);
    var l1, row := l.(store := store), l.artifacts[target.id];
    if !IsGone(outcome) then
      WithArtifact(l1, target.id, RetryArtifactRow(row, now)).(metrics := l.metrics.(failures := l.metrics.failures + 1))
    else if row.status.Deleting? then
      WithArtifact(l1, target.id, DeletedRow(row)).(
        metrics := l.metrics.(deleted := l.metrics.deleted + 1), outbox := l.outbox + [Event(target.id, ArtifactDeleted)])
    else l1
  }

  function CheckOne(l: Ledger, target: Target, fault: Fault): (r: Ledger)
    requires target.id < |l.artifacts|
    ensures |r.artifacts| == |l.artifacts|
  {
    var outcome, row := Head(l.store, target.key, fault), l.artifacts[target.id];
    if outcome.None? then l
    else if !outcome.value.NotFound? then l.(metrics := l.metrics.(failures := l.metrics.failures + 1))
    else if row.status.Available? then
      WithArtifact(l, target.id, ArtifactRow(row, Failed)).(
        metrics := l.metrics.(missing := l.metrics.missing + 1), outbox := l.outbox + [Event(target.id, ObjectMissing)])
    else l
  }

  predicate TargetsFit(l: Ledger, targets: seq<Target>) { forall i | 0 <= i < |targets| :: targets[i].id < |l.artifacts| }

  function DeleteFirst(l: Ledger, targets: seq<Target>, now: Time, faults: nat -> Fault, k: nat): (r: Ledger)
    requires TargetsFit(l, targets) && k <= |targets|
    ensures |r.artifacts| == |l.artifacts|
  {
    if k == 0 then l else DeleteOne(DeleteFirst(l, targets, now, faults, k - 1), targets[k - 1], now, faults(k - 1))
  }

  function CheckFirst(l: Ledger, targets: seq<Target>, faults: nat -> Fault, k: nat): (r: Ledger)
    requires TargetsFit(l, targets) && k <= |targets|
    ensures |r.artifacts| == |l.artifacts|
  {
    if k == 0 then l else CheckOne(CheckFirst(l, targets, faults, k - 1), targets[k - 1], faults(k - 1))
  }

  /** The targets of a batch: ids that are rows of the table, with their keys. */
  function TargetList(l: Ledger, ids: seq<nat>): (targets: seq<Target>)
    ensures TargetsFit(l, targets)
  {
    if ids == [] then []
    else
      var id := ids[|ids| - 1];
      TargetList(l, ids[..|ids| - 1]) + if id < |l.artifacts| then [Target(id, l.artifacts[id].key)] else []
  }

  // ----- _delete_orphans

  datatype Listed = Listed(key: Key, lastModified: Time)

  predicate IsObjectKey(key: Key) {
    |key| == 37 && key[..5] == "v1/o/" && forall i | 5 <= i < 37 :: '0' <= key[i] <= '9' || 'a' <= key[i] <= 'f'
  }

  /** Some session has the key, or some artifact that is not deleted. */
  predicate Known(l: Ledger, key: Key) {
    (exists i | 0 <= i < |l.uploads| :: l.uploads[i].key == key)
    || (exists i | 0 <= i < |l.artifacts| :: l.artifacts[i].key == key && !l.artifacts[i].status.Deleted?)
  }

  predicate Suspect(item: Listed, cutoff: Time) { item.lastModified <= cutoff && IsObjectKey(item.key) }

  function RemoveOrphan(l: Ledger, key: Key, fault: Fault): Ledger {
    var (store, outcome) := DeleteObject(l.store, key, fault);
    l.(store := store, metrics := if IsGone(outcome) then l.metrics.(orphans := l.metrics.orphans + 1)
                                  else l.metrics.(failures := l.metrics.failures + 1))
  }

  /** The listing up to its k-th item; at most limit suspects are looked at. */
  function OrphansFirst(l: Ledger, listing: seq<Listed>, cutoff: Time, limit: nat, faults: nat -> Fault, k: nat): (Ledger, nat)
    requires k <= |listing|
  {
    if k == 0 then (l, 0)
    else
      var (before, seen) := OrphansFirst(l, listing, cutoff, limit, faults, k - 1);
      var item := listing[k - 1];
      if seen >= limit || !Suspect(item, cutoff) then (before, seen)
      else if Known(before, item.key) then (before, seen + 1)
      else (RemoveOrphan(before, item.key, faults(k - 1)), seen + 1)
  }

  lemma {:induction false} FullBatchStops(l: Ledger, listing: seq<Listed>, cutoff: Time, limit: nat, faults: nat -> Fault, k: nat, end: nat)
    requires k <= end <= |listing| && OrphansFirst(l, listing, cutoff, limit, faults, k).1 >= limit
    ensures OrphansFirst(l, listing, cutoff, limit, faults, end) == OrphansFirst(l, listing, cutoff, limit, faults, k)
  {
    hide Suspect, Known, RemoveOrphan;
    if k < end {
      FullBatchStops(l, listing, cutoff, limit, faults, k, end - 1);
    }
  }

  /** A session's object, the object of an artifact that is not deleted, and an object that is too young or
      has another kind of key survive; the tables are not touched, and no more than a batch is looked at. */
  lemma {:induction false} OnlyOrphansAreRemoved(l: Ledger, listing: seq<Listed>, cutoff: Time, limit: nat, faults: nat -> Fault, k: nat, key: Key)
    requires k <= |listing|
    ensures var (l', seen) := OrphansFirst(l, listing, cutoff, limit, faults, k);
            && seen <= limit && l' == l.(store := l'.store, metrics := l'.metrics) && l'.store.multiparts == l.store.multiparts
            && l'.metrics.orphans + l'.metrics.failures <= l.metrics.orphans + l.metrics.failures + seen
            && l'.store.objects.Keys <= l.store.objects.Keys
            && (key in l.store.objects && (Known(l, key) || forall i | 0 <= i < k && listing[i].key == key :: !Suspect(listing[i], cutoff))
                ==> key in l'.store.objects && l'.store.objects[key] == l.store.objects[key])
  {
    hide IsObjectKey;
    if k > 0 {
      OnlyOrphansAreRemoved(l, listing, cutoff, limit, faults, k - 1, key);
    }
  }

  // ----- The service

  class MaintenanceService {
    const batchSize: nat
    var uploads: seq<Upload>
    var artifacts: seq<Artifact>
    var outbox: seq<Event>
    var store: Store
    var metrics: Metrics

    constructor (batchSize: nat, l: Ledger)
      ensures this.batchSize == batchSize && View() == l
    {
      this.batchSize := batchSize;
      uploads, artifacts, outbox, store, metrics := l.uploads, l.artifacts, l.outbox, l.store, l.metrics;
    }

    ghost function View(): Ledger
      reads this
    {
      Ledger(uploads, artifacts, outbox, store, metrics)
    }

    /** The transaction that expires the batch and collects the work list. */
    method ExpireBatch(ids: seq<nat>) returns (work: seq<Task>)
      requires forall i | 0 <= i < |ids| :: ids[i] < |uploads|
      modifies this`uploads, this`metrics
      ensures View() == ExpireRows(old(View()), ids) && work == Work(old(uploads), ids)
    {
      work := [];
      assert ids[..|ids|] == ids;
      for i := 0 to |ids|
        invariant |uploads| == |old(uploads)|
        invariant View() == ExpireRows(old(View()), ids[..i]) && work == Work(old(uploads), ids[..i])
        invariant forall j | 0 <= j < |uploads| :: uploads[j].remote == old(uploads)[j].remote && uploads[j].key == old(uploads)[j].key
      {
        assert ids[..i + 1][..i] == ids[..i];
        var row := uploads[ids[i]];
        if IsActive(row.status) {
          uploads := uploads[ids[i] := row.(status := Expired, reserved := 0, version := row.version + 1)];
          metrics := metrics.(expired := metrics.expired + 1);
        }
        if row.remote.Some? {
          work := work + [Task(ids[i], row.key, row.remote.value)];
        }
      }
    }

    method RecordUploadFailure(id: nat, now: Time)
      requires id < |uploads|
      modifies this`uploads
      ensures View() == WithUpload(old(View()), id, RetryUploadRow(old(uploads)[id], now))
    {
      var row := uploads[id];
      var attempts := row.cleanup.attempts + 1;
      uploads := uploads[id := row.(cleanup := Cleanup(attempts, Some(now + Backoff(attempts))), version := row.version + 1)];
    }

    method AbortTask(task: Task, now: Time, fault: Fault)
      requires task.id < |uploads|
      modifies this`uploads, this`store, this`metrics
      ensures View() == AbortOne(old(View()), task, now, fault)
    {
      var (after, outcome) := AbortMultipart(store, task.key, task.remote, fault);
      store := after;
      if outcome.Some? && !outcome.value.NotFound? {
        metrics := metrics.(failures := metrics.failures + 1);
        RecordUploadFailure(task.id, now);
        return;
      }
      var row := uploads[task.id];
      if row.remote == Some(task.remote) {
        uploads := uploads[task.id := row.(remote := None, cleanup := NO_CLEANUP, version := row.version + 1)];
        metrics := metrics.(aborted := metrics.aborted + 1);
      }
    }

    method ExpireSessions(now: Time, faults: nat -> Fault)
      modifies this`uploads, this`store, this`metrics
      ensures View() == ExpireSessionsSpec(old(View()), now, batchSize, faults)
    {
      hide AbortOne, ExpireRows, Work, Batch;
      var rows := DueUploads(uploads, now);
      SelectionIsDue(uploads, now, batchSize);
      var ids := Batch(rows, batchSize);
      WorkFits(uploads, ids);
      var work := ExpireBatch(ids);
      ghost var expired := View();
      for i := 0 to |work|
        invariant |uploads| == |expired.uploads|
        invariant View() == AbortFirst(expired, work, now, faults, i)
      {
        AbortTask(work[i], now, faults(i));
      }
    }

    method DeleteTarget(target: Target, now: Time, fault: Fault)
      requires target.id < |artifacts|
      modifies this`artifacts, this`outbox, this`store, this`metrics
      ensures View() == DeleteOne(old(View()), target, now, fault)
    {
      var (after, outcome) := DeleteObject(store, target.key, fault);
      store := after;
      var row := artifacts[target.id];
      if outcome.Some? && !outcome.value.NotFound? {
        metrics := metrics.(failures := metrics.failures + 1);
        var attempts := row.cleanup.attempts + 1;
        artifacts := artifacts[target.id := row.(cleanup := Cleanup(attempts, Some(now + Backoff(attempts))), version := row.version + 1)];
        return;
      }
      if row.status.Deleting? {
        artifacts := artifacts[target.id := row.(status := Deleted, cleanup := NO_CLEANUP, version := row.version + 1)];
        metrics := metrics.(deleted := metrics.deleted + 1);
        outbox := outbox + [Event(target.id, ArtifactDeleted)];
      }
    }

    method DeleteArtifacts(now: Time, updatedAt: nat -> int, faults: nat -> Fault)
      modifies this`artifacts, this`outbox, this`store, this`metrics
      ensures var targets := TargetList(old(View()), Batch(DueDeletions(old(artifacts), now, updatedAt), batchSize));
              View() == DeleteFirst(old(View()), targets, now, faults, |targets|)
    {
      hide DeleteOne, TargetList, Batch;
      var work := TargetList(Ledger(uploads, artifacts, outbox, store, metrics), Batch(DueDeletions(artifacts, now, updatedAt), batchSize));
      ghost var before := View();
      for i := 0 to |work|
        invariant |artifacts| == |before.artifacts|
        invariant View() == DeleteFirst(before, work, now, faults, i)
      {
        DeleteTarget(work[i], now, faults(i));
      }
    }

    method CheckTarget(target: Target, fault: Fault)
      requires target.id < |artifacts|
      modifies this`artifacts, this`outbox, this`metrics
      ensures View() == CheckOne(old(View()), target, fault)
    {
      var outcome := Head(store, target.key, fault);
      if outcome.None? {
        return;
      }
      if !outcome.value.NotFound? {
        metrics := metrics.(failures := metrics.failures + 1);
        return;
      }
      var row := artifacts[target.id];
      if row.status.Available? {
        artifacts := artifacts[target.id := row.(status := Failed, version := row.version + 1)];
        metrics := metrics.(missing := metrics.missing + 1);
        outbox := outbox + [Event(target.id, ObjectMissing)];
      }
    }

    method ReconcileMissing(updatedAt: nat -> int, faults: nat -> Fault)
      modifies this`artifacts, this`outbox, this`metrics
      ensures var targets := TargetList(old(View()), Batch(Served(old(artifacts), updatedAt), batchSize));
              View() == CheckFirst(old(View()), targets, faults, |targets|)
    {
      hide CheckOne, TargetList, Batch;
      var work := TargetList(Ledger(uploads, artifacts, outbox, store, metrics), Batch(Served(artifacts, updatedAt), batchSize));
      ghost var before := View();
      for i := 0 to |work|
        invariant |artifacts| == |before.artifacts|
        invariant View() == CheckFirst(before, work, faults, i)
      {
        CheckTarget(work[i], faults(i));
      }
    }

    method DeleteOrphans(listing: seq<Listed>, now: Time, grace: nat, faults: nat -> Fault)
      modifies this`store, this`metrics
      ensures View() == OrphansFirst(old(View()), listing, now - grace, batchSize, faults, |listing|).0
    {
      hide Known, Suspect, RemoveOrphan, IsObjectKey;
      var cutoff := now - grace;
      var seen := 0;
      ghost var before := View();
      for i := 0 to |listing|
        invariant (View(), seen) == OrphansFirst(before, listing, cutoff, batchSize, faults, i)
      {
        if seen >= batchSize {
          FullBatchStops(before, listing, cutoff, batchSize, faults, i, |listing|);
          return;
        }
        if !Suspect(listing[i], cutoff) {
          continue;
        }
        seen := seen + 1;
        if Known(Ledger(uploads, artifacts, outbox, store, metrics), listing[i].key) {
          continue;
        }
        Remove(listing[i].key, faults(i));
      }
    }

    method Remove(key: Key, fault: Fault)
      modifies this`store, this`metrics
      ensures View() == RemoveOrphan(old(View()), key, fault)
    {
      var (after, outcome) := DeleteObject(store, key, fault);
      store := after;
      if IsGone(outcome) {
        metrics := metrics.(orphans := metrics.orphans + 1);
      } else {
        metrics := metrics.(failures := metrics.failures + 1);
      }
    }
  }
}
