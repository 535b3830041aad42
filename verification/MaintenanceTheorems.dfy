/** What passes of the sweeper achieve: they drain the due rows in order, and failed rows are tried
    again no sooner than the backoff allows.
  */
module MaintenanceTheorems {
  import opened ArtifactDomain
  import opened ObjectStore
  import opened UploadProtocol
  import opened Keyset
  import opened Maintenance

  // ----- One row in one pass

  predicate Distinct(ids: seq<nat>) { forall i, j | 0 <= i < j < |ids| :: ids[i] != ids[j] }

  lemma SelectionIsDistinct(l: Ledger, now: Time, limit: nat)
    ensures Distinct(Selection(l, now, limit))
  {
    SelectionIsDue(l.uploads, now, limit);
    hide NeedsSweep, DueUploads, Sorted;
    var ids, ordered := Selection(l, now, limit), Sorted(Ascending, DueUploads(l.uploads, now));
    forall i, j | 0 <= i < j < |ids| ensures ids[i] != ids[j] {
      assert Before(Ascending, ordered[i], ordered[j]);
      assert ordered[i] == (l.uploads[ids[i]].expiresAt, ids[i]) && ordered[j] == (l.uploads[ids[j]].expiresAt, ids[j]);
    }
  }

  function EndedRow(u: Upload): Upload { if IsActive(u.status) then ExpiredRow(u) else u }

  lemma {:induction false} RowExpires(l: Ledger, ids: seq<nat>, id: nat)
    requires (forall i | 0 <= i < |ids| :: ids[i] < |l.uploads|) && id < |l.uploads|
    ensures ExpireRows(l, ids).uploads[id] == if id in ids then EndedRow(l.uploads[id]) else l.uploads[id]
  {
    if ids != [] {
      var before, last := ids[..|ids| - 1], ids[|ids| - 1];
      RowExpires(l, before, id);
      assert id in ids <==> id in before || id == last;
    }
  }

  /** The work list names each row of the batch that has a remote upload, once. */
  predicate WorkOf(uploads: seq<Upload>, ids: seq<nat>, tasks: seq<Task>) {
    && (forall i | 0 <= i < |tasks| :: tasks[i].id in ids && tasks[i].id < |uploads|
                                       && uploads[tasks[i].id].remote == Some(tasks[i].remote) && uploads[tasks[i].id].key == tasks[i].key)
    && (forall i, j | 0 <= i < j < |tasks| :: tasks[i].id != tasks[j].id)
    && (forall id | id in ids :: id < |uploads| && (uploads[id].remote.Some? ==> exists i | 0 <= i < |tasks| :: tasks[i].id == id))
  }

  lemma {:induction false} WorkIsComplete(uploads: seq<Upload>, ids: seq<nat>)
    requires (forall i | 0 <= i < |ids| :: ids[i] < |uploads|) && Distinct(ids)
    ensures WorkOf(uploads, ids, Work(uploads, ids))
  {
    if ids != [] {
      var before, last := ids[..|ids| - 1], ids[|ids| - 1];
      WorkIsComplete(uploads, before);
      var tasks, all := Work(uploads, before), Work(uploads, ids);
      assert forall i | 0 <= i < |tasks| :: all[i] == tasks[i];
      forall id | id in ids && uploads[id].remote.Some? ensures exists i | 0 <= i < |all| :: all[i].id == id {
        if id == last {
          assert all[|tasks|].id == id;
        } else {
          assert id in before;
          var i :| 0 <= i < |tasks| && tasks[i].id == id;
          assert all[i].id == id;
        }
      }
    }
  }

  predicate TaskFails(l: Ledger, tasks: seq<Task>, now: Time, faults: nat -> Fault, k: nat)
    requires TasksFit(l, tasks) && k < |tasks|
  {
    !IsGone(AbortMultipart(AbortFirst(l, tasks, now, faults, k).store, tasks[k].key, tasks[k].remote, faults(k)).1)
  }

  lemma {:induction false} OtherRowsKept(l: Ledger, tasks: seq<Task>, now: Time, faults: nat -> Fault, from: nat, k: nat, id: nat)
    requires TasksFit(l, tasks) && from <= k <= |tasks| && id < |l.uploads|
    requires forall i | from <= i < k :: tasks[i].id != id
    ensures AbortFirst(l, tasks, now, faults, k).uploads[id] == AbortFirst(l, tasks, now, faults, from).uploads[id]
    decreases k
  {
    if k > from {
      OtherRowsKept(l, tasks, now, faults, from, k - 1, id);
      hide AbortMultipart;
    }
  }

  lemma RowAborts(l: Ledger, tasks: seq<Task>, now: Time, faults: nat -> Fault, k: nat)
    requires TasksFit(l, tasks) && k < |tasks| && forall i, j | 0 <= i < j < |tasks| :: tasks[i].id != tasks[j].id
    requires l.uploads[tasks[k].id].remote == Some(tasks[k].remote)
    ensures var u := l.uploads[tasks[k].id];
            AbortFirst(l, tasks, now, faults, |tasks|).uploads[tasks[k].id]
              == if TaskFails(l, tasks, now, faults, k) then RetryUploadRow(u, now) else ClearedRow(u)
  {
    var id := tasks[k].id;
    OtherRowsKept(l, tasks, now, faults, 0, k, id);
    OtherRowsKept(l, tasks, now, faults, k + 1, |tasks|, id);
    hide AbortMultipart, RetryUploadRow, ClearedRow, IsGone;
  }

  predicate FaultFree(faults: nat -> Fault, n: nat) { forall k | 0 <= k < n :: faults(k).NoFault? }

  /** What one pass makes of one row. */
  predicate RowOutcome(u: Upload, u': Upload, now: Time, selected: bool, faultFree: bool) {
    if !selected then u' == u
    else if u.remote.None? then u' == EndedRow(u)
    else u' == ClearedRow(EndedRow(u)) || (!faultFree && u' == RetryUploadRow(EndedRow(u), now))
  }

  lemma SweepRow(l: Ledger, now: Time, limit: nat, faults: nat -> Fault, id: nat)
    requires id < |l.uploads|
    ensures var l' := ExpireSessionsSpec(l, now, limit, faults);
            && |l'.uploads| == |l.uploads|
            && RowOutcome(l.uploads[id], l'.uploads[id], now, id in Selection(l, now, limit), FaultFree(faults, |Selection(l, now, limit)|))
  {
    SelectionIsDistinct(l, now, limit);
    hide Selection, RetryUploadRow, ClearedRow;
    var ids := Selection(l, now, limit);
    WorkFits(l.uploads, ids);
    WorkIsComplete(l.uploads, ids);
    WorkIsShort(l.uploads, ids);
    RowExpires(l, ids, id);
    hide Distinct, ExpireRows, Work;
    var l1, tasks := ExpireRows(l, ids), Work(l.uploads, ids);
    if k :| 0 <= k < |tasks| && tasks[k].id == id {
      RowAborts(l1, tasks, now, faults, k);
    } else {
      OtherRowsKept(l1, tasks, now, faults, 0, |tasks|, id);
    }
  }

  lemma {:induction false} WorkIsShort(uploads: seq<Upload>, ids: seq<nat>)
    requires forall i | 0 <= i < |ids| :: ids[i] < |uploads|
    ensures |Work(uploads, ids)| <= |ids|
  {
    if ids != [] {
      WorkIsShort(uploads, ids[..|ids| - 1]);
    }
  }

  // ----- Draining

  function Quiet(k: nat): Fault { NoFault }

  /** Fault-free passes with the same clock and no other writer. */
  function Passes(l: Ledger, now: Time, limit: nat, count: nat): Ledger {
    if count == 0 then l else ExpireSessionsSpec(Passes(l, now, limit, count - 1), now, limit, Quiet)
  }

  lemma PassHandlesRow(l: Ledger, now: Time, limit: nat, id: nat)
    requires id < |l.uploads|
    ensures var l' := ExpireSessionsSpec(l, now, limit, Quiet);
            && |l'.uploads| == |l.uploads| && l'.uploads[id].expiresAt == l.uploads[id].expiresAt
            && (NeedsSweep(l'.uploads[id], now) <==> NeedsSweep(l.uploads[id], now) && id !in Selection(l, now, limit))
  {
    SweepRow(l, now, limit, Quiet, id);
    SelectionIsDue(l.uploads, now, limit);
    hide ExpireSessionsSpec, Batch, DueUploads, Sorted;
  }

  lemma SelectedKeys(l: Ledger, now: Time, limit: nat, id: nat)
    requires id < |l.uploads| && NeedsSweep(l.uploads[id], now)
    ensures var ordered := Sorted(Ascending, DueUploads(l.uploads, now));
            id in Selection(l, now, limit) <==> (l.uploads[id].expiresAt, id as int) in ordered[..Min(limit, |ordered|)]
  {
    SelectionIsDue(l.uploads, now, limit);
    hide NeedsSweep, DueUploads, Sorted, Batch;
    var ids, ordered := Selection(l, now, limit), Sorted(Ascending, DueUploads(l.uploads, now));
    var key := (l.uploads[id].expiresAt, id as int);
    if i :| 0 <= i < |ids| && ids[i] == id {
      assert ordered[..|ids|][i] == key;
    }
    if key in ordered[..|ids|] {
      var i :| 0 <= i < |ids| && ordered[..|ids|][i] == key;
      assert ids[i] == id;
    }
  }

  function Drop(s: seq<RowKey>, n: nat): seq<RowKey> { s[Min(n, |s|)..] }

  /** A pass takes the rows that expired first off the list, and no others. */
  lemma PassTakesBatch(l: Ledger, now: Time, limit: nat)
    ensures Sorted(Ascending, DueUploads(ExpireSessionsSpec(l, now, limit, Quiet).uploads, now))
         == Drop(Sorted(Ascending, DueUploads(l.uploads, now)), limit)
  {
    var l' := ExpireSessionsSpec(l, now, limit, Quiet);
    var ordered, rest := Sorted(Ascending, DueUploads(l.uploads, now)), Sorted(Ascending, DueUploads(l'.uploads, now));
    var m := Min(limit, |ordered|);
    hide ExpireSessionsSpec, NeedsSweep, Sorted, Selection;
    forall k ensures k in rest <==> k in ordered[m..] {
      SplitAt(ordered, m, k);
      if k.1 >= 0 && k.1 < |l.uploads| {
        var id: nat := k.1;
        PassHandlesRow(l, now, limit, id);
        if NeedsSweep(l.uploads[id], now) {
          SelectedKeys(l, now, limit, id);
        }
      } else {
        SameLength(l, now, limit);
      }
    }
    hide DueUploads;
    SortedUnique(Ascending, rest, ordered[m..]);
  }

  lemma SameLength(l: Ledger, now: Time, limit: nat)
    ensures |ExpireSessionsSpec(l, now, limit, Quiet).uploads| == |l.uploads|
  {
    hide Selection;
  }

  lemma SplitAt(ordered: seq<RowKey>, m: nat, k: RowKey)
    requires Ordered(Ascending, ordered) && m <= |ordered|
    ensures k in ordered[m..] <==> k in ordered && k !in ordered[..m]
  {
    assert ordered == ordered[..m] + ordered[m..];
  }

  /** What this many passes can handle. */
  function Capacity(count: nat, limit: nat): nat { if count == 0 then 0 else Capacity(count - 1, limit) + limit }

  lemma {:induction false} CapacityIsProduct(count: nat, limit: nat)
    ensures Capacity(count, limit) == count * limit
  {
    if count > 0 {
      CapacityIsProduct(count - 1, limit);
      assert (count - 1) * limit + limit == count * limit;
    }
  }

  lemma DropAgain(s: seq<RowKey>, a: nat, b: nat)
    ensures Drop(Drop(s, a), b) == Drop(s, a + b)
  {
  }

  /** After any number of passes the list of due rows is the old one without the rows that come first in
      it, a batch for each pass. */
  lemma {:induction false} PassesTakeBatches(l: Ledger, now: Time, limit: nat, count: nat)
    ensures Sorted(Ascending, DueUploads(Passes(l, now, limit, count).uploads, now))
         == Drop(Sorted(Ascending, DueUploads(l.uploads, now)), Capacity(count, limit))
  {
    hide Sorted, DueUploads, ExpireSessionsSpec;
    var ordered := Sorted(Ascending, DueUploads(l.uploads, now));
    if count == 0 {
      assert ordered[0..] == ordered;
    } else {
      hide Drop;
      PassesTakeBatches(l, now, limit, count - 1);
      PassTakesBatch(Passes(l, now, limit, count - 1), now, limit);
      DropAgain(ordered, Capacity(count - 1, limit), limit);
    }
  }

  /** Drain: n due rows are gone after ceil(n / batch) passes, and not before. */
  lemma Drain(l: Ledger, now: Time, limit: nat, count: nat)
    ensures var n := |DueUploads(l.uploads, now)|;
            && (count * limit >= n <==> DueUploads(Passes(l, now, limit, count).uploads, now) == {})
            && |DueUploads(Passes(l, now, limit, count).uploads, now)| == if count * limit >= n then 0 else n - count * limit
  {
    PassesTakeBatches(l, now, limit, count);
    CapacityIsProduct(count, limit);
    hide DueUploads, Passes, Sorted, Capacity;
  }

  /** Then a session that is still active is not past due, and an ended one has no remote upload left;
      except for rows that are waiting for another try. */
  lemma DrainedRows(l: Ledger, now: Time, limit: nat, count: nat, id: nat)
    requires count * limit >= |DueUploads(l.uploads, now)| && id < |Passes(l, now, limit, count).uploads|
    ensures var u := Passes(l, now, limit, count).uploads[id];
            RetryDue(u.cleanup, now) ==> !IsPastDue(u, now) && (u.status.Expired? || u.status.Aborted? || u.status.UploadFailed? ==> u.remote.None?)
  {
    Drain(l, now, limit, count);
    hide Passes;
    var uploads := Passes(l, now, limit, count).uploads;
    assert (uploads[id].expiresAt, id as int) !in DueUploads(uploads, now);
  }

  // ----- Backoff over passes with faults and other writers in between

  datatype Turn = Pass(now: Time, limit: nat, faults: nat -> Fault) | Others(after: Ledger)

  /** Handlers insert and change rows, but only the sweeper touches the retry bookkeeping of a row. */
  predicate KeepsBookkeeping(l: Ledger, l': Ledger) {
    |l.uploads| <= |l'.uploads| && forall i | 0 <= i < |l.uploads| :: l'.uploads[i].cleanup == l.uploads[i].cleanup
  }

  function After(l: Ledger, turn: Turn): Ledger {
    match turn
    case Pass(now, limit, faults) => ExpireSessionsSpec(l, now, limit, faults)
    case Others(after) => after
  }

  predicate Plausible(l: Ledger, turn: Turn)
    ensures turn.Pass? ==> Plausible(l, turn)
  {
    turn.Others? ==> KeepsBookkeeping(l, turn.after)
  }

  /** The pass calls abort for the row. */
  predicate Tries(l: Ledger, turn: Turn, id: nat)
    ensures Tries(l, turn, id) ==> turn.Pass? && id < |l.uploads|
  {
    turn.Pass? && id < |l.uploads| && id in Selection(l, turn.now, turn.limit) && l.uploads[id].remote.Some?
  }

  /** ... and the call fails: the remote upload id is kept. */
  predicate Fails(l: Ledger, turn: Turn, id: nat)
    ensures Fails(l, turn, id) ==> Tries(l, turn, id)
  {
    Tries(l, turn, id) && id < |After(l, turn).uploads| && After(l, turn).uploads[id].remote.Some?
  }

  function History(l: Ledger, turns: seq<Turn>): Ledger {
    if turns == [] then l else After(History(l, turns[..|turns| - 1]), turns[|turns| - 1])
  }

  predicate PlausibleAll(l: Ledger, turns: seq<Turn>) {
    turns == [] || (PlausibleAll(l, turns[..|turns| - 1]) && Plausible(History(l, turns[..|turns| - 1]), turns[|turns| - 1]))
  }

  /** How often the row failed since it last succeeded. */
  function FailuresInARow(l: Ledger, turns: seq<Turn>, id: nat): nat {
    if turns == [] then 0
    else
      var before, last := turns[..|turns| - 1], turns[|turns| - 1];
      if Fails(History(l, before), last, id) then FailuresInARow(l, before, id) + 1
      else if Tries(History(l, before), last, id) then 0
      else FailuresInARow(l, before, id)
  }

  lemma TurnOfRow(l: Ledger, turn: Turn, id: nat)
    requires id < |l.uploads| && Plausible(l, turn)
    ensures id < |After(l, turn).uploads|
    ensures var u, u' := l.uploads[id], After(l, turn).uploads[id];
            u'.cleanup == (if Fails(l, turn, id) then NextRetry(u.cleanup, turn.now) else if Tries(l, turn, id) then NO_CLEANUP else u.cleanup)
  {
    if turn.Pass? {
      SweepRow(l, turn.now, turn.limit, turn.faults, id);
      hide ExpireSessionsSpec, Selection, NextRetry;
    }
  }

  /** The attempts a row records are its failures in a row. */
  lemma {:induction false} AttemptsCountFailures(l: Ledger, turns: seq<Turn>, id: nat)
    requires PlausibleAll(l, turns) && id < |l.uploads| && l.uploads[id].cleanup == NO_CLEANUP
    ensures id < |History(l, turns).uploads|
    ensures History(l, turns).uploads[id].cleanup.attempts == FailuresInARow(l, turns, id)
  {
    hide After, Fails, Tries, Plausible;
    if turns != [] {
      AttemptsCountFailures(l, turns[..|turns| - 1], id);
      TurnOfRow(History(l, turns[..|turns| - 1]), turns[|turns| - 1], id);
    }
  }

  predicate TriedIn(l: Ledger, turns: seq<Turn>, id: nat) {
    turns != [] && (TriedIn(l, turns[..|turns| - 1], id) || Tries(History(l, turns[..|turns| - 1]), turns[|turns| - 1], id))
  }

  lemma {:induction false} UntriedKeepsBookkeeping(l: Ledger, turns: seq<Turn>, id: nat)
    requires PlausibleAll(l, turns) && id < |l.uploads| && !TriedIn(l, turns, id)
    ensures id < |History(l, turns).uploads| && History(l, turns).uploads[id].cleanup == l.uploads[id].cleanup
  {
    hide After, Fails, Tries, Plausible;
    if turns != [] {
      UntriedKeepsBookkeeping(l, turns[..|turns| - 1], id);
      TurnOfRow(History(l, turns[..|turns| - 1]), turns[|turns| - 1], id);
    }
  }

  /** After its k-th failure in a row, whatever others do meanwhile, the next try of the row comes no sooner
      than min(3600, 30 * 2^min(k - 1, 7)) seconds after the clock of that failure. */
  lemma BackoffSpacing(l: Ledger, turns: seq<Turn>, failing: Turn, between: seq<Turn>, next: Turn, id: nat)
    requires id < |l.uploads| && l.uploads[id].cleanup == NO_CLEANUP && PlausibleAll(l, turns)
    requires Fails(History(l, turns), failing, id)
    requires var failed := After(History(l, turns), failing);
             PlausibleAll(failed, between) && !TriedIn(failed, between, id) && Tries(History(failed, between), next, id)
    ensures next.now >= failing.now + Backoff(FailuresInARow(l, turns, id) + 1)
  {
    hide *;
    var before := History(l, turns);
    var failed := After(before, failing);
    var later := History(failed, between);
    AttemptsCountFailures(l, turns, id);
    TurnOfRow(before, failing, id);
    UntriedKeepsBookkeeping(failed, between, id);
    TriedIsDue(later, next, id);
    WaitIsOver(before.uploads[id].cleanup, failing.now, next.now);
  }

  lemma WaitIsOver(c: Cleanup, failed: Time, now: Time)
    requires RetryDue(NextRetry(c, failed), now)
    ensures now >= failed + Backoff(c.attempts + 1)
  {
    hide Backoff;
  }

  /** The waiting times doubled from half a minute, then an hour. */
  lemma BackoffTimes(k: nat)
    requires k > 0
    ensures Backoff(1) == 30 && Backoff(7) == 1920 && (k >= 8 ==> Backoff(k) == 3600)
    ensures k < 7 ==> Backoff(k + 1) == 2 * Backoff(k)
    ensures Backoff(k) <= Backoff(k + 1) <= 3600
  {
    assert PowerOfTwo(6) == 64 && PowerOfTwo(7) == 128;
  }

  lemma TriedIsDue(l: Ledger, turn: Turn, id: nat)
    requires Tries(l, turn, id)
    ensures RetryDue(l.uploads[id].cleanup, turn.now)
  {
    SelectionIsDue(l.uploads, turn.now, turn.limit);
    hide DueUploads, Sorted, RetryDue;
    var ids := Selection(l, turn.now, turn.limit);
    var i :| 0 <= i < |ids| && ids[i] == id;
  }

  // ----- Deleting and reconciling

  /** The store says NOT_FOUND only when the object is not there. */
  predicate Truthful(faults: nat -> Fault, n: nat) { forall k | 0 <= k < n :: faults(k).NoFault? || !faults(k).code.NotFound? }

  predicate TargetsMatch(l: Ledger, targets: seq<Target>) {
    TargetsFit(l, targets) && forall i | 0 <= i < |targets| :: targets[i].key == l.artifacts[targets[i].id].key
  }

  predicate Targeted(targets: seq<Target>, k: nat, id: nat)
    requires k <= |targets|
  {
    exists i | 0 <= i < k :: targets[i].id == id
  }

  /** A pass of _delete_artifacts turns DELETING rows into DELETED ones, nothing else; it does so only when the
      object is gone, always does so when no call fails, and emits one event for each. */
  lemma {:induction false} DeletePass(l: Ledger, targets: seq<Target>, now: Time, faults: nat -> Fault, k: nat, id: nat)
    requires TargetsMatch(l, targets) && k <= |targets| && id < |l.artifacts|
    ensures var l' := DeleteFirst(l, targets, now, faults, k);
            var a, a' := l.artifacts[id], l'.artifacts[id];
            && a'.key == a.key && a'.upload == a.upload && l'.store.objects.Keys <= l.store.objects.Keys
            && (a'.status == a.status || (a.status.Deleting? && a'.status.Deleted?))
            && (Truthful(faults, k) && a.status.Deleting? && a'.status.Deleted? ==> a.key !in l'.store.objects)
            && (FaultFree(faults, k) && a.status.Deleting? && Targeted(targets, k, id) ==> a'.status.Deleted?)
            && |l'.outbox| - |l.outbox| == l'.metrics.deleted - l.metrics.deleted
  {
    if k > 0 {
      DeletePass(l, targets, now, faults, k - 1, id);
      DeletePassStep(DeleteFirst(l, targets, now, faults, k - 1), targets[k - 1], now, faults(k - 1), id);
      hide DeleteOne, TargetsFit;
    }
  }

  lemma DeletePassStep(l: Ledger, target: Target, now: Time, fault: Fault, id: nat)
    requires target.id < |l.artifacts| && id < |l.artifacts|
    ensures var l' := DeleteOne(l, target, now, fault);
            var a, a' := l.artifacts[id], l'.artifacts[id];
            && a'.key == a.key && a'.upload == a.upload && l'.store.objects.Keys <= l.store.objects.Keys
            && (a'.status == a.status || (a.status.Deleting? && a'.status.Deleted? && target.id == id))
            && (a'.status != a.status && (fault.NoFault? || !fault.code.NotFound?) ==> target.key !in l'.store.objects)
            && (fault.NoFault? && a.status.Deleting? && target.id == id ==> a'.status.Deleted?)
            && |l'.outbox| - |l.outbox| == l'.metrics.deleted - l.metrics.deleted
  {
    hide NextRetry;
  }

  /** A pass of _reconcile_missing fails an AVAILABLE artifact only when its object is missing, and when no call
      fails the artifacts it looked at and left AVAILABLE have theirs. */
  lemma {:induction false} ReconcilePass(l: Ledger, targets: seq<Target>, faults: nat -> Fault, k: nat, id: nat)
    requires TargetsMatch(l, targets) && k <= |targets| && id < |l.artifacts|
    ensures var l' := CheckFirst(l, targets, faults, k);
            var a, a' := l.artifacts[id], l'.artifacts[id];
            && l'.store == l.store && l'.uploads == l.uploads
            && (a' == a || (a.status.Available? && a' == ArtifactRow(a, Failed)))
            && (Truthful(faults, k) && a' != a ==> a.key !in l.store.objects)
            && (FaultFree(faults, k) && Targeted(targets, k, id) && a'.status.Available? ==> a.key in l.store.objects)
            && |l'.outbox| - |l.outbox| == l'.metrics.missing - l.metrics.missing
  {
    if k > 0 {
      ReconcilePass(l, targets, faults, k - 1, id);
      ReconcilePassStep(CheckFirst(l, targets, faults, k - 1), targets[k - 1], faults(k - 1), id);
      hide CheckOne, TargetsFit;
    }
  }

  lemma ReconcilePassStep(l: Ledger, target: Target, fault: Fault, id: nat)
    requires target.id < |l.artifacts| && id < |l.artifacts|
    ensures var l' := CheckOne(l, target, fault);
            var a, a' := l.artifacts[id], l'.artifacts[id];
            && l'.store == l.store && l'.uploads == l.uploads
            && (a' == a || (a.status.Available? && a' == ArtifactRow(a, Failed) && target.id == id))
            && (a' != a && (fault.NoFault? || !fault.code.NotFound?) ==> target.key !in l.store.objects)
            && (fault.NoFault? && target.id == id && a'.status.Available? ==> target.key in l.store.objects)
            && |l'.outbox| - |l.outbox| == l'.metrics.missing - l.metrics.missing
  {
  }
}
