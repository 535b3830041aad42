/** What every reachable state of the upload protocol satisfies, and what a step of one
    transaction may do to the others (rely and guarantee).
  */
module UploadInvariant {
  import opened ArtifactDomain
  import opened ObjectStore
  import opened Completion
  import opened UploadProtocol

  // ----- How one row may change over any number of commits

  predicate StatusReaches(a: UploadStatus, b: UploadStatus) {
    match a
    case PendingUpload => true
    case Uploading => !b.PendingUpload?
    case Completing => b.Completing? || b.Expired? || b.Completed?
    case Expired => b.Expired? || b.Completed?
    case Completed => b.Completed?
    case Aborted => b.Aborted?
    case UploadFailed => b.UploadFailed?
  }

  predicate SameUpload(a: Upload, b: Upload) {
    a.org == b.org && a.key == b.key && a.size == b.size && a.sha256 == b.sha256 && a.expiresAt == b.expiresAt
  }

  /** A remote upload is given once, before the first part, and may then be taken away. */
  predicate RemoteReaches(a: Upload, b: Upload) { b.remote == a.remote || b.remote.None? || a.status.PendingUpload? }

  /** The version tells the contents: an equal version means an equal row. */
  predicate Evolves(a: Upload, b: Upload) {
    a == b || (a.version < b.version && SameUpload(a, b) && StatusReaches(a.status, b.status) && RemoteReaches(a, b))
  }

  predicate ArtifactReaches(a: ArtifactStatus, b: ArtifactStatus) {
    match a
    case Verifying => true
    case Available => !b.Verifying? && !b.Quarantined?
    case Quarantined => b.Quarantined? || b.Deleting? || b.Deleted?
    case Failed => b.Failed? || b.Deleting? || b.Deleted?
    case Deleting => b.Deleting? || b.Deleted?
    case Deleted => b.Deleted?
  }

  predicate SameArtifact(a: Artifact, b: Artifact) {
    a.upload == b.upload && a.key == b.key && a.size == b.size && a.sha256 == b.sha256 && a.verified == b.verified
  }

  predicate ArtifactEvolves(a: Artifact, b: Artifact) {
    a == b || (a.version < b.version && SameArtifact(a, b) && ArtifactReaches(a.status, b.status))
  }

  // ----- The tables and the store

  predicate RowOk(u: Upload) {
    && u.reserved == (if IsActive(u.status) then u.size else 0)
    && (u.status.PendingUpload? ==> u.remote.None?)
    && (u.status.Uploading? || u.status.Completing? ==> u.remote.Some?)
  }

  predicate RowsOk(uploads: seq<Upload>) { forall i | 0 <= i < |uploads| :: RowOk(uploads[i]) }

  predicate KeysOk(uploads: seq<Upload>, usedKeys: set<Key>) {
    && (forall i | 0 <= i < |uploads| :: uploads[i].key in usedKeys)
    && (forall i, j | 0 <= i < j < |uploads| :: uploads[i].key != uploads[j].key)
  }

  ghost predicate QuotaOk(c: Config, uploads: seq<Upload>) {
    forall org: nat :: ActiveCount(uploads, org) <= c.maxActive && ActiveBytes(uploads, org) <= c.maxReserved
  }

  /** A session is completed if and only if an artifact refers to it, and then exactly one does. */
  predicate PublicationOk(uploads: seq<Upload>, artifacts: seq<Artifact>) {
    && (forall a | 0 <= a < |artifacts| ::
          artifacts[a].upload < |uploads| && uploads[artifacts[a].upload].status.Completed? && uploads[artifacts[a].upload].key == artifacts[a].key)
    && (forall a, b | 0 <= a < b < |artifacts| :: artifacts[a].upload != artifacts[b].upload)
    && (forall i | 0 <= i < |uploads| && uploads[i].status.Completed? :: exists a | 0 <= a < |artifacts| :: artifacts[a].upload == i)
  }

  predicate RemoteOk(u: Upload, multiparts: map<RemoteId, Multipart>, usedRemotes: set<RemoteId>, written: map<Key, Bytes>) {
    && (u.remote.Some? ==> u.remote.value in usedRemotes)
    && (u.remote.Some? && u.remote.value in multiparts ==> multiparts[u.remote.value].key == u.key && u.key !in written)
    && (u.status.PendingUpload? ==> u.key !in written)
  }

  predicate RemotesOk(uploads: seq<Upload>, multiparts: map<RemoteId, Multipart>, usedRemotes: set<RemoteId>, written: map<Key, Bytes>) {
    && multiparts.Keys <= usedRemotes
    && (forall i | 0 <= i < |uploads| :: RemoteOk(uploads[i], multiparts, usedRemotes, written))
  }

  /** Objects of sessions hold the only bytes ever written under their key. */
  predicate WrittenOk(uploads: seq<Upload>, objects: map<Key, Bytes>, written: map<Key, Bytes>, usedKeys: set<Key>) {
    && objects.Keys <= usedKeys
    && written.Keys <= usedKeys
    && (forall i | 0 <= i < |uploads| && uploads[i].key in objects :: uploads[i].key in written && objects[uploads[i].key] == written[uploads[i].key])
  }

  predicate StatusFits(a: Artifact) {
    match a.status
    case Verifying => false
    case Available => a.verified
    case Failed => a.verified
    case Quarantined => !a.verified
    case Deleting => true
    case Deleted => true
  }

  predicate ContentOk(c: Config, a: Artifact, u: Upload, written: map<Key, Bytes>) {
    && a.key in written && a.size == |written[a.key]| && a.sha256 == c.hash(written[a.key])
    && a.verified == (a.size == u.size && a.sha256 == u.sha256)
    && StatusFits(a)
  }

  predicate ContentsOk(c: Config, uploads: seq<Upload>, artifacts: seq<Artifact>, written: map<Key, Bytes>) {
    forall a | 0 <= a < |artifacts| ::
      artifacts[a].upload < |uploads| && ContentOk(c, artifacts[a], uploads[artifacts[a].upload], written)
  }

  function Rank(kind: EventKind): nat {
    match kind
    case ArtifactVerified => 1
    case ArtifactQuarantined => 1
    case ObjectMissing => 2
    case DeletionRequested => 3
    case ArtifactDeleted => 4
  }

  /** The highest-ranked event emitted for an artifact. */
  function Highest(outbox: seq<Event>, artifact: nat): Option<EventKind> {
    if outbox == [] then None
    else
      var before, last := Highest(outbox[..|outbox| - 1], artifact), outbox[|outbox| - 1];
      if last.artifact == artifact && (before.None? || Rank(before.value) <= Rank(last.kind)) then Some(last.kind) else before
  }

  function CountDeleted(outbox: seq<Event>, artifact: nat): nat {
    if outbox == [] then 0
    else CountDeleted(outbox[..|outbox| - 1], artifact) + if outbox[|outbox| - 1] == Event(artifact, ArtifactDeleted) then 1 else 0
  }

  function StatusNamed(kind: EventKind): ArtifactStatus {
    match kind
    case ArtifactVerified => Available
    case ArtifactQuarantined => Quarantined
    case ObjectMissing => Failed
    case DeletionRequested => Deleting
    case ArtifactDeleted => Deleted
  }

  predicate EventsFit(outbox: seq<Event>, id: nat, status: ArtifactStatus) {
    && Highest(outbox, id).Some? && StatusNamed(Highest(outbox, id).value) == status
    && CountDeleted(outbox, id) == (if status.Deleted? then 1 else 0)
  }

  predicate OutboxOk(artifacts: seq<Artifact>, outbox: seq<Event>) {
    && (forall e | e in outbox :: e.artifact < |artifacts|)
    && (forall a: nat | a < |artifacts| :: EventsFit(outbox, a, artifacts[a].status))
  }

  /** A key that was ever passed to delete belongs to no artifact that is still served, and never will. */
  predicate DeletesOk(uploads: seq<Upload>, artifacts: seq<Artifact>, deleteCalls: set<Key>, usedKeys: set<Key>) {
    && deleteCalls <= usedKeys
    && (forall i | 0 <= i < |uploads| && uploads[i].key in deleteCalls :: uploads[i].status.Completed?)
    && (forall a | 0 <= a < |artifacts| && artifacts[a].key in deleteCalls :: artifacts[a].status.Deleting? || artifacts[a].status.Deleted?)
  }

  ghost predicate TablesOk(c: Config, s: State) {
    && |s.parts| == |s.uploads|
    && RowsOk(s.uploads)
    && KeysOk(s.uploads, s.usedKeys)
    && QuotaOk(c, s.uploads)
    && PublicationOk(s.uploads, s.artifacts)
    && RemotesOk(s.uploads, s.store.multiparts, s.usedRemotes, s.written)
    && WrittenOk(s.uploads, s.store.objects, s.written, s.usedKeys)
    && ContentsOk(c, s.uploads, s.artifacts, s.written)
    && OutboxOk(s.artifacts, s.outbox)
    && DeletesOk(s.uploads, s.artifacts, s.deleteCalls, s.usedKeys)
  }

  // ----- What a running transaction may assume

  predicate Remembers(s: State, id: nat, row: Upload) { id < |s.uploads| && Evolves(row, s.uploads[id]) }
  predicate Holds(s: State, id: nat, row: Upload) { id < |s.uploads| && row == s.uploads[id] }
  predicate RemembersArtifact(s: State, id: nat, row: Artifact) { id < |s.artifacts| && ArtifactEvolves(row, s.artifacts[id]) }

  predicate PastCheckpoint(status: UploadStatus) { status.Completing? || status.Expired? }

  predicate TaskOk(s: State, task: Task) {
    task.id < |s.uploads| && task.key == s.uploads[task.id].key && !IsActive(s.uploads[task.id].status)
  }

  predicate TargetOk(s: State, target: Target, deleting: bool) {
    target.id < |s.artifacts| && target.key == s.artifacts[target.id].key
    && (deleting ==> s.artifacts[target.id].status.Deleting? || s.artifacts[target.id].status.Deleted?)
  }

  predicate TargetsOk(s: State, targets: seq<Target>, deleting: bool, phase: Phase<Artifact>) {
    && (forall i | 0 <= i < |targets| :: TargetOk(s, targets[i], deleting))
    && (phase.Loaded? ==> targets != [] && RemembersArtifact(s, targets[0].id, phase.row))
  }

  predicate NoSessionKey(s: State, key: Key) { forall i | 0 <= i < |s.uploads| :: s.uploads[i].key != key }

  predicate LocalOk(c: Config, s: State, l: Local) {
    match l
    case CreateLocked(_, _) => true
    case CreateReady(org, size, _, activeSeen, reservedSeen) =>
      // the locked read stays an upper bound until commit
      ActiveCount(s.uploads, org) <= activeSeen < c.maxActive && ActiveBytes(s.uploads, org) <= reservedSeen && reservedSeen + size <= c.maxReserved
    case Viewed(id, row) => Remembers(s, id, row)
    case CancelReady(id, row, next) =>
      Remembers(s, id, row) && (next == row || (IsActive(row.status) && next == ExpiredRow(row)) || (IsCancellable(row.status) && next == AbortedRow(row)))
    case SignLocked(id, row) => Holds(s, id, row)
    case SignStarted(id, row, started) =>
      Holds(s, id, row) && row.status.PendingUpload? && started in s.usedRemotes
      && (started in s.store.multiparts ==> s.store.multiparts[started].key == row.key)
    case CompleteLocked(id, row) => Holds(s, id, row)
    case Checkpointed(id, _) => id < |s.uploads| && (PastCheckpoint(s.uploads[id].status) || s.uploads[id].status.Completed?)
    case Relocked(id, row, _) => Holds(s, id, row) && PastCheckpoint(row.status)
    case RemoteFailed(id, row, _) => Holds(s, id, row) && PastCheckpoint(row.status)
    case RemoteDone(id, row) => Holds(s, id, row) && PastCheckpoint(row.status)
    case ObjectVerified(id, row, v) =>
      Holds(s, id, row) && PastCheckpoint(row.status)
      && row.key in s.written && v.metadata.size == |s.written[row.key]| && v.sha256 == c.hash(s.written[row.key])
    case ArtifactViewed(id, artifact) => RemembersArtifact(s, id, artifact)
    case Selected(now, rows) => forall id | id in rows :: Remembers(s, id, rows[id])
    case Sweeping(_, tasks, phase) =>
      (forall i | 0 <= i < |tasks| :: TaskOk(s, tasks[i])) && (phase.Loaded? ==> tasks != [] && Remembers(s, tasks[0].id, phase.row))
    case Purging(_, targets, purge) => TargetsOk(s, targets, true, purge)
    case Reconciling(targets, purge) => TargetsOk(s, targets, false, purge)
    case OrphanListed(key) => key in s.usedKeys
    case OrphanUnknown(key) => key in s.usedKeys && NoSessionKey(s, key)
    case OrphanCondemned(key) => key in s.usedKeys && NoSessionKey(s, key)
    case Finished(_) => true
  }

  predicate LocalsOk(c: Config, s: State) { forall t | t in s.locals :: LocalOk(c, s, s.locals[t]) }

  ghost predicate Exclusive(s: State) {
    && (forall t, u, id: nat | t in s.locals && u in s.locals && LocksUpload(s.locals[t], id) && LocksUpload(s.locals[u], id) :: t == u)
    && (forall t, u, org: nat | t in s.locals && u in s.locals && LocksOrg(s.locals[t], org) && LocksOrg(s.locals[u], org) :: t == u)
  }

  ghost predicate Inv(c: Config, s: State) {
    TablesOk(c, s) && LocalsOk(c, s) && Exclusive(s)
  }

  // ----- What the others may rely on when a transaction (or, for None, the world) takes a step

  predicate Mine(t: Option<Txn>, u: Txn) { t == Some(u) }

  predicate UploadsMove(s: State, s': State) {
    |s.uploads| <= |s'.uploads| && forall id | 0 <= id < |s.uploads| :: Evolves(s.uploads[id], s'.uploads[id])
  }

  predicate ArtifactsMove(s: State, s': State) {
    |s.artifacts| <= |s'.artifacts| && forall id | 0 <= id < |s.artifacts| :: ArtifactEvolves(s.artifacts[id], s'.artifacts[id])
  }

  predicate LocksRespected(s: State, s': State, t: Option<Txn>) {
    && |s.uploads| <= |s'.uploads|
    && (forall u, id: nat | u in s.locals && !Mine(t, u) && id < |s.uploads| && LocksUpload(s.locals[u], id) :: s'.uploads[id] == s.uploads[id])
    && (forall u, id: nat | u in s.locals && !Mine(t, u) && |s.uploads| <= id < |s'.uploads| :: !LocksOrg(s.locals[u], s'.uploads[id].org))
  }

  predicate FreshOnly(s: State, s': State) {
    && s.usedKeys <= s'.usedKeys && s.usedRemotes <= s'.usedRemotes && s.deleteCalls <= s'.deleteCalls
    && (forall k | k in s.written :: k in s'.written && s'.written[k] == s.written[k])
    && (forall id | |s.uploads| <= id < |s'.uploads| :: s'.uploads[id].key !in s.usedKeys)
    && (forall r | r in s.usedRemotes && r in s'.store.multiparts :: r in s.store.multiparts && s'.store.multiparts[r].key == s.store.multiparts[r].key)
  }

  predicate OthersKept(s: State, s': State, t: Option<Txn>) {
    && (forall u | u in s.locals && !Mine(t, u) :: u in s'.locals && s'.locals[u] == s.locals[u])
    && (forall u | u in s'.locals && !Mine(t, u) :: u in s.locals)
  }

  predicate Moves(s: State, s': State, t: Option<Txn>) {
    UploadsMove(s, s') && ArtifactsMove(s, s') && LocksRespected(s, s', t) && FreshOnly(s, s') && OthersKept(s, s', t)
  }

  // ----- Facts about rows

  lemma EvolvesTransitive(a: Upload, b: Upload, c: Upload)
    requires Evolves(a, b) && Evolves(b, c)
    ensures Evolves(a, c)
  {
  }

  lemma ArtifactEvolvesTransitive(a: Artifact, b: Artifact, c: Artifact)
    requires ArtifactEvolves(a, b) && ArtifactEvolves(b, c)
    ensures ArtifactEvolves(a, c)
  {
  }

  lemma {:induction false} QuotaShrinks(before: seq<Upload>, after: seq<Upload>, org: nat)
    requires |before| == |after| && RowsOk(before) && RowsOk(after)
    requires forall i | 0 <= i < |before| :: Evolves(before[i], after[i])
    ensures ActiveCount(after, org) <= ActiveCount(before, org)
    ensures ActiveBytes(after, org) <= ActiveBytes(before, org)
  {
    if before != [] {
      var last := |before| - 1;
      QuotaShrinks(before[..last], after[..last], org);
      assert Evolves(before[last], after[last]) && RowOk(before[last]) && RowOk(after[last]);
    }
  }

  lemma {:induction false} QuotaOfAppended(uploads: seq<Upload>, row: Upload, org: nat)
    ensures ActiveCount(uploads + [row], org) == ActiveCount(uploads, org) + if CountsFor(row, org) then 1 else 0
    ensures ActiveBytes(uploads + [row], org) == ActiveBytes(uploads, org) + if CountsFor(row, org) then row.reserved else 0
  {
    assert (uploads + [row])[..|uploads|] == uploads;
  }

  lemma {:induction false} QuotaOfPrefix(uploads: seq<Upload>, n: nat, org: nat)
    requires n <= |uploads|
    requires forall i | n <= i < |uploads| :: uploads[i].org != org
    ensures ActiveCount(uploads, org) == ActiveCount(uploads[..n], org)
    ensures ActiveBytes(uploads, org) == ActiveBytes(uploads[..n], org)
  {
    if n == |uploads| {
      assert uploads[..n] == uploads;
    } else {
      var last := |uploads| - 1;
      QuotaOfPrefix(uploads[..last], n, org);
      assert uploads[..last][..n] == uploads[..n];
    }
  }

  // ----- Stability: what a transaction assumes survives the steps of the others

  lemma RemembersStable(s: State, s': State, id: nat, row: Upload)
    requires UploadsMove(s, s') && Remembers(s, id, row)
    ensures Remembers(s', id, row)
  {
    EvolvesTransitive(row, s.uploads[id], s'.uploads[id]);
  }

  lemma RemembersArtifactStable(s: State, s': State, id: nat, row: Artifact)
    requires ArtifactsMove(s, s') && RemembersArtifact(s, id, row)
    ensures RemembersArtifact(s', id, row)
  {
    ArtifactEvolvesTransitive(row, s.artifacts[id], s'.artifacts[id]);
  }

  lemma HolderStable(c: Config, s: State, s': State, t: Option<Txn>, u: Txn, id: nat)
    requires UploadsMove(s, s') && LocksRespected(s, s', t) && FreshOnly(s, s')
    requires u in s.locals && !Mine(t, u) && LocksUpload(s.locals[u], id) && LocalOk(c, s, s.locals[u])
    ensures LocalOk(c, s', s.locals[u])
  {
    hide Evolves, PastCheckpoint;
  }

  lemma TargetsStable(s: State, s': State, targets: seq<Target>, deleting: bool, phase: Phase<Artifact>)
    requires ArtifactsMove(s, s') && TargetsOk(s, targets, deleting, phase)
    ensures TargetsOk(s', targets, deleting, phase)
  {
    if phase.Loaded? {
      RemembersArtifactStable(s, s', targets[0].id, phase.row);
    }
    forall i | 0 <= i < |targets| ensures TargetOk(s', targets[i], deleting) {
      assert TargetOk(s, targets[i], deleting);
      assert ArtifactEvolves(s.artifacts[targets[i].id], s'.artifacts[targets[i].id]);
    }
  }

  lemma TaskStable(s: State, s': State, task: Task)
    requires UploadsMove(s, s') && TaskOk(s, task)
    ensures TaskOk(s', task)
  {
    assert Evolves(s.uploads[task.id], s'.uploads[task.id]);
  }

  lemma NoSessionKeyStable(s: State, s': State, key: Key)
    requires UploadsMove(s, s') && FreshOnly(s, s') && key in s.usedKeys && NoSessionKey(s, key)
    ensures NoSessionKey(s', key)
  {
    forall i | 0 <= i < |s'.uploads| ensures s'.uploads[i].key != key {
      if i < |s.uploads| {
        assert Evolves(s.uploads[i], s'.uploads[i]);
      }
    }
  }

  lemma SweeperStable(c: Config, s: State, s': State, l: Local)
    requires UploadsMove(s, s') && ArtifactsMove(s, s') && FreshOnly(s, s') && LocalOk(c, s, l)
    requires l.Selected? || l.Sweeping? || l.Purging? || l.Reconciling? || l.OrphanListed? || l.OrphanUnknown? || l.OrphanCondemned?
    ensures LocalOk(c, s', l)
  {
    hide Remembers, UploadsMove, ArtifactsMove, TaskOk, TargetsOk, NoSessionKey;
    match l
    case Selected(_, rows) => forall id | id in rows { RemembersStable(s, s', id, rows[id]); }
    case Sweeping(_, tasks, phase) =>
      forall i | 0 <= i < |tasks| { TaskStable(s, s', tasks[i]); }
      if phase.Loaded? {
        RemembersStable(s, s', tasks[0].id, phase.row);
      }
    case Purging(_, targets, purge) => TargetsStable(s, s', targets, true, purge);
    case Reconciling(targets, purge) => TargetsStable(s, s', targets, false, purge);
    case OrphanListed(_) =>
    case OrphanUnknown(key) => NoSessionKeyStable(s, s', key);
    case OrphanCondemned(key) => NoSessionKeyStable(s, s', key);
  }

  lemma LocalStable(c: Config, s: State, s': State, t: Option<Txn>, u: Txn)
    requires RowsOk(s.uploads) && RowsOk(s'.uploads) && LocalsOk(c, s) && Moves(s, s', t)
    requires u in s.locals && !Mine(t, u)
    ensures LocalOk(c, s', s.locals[u])
  {
    hide Remembers, RemembersArtifact, UploadsMove, ArtifactsMove, LocksRespected, FreshOnly, OthersKept, RowsOk;
    var l := s.locals[u];
    assert LocalOk(c, s, l);
    if l.CreateReady? {
      QuotaStable(s, s', t, u);
    } else if l.Viewed? || l.CancelReady? {
      RemembersStable(s, s', l.id, l.row);
    } else if l.ArtifactViewed? {
      RemembersArtifactStable(s, s', l.id, l.artifact);
    } else if l.Checkpointed? {
      CheckpointStable(s, s', l.id);
    } else if l.CreateLocked? || l.Finished? {
    } else if l.SignLocked? || l.SignStarted? || l.CompleteLocked? || l.Relocked? || l.RemoteFailed? || l.RemoteDone? || l.ObjectVerified? {
      HolderStable(c, s, s', t, u, l.id);
    } else {
      SweeperStable(c, s, s', l);
    }
  }

  lemma CheckpointStable(s: State, s': State, id: nat)
    requires UploadsMove(s, s') && id < |s.uploads| && (PastCheckpoint(s.uploads[id].status) || s.uploads[id].status.Completed?)
    ensures id < |s'.uploads| && (PastCheckpoint(s'.uploads[id].status) || s'.uploads[id].status.Completed?)
  {
    assert Evolves(s.uploads[id], s'.uploads[id]);
  }

  lemma QuotaStable(s: State, s': State, t: Option<Txn>, u: Txn)
    requires RowsOk(s.uploads) && RowsOk(s'.uploads) && Moves(s, s', t)
    requires u in s.locals && !Mine(t, u) && s.locals[u].CreateReady?
    ensures ActiveCount(s'.uploads, s.locals[u].org) <= ActiveCount(s.uploads, s.locals[u].org)
    ensures ActiveBytes(s'.uploads, s.locals[u].org) <= ActiveBytes(s.uploads, s.locals[u].org)
  {
    hide Evolves, ArtifactsMove, FreshOnly, RowOk;
    var n, org := |s.uploads|, s.locals[u].org;
    assert LocksOrg(s.locals[u], org);
    QuotaOfPrefix(s'.uploads, n, org);
    QuotaShrinks(s.uploads, s'.uploads[..n], org);
  }
}
