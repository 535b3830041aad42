/** The pass over the listing is a run of the protocol machine too.  The machine would let a sweeper look at
    any object; the pass looks only at old ones with a session-like key, each in transactions of its own.
  */
module OrphanPassRuns {
  import opened ArtifactDomain
  import opened ObjectStore
  import opened UploadProtocol
  import opened Maintenance
  import opened MaintenanceRuns
  import opened UploadRuns

  /** What u does about one object: list it, ask for a session, ask for an artifact, delete it. */
  function ItemSteps(u: Txn, key: Key, fault: Fault): seq<Step> {
    [Sweeper(u, DoListOrphan(key))] + [Sweeper(u, DoCheckOrphanUpload)] + [Sweeper(u, DoCheckOrphanArtifact)] + [Sweeper(u, DoDeleteOrphan(fault))]
  }

  lemma ItemIsFour(c: Config, s: State, u: Txn, key: Key, fault: Fault)
    ensures Run(c, s, ItemSteps(u, key, fault))
         == DeleteOrphan(CheckOrphanArtifact(CheckOrphanUpload(ListOrphan(s, u, key), u), u), u, fault)
  {
    hide Run, ListOrphan, CheckOrphanUpload, CheckOrphanArtifact, DeleteOrphan;
    var list, ask, ask', delete := Sweeper(u, DoListOrphan(key)), Sweeper(u, DoCheckOrphanUpload), Sweeper(u, DoCheckOrphanArtifact), Sweeper(u, DoDeleteOrphan(fault));
    RunOne(c, s, list);
    RunNext(c, s, [list], ask);
    RunNext(c, s, [list] + [ask], ask');
    RunNext(c, s, [list] + [ask] + [ask'], delete);
  }

  function StoreAfter(s: State, key: Key, fault: Fault): Store {
    if Known(LedgerOf(s), key) then s.store else DeleteObject(s.store, key, fault).0
  }

  lemma GoTwice(s: State, u: Txn, l: Local, l': Local)
    ensures Go(Go(s, u, l), u, l') == Go(s, u, l')
    ensures u in Go(s, u, l).locals && Go(s, u, l).locals[u] == l && Go(s, u, l).locals.Keys == s.locals.Keys + {u}
  {
    assert s.locals[u := l][u := l'] == s.locals[u := l'];
  }

  predicate HasSession(s: State, key: Key) { exists i | 0 <= i < |s.uploads| :: s.uploads[i].key == key }
  predicate HasLiveArtifact(s: State, key: Key) { exists i | 0 <= i < |s.artifacts| :: s.artifacts[i].key == key && !s.artifacts[i].status.Deleted? }

  lemma AsksForSession(s: State, u: Txn, key: Key)
    ensures CheckOrphanUpload(Go(s, u, OrphanListed(key)), u) == Go(s, u, if HasSession(s, key) then Finished(Done) else OrphanUnknown(key))
  {
    GoTwice(s, u, OrphanListed(key), OrphanUnknown(key));
    GoTwice(s, u, OrphanListed(key), Finished(Done));
  }

  lemma AsksForArtifact(s: State, u: Txn, key: Key)
    ensures CheckOrphanArtifact(Go(s, u, OrphanUnknown(key)), u) == Go(s, u, if HasLiveArtifact(s, key) then Finished(Done) else OrphanCondemned(key))
  {
    GoTwice(s, u, OrphanUnknown(key), OrphanCondemned(key));
    GoTwice(s, u, OrphanUnknown(key), Finished(Done));
  }

  lemma FinishedRests(s: State, u: Txn, fault: Fault)
    ensures var p := Go(s, u, Finished(Done)); CheckOrphanArtifact(p, u) == p && DeleteOrphan(p, u, fault) == p
  {
  }

  lemma AbsentRests(s: State, u: Txn, key: Key, fault: Fault)
    requires u !in s.locals && key !in s.store.objects
    ensures DeleteOrphan(CheckOrphanArtifact(CheckOrphanUpload(ListOrphan(s, u, key), u), u), u, fault) == s
    ensures DeleteObject(s.store, key, fault).0 == s.store
  {
    assert s.store.objects - {key} == s.store.objects;
  }

  /** Only the store, the calls and u's place change, and the store as the pass says. */
  lemma ItemDeletes(s: State, u: Txn, key: Key, fault: Fault)
    requires u !in s.locals
    ensures var s' := DeleteOrphan(CheckOrphanArtifact(CheckOrphanUpload(ListOrphan(s, u, key), u), u), u, fault);
            && s' == s.(store := StoreAfter(s, key, fault), locals := s'.locals, deleteCalls := s'.deleteCalls)
            && s'.locals.Keys <= s.locals.Keys + {u}
  {
    if key !in s.store.objects {
      AbsentRests(s, u, key, fault);
      hide ListOrphan, CheckOrphanUpload, CheckOrphanArtifact, DeleteOrphan, DeleteObject, Known;
    } else {
      assert ListOrphan(s, u, key) == Go(s, u, OrphanListed(key)) by { hide Go; }
      assert Known(LedgerOf(s), key) <==> HasSession(s, key) || HasLiveArtifact(s, key);
      hide Known, ListOrphan, CheckOrphanUpload, CheckOrphanArtifact, DeleteOrphan, DeleteObject, HasSession, HasLiveArtifact;
      AsksForSession(s, u, key);
      AsksForArtifact(s, u, key);
      FinishedRests(s, u, fault);
      CondemnedDeletes(s, u, key, fault);
      GoTwice(s, u, Finished(Done), Finished(Done));
    }
  }

  lemma CondemnedDeletes(s: State, u: Txn, key: Key, fault: Fault)
    ensures var s' := DeleteOrphan(Go(s, u, OrphanCondemned(key)), u, fault);
            && s' == s.(store := DeleteObject(s.store, key, fault).0, locals := s'.locals, deleteCalls := s'.deleteCalls)
            && s'.locals.Keys <= s.locals.Keys + {u}
  {
    hide DeleteObject;
  }

  // ----- The whole pass; item k is looked after by transaction first + k

  predicate LooksAt(l: Ledger, listing: seq<Listed>, cutoff: Time, limit: nat, faults: nat -> Fault, k: nat)
    requires k < |listing|
  {
    OrphansFirst(l, listing, cutoff, limit, faults, k).1 < limit && Suspect(listing[k], cutoff)
  }

  function OrphanSteps(l: Ledger, listing: seq<Listed>, cutoff: Time, limit: nat, faults: nat -> Fault, first: Txn, k: nat): seq<Step>
    requires k <= |listing|
  {
    if k == 0 then []
    else
      OrphanSteps(l, listing, cutoff, limit, faults, first, k - 1)
      + if LooksAt(l, listing, cutoff, limit, faults, k - 1) then ItemSteps(first + k - 1, listing[k - 1].key, faults(k - 1)) else []
  }

  predicate Unused(s: State, first: Txn, k: nat) { forall t | t in s.locals :: t < first + k }

  lemma ItemIsRun(c: Config, s: State, u: Txn, key: Key, fault: Fault)
    requires u !in s.locals
    ensures var s' := Run(c, s, ItemSteps(u, key, fault));
            && s' == s.(store := StoreAfter(s, key, fault), locals := s'.locals, deleteCalls := s'.deleteCalls)
            && s'.locals.Keys <= s.locals.Keys + {u}
  {
    ItemIsFour(c, s, u, key, fault);
    ItemDeletes(s, u, key, fault);
    hide Run, StoreAfter, ItemSteps;
  }

  lemma PassGoesOn(s: State, l: Ledger, listing: seq<Listed>, cutoff: Time, limit: nat, faults: nat -> Fault, k: nat)
    requires 0 < k <= |listing| && l == LedgerOf(s)
    ensures var l1, l2 := OrphansFirst(l, listing, cutoff, limit, faults, k - 1).0, OrphansFirst(l, listing, cutoff, limit, faults, k).0;
            l2.store == if LooksAt(l, listing, cutoff, limit, faults, k - 1) then StoreAfter(s.(store := l1.store), listing[k - 1].key, faults(k - 1)) else l1.store
  {
    OnlyOrphansAreRemoved(l, listing, cutoff, limit, faults, k - 1, listing[k - 1].key);
    var l1 := OrphansFirst(l, listing, cutoff, limit, faults, k - 1).0;
    hide Suspect, DeleteObject;
    assert Known(l1, listing[k - 1].key) == Known(LedgerOf(s.(store := l1.store)), listing[k - 1].key);
  }

  /** What the run has done by item k. */
  predicate PassAt(s: State, s': State, store: Store, first: Txn, k: nat) {
    s' == s.(store := store, locals := s'.locals, deleteCalls := s'.deleteCalls) && Unused(s', first, k)
  }

  lemma PassAtNext(c: Config, s: State, before: State, store: Store, first: Txn, k: nat, key: Key, fault: Fault)
    requires PassAt(s, before, store, first, k)
    ensures PassAt(s, before, store, first, k + 1)
    ensures PassAt(s, Run(c, before, ItemSteps(first + k, key, fault)), StoreAfter(s.(store := store), key, fault), first, k + 1)
  {
    hide Run, ItemSteps;
    ItemIsRun(c, before, first + k, key, fault);
    SameStoreAfter(before, s.(store := store), key, fault);
    hide StoreAfter;
  }

  lemma SameStoreAfter(a: State, b: State, key: Key, fault: Fault)
    requires a.uploads == b.uploads && a.artifacts == b.artifacts && a.store == b.store
    ensures StoreAfter(a, key, fault) == StoreAfter(b, key, fault)
  {
    hide DeleteObject;
  }

  /** `_delete_orphans`, faults included, is a run of the machine: it leaves every table as it is and the store as
      the pass says. */
  lemma {:induction false} OrphanPassIsRun(c: Config, s: State, listing: seq<Listed>, cutoff: Time, limit: nat, faults: nat -> Fault, first: Txn, k: nat)
    requires k <= |listing| && Unused(s, first, 0)
    ensures var l := LedgerOf(s);
            PassAt(s, Run(c, s, OrphanSteps(l, listing, cutoff, limit, faults, first, k)), OrphansFirst(l, listing, cutoff, limit, faults, k).0.store, first, k)
  {
    var l := LedgerOf(s);
    hide Run, LooksAt, ItemSteps, StoreAfter;
    if k > 0 {
      var steps := OrphanSteps(l, listing, cutoff, limit, faults, first, k - 1);
      var item := ItemSteps(first + k - 1, listing[k - 1].key, faults(k - 1));
      OrphanPassIsRun(c, s, listing, cutoff, limit, faults, first, k - 1);
      PassGoesOn(s, l, listing, cutoff, limit, faults, k);
      PassAtNext(c, s, Run(c, s, steps), OrphansFirst(l, listing, cutoff, limit, faults, k - 1).0.store, first, k - 1, listing[k - 1].key, faults(k - 1));
      RunJoins(c, s, steps, item);
      assert steps + [] == steps;
      hide PassAt, OrphansFirst;
    } else {
      EmptyRun(c, s);
    }
  }

  lemma EmptyRun(c: Config, s: State)
    ensures Run(c, s, []) == s
  {
  }
}
