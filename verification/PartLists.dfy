/** What the part list check of complete means: the query, the comparison and the sum of the handler against a
    list, an order and a sum that are told without them.
  */
module PartLists {
  import opened ArtifactDomain
  import opened ObjectStore
  import opened Completion
  import opened UploadProtocol
  import opened UploadInvariant
  import UploadSteps
  import UploadTheorems
  import RegisteredParts

  // ----- Sums over a set of numbers, in no particular order

  ghost function Sum(keys: set<nat>, f: nat -> nat): nat {
    if keys == {} then 0 else var k :| k in keys; f(k) + Sum(keys - {k}, f)
  }

  lemma {:induction false} SumWithout(keys: set<nat>, f: nat -> nat, k: nat)
    requires k in keys
    ensures Sum(keys, f) == f(k) + Sum(keys - {k}, f)
  {
    var j :| j in keys && Sum(keys, f) == f(j) + Sum(keys - {j}, f);
    if j != k {
      SumWithout(keys - {j}, f, k);
      SumWithout(keys - {k}, f, j);
      assert keys - {j} - {k} == keys - {k} - {j};
    }
  }

  lemma {:induction false} SumSame(keys: set<nat>, f: nat -> nat, g: nat -> nat)
    requires forall k | k in keys :: f(k) == g(k)
    ensures Sum(keys, f) == Sum(keys, g)
  {
    if keys != {} {
      var k :| k in keys;
      SumWithout(keys, f, k);
      SumWithout(keys, g, k);
      SumSame(keys - {k}, f, g);
    }
  }

  // ----- The part list of complete

  /** Part numbers are those that registration admits. */
  predicate Numbered(parts: map<nat, Part>) { forall n | n in parts :: 1 <= n <= 10_000 }

  predicate Ascending(manifest: Manifest) { forall i, j | 0 <= i < j < |manifest| :: manifest[i].0 < manifest[j].0 }

  /** The list names the registered parts with their etags, all of them and nothing else. */
  ghost predicate NamesAll(parts: map<nat, Part>, manifest: Manifest) {
    forall n: nat, etag: string :: (n, etag) in manifest <==> n in parts && parts[n].etag == etag
  }

  function Sizes(parts: map<nat, Part>): nat -> nat { n => if n in parts then parts[n].size else 0 }

  /** The list a call must send, and the bytes that must have been registered. */
  ghost predicate IsWhole(parts: map<nat, Part>, size: nat, manifest: Manifest) {
    Ascending(manifest) && NamesAll(parts, manifest) && Sum(parts.Keys, Sizes(parts)) == size
  }

  function From(parts: map<nat, Part>, number: nat): set<nat> { set n | n in parts && n >= number }

  lemma {:induction false} TotalSizeFirst(first: (nat, Part), rest: seq<(nat, Part)>)
    ensures TotalSize([first] + rest) == first.1.size + TotalSize(rest)
  {
    var all := [first] + rest;
    if rest != [] {
      TotalSizeFirst(first, rest[..|rest| - 1]);
      assert all[..|all| - 1] == [first] + rest[..|rest| - 1];
    }
  }

  lemma QueryUnfolds(parts: map<nat, Part>, number: nat)
    ensures RegisteredFrom(parts, number)
         == if number > MAX_PART then []
            else if number in parts then [(number, parts[number])] + RegisteredFrom(parts, number + 1) else RegisteredFrom(parts, number + 1)
  {
  }

  lemma {:induction false} TotalIsSum(parts: map<nat, Part>, number: nat)
    requires Numbered(parts)
    ensures TotalSize(RegisteredFrom(parts, number)) == Sum(From(parts, number), Sizes(parts))
    decreases MAX_PART + 1 - number
  {
    QueryUnfolds(parts, number);
    hide RegisteredFrom;
    if number > MAX_PART {
      assert From(parts, number) == {};
    } else {
      hide TotalSize;
      TotalIsSum(parts, number + 1);
      if number in parts {
        SumWithout(From(parts, number), Sizes(parts), number);
        assert From(parts, number) - {number} == From(parts, number + 1);
        TotalSizeFirst((number, parts[number]), RegisteredFrom(parts, number + 1));
      } else {
        assert From(parts, number) == From(parts, number + 1);
      }
    }
  }

  /** Rows of the table from a number on, ascending. */
  predicate RowsFrom(parts: map<nat, Part>, number: nat, r: seq<(nat, Part)>) {
    && (forall i | 0 <= i < |r| :: number <= r[i].0 && r[i].0 in parts && r[i].1 == parts[r[i].0])
    && (forall i, j | 0 <= i < j < |r| :: r[i].0 < r[j].0)
  }

  lemma RowBefore(parts: map<nat, Part>, number: nat, r: seq<(nat, Part)>)
    requires RowsFrom(parts, number + 1, r)
    ensures RowsFrom(parts, number, r) && (number in parts ==> RowsFrom(parts, number, [(number, parts[number])] + r))
  {
  }

  lemma {:induction false} QueryAscends(parts: map<nat, Part>, number: nat)
    ensures RowsFrom(parts, number, RegisteredFrom(parts, number))
    decreases MAX_PART + 1 - number
  {
    QueryUnfolds(parts, number);
    hide RegisteredFrom;
    if number <= MAX_PART {
      QueryAscends(parts, number + 1);
      RowBefore(parts, number, RegisteredFrom(parts, number + 1));
      hide RowsFrom;
    }
  }

  lemma {:induction false} QueryFinds(parts: map<nat, Part>, number: nat, n: nat)
    requires n in parts && number <= n <= 10_000
    ensures (n, parts[n]) in RegisteredFrom(parts, number)
    decreases MAX_PART + 1 - number
  {
    if number < n {
      QueryFinds(parts, number + 1, n);
    }
  }

  lemma QueryNamesAll(parts: map<nat, Part>)
    requires Numbered(parts)
    ensures Ascending(ManifestOf(RegisteredFrom(parts, 1))) && NamesAll(parts, ManifestOf(RegisteredFrom(parts, 1)))
  {
    QueryAscends(parts, 1);
    hide RegisteredFrom;
    forall n: nat, etag: string ensures (n, etag) in ManifestOf(RegisteredFrom(parts, 1)) <==> n in parts && parts[n].etag == etag {
      QueryNames(parts, n, etag);
    }
    hide Ascending, Numbered;
    var r := RegisteredFrom(parts, 1);
    assert Ascending(ManifestOf(r)) by { ListAscends(r); }
  }

  lemma ListAscends(r: seq<(nat, Part)>)
    requires forall i, j | 0 <= i < j < |r| :: r[i].0 < r[j].0
    ensures Ascending(ManifestOf(r))
  {
  }

  lemma QueryNames(parts: map<nat, Part>, n: nat, etag: string)
    requires Numbered(parts)
    ensures (n, etag) in ManifestOf(RegisteredFrom(parts, 1)) <==> n in parts && parts[n].etag == etag
  {
    QueryAscends(parts, 1);
    hide RegisteredFrom;
    var r := RegisteredFrom(parts, 1);
    ListHas(r, n, etag);
    hide ManifestOf;
    if n in parts && parts[n].etag == etag {
      QueryFinds(parts, 1, n);
      var i :| 0 <= i < |r| && r[i] == (n, parts[n]);
    }
  }

  lemma ListHas(r: seq<(nat, Part)>, n: nat, etag: string)
    ensures (n, etag) in ManifestOf(r) <==> exists i | 0 <= i < |r| :: r[i].0 == n && r[i].1.etag == etag
  {
    var m := ManifestOf(r);
    if i :| 0 <= i < |r| && r[i].0 == n && r[i].1.etag == etag {
      assert m[i] == (n, etag);
    }
  }

  /** An ascending list is determined by what it contains. */
  lemma {:induction false} SameList(a: Manifest, b: Manifest)
    requires Ascending(a) && Ascending(b) && forall n: nat, etag: string :: (n, etag) in a <==> (n, etag) in b
    ensures a == b
  {
    HasMember(a);
    HasMember(b);
    if a != [] && b != [] {
      SameHead(a, b);
      forall n: nat, etag: string ensures (n, etag) in a[1..] <==> (n, etag) in b[1..] {
        InTail(a, n, etag);
        InTail(b, n, etag);
      }
      SameList(a[1..], b[1..]);
    }
  }

  lemma HasMember(m: Manifest)
    ensures m != [] ==> exists n: nat, etag: string :: (n, etag) in m
  {
    if m != [] {
      assert (m[0].0, m[0].1) in m;
    }
  }

  lemma SameHead(a: Manifest, b: Manifest)
    requires Ascending(a) && Ascending(b) && forall n: nat, etag: string :: (n, etag) in a <==> (n, etag) in b
    requires a != [] && b != []
    ensures a[0] == b[0]
  {
    assert (a[0].0, a[0].1) in a && (b[0].0, b[0].1) in b;
    var i :| 0 <= i < |b| && b[i] == a[0];
    var j :| 0 <= j < |a| && a[j] == b[0];
  }

  lemma InTail(a: Manifest, n: nat, etag: string)
    requires Ascending(a) && a != []
    ensures (n, etag) in a[1..] <==> (n, etag) in a && (n, etag) != a[0]
  {
    if (n, etag) in a && (n, etag) != a[0] {
      var i :| 0 <= i < |a| && a[i] == (n, etag);
      assert a[1..][i - 1] == (n, etag);
    }
  }

  /** The comparisons of complete accept exactly the whole list of a fully registered file. */
  lemma AcceptedIffWhole(parts: map<nat, Part>, size: nat, manifest: Manifest)
    requires Numbered(parts)
    ensures ManifestAccepted(parts, size, manifest) <==> IsWhole(parts, size, manifest)
  {
    QueryNamesAll(parts);
    TotalIsSum(parts, 1);
    assert From(parts, 1) == parts.Keys;
    hide RegisteredFrom, TotalSize, Sum, Numbered, From, ManifestOf;
    if Ascending(manifest) && NamesAll(parts, manifest) {
      SameList(manifest, ManifestOf(RegisteredFrom(parts, 1)));
    }
  }

  // ----- Registered numbers in every run

  predicate AllNumbered(s: State) { forall id | 0 <= id < |s.parts| :: Numbered(s.parts[id]) }

  lemma OnlyEmptyPartsAdded(c: Config, s: State, t: Txn, a: Action)
    requires !a.DoRegisterPart?
    ensures forall id | |s.parts| <= id < |Act(c, s, t, a).parts| :: Act(c, s, t, a).parts[id] == map[]
  {
    RegisteredParts.UpdatesKeepParts(s, t);
    hide ManifestAccepted, HasArtifact, NewArtifact, UploadFree, OrgFree, IsPastDue, Head, Verified, UpdateUpload, UpdateArtifact, CompleteMultipart, AbortMultipart;
  }

  lemma StepKeepsNumbered(c: Config, s: State, step: Step)
    requires AllNumbered(s)
    ensures AllNumbered(Apply(c, s, step))
  {
    var s' := Apply(c, s, step);
    forall id | 0 <= id < |s'.parts| ensures Numbered(s'.parts[id]) {
      if id < |s.parts| {
        RegisteredParts.PartsChangeOnlyByRegistration(c, s, step, id);
        hide Apply;
      } else {
        NewIsNumbered(c, s, step, id);
      }
    }
  }

  lemma NewIsNumbered(c: Config, s: State, step: Step, id: nat)
    requires |s.parts| <= id < |Apply(c, s, step).parts|
    ensures Numbered(Apply(c, s, step).parts[id])
  {
    hide Act, Sweep;
    match step
    case By(t, action) =>
      if action.DoRegisterPart? {
        RegistrationAddsNoRow(c, s, t, action);
      } else {
        OnlyEmptyPartsAdded(c, s, t, action);
      }
    case Sweeper(t, chore) => RegisteredParts.SweepsKeepParts(c, s, t, chore);
    case _ =>
  }

  lemma RegistrationAddsNoRow(c: Config, s: State, t: Txn, a: Action)
    requires a.DoRegisterPart?
    ensures |Act(c, s, t, a).parts| == |s.parts|
  {
    RegisteredParts.UpdatesKeepParts(s, t);
    hide UpdateUpload;
  }

  lemma {:induction false} RunKeepsNumbered(c: Config, s: State, steps: seq<Step>)
    requires AllNumbered(s)
    ensures AllNumbered(Run(c, s, steps))
  {
    hide Apply, AllNumbered;
    if steps != [] {
      RunKeepsNumbered(c, s, steps[..|steps| - 1]);
      StepKeepsNumbered(c, Run(c, s, steps[..|steps| - 1]), steps[|steps| - 1]);
    }
  }

  /** In every run the part numbers on record are from 1 to 10000. */
  lemma ReachedNumbered(c: Config, steps: seq<Step>, id: nat)
    requires id < |UploadTheorems.Reached(c, steps).parts|
    ensures Numbered(UploadTheorems.Reached(c, steps).parts[id])
  {
    hide Run, Numbered;
    RunKeepsNumbered(c, EMPTY, steps);
  }

  // ----- complete

  predicate InTime(row: Upload, now: Time) { now < row.expiresAt }

  /** The session may be completed: it is UPLOADING or COMPLETING. */
  predicate MayComplete(row: Upload) { row.status == Uploading || row.status == Completing }

  /** Among any other transactions, a complete call that holds the row gets past the checks if and only if the
      session is UPLOADING or COMPLETING and in time, and the list it brings names the registered parts with their
      etags in the order of their numbers, all of them and nothing else, and their sizes add up to the declared size.
      With a list that is not that, it answers PART_LIST_MISMATCH and nothing changes. */
  lemma ChecksPassIff(c: Config, s: State, t: Txn, now: Time, manifest: Manifest)
    requires Inv(c, s) && t in s.locals && s.locals[t].CompleteLocked?
    requires s.locals[t].id < |s.parts| && Numbered(s.parts[s.locals[t].id])
    ensures var l, s' := s.locals[t], CheckManifest(s, t, now, manifest);
            && l.id < |s.uploads| && l.row == s.uploads[l.id] && t in s'.locals
            && (s'.locals[t] == Checkpointed(l.id, manifest) || s'.locals[t].Relocked?
                <==> MayComplete(l.row) && InTime(l.row, now) && IsWhole(s.parts[l.id], l.row.size, manifest))
            && (MayComplete(l.row) && InTime(l.row, now) && !IsWhole(s.parts[l.id], l.row.size, manifest)
                ==> s' == s.(locals := s.locals[t := Finished(Refused(PartListMismatch))]))
  {
    var l := s.locals[t];
    UploadSteps.OwnLocal(c, s, t);
    UploadSteps.CurrentRow(c, s, l.id);
    AcceptedIffWhole(s.parts[l.id], l.row.size, manifest);
    HoldsAlone(c, s, t);
    hide Inv, ManifestAccepted, IsWhole, UploadFree, HasArtifact, ArtifactOf, RemoteOk, ExpiredRow, CheckpointRow, SetUpload, Numbered;
  }

  lemma HoldsAlone(c: Config, s: State, t: Txn)
    requires Inv(c, s) && t in s.locals && s.locals[t].CompleteLocked?
    ensures UploadFree(s, t, s.locals[t].id)
  {
    hide TablesOk, LocalsOk;
  }
}
