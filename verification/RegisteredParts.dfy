/** When the registered parts of a session may still grow.  Registration goes by a row it read without a
    lock, so the COMPLETING checkpoint does not stop it.
  */
module RegisteredParts {
  import opened ArtifactDomain
  import opened ObjectStore
  import opened Completion
  import opened UploadProtocol
  import opened UploadInvariant
  import opened UploadSteps
  import opened ArtifactSteps
  import opened UploadLocals
  import opened UploadRuns
  import opened UploadTheorems

  // ----- Who writes parts

  /** The step registers a part for session id: it read the session UPLOADING, is in time, and the number is new. */
  predicate Registers(s: State, step: Step, id: nat) {
    && step.By? && step.action.DoRegisterPart? && step.t in s.locals && s.locals[step.t].Viewed? && s.locals[step.t].id == id
    && s.locals[step.t].row.status.Uploading? && step.action.now < s.locals[step.t].row.expiresAt
    && 1 <= step.action.number <= MAX_PART && id < |s.parts| && step.action.number !in s.parts[id]
  }

  lemma UpdatesKeepParts(s: State, t: Txn)
    ensures forall id, seen, next, done :: UpdateUpload(s, t, id, seen, next, done).parts == s.parts
    ensures forall id, seen, next, kind, done :: UpdateArtifact(s, t, id, seen, next, kind, done).parts == s.parts
  {
    hide UploadFree;
  }

  lemma OthersKeepParts(c: Config, s: State, t: Txn, a: Action)
    requires !a.DoRegisterPart?
    ensures s.parts <= Act(c, s, t, a).parts
  {
    UpdatesKeepParts(s, t);
    hide ManifestAccepted, HasArtifact, NewArtifact, UploadFree, OrgFree, IsPastDue, Head, Verified, UpdateUpload, UpdateArtifact, CompleteMultipart, AbortMultipart;
  }

  lemma SweepsKeepParts(c: Config, s: State, t: Txn, chore: Chore)
    ensures Sweep(c, s, t, chore).parts == s.parts
  {
    UpdatesKeepParts(s, t);
    hide NeedsSweep, UploadFree, ExpireBatch, TasksOf, Picks, Head, RetryDue, RetryUploadRow, RetryArtifactRow, UpdateUpload, UpdateArtifact, AbortMultipart, DeleteObject;
  }

  lemma RegistrationWrites(c: Config, s: State, t: Txn, now: Time, number: nat, part: Part, id: nat)
    requires id < |s.parts|
    ensures var s', step := Act(c, s, t, DoRegisterPart(now, number, part)), By(t, DoRegisterPart(now, number, part));
            && |s'.parts| == |s.parts|
            && s'.parts[id] == if Registers(s, step, id) then s.parts[id][number := part] else s.parts[id]
  {
    UpdatesKeepParts(s, t);
    hide UpdateUpload;
  }

  /** Every step of everyone: the parts of a session change only by a registration that read it UPLOADING, in
      time and with a new number, and such a registration always adds its part. */
  lemma PartsChangeOnlyByRegistration(c: Config, s: State, step: Step, id: nat)
    requires id < |s.parts|
    ensures var s' := Apply(c, s, step);
            && id < |s'.parts|
            && s'.parts[id] == if Registers(s, step, id) then s.parts[id][step.action.number := step.action.part] else s.parts[id]
  {
    hide Act, Sweep;
    match step
    case By(t, action) =>
      if action.DoRegisterPart? {
        RegistrationWrites(c, s, t, action.now, action.number, action.part, id);
      } else {
        OthersKeepParts(c, s, t, action);
      }
    case Sweeper(t, chore) => SweepsKeepParts(c, s, t, chore);
    case PartArrives(_, _, _) =>
    case ForeignObject(_, _) =>
    case ObjectLost(_) =>
  }

  // ----- Over runs

  predicate PastUploading(u: Upload) { !u.status.PendingUpload? && !u.status.Uploading? }

  predicate IsStaleView(l: Local, id: nat) { l.Viewed? && l.id == id && l.row.status.Uploading? }

  /** Some open transaction still takes the session for UPLOADING. */
  predicate HasStaleView(s: State, id: nat) { exists t | t in s.locals :: IsStaleView(s.locals[t], id) }

  predicate HasNumbersLeft(parts: map<nat, Part>) { exists n | 1 <= n <= MAX_PART :: n !in parts }

  lemma StaysPastUploading(c: Config, s: State, step: Step, id: nat)
    requires Inv(c, s) && id < |s.uploads| && PastUploading(s.uploads[id])
    ensures id < |Apply(c, s, step).uploads| && PastUploading(Apply(c, s, step).uploads[id])
  {
    StepIsLater(c, s, step);
    hide Inv, Apply;
    assert Evolves(s.uploads[id], Apply(c, s, step).uploads[id]);
  }

  lemma OwnViewIsFresh(c: Config, s: State, t: Txn, a: Action, id: nat)
    requires id < |s.uploads| && PastUploading(s.uploads[id])
    requires t in Act(c, s, t, a).locals && IsStaleView(Act(c, s, t, a).locals[t], id)
    ensures t in s.locals && s.locals[t] == Act(c, s, t, a).locals[t]
  {
    if a.DoReadUpload? {
      ReadViewsRow(c, s, t, a.id);
      hide Act;
    } else if CompletionStep(a) {
      CompletionViewsNothing(c, s, t, a);
      hide Act;
    } else {
      ActEntersNothing(c, s, t, a);
      hide Act;
    }
  }

  lemma CompletionViewsNothing(c: Config, s: State, t: Txn, a: Action)
    requires CompletionStep(a)
    ensures t in Act(c, s, t, a).locals && Act(c, s, t, a).locals[t].Viewed? ==> t in s.locals && s.locals[t] == Act(c, s, t, a).locals[t]
  {
    hide ManifestAccepted, HasArtifact, UploadFree, CompleteMultipart, Assembled, Verified, Head, Flatten;
    match a
    case DoCheckManifest(now, manifest) =>
    case DoRelock =>
    case _ =>
  }

  lemma NoNewStaleView(c: Config, s: State, step: Step, id: nat)
    requires Inv(c, s) && id < |s.uploads| && PastUploading(s.uploads[id]) && !HasStaleView(s, id)
    ensures !HasStaleView(Apply(c, s, step), id)
  {
    hide Inv, Act, Sweep, IsStaleView, PastUploading, TakesFreeLocks, UploadsMove, ArtifactsMove, LocksRespected, FreshOnly;
    var s' := Apply(c, s, step);
    if t :| t in s'.locals && IsStaleView(s'.locals[t], id) {
      match step
      case By(u, action) =>
        if u == t {
          OwnViewIsFresh(c, s, t, action, id);
        } else {
          ActGood(c, s, u, action);
        }
      case Sweeper(u, chore) =>
        if u == t {
          SweepEntersNothing(c, s, t, chore);
          StaleIsTracked(s, s', t, id);
        } else {
          SweepGood(c, s, u, chore);
        }
      case PartArrives(_, _, _) =>
      case ForeignObject(_, _) =>
      case ObjectLost(_) =>
    }
  }

  lemma StaleIsTracked(s: State, s': State, t: Txn, id: nat)
    requires NothingEntered(s, s', t) && t in s'.locals && IsStaleView(s'.locals[t], id)
    ensures t in s.locals && s.locals[t] == s'.locals[t]
  {
  }

  lemma {:induction false} UnseenKeepsParts(c: Config, s: State, steps: seq<Step>, id: nat)
    requires Inv(c, s) && id < |s.uploads| && id < |s.parts| && PastUploading(s.uploads[id]) && !HasStaleView(s, id)
    ensures var s' := Run(c, s, steps);
            && id < |s'.uploads| && id < |s'.parts| && PastUploading(s'.uploads[id]) && !HasStaleView(s', id) && s'.parts[id] == s.parts[id]
  {
    hide Inv, Apply, PastUploading, HasStaleView, Registers;
    if steps != [] {
      var before, last := Run(c, s, steps[..|steps| - 1]), steps[|steps| - 1];
      UnseenKeepsParts(c, s, steps[..|steps| - 1], id);
      RunKeepsInv(c, s, steps[..|steps| - 1]);
      StaysPastUploading(c, before, last, id);
      NoNewStaleView(c, before, last, id);
      PartsChangeOnlyByRegistration(c, before, last, id);
      UnseenRegistersNothing(before, last, id);
    }
  }

  lemma UnseenRegistersNothing(s: State, step: Step, id: nat)
    requires !HasStaleView(s, id)
    ensures !Registers(s, step, id)
  {
    if Registers(s, step, id) {
      assert IsStaleView(s.locals[step.t], id);
    }
  }

  lemma {:induction false} FullKeepsParts(c: Config, s: State, steps: seq<Step>, id: nat)
    requires id < |s.parts| && !HasNumbersLeft(s.parts[id])
    ensures var s' := Run(c, s, steps); id < |s'.parts| && s'.parts[id] == s.parts[id]
  {
    hide Apply;
    if steps != [] {
      FullKeepsParts(c, s, steps[..|steps| - 1], id);
      PartsChangeOnlyByRegistration(c, Run(c, s, steps[..|steps| - 1]), steps[|steps| - 1], id);
    }
  }

  predicate KeepsParts(c: Config, s: State, steps: seq<Step>, id: nat)
    requires id < |s.parts|
  {
    var s' := Run(c, s, steps);
    id < |s'.parts| && s'.parts[id] == s.parts[id]
  }

  /** The exact condition: the parts of a session past UPLOADING are unchanged in every run if and only if no
      open transaction still takes it for UPLOADING, or all part numbers are taken. */
  lemma PartsFrozenIff(c: Config, s: State, id: nat)
    requires Inv(c, s) && id < |s.uploads| && id < |s.parts| && PastUploading(s.uploads[id])
    ensures (forall steps :: KeepsParts(c, s, steps, id)) <==> !HasStaleView(s, id) || !HasNumbersLeft(s.parts[id])
  {
    hide Inv, Apply, PastUploading, Registers;
    if !HasStaleView(s, id) {
      forall steps ensures KeepsParts(c, s, steps, id) {
        UnseenKeepsParts(c, s, steps, id);
      }
    } else if !HasNumbersLeft(s.parts[id]) {
      forall steps ensures KeepsParts(c, s, steps, id) {
        FullKeepsParts(c, s, steps, id);
      }
    } else {
      var t :| t in s.locals && IsStaleView(s.locals[t], id);
      var n :| 1 <= n <= MAX_PART && n !in s.parts[id];
      var step := By(t, DoRegisterPart(s.locals[t].row.expiresAt - 1, n, Part("", 0)));
      RunOne(c, s, step);
      PartsChangeOnlyByRegistration(c, s, step, id);
      assert Registers(s, step, id) by { WouldRegister(s, t, id, n); }
      hide Run;
      assert n in Run(c, s, [step]).parts[id];
      assert !KeepsParts(c, s, [step], id);
    }
  }

  lemma WouldRegister(s: State, t: Txn, id: nat, n: nat)
    requires t in s.locals && IsStaleView(s.locals[t], id) && 1 <= n <= MAX_PART && id < |s.parts| && n !in s.parts[id]
    ensures Registers(s, By(t, DoRegisterPart(s.locals[t].row.expiresAt - 1, n, Part("", 0))), id)
  {
  }

  /** So a manifest that was accepted past UPLOADING, when nobody takes the session for UPLOADING any more, is
      accepted by every later retry, as CrashRecovery asks. */
  lemma ManifestStaysAccepted(c: Config, s: State, steps: seq<Step>, id: nat, manifest: Manifest)
    requires Inv(c, s) && id < |s.uploads| && id < |s.parts| && PastUploading(s.uploads[id]) && !HasStaleView(s, id)
    requires ManifestAccepted(s.parts[id], s.uploads[id].size, manifest)
    ensures var s' := Run(c, s, steps);
            && id < |s'.uploads| && id < |s'.parts| && ManifestAccepted(s'.parts[id], s'.uploads[id].size, manifest)
  {
    hide ManifestAccepted, PastUploading, HasStaleView;
    UnseenKeepsParts(c, s, steps, id);
    RunIsLater(c, s, steps);
    hide Inv, Run;
    assert Evolves(s.uploads[id], Run(c, s, steps).uploads[id]);
  }
}
