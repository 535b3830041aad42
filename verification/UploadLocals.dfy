/** Which steps bring a transaction to an unlocked view of a session or past the checkpoint: only a read,
    and the steps of a completion.
  */
module UploadLocals {
  import opened ArtifactDomain
  import opened ObjectStore
  import opened Completion
  import opened UploadProtocol

  /** The transaction committed the checkpoint of session id, or was past it already. */
  predicate PastTheCheckpoint(l: Local, id: nat) { IsCompleter(l) && l.id == id }

  predicate IsCompleter(l: Local) { l.Checkpointed? || l.Relocked? || l.RemoteFailed? || l.RemoteDone? || l.ObjectVerified? }

  predicate Tracked(l: Local) { l.Viewed? || IsCompleter(l) }

  predicate CompletionStep(a: Action) {
    a.DoCheckManifest? || a.DoRelock? || a.DoCompleteRemote? || a.DoHeadAfterFailure? || a.DoVerifyStored?
  }

  /** t stands nowhere new that is tracked. */
  predicate NothingEntered(s: State, s': State, t: Txn) {
    t in s'.locals && Tracked(s'.locals[t]) ==> t in s.locals && s.locals[t] == s'.locals[t]
  }

  predicate Creates(a: Action) {
    a.DoLockForCreate? || a.DoReadQuota? || a.DoInsertUpload? || a.DoExpireViewed? || a.DoRegisterPart?
  }

  lemma CreatorsEnterNothing(c: Config, s: State, t: Txn, a: Action)
    requires Creates(a)
    ensures NothingEntered(s, Act(c, s, t, a), t)
  {
    hide UploadFree, OrgFree, IsPastDue, ActiveCount, ActiveBytes, ExpiredRow, NewUpload;
    match a
    case DoRegisterPart(now, number, part) =>
    case DoExpireViewed(now) =>
    case _ =>
  }

  predicate CancelsOrSigns(a: Action) {
    a.DoAbortRemote? || a.DoCommitCancel? || a.DoLockForSign? || a.DoStartRemote? || a.DoCommitStarted?
  }

  lemma SignersEnterNothing(c: Config, s: State, t: Txn, a: Action)
    requires CancelsOrSigns(a)
    ensures NothingEntered(s, Act(c, s, t, a), t)
  {
    hide UploadFree, IsPastDue, AbortMultipart, StartMultipart, ExpiredRow, AbortedRow, StartedRow, IsCancellable, SigningAnswer;
    match a
    case DoAbortRemote(now, fault) =>
    case DoStartRemote(now, remote, fault, signs) =>
    case _ =>
  }

  lemma OthersEnterNothing(c: Config, s: State, t: Txn, a: Action)
    requires !CompletionStep(a) && !a.DoReadUpload? && !Creates(a) && !CancelsOrSigns(a)
    ensures NothingEntered(s, Act(c, s, t, a), t)
  {
    hide NewArtifact, UploadFree;
  }

  /** Handler steps other than a read and the steps of a completion. */
  lemma ActEntersNothing(c: Config, s: State, t: Txn, a: Action)
    requires !CompletionStep(a) && !a.DoReadUpload?
    ensures NothingEntered(s, Act(c, s, t, a), t)
  {
    hide Act, NothingEntered;
    if Creates(a) {
      CreatorsEnterNothing(c, s, t, a);
    } else if CancelsOrSigns(a) {
      SignersEnterNothing(c, s, t, a);
    } else {
      OthersEnterNothing(c, s, t, a);
    }
  }

  predicate OnSessions(chore: Chore) {
    chore.DoSelectUploads? || chore.DoCommitExpired? || chore.DoAbortSelected? || chore.DoReadSelected? || chore.DoFinishSelected?
  }

  lemma SessionSweepersEnterNothing(c: Config, s: State, t: Txn, chore: Chore)
    requires OnSessions(chore)
    ensures NothingEntered(s, Sweep(c, s, t, chore), t)
  {
    hide NeedsSweep, UploadFree, ExpireBatch, TasksOf, AbortMultipart, RetryUploadRow;
  }

  predicate OnDeletions(chore: Chore) {
    chore.DoSelectDeleting? || chore.DoDeleteTarget? || chore.DoReadTarget? || chore.DoFinishDeleted?
  }

  lemma DeletersEnterNothing(c: Config, s: State, t: Txn, chore: Chore)
    requires OnDeletions(chore)
    ensures NothingEntered(s, Sweep(c, s, t, chore), t)
  {
    hide Picks, DeleteObject, RetryDue, RetryArtifactRow;
  }

  lemma CheckersEnterNothing(c: Config, s: State, t: Txn, chore: Chore)
    requires !OnSessions(chore) && !OnDeletions(chore)
    ensures NothingEntered(s, Sweep(c, s, t, chore), t)
  {
    hide Picks, DeleteObject, Head;
  }

  lemma SweepEntersNothing(c: Config, s: State, t: Txn, chore: Chore)
    ensures NothingEntered(s, Sweep(c, s, t, chore), t)
  {
    hide Sweep, NothingEntered;
    if OnSessions(chore) {
      SessionSweepersEnterNothing(c, s, t, chore);
    } else if OnDeletions(chore) {
      DeletersEnterNothing(c, s, t, chore);
    } else {
      CheckersEnterNothing(c, s, t, chore);
    }
  }

  /** A read views the row as it is. */
  lemma ReadViewsRow(c: Config, s: State, t: Txn, id: nat)
    ensures var s' := Act(c, s, t, DoReadUpload(id));
            s' == s || (t !in s.locals && id < |s.uploads| && s' == Go(s, t, Viewed(id, s.uploads[id])))
  {
  }
}
