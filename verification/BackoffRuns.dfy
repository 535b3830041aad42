/** Attempts and backoff in the concurrent machine: sweepers that overlap, die midway or work from stale
    lists, beside any handlers.
  */
module BackoffRuns {
  import opened ArtifactDomain
  import opened ObjectStore
  import opened UploadProtocol
  import opened UploadInvariant
  import opened UploadSteps
  import opened ArtifactSteps
  import opened Maintenance
  import opened MaintenanceTheorems
  import opened MaintenanceRuns

  /** What a step commits about the cleanup of a session: that a try failed, or that it succeeded. */
  datatype Outcome = Untouched | FailedAt(now: Time) | Succeeded

  /** t is about to commit the outcome of its first task, and the row allows it. */
  predicate Concludes(s: State, t: Txn, id: nat) {
    && t in s.locals && s.locals[t].Sweeping? && s.locals[t].phase.Loaded? && s.locals[t].tasks != [] && s.locals[t].tasks[0].id == id
    && id < |s.uploads| && UploadFree(s, t, id) && s.uploads[id].version == s.locals[t].phase.row.version
  }

  function OutcomeOf(s: State, step: Step, id: nat): Outcome {
    if !(step.Sweeper? && step.chore.DoFinishSelected? && Concludes(s, step.t, id)) then Untouched
    else
      var l := s.locals[step.t];
      if !l.phase.acknowledged then FailedAt(l.now)
      else if l.phase.row.remote == Some(l.tasks[0].remote) then Succeeded
      else Untouched
  }

  function Follow(c: Cleanup, o: Outcome): Cleanup {
    match o
    case Untouched => c
    case FailedAt(now) => NextRetry(c, now)
    case Succeeded => NO_CLEANUP
  }

  // ----- Every step of everyone

  lemma OtherChoresKeepUploads(c: Config, s: State, t: Txn, chore: Chore)
    requires !chore.DoCommitExpired? && !chore.DoFinishSelected?
    ensures Sweep(c, s, t, chore).uploads == s.uploads
  {
    hide NeedsSweep, UploadFree, TasksOf, Picks, AbortMultipart, DeleteObject, Head, RetryDue, RetryUploadRow, RetryArtifactRow;
  }

  lemma ExpiryKeepsCleanup(c: Config, s: State, t: Txn, tasks: seq<Task>, id: nat)
    requires t in s.locals ==> LocalOk(c, s, s.locals[t])
    requires id < |s.uploads|
    ensures CommitExpired(s, t, tasks).uploads[id].cleanup == s.uploads[id].cleanup
  {
    hide TasksOf, UploadFree, IsActive;
    if t in s.locals && s.locals[t].Selected? && ExpiresIn(s.locals[t].rows, id) {
      assert Remembers(s, id, s.locals[t].rows[id]);
    }
  }

  lemma ConclusionFollows(c: Config, s: State, t: Txn, id: nat)
    requires t in s.locals ==> LocalOk(c, s, s.locals[t])
    requires id < |s.uploads|
    ensures FinishSelected(s, t).uploads[id].cleanup == Follow(s.uploads[id].cleanup, OutcomeOf(s, Sweeper(t, DoFinishSelected), id))
  {
    hide UploadFree, NextRetry, TaskOk;
    if t in s.locals && s.locals[t].Sweeping? && s.locals[t].phase.Loaded? && s.locals[t].tasks != [] {
      var l := s.locals[t];
      assert Remembers(s, l.tasks[0].id, l.phase.row);
    }
  }

  lemma ChoreFollows(c: Config, s: State, t: Txn, chore: Chore, id: nat)
    requires t in s.locals ==> LocalOk(c, s, s.locals[t])
    requires id < |s.uploads|
    ensures id < |Sweep(c, s, t, chore).uploads|
    ensures Sweep(c, s, t, chore).uploads[id].cleanup == Follow(s.uploads[id].cleanup, OutcomeOf(s, Sweeper(t, chore), id))
  {
    hide LocalOk, Concludes, CommitExpired, FinishSelected;
    match chore
    case DoCommitExpired(tasks) => ExpiryKeepsCleanup(c, s, t, tasks, id); SameLengthExpired(s, t, tasks);
    case DoFinishSelected => ConclusionFollows(c, s, t, id); SameLengthFinished(s, t);
    case _ => OtherChoresKeepUploads(c, s, t, chore); hide Sweep;
  }

  lemma SameLengthExpired(s: State, t: Txn, tasks: seq<Task>)
    ensures |CommitExpired(s, t, tasks).uploads| == |s.uploads|
  {
    hide TasksOf, UploadFree;
  }

  lemma SameLengthFinished(s: State, t: Txn)
    ensures |FinishSelected(s, t).uploads| == |s.uploads|
  {
    hide UploadFree;
  }

  /** The cleanup of a row changes only by the outcome of a try, as the outcome says. */
  lemma CleanupFollows(c: Config, s: State, step: Step, id: nat)
    requires Inv(c, s) && id < |s.uploads|
    ensures id < |Apply(c, s, step).uploads|
    ensures Apply(c, s, step).uploads[id].cleanup == Follow(s.uploads[id].cleanup, OutcomeOf(s, step, id))
  {
    if step.Sweeper? {
      if step.t in s.locals {
        OwnLocal(c, s, step.t);
      }
      hide Inv, Sweep, LocalOk, OutcomeOf, TakesFreeLocks;
      ChoreFollows(c, s, step.t, step.chore, id);
    } else {
      StepKeepsBookkeeping(c, s, step);
      hide Inv, Act, PutPart, PutForeign, Concludes;
    }
  }

  // ----- Over runs

  /** How often the row failed since it last succeeded. */
  function Failures(c: Config, s: State, steps: seq<Step>, id: nat): nat {
    if steps == [] then 0
    else
      var before, last := steps[..|steps| - 1], steps[|steps| - 1];
      match OutcomeOf(Run(c, s, before), last, id)
      case Untouched => Failures(c, s, before, id)
      case FailedAt(_) => Failures(c, s, before, id) + 1
      case Succeeded => 0
  }

  /** No step of the run commits an outcome for the row. */
  predicate NoOutcome(c: Config, s: State, steps: seq<Step>, id: nat) {
    steps == [] || (NoOutcome(c, s, steps[..|steps| - 1], id) && OutcomeOf(Run(c, s, steps[..|steps| - 1]), steps[|steps| - 1], id).Untouched?)
  }

  /** In every run the attempts a row records are its failures since it last succeeded. */
  lemma {:induction false} AttemptsAreFailures(c: Config, s: State, steps: seq<Step>, id: nat)
    requires Inv(c, s) && id < |s.uploads| && s.uploads[id].cleanup == NO_CLEANUP
    ensures id < |Run(c, s, steps).uploads| && Run(c, s, steps).uploads[id].cleanup.attempts == Failures(c, s, steps, id)
  {
    hide Inv, Apply, OutcomeOf, Backoff;
    if steps != [] {
      AttemptsAreFailures(c, s, steps[..|steps| - 1], id);
      RunKeepsInv(c, s, steps[..|steps| - 1]);
      CleanupFollows(c, Run(c, s, steps[..|steps| - 1]), steps[|steps| - 1], id);
    }
  }

  lemma {:induction false} NoOutcomeKeepsCleanup(c: Config, s: State, steps: seq<Step>, id: nat)
    requires Inv(c, s) && id < |s.uploads| && NoOutcome(c, s, steps, id)
    ensures id < |Run(c, s, steps).uploads| && Run(c, s, steps).uploads[id].cleanup == s.uploads[id].cleanup
  {
    hide Inv, Apply, OutcomeOf;
    if steps != [] {
      NoOutcomeKeepsCleanup(c, s, steps[..|steps| - 1], id);
      RunKeepsInv(c, s, steps[..|steps| - 1]);
      CleanupFollows(c, Run(c, s, steps[..|steps| - 1]), steps[|steps| - 1], id);
    }
  }

  /** A sweeper takes the row up: it is in the batch that it selects. */
  predicate Selects(c: Config, s: State, u: Txn, now: Time, picked: set<nat>, id: nat) {
    id in picked && SelectUploads(c, s, u, now, picked) != s
  }

  lemma SelectedIsDue(c: Config, s: State, u: Txn, now: Time, picked: set<nat>, id: nat)
    requires Selects(c, s, u, now, picked, id)
    ensures id < |s.uploads| && RetryDue(s.uploads[id].cleanup, now)
  {
    hide RetryDue;
  }

  /** In every run: once a failure is committed for a row, its k-th in a row, by a sweeper whose clock was now, any
      sweeper that takes the row up before another outcome is committed has a clock of at least now plus the
      backoff of k; whatever other handlers and sweepers do, and wherever they die. */
  lemma NextTryWaits(c: Config, s: State, steps: seq<Step>, failing: Step, between: seq<Step>, u: Txn, now: Time, picked: set<nat>, id: nat)
    requires Inv(c, s) && id < |s.uploads| && s.uploads[id].cleanup == NO_CLEANUP
    requires OutcomeOf(Run(c, s, steps), failing, id).FailedAt?
    requires var failed := Apply(c, Run(c, s, steps), failing);
             NoOutcome(c, failed, between, id) && Selects(c, Run(c, failed, between), u, now, picked, id)
    ensures now >= OutcomeOf(Run(c, s, steps), failing, id).now + Backoff(Failures(c, s, steps, id) + 1)
  {
    hide *;
    var before := Run(c, s, steps);
    var failed := Apply(c, before, failing);
    var at := OutcomeOf(before, failing, id).now;
    AttemptsAreFailures(c, s, steps, id);
    RunKeepsInv(c, s, steps);
    CleanupFollows(c, before, failing, id);
    StepKeepsInv(c, before, failing);
    NoOutcomeKeepsCleanup(c, failed, between, id);
    SelectedIsDue(c, Run(c, failed, between), u, now, picked, id);
    FailureIsNextRetry(before.uploads[id].cleanup, OutcomeOf(before, failing, id));
    WaitIsOver(before.uploads[id].cleanup, at, now);
  }

  lemma FailureIsNextRetry(c: Cleanup, o: Outcome)
    requires o.FailedAt?
    ensures Follow(c, o) == NextRetry(c, o.now)
  {
  }
}
