/** Idempotent commands (common/reliability.py): a command claims its key by inserting a record
    in its own transaction, and the record, the response and the business effect commit together.
  */
module Idempotency {
  import opened ArtifactDomain

  type Txn = nat
  type Body = string

  /** (actor, route, idempotency key), the primary key of a record. */
  datatype CommandKey = CommandKey(actor: nat, route: string, key: string)

  datatype Response = Response(status: int, body: Body)

  /** A committed record; it is PROCESSING until a response is stored. */
  datatype Record = Record(hash: Digest, completed: bool, response: Option<Response>)

  /** The uncommitted record of a running transaction. */
  datatype Claim = Claim(key: CommandKey, hash: Digest, response: Option<Response>)

  datatype Answer = Answer(key: CommandKey, hash: Digest, response: Response, replayed: bool)

  datatype State = State(
    records: map<CommandKey, Record>,
    claims: map<Txn, Claim>,
    effects: seq<Claim>,      // business effects, in commit order
    answers: seq<Answer>)     // what callers were told

  const EMPTY := State(map[], map[], [], [])

  datatype Error = KeyRequired | InvalidKey | KeyConflict | InProgress

  datatype Decision = Waits | Executes | Replays(response: Response) | Rejected(error: Error)

  predicate ClaimedByOther(s: State, t: Txn, k: CommandKey) { exists u | u in s.claims :: u != t && s.claims[u].key == k }

  /** begin_idempotent_command: INSERT ... ON CONFLICT DO NOTHING, which waits while another open
      transaction holds the key, then a look at the record that is there. */
  function Decide(s: State, t: Txn, actor: nat, route: string, key: Option<string>, hash: Digest): Decision {
    if key.None? then Rejected(KeyRequired)
    else if !(16 <= |key.value| <= 128) then Rejected(InvalidKey)
    else
      var k := CommandKey(actor, route, key.value);
      if ClaimedByOther(s, t, k) then Waits
      else if k !in s.records then Executes
      else
        var r := s.records[k];
        if r.hash != hash then Rejected(KeyConflict)
        else if !r.completed || r.response.None? then Rejected(InProgress)
        else Replays(r.response.value)
  }

  /** A command needs a key of 16 to 128 characters; without one nothing is looked up, claimed or replayed. */
  lemma KeyIsNeeded(s: State, t: Txn, actor: nat, route: string, key: Option<string>, hash: Digest)
    ensures key == None ==> Decide(s, t, actor, route, key, hash) == Rejected(KeyRequired)
    ensures key.Some? && (|key.value| < 16 || |key.value| > 128) ==> Decide(s, t, actor, route, key, hash) == Rejected(InvalidKey)
    ensures key == None || |key.value| < 16 || |key.value| > 128 ==> Begin(s, t, actor, route, key, hash) == s
  {
  }

  /** With such a key: it waits for another transaction that has claimed the key; a key without a record is claimed; a
      record answers the same request with its response and turns another request down. */
  lemma KeyDecides(s: State, t: Txn, actor: nat, route: string, key: string, hash: Digest)
    requires 16 <= |key| <= 128
    ensures var k, d := CommandKey(actor, route, key), Decide(s, t, actor, route, Some(key), hash);
            && (d.Waits? <==> exists u | u in s.claims && u != t :: s.claims[u].key == k)
            && (d.Executes? <==> k !in s.records && forall u | u in s.claims && u != t :: s.claims[u].key != k)
            && (!d.Waits? && k in s.records ==>
                  var r := s.records[k];
                  d == if r.hash != hash then Rejected(KeyConflict)
                       else if r.completed && r.response.Some? then Replays(r.response.value) else Rejected(InProgress))
  {
  }

  function Begin(s: State, t: Txn, actor: nat, route: string, key: Option<string>, hash: Digest): State {
    if t in s.claims then s
    else
      match Decide(s, t, actor, route, key, hash)
      case Executes => s.(claims := s.claims[t := Claim(CommandKey(actor, route, key.value), hash, None)])
      case Replays(response) => s.(answers := s.answers + [Answer(CommandKey(actor, route, key.value), hash, response, true)])
      case _ => s
  }

  /** complete_idempotent_command, after the business changes were made in the same session. */
  function Complete(s: State, t: Txn, response: Response): State {
    if t in s.claims && s.claims[t].response.None? then s.(claims := s.claims[t := s.claims[t].(response := Some(response))]) else s
  }

  /** The answer follows the commit.  A handler that commits without having completed the command leaves its
      record PROCESSING. */
  function Commit(s: State, t: Txn): State {
    if t !in s.claims then s
    else
      var c := s.claims[t];
      State(s.records[c.key := RecordOf(c)], s.claims - {t}, s.effects + [c],
            s.answers + if c.response.Some? then [Answer(c.key, c.hash, c.response.value, false)] else [])
  }

  function RecordOf(c: Claim): Record { Record(c.hash, c.response.Some?, c.response) }

  /** A raised error, a lost connection or a failed commit. */
  function Rollback(s: State, t: Txn): State { s.(claims := s.claims - {t}) }

  /** The server dies after the commit and before the answer is sent: the effect stands. */
  function CommitUnanswered(s: State, t: Txn): State { Commit(s, t).(answers := s.answers) }

  datatype Step =
    | DoBegin(t: Txn, actor: nat, route: string, key: Option<string>, hash: Digest)
    | DoComplete(t: Txn, response: Response)
    | DoCommit(t: Txn)
    | DoCommitUnanswered(t: Txn)
    | DoRollback(t: Txn)

  function Apply(s: State, step: Step): State {
    match step
    case DoBegin(t, actor, route, key, hash) => Begin(s, t, actor, route, key, hash)
    case DoComplete(t, response) => Complete(s, t, response)
    case DoCommit(t) => Commit(s, t)
    case DoCommitUnanswered(t) => CommitUnanswered(s, t)
    case DoRollback(t) => Rollback(s, t)
  }

  function Run(s: State, steps: seq<Step>): State {
    if steps == [] then s else Apply(Run(s, steps[..|steps| - 1]), steps[|steps| - 1])
  }

  // ----- Invariant

  predicate EffectMatches(records: map<CommandKey, Record>, e: Claim) {
    e.key in records && records[e.key] == RecordOf(e)
  }

  predicate AnswerMatches(records: map<CommandKey, Record>, a: Answer) {
    a.key in records && records[a.key] == Record(a.hash, true, Some(a.response))
  }

  predicate RecordsOk(records: map<CommandKey, Record>) {
    forall k | k in records :: records[k].completed <==> records[k].response.Some?
  }

  /** Records and effects match one to one. */
  predicate EffectsOk(records: map<CommandKey, Record>, effects: seq<Claim>) {
    && (forall i | 0 <= i < |effects| :: EffectMatches(records, effects[i]))
    && (forall i, j | 0 <= i < j < |effects| :: effects[i].key != effects[j].key)
    && (forall k | k in records :: exists i | 0 <= i < |effects| :: effects[i].key == k)
  }

  /** An open claim is the only one for its key, and its key has no record yet. */
  predicate ClaimsOk(records: map<CommandKey, Record>, claims: map<Txn, Claim>) {
    && (forall t | t in claims :: claims[t].key !in records)
    && (forall t, u | t in claims && u in claims && claims[t].key == claims[u].key :: t == u)
  }

  predicate AnswersOk(records: map<CommandKey, Record>, answers: seq<Answer>) {
    && (forall i | 0 <= i < |answers| :: AnswerMatches(records, answers[i]))
    && (forall i, j | 0 <= i < j < |answers| && answers[i].key == answers[j].key :: answers[j].replayed)
  }

  predicate Inv(s: State) {
    RecordsOk(s.records) && EffectsOk(s.records, s.effects) && ClaimsOk(s.records, s.claims) && AnswersOk(s.records, s.answers)
  }

  lemma NewEffect(records: map<CommandKey, Record>, effects: seq<Claim>, c: Claim)
    requires EffectsOk(records, effects) && c.key !in records
    ensures EffectsOk(records[c.key := RecordOf(c)], effects + [c])
  {
    hide RecordOf;
    var after, more := records[c.key := RecordOf(c)], effects + [c];
    forall k | k in after ensures exists i | 0 <= i < |more| :: more[i].key == k {
      if k == c.key {
        assert more[|effects|].key == k;
      } else {
        var i :| 0 <= i < |effects| && effects[i].key == k;
        assert more[i].key == k;
      }
    }
  }

  lemma NewAnswer(records: map<CommandKey, Record>, answers: seq<Answer>, k: CommandKey, r: Record)
    requires AnswersOk(records, answers) && k !in records && (r.completed <==> r.response.Some?)
    ensures AnswersOk(records[k := r], answers)
    ensures r.response.Some? ==> AnswersOk(records[k := r], answers + [Answer(k, r.hash, r.response.value, false)])
  {
    assert forall i | 0 <= i < |answers| :: AnswerMatches(records, answers[i]);
  }

  lemma CommitKeepsInv(s: State, t: Txn)
    requires Inv(s)
    ensures Inv(Commit(s, t)) && Inv(CommitUnanswered(s, t))
  {
    if t in s.claims {
      var c, s' := s.claims[t], Commit(s, t);
      assert c.key !in s.records;
      assert RecordsOk(s'.records) && ClaimsOk(s'.records, s'.claims) by { hide EffectsOk, AnswersOk; }
      hide RecordsOk, ClaimsOk, EffectsOk, AnswersOk;
      NewEffect(s.records, s.effects, c);
      NewAnswer(s.records, s.answers, c.key, RecordOf(c));
      assert s.answers + [] == s.answers;
    }
  }

  lemma BeginKeepsInv(s: State, t: Txn, actor: nat, route: string, key: Option<string>, hash: Digest)
    requires Inv(s)
    ensures Inv(Begin(s, t, actor, route, key, hash))
  {
    hide EffectsOk;
    var d := Decide(s, t, actor, route, key, hash);
    if d.Executes? {
      hide AnswersOk, RecordsOk;
    } else {
      hide ClaimsOk;
    }
  }

  lemma StepKeepsInv(s: State, step: Step)
    requires Inv(s)
    ensures Inv(Apply(s, step))
  {
    match step
    case DoBegin(t, actor, route, key, hash) => hide Inv; BeginKeepsInv(s, t, actor, route, key, hash);
    case DoComplete(t, response) => hide RecordsOk, EffectsOk, AnswersOk;
    case DoCommit(t) => hide Inv; CommitKeepsInv(s, t);
    case DoCommitUnanswered(t) => hide Inv; CommitKeepsInv(s, t);
    case DoRollback(t) => hide RecordsOk, EffectsOk, AnswersOk;
  }

  lemma {:induction false} RunKeepsInv(s: State, steps: seq<Step>)
    requires Inv(s)
    ensures Inv(Run(s, steps))
  {
    hide Inv, Apply;
    if steps != [] {
      RunKeepsInv(s, steps[..|steps| - 1]);
      StepKeepsInv(Run(s, steps[..|steps| - 1]), steps[|steps| - 1]);
    }
  }

  lemma StepKeepsRecord(s: State, step: Step, k: CommandKey)
    requires ClaimsOk(s.records, s.claims) && k in s.records
    ensures k in Apply(s, step).records && Apply(s, step).records[k] == s.records[k]
  {
  }

  lemma {:induction false} RecordsStay(s: State, steps: seq<Step>, k: CommandKey)
    requires Inv(s) && k in s.records
    ensures k in Run(s, steps).records && Run(s, steps).records[k] == s.records[k]
  {
    hide Apply, RecordsOk, EffectsOk, ClaimsOk, AnswersOk;
    if steps != [] {
      RecordsStay(s, steps[..|steps| - 1], k);
      RunKeepsInv(s, steps[..|steps| - 1]);
      StepKeepsRecord(Run(s, steps[..|steps| - 1]), steps[|steps| - 1], k);
    }
  }

  // ----- Theorems over every run

  function EffectsOf(s: State, k: CommandKey): set<nat> { set i | 0 <= i < |s.effects| && s.effects[i].key == k }

  /** For each key at most one business effect is ever committed, exactly one if there is a record. */
  lemma AtMostOneEffect(steps: seq<Step>, k: CommandKey)
    ensures var s := Run(EMPTY, steps);
            && |EffectsOf(s, k)| == (if k in s.records then 1 else 0)
            && (forall i | i in EffectsOf(s, k) :: k in s.records && s.records[k] == RecordOf(s.effects[i]))
  {
    hide Run;
    var s := Run(EMPTY, steps);
    RunKeepsInv(EMPTY, steps);
    hide ClaimsOk, AnswersOk, RecordOf;
    if k in s.records {
      var i :| 0 <= i < |s.effects| && s.effects[i].key == k;
      assert EffectMatches(s.records, s.effects[i]);
      assert EffectsOf(s, k) == {i};
    } else {
      assert forall i | 0 <= i < |s.effects| :: EffectMatches(s.records, s.effects[i]);
      assert EffectsOf(s, k) == {};
    }
  }

  /** The step does not commit a command that was not completed. */
  predicate CompletesFirst(s: State, step: Step) {
    (step.DoCommit? || step.DoCommitUnanswered?) && step.t in s.claims ==> s.claims[step.t].response.Some?
  }

  predicate AllCompleteFirst(steps: seq<Step>) {
    steps == [] || (AllCompleteFirst(steps[..|steps| - 1]) && CompletesFirst(Run(EMPTY, steps[..|steps| - 1]), steps[|steps| - 1]))
  }

  predicate NoneProcessing(records: map<CommandKey, Record>) { forall k | k in records :: records[k].completed }

  lemma StepLeavesProcessing(s: State, step: Step)
    requires Inv(s)
    ensures NoneProcessing(Apply(s, step).records) <==> NoneProcessing(s.records) && CompletesFirst(s, step)
  {
    hide RecordsOk, EffectsOk, AnswersOk;
    if (step.DoCommit? || step.DoCommitUnanswered?) && step.t in s.claims {
      var c, after := s.claims[step.t], Apply(s, step).records;
      assert c.key !in s.records && after == s.records[c.key := RecordOf(c)];
      assert forall k | k in s.records :: after[k] == s.records[k];
      assert after[c.key].completed == c.response.Some?;
    }
  }

  /** No committed record is left PROCESSING if and only if every transaction of the run completed its command
      before it committed. */
  lemma {:induction false} NoneLeftProcessing(steps: seq<Step>)
    ensures NoneProcessing(Run(EMPTY, steps).records) <==> AllCompleteFirst(steps)
  {
    hide Apply, Inv, CompletesFirst;
    if steps == [] {
      assert Run(EMPTY, steps).records == map[];
    } else {
      hide NoneProcessing;
      NoneLeftProcessing(steps[..|steps| - 1]);
      EmptyInv();
      RunKeepsInv(EMPTY, steps[..|steps| - 1]);
      StepLeavesProcessing(Run(EMPTY, steps[..|steps| - 1]), steps[|steps| - 1]);
    }
  }

  lemma EmptyInv()
    ensures Inv(EMPTY)
  {
  }

  /** Callers of one key all get the same status and body, for the same request, and at most one of them is
      not marked as a replay. */
  lemma SameAnswers(steps: seq<Step>, i: nat, j: nat)
    requires i < j < |Run(EMPTY, steps).answers| && Run(EMPTY, steps).answers[i].key == Run(EMPTY, steps).answers[j].key
    ensures var s := Run(EMPTY, steps);
            s.answers[i].response == s.answers[j].response && s.answers[i].hash == s.answers[j].hash && s.answers[j].replayed
  {
    hide Run;
    RunKeepsInv(EMPTY, steps);
    var s := Run(EMPTY, steps);
    assert AnswerMatches(s.records, s.answers[i]) && AnswerMatches(s.records, s.answers[j]);
  }

  /** Once a command committed, every later begin with the same request replays its response (or is told that it is
      in progress, if it was committed without one) and every one with another request is turned down; none executes
      anything. */
  lemma CommittedIsFinal(steps: seq<Step>, more: seq<Step>, t: Txn, actor: nat, route: string, key: string, hash: Digest)
    requires 16 <= |key| <= 128 && CommandKey(actor, route, key) in Run(EMPTY, steps).records
    ensures var k, s := CommandKey(actor, route, key), Run(Run(EMPTY, steps), more);
            && k in s.records && s.records[k] == Run(EMPTY, steps).records[k]
            && Decide(s, t, actor, route, Some(key), hash)
                 == (if hash != s.records[k].hash then Rejected(KeyConflict)
                     else if s.records[k].completed && s.records[k].response.Some? then Replays(s.records[k].response.value)
                     else Rejected(InProgress))
            && Begin(s, t, actor, route, Some(key), hash).effects == s.effects
            && Begin(s, t, actor, route, Some(key), hash).claims == s.claims
  {
    hide Run;
    var s0 := Run(EMPTY, steps);
    RunKeepsInv(EMPTY, steps);
    RunKeepsInv(s0, more);
    RecordsStay(s0, more, CommandKey(actor, route, key));
  }

  /** The server dies between the commit and the answer: the effect stands, nobody was told, and whenever the same
      request comes again, whatever happened meanwhile, it is answered with the response that was lost. */
  lemma LostAnswerIsReplayed(steps: seq<Step>, t: Txn, more: seq<Step>, u: Txn)
    requires t in Run(EMPTY, steps).claims && Run(EMPTY, steps).claims[t].response.Some? && 16 <= |Run(EMPTY, steps).claims[t].key.key| <= 128
    ensures var s := Run(EMPTY, steps);
            var c, s' := s.claims[t], CommitUnanswered(s, t);
            && s'.answers == s.answers && s'.effects == s.effects + [c]
            && Decide(Run(s', more), u, c.key.actor, c.key.route, Some(c.key.key), c.hash) == Replays(c.response.value)
  {
    hide Run;
    var s := Run(EMPTY, steps);
    EmptyInv();
    RunKeepsInv(EMPTY, steps);
    var c, s' := s.claims[t], CommitUnanswered(s, t);
    assert s'.records[c.key] == RecordOf(c);
    CommitKeepsInv(s, t);
    RunKeepsInv(s', more);
    RecordsStay(s', more, c.key);
    hide RecordsOk, EffectsOk, AnswersOk;
  }

  // ----- The store as the handlers use it

  class CommandStore {
    var records: map<CommandKey, Record>
    var claims: map<Txn, Claim>
    var effects: seq<Claim>
    var answers: seq<Answer>

    ghost function View(): State
      reads this
    {
      State(records, claims, effects, answers)
    }

    constructor ()
      ensures View() == EMPTY
    {
      records, claims, effects, answers := map[], map[], [], [];
    }

    method BeginCommand(t: Txn, actor: nat, route: string, key: Option<string>, hash: Digest) returns (d: Decision)
      requires t !in claims
      modifies this
      ensures d == Decide(old(View()), t, actor, route, key, hash)
      ensures View() == Begin(old(View()), t, actor, route, key, hash)
    {
      if key.None? {
        return Rejected(KeyRequired);
      }
      if !(16 <= |key.value| <= 128) {
        return Rejected(InvalidKey);
      }
      var k := CommandKey(actor, route, key.value);
      if exists u | u in claims :: u != t && claims[u].key == k {
        return Waits;
      }
      if k !in records {
        claims := claims[t := Claim(k, hash, None)];
        return Executes;
      }
      var existing := records[k];
      if existing.hash != hash {
        return Rejected(KeyConflict);
      }
      if !existing.completed || existing.response.None? {
        return Rejected(InProgress);
      }
      answers := answers + [Answer(k, hash, existing.response.value, true)];
      return Replays(existing.response.value);
    }

    method CompleteCommand(t: Txn, response: Response)
      requires t in claims && claims[t].response.None?
      modifies this
      ensures View() == Complete(old(View()), t, response)
    {
      claims := claims[t := claims[t].(response := Some(response))];
    }

    method CommitCommand(t: Txn)
      requires t in claims
      modifies this
      ensures View() == Commit(old(View()), t)
    {
      var claim := claims[t];
      records := records[claim.key := Record(claim.hash, claim.response.Some?, claim.response)];
      effects := effects + [claim];
      if claim.response.Some? {
        answers := answers + [Answer(claim.key, claim.hash, claim.response.value, false)];
      }
      claims := claims - {t};
    }

    method RollbackCommand(t: Txn)
      modifies this
      ensures View() == Rollback(old(View()), t)
    {
      claims := claims - {t};
    }
  }
}
