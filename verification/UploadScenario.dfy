/** One run from the empty database that shows what the code does not promise: the registered parts grow
    after the COMPLETING checkpoint, and an EXPIRED session becomes COMPLETED.
  */
module UploadScenario {
  import opened ArtifactDomain
  import opened ObjectStore
  import opened Completion
  import opened UploadProtocol
  import opened UploadInvariant
  import opened ArtifactSteps
  import opened UploadRuns
  import opened UploadTheorems
  import UploadClient

  const ROW: Upload := NewUpload(0, "k", 1, "", 10)
  const STARTED: Upload := StartedRow(ROW, "r")
  const CHECKED: Upload := CheckpointRow(STARTED)
  const EXPIRED: Upload := ExpiredRow(CHECKED)

  const NONE: map<nat, Part> := map[]
  const FIRST: map<nat, Part> := NONE[1 := Part("e", 1)]
  const BOTH: map<nat, Part> := FIRST[2 := Part("f", 1)]
  const MANIFEST: Manifest := [(1, "e")]

  const STARTED_REMOTE: map<RemoteId, Multipart> := map[]["r" := Multipart("k", map[])]
  const FULL_REMOTE: map<RemoteId, Multipart> := STARTED_REMOTE["r" := Multipart("k", map[][1 := StoredPart("e", [7])])]

  /** One session, nothing published yet. */
  function Stage(row: Upload, parts: map<nat, Part>, multiparts: map<RemoteId, Multipart>, remotes: set<RemoteId>, locals: map<Txn, Local>): State {
    State([row], [parts], [], [], Store(map[], multiparts), locals, {"k"}, remotes, map[], {})
  }

  // ----- The run: 0 creates, 1 signs, 2 registers, the client sends its part, 3 reads, 4 completes as far as
  // ----- the checkpoint, 3 registers another part, 5 reads after the session's time, 4 goes on

  function Locals1(): map<Txn, Local> { map[0 := CreateLocked(0, 1)] }
  function Locals2(): map<Txn, Local> { Locals1()[0 := CreateReady(0, 1, "", 0, 0)] }
  function Locals3(): map<Txn, Local> { Locals2()[0 := Finished(Done)] }
  function Locals4(): map<Txn, Local> { Locals3()[1 := SignLocked(0, ROW)] }
  function Locals5(): map<Txn, Local> { Locals4()[1 := SignStarted(0, ROW, "r")] }
  function Locals6(): map<Txn, Local> { Locals5()[1 := Finished(Done)] }
  function Locals7(): map<Txn, Local> { Locals6()[2 := Viewed(0, STARTED)] }
  function Locals8(): map<Txn, Local> { Locals7()[2 := Finished(Done)] }
  function Locals10(): map<Txn, Local> { Locals8()[3 := Viewed(0, STARTED)] }
  function Locals11(): map<Txn, Local> { Locals10()[4 := CompleteLocked(0, STARTED)] }
  function Locals12(): map<Txn, Local> { Locals11()[4 := Checkpointed(0, MANIFEST)] }
  function Locals13(): map<Txn, Local> { Locals12()[3 := Finished(Done)] }
  function Locals14(): map<Txn, Local> { Locals13()[5 := Viewed(0, CHECKED)] }
  function Locals15(): map<Txn, Local> { Locals14()[5 := Finished(Done)] }
  function Locals16(): map<Txn, Local> { Locals15()[4 := Relocked(0, EXPIRED, MANIFEST)] }

  function StepAt(n: nat): Step
    requires n < 16
  {
    match n
    case 0 => By(0, DoLockForCreate(0, 1))
    case 1 => By(0, DoReadQuota(""))
    case 2 => By(0, DoInsertUpload("k", 10))
    case 3 => By(1, DoLockForSign(0))
    case 4 => By(1, DoStartRemote(0, "r", NoFault, true))
    case 5 => By(1, DoCommitStarted(true))
    case 6 => By(2, DoReadUpload(0))
    case 7 => By(2, DoRegisterPart(0, 1, Part("e", 1)))
    case 8 => PartArrives("r", 1, StoredPart("e", [7]))
    case 9 => By(3, DoReadUpload(0))
    case 10 => By(4, DoLockForComplete(0))
    case 11 => By(4, DoCheckManifest(0, MANIFEST))
    case 12 => By(3, DoRegisterPart(0, 2, Part("f", 1)))
    case 13 => By(5, DoReadUpload(0))
    case 14 => By(5, DoExpireViewed(10))
    case _ => By(4, DoRelock)
  }

  function StateAt(n: nat): State
    requires n <= 16
  {
    match n
    case 0 => EMPTY
    case 1 => EMPTY.(locals := Locals1())
    case 2 => EMPTY.(locals := Locals2())
    case 3 => Stage(ROW, NONE, map[], {}, Locals3())
    case 4 => Stage(ROW, NONE, map[], {}, Locals4())
    case 5 => Stage(ROW, NONE, STARTED_REMOTE, {"r"}, Locals5())
    case 6 => Stage(STARTED, NONE, STARTED_REMOTE, {"r"}, Locals6())
    case 7 => Stage(STARTED, NONE, STARTED_REMOTE, {"r"}, Locals7())
    case 8 => Stage(STARTED, FIRST, STARTED_REMOTE, {"r"}, Locals8())
    case 9 => Stage(STARTED, FIRST, FULL_REMOTE, {"r"}, Locals8())
    case 10 => Stage(STARTED, FIRST, FULL_REMOTE, {"r"}, Locals10())
    case 11 => Stage(STARTED, FIRST, FULL_REMOTE, {"r"}, Locals11())
    case 12 => Stage(CHECKED, FIRST, FULL_REMOTE, {"r"}, Locals12())
    case 13 => Stage(CHECKED, BOTH, FULL_REMOTE, {"r"}, Locals13())
    case 14 => Stage(CHECKED, BOTH, FULL_REMOTE, {"r"}, Locals14())
    case 15 => Stage(EXPIRED, BOTH, FULL_REMOTE, {"r"}, Locals15())
    case _ => Stage(EXPIRED, BOTH, FULL_REMOTE, {"r"}, Locals16())
  }

  /** Any configuration that lets one session in. */
  predicate Roomy(c: Config) { c.maxFile >= 1 && c.maxActive >= 1 && c.maxReserved >= 1 }

  lemma OneRegistered(parts: map<nat, Part>, number: nat, part: Part)
    requires parts == NONE[number := part] && number <= MAX_PART
    ensures RegisteredFrom(parts, number) == [(number, part)]
  {
    UploadClient.NoneLeft(parts, number + 1);
  }

  lemma FirstIsAccepted()
    ensures ManifestAccepted(FIRST, 1, MANIFEST)
  {
    hide RegisteredFrom;
    var registered := [(1, Part("e", 1))];
    OneRegistered(FIRST, 1, Part("e", 1));
    assert registered[..0] == [];
    assert ManifestOf(registered) == MANIFEST;
    assert TotalSize(registered) == TotalSize(registered[..0]) + 1;
  }

  lemma Step0(c: Config)
    requires Roomy(c)
    ensures Apply(c, EMPTY, By(0, DoLockForCreate(0, 1))) == EMPTY.(locals := Locals1())
  {
  }

  lemma Step1(c: Config)
    requires Roomy(c)
    ensures Apply(c, EMPTY.(locals := Locals1()), By(0, DoReadQuota(""))) == EMPTY.(locals := Locals2())
  {
  }

  lemma Step2(c: Config)
    requires Roomy(c)
    ensures Apply(c, EMPTY.(locals := Locals2()), By(0, DoInsertUpload("k", 10))) == Stage(ROW, NONE, map[], {}, Locals3())
  {
  }

  lemma Step3(c: Config)
    ensures Apply(c, Stage(ROW, NONE, map[], {}, Locals3()), By(1, DoLockForSign(0))) == Stage(ROW, NONE, map[], {}, Locals4())
  {
  }

  lemma Step4(c: Config)
    ensures Apply(c, Stage(ROW, NONE, map[], {}, Locals4()), By(1, DoStartRemote(0, "r", NoFault, true))) == Stage(ROW, NONE, STARTED_REMOTE, {"r"}, Locals5())
  {
  }

  lemma Step5(c: Config)
    ensures Apply(c, Stage(ROW, NONE, STARTED_REMOTE, {"r"}, Locals5()), By(1, DoCommitStarted(true))) == Stage(STARTED, NONE, STARTED_REMOTE, {"r"}, Locals6())
  {
  }

  lemma Step6(c: Config)
    ensures Apply(c, Stage(STARTED, NONE, STARTED_REMOTE, {"r"}, Locals6()), By(2, DoReadUpload(0))) == Stage(STARTED, NONE, STARTED_REMOTE, {"r"}, Locals7())
  {
  }

  lemma Step7(c: Config)
    ensures Apply(c, Stage(STARTED, NONE, STARTED_REMOTE, {"r"}, Locals7()), By(2, DoRegisterPart(0, 1, Part("e", 1)))) == Stage(STARTED, FIRST, STARTED_REMOTE, {"r"}, Locals8())
  {
  }

  lemma Step8(c: Config)
    ensures Apply(c, Stage(STARTED, FIRST, STARTED_REMOTE, {"r"}, Locals8()), PartArrives("r", 1, StoredPart("e", [7]))) == Stage(STARTED, FIRST, FULL_REMOTE, {"r"}, Locals8())
  {
  }

  lemma Step9(c: Config)
    ensures Apply(c, Stage(STARTED, FIRST, FULL_REMOTE, {"r"}, Locals8()), By(3, DoReadUpload(0))) == Stage(STARTED, FIRST, FULL_REMOTE, {"r"}, Locals10())
  {
  }

  lemma Step10(c: Config)
    ensures Apply(c, Stage(STARTED, FIRST, FULL_REMOTE, {"r"}, Locals10()), By(4, DoLockForComplete(0))) == Stage(STARTED, FIRST, FULL_REMOTE, {"r"}, Locals11())
  {
  }

  lemma Step11(c: Config)
    ensures Apply(c, Stage(STARTED, FIRST, FULL_REMOTE, {"r"}, Locals11()), By(4, DoCheckManifest(0, MANIFEST))) == Stage(CHECKED, FIRST, FULL_REMOTE, {"r"}, Locals12())
  {
    FirstIsAccepted();
    hide ManifestAccepted, HasArtifact;
  }

  lemma Step12(c: Config)
    ensures Apply(c, Stage(CHECKED, FIRST, FULL_REMOTE, {"r"}, Locals12()), By(3, DoRegisterPart(0, 2, Part("f", 1)))) == Stage(CHECKED, BOTH, FULL_REMOTE, {"r"}, Locals13())
  {
  }

  lemma Step13(c: Config)
    ensures Apply(c, Stage(CHECKED, BOTH, FULL_REMOTE, {"r"}, Locals13()), By(5, DoReadUpload(0))) == Stage(CHECKED, BOTH, FULL_REMOTE, {"r"}, Locals14())
  {
  }

  lemma Step14(c: Config)
    ensures Apply(c, Stage(CHECKED, BOTH, FULL_REMOTE, {"r"}, Locals14()), By(5, DoExpireViewed(10))) == Stage(EXPIRED, BOTH, FULL_REMOTE, {"r"}, Locals15())
  {
  }

  lemma Step15(c: Config)
    ensures Apply(c, Stage(EXPIRED, BOTH, FULL_REMOTE, {"r"}, Locals15()), By(4, DoRelock)) == Stage(EXPIRED, BOTH, FULL_REMOTE, {"r"}, Locals16())
  {
  }

  lemma OneStep(c: Config, n: nat)
    requires Roomy(c) && n < 16
    ensures Apply(c, StateAt(n), StepAt(n)) == StateAt(n + 1)
  {
    hide Act;
    match n
    case 0 => Step0(c);
    case 1 => Step1(c);
    case 2 => Step2(c);
    case 3 => Step3(c);
    case 4 => Step4(c);
    case 5 => Step5(c);
    case 6 => Step6(c);
    case 7 => Step7(c);
    case 8 => Step8(c);
    case 9 => Step9(c);
    case 10 => Step10(c);
    case 11 => Step11(c);
    case 12 => Step12(c);
    case 13 => Step13(c);
    case 14 => Step14(c);
    case _ => Step15(c);
  }

  function RunTo(n: nat): seq<Step>
    requires n <= 16
  {
    seq(n, i requires 0 <= i < n => StepAt(i))
  }

  lemma {:induction false} Reaches(c: Config, n: nat)
    requires Roomy(c) && n <= 16
    ensures Run(c, EMPTY, RunTo(n)) == StateAt(n)
  {
    if n == 0 {
      assert RunTo(0) == [];
    } else {
      assert RunTo(n) == RunTo(n - 1) + [StepAt(n - 1)];
      hide *;
      Reaches(c, n - 1);
      OneStep(c, n - 1);
      RunNext(c, EMPTY, RunTo(n - 1), StepAt(n - 1));
    }
  }

  /** The registered parts of a session grow after its COMPLETING checkpoint. */
  lemma PartsGrowWhileCompleting(c: Config)
    requires Roomy(c)
    ensures var s, s' := Run(c, EMPTY, RunTo(12)), Run(c, EMPTY, RunTo(13));
            && |s.uploads| == 1 && |s'.uploads| == 1 && |s.parts| == 1 && |s'.parts| == 1
            && s.uploads[0].status.Completing? && s'.uploads[0].status.Completing?
            && 2 !in s.parts[0] && 2 in s'.parts[0]
  {
    hide Run, RunTo;
    Reaches(c, 12);
    Reaches(c, 13);
  }

  /** What the completer does after it took the row again, without faults. */
  const REST: seq<Step> := [By(4, DoCompleteRemote(NoFault)), By(4, DoVerifyStored(Metadata(1, None, None), [[7]], NoFault)), By(4, DoPublish)]

  lemma RestCarriesOn(c: Config, s: State)
    ensures Run(c, s, REST) == CarryOn(c, CompleteRemote(s, 4, NoFault), 4, Metadata(1, None, None), [[7]])
  {
    hide CompleteRemote, VerifyStored, Publish;
    var a, b, d := REST[0], REST[1], REST[2];
    RunOne(c, s, a);
    RunNext(c, s, [a], b);
    RunNext(c, s, [a] + [b], d);
    hide Run;
    assert REST == [a] + [b] + [d];
  }

  lemma FileAssembles(s: State)
    requires s == StateAt(16)
    ensures AboutToComplete(s, 4, [[7]])
  {
    var file: Bytes := [7];
    var none, rest: Manifest := [], MANIFEST[1..];
    var parts: map<nat, StoredPart> := map[][1 := StoredPart("e", file)];
    assert rest == none;
    assert Assemble(parts, rest) == Some([]);
    assert file + [] == file;
    assert Assemble(parts, MANIFEST) == Some(file);
    hide Assemble;
    OneChunk(file);
    hide Flatten;
  }

  lemma OneChunk(data: Bytes)
    ensures Flatten([data]) == data
  {
    var none: seq<Bytes> := [];
    assert [data][..0] == none;
  }

  /** A session goes from COMPLETING to EXPIRED to COMPLETED. */
  lemma ExpiredIsCompleted(c: Config)
    requires Roomy(c)
    ensures var checked, expired, done := Run(c, EMPTY, RunTo(12)), Run(c, EMPTY, RunTo(15)), Run(c, EMPTY, RunTo(16) + REST);
            && |checked.uploads| == 1 && checked.uploads[0].status.Completing?
            && |expired.uploads| == 1 && expired.uploads[0].status.Expired?
            && |done.uploads| >= 1 && done.uploads[0].status.Completed?
  {
    hide Run, RunTo, REST;
    Reaches(c, 12);
    Reaches(c, 15);
    RestPublishes(c);
  }

  lemma RestPublishes(c: Config)
    requires Roomy(c)
    ensures var done := Run(c, EMPTY, RunTo(16) + REST); |done.uploads| >= 1 && done.uploads[0].status.Completed?
  {
    hide Run, RunTo, Inv, REST, AboutToComplete, CarryOn, CompleteRemote;
    Reaches(c, 16);
    ReachedInv(c, RunTo(16));
    FileAssembles(StateAt(16));
    RunJoins(c, EMPTY, RunTo(16), REST);
    assert StateAt(16).locals[4].id == 0;
    hide StateAt;
    RestCarriesOn(c, StateAt(16));
    CrashFree(c, StateAt(16), 4, Metadata(1, None, None), [[7]]);
    hide Verdict;
  }
}
