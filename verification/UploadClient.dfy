/** The browser's upload controller (apps/web/src/upload.ts): a file is cut into parts, missing parts are
    uploaded one after the other, and the sorted manifest is sent to complete the session.
  */
module UploadClient {
  import opened ArtifactDomain
  import opened ObjectStore
  import opened UploadProtocol
  import Completion
  import FileHash
  import Sha256Spec
  import ArtifactSteps
  import UploadInvariant
  import UploadSteps
  import UploadTheorems

  // ----- Parts of a file

  const PART_SIZE := 8 * 1024 * 1024

  function PartCount(size: nat): nat { (size + PART_SIZE - 1) / PART_SIZE }

  function PartStart(number: nat): nat
    requires number > 0
  {
    (number - 1) * PART_SIZE
  }

  function PartEnd(size: nat, number: nat): nat
    requires number > 0
  {
    Min(size, PartStart(number) + PART_SIZE)
  }

  predicate IsPart(size: nat, number: nat) { 1 <= number <= PartCount(size) }

  function PartBody(file: Bytes, number: nat): (body: Bytes)
    requires IsPart(|file|, number)
    ensures 0 < |body| <= PART_SIZE
  {
    file[PartStart(number)..PartEnd(|file|, number)]
  }

  /** The first parts one after the other. */
  function Joined(file: Bytes, count: nat): Bytes
    requires count <= PartCount(|file|)
  {
    if count == 0 then [] else Joined(file, count - 1) + PartBody(file, count)
  }

  lemma PartsMeet(size: nat, number: nat)
    requires IsPart(size, number)
    ensures PartStart(number) < PartEnd(size, number) <= size
    ensures number < PartCount(size) ==> PartEnd(size, number) == PartStart(number + 1)
    ensures number == PartCount(size) ==> PartEnd(size, number) == size
  {
  }

  function Covered(size: nat, count: nat): (end: nat)
    requires count <= PartCount(size)
    ensures end <= size && (count == PartCount(size) ==> end == size)
  {
    if count == 0 then 0 else PartEnd(size, count)
  }

  lemma {:induction false} JoinedIsPrefix(file: Bytes, count: nat)
    requires count <= PartCount(|file|)
    ensures Joined(file, count) == file[..Covered(|file|, count)]
  {
    if count > 0 {
      JoinedIsPrefix(file, count - 1);
      PartsMeet(|file|, count);
      if count > 1 {
        PartsMeet(|file|, count - 1);
      }
      hide PartCount;
      assert file[..PartStart(count)] + file[PartStart(count)..PartEnd(|file|, count)] == file[..PartEnd(|file|, count)];
    }
  }

  /** The parts tile the file: no gap, no overlap, no empty part. */
  lemma PartsTile(file: Bytes)
    ensures Joined(file, PartCount(|file|)) == file
  {
    hide PartCount, Covered, Joined;
    JoinedIsPrefix(file, PartCount(|file|));
    assert file[..|file|] == file;
  }

  /** Part number n is the n-th slice of 8 MiB, the last one what is left. */
  lemma PartIsSlice(file: Bytes, number: nat)
    requires IsPart(|file|, number)
    ensures var start := (number - 1) * 8_388_608;
            && |PartBody(file, number)| == (if start + 8_388_608 <= |file| then 8_388_608 else |file| - start)
            && forall i | 0 <= i < |PartBody(file, number)| :: PartBody(file, number)[i] == file[start + i]
  {
  }

  /** So many that they hold the file, and not one more. */
  lemma PartsNeeded(size: nat)
    ensures size <= PartCount(size) * 8_388_608 && (PartCount(size) > 0 ==> (PartCount(size) - 1) * 8_388_608 < size)
  {
  }

  const MAX_FILE_BYTES := 20 * 1024 * 1024 * 1024

  /** A file within the server's limit needs no more part numbers than there are. */
  lemma PartCountFits(size: nat)
    requires size <= MAX_FILE_BYTES
    ensures PartCount(size) <= 2560 <= MAX_PART && (size > 0 ==> PartCount(size) > 0)
  {
  }

  // ----- Registered parts in the order of their numbers

  predicate IsLeast(s: set<nat>, k: nat) { k in s && forall j | j in s :: k <= j }

  lemma LeastExists(s: set<nat>)
    requires s != {}
    ensures exists k :: IsLeast(s, k)
  {
    var k :| k in s;
    if s == {k} {
      assert IsLeast(s, k);
    } else {
      LeastExists(s - {k});
      var k' :| IsLeast(s - {k}, k');
      var least := if k < k' then k else k';
      forall j | j in s ensures least <= j {
        if j != k {
          assert j in s - {k};
        }
      }
      assert IsLeast(s, least);
    }
  }

  function Least(s: set<nat>): (k: nat)
    requires s != {}
    ensures IsLeast(s, k)
  {
    LeastExists(s);
    var k :| IsLeast(s, k);
    k
  }

  function SortedParts(m: map<nat, Part>): seq<(nat, Part)>
    decreases |m|
  {
    if m == map[] then []
    else
      var k := Least(m.Keys);
      assert |m - {k}| < |m| by {
        assert m.Keys == (m - {k}).Keys + {k};
      }
      [(k, m[k])] + SortedParts(m - {k})
  }

  lemma {:induction false} RegisteredOfRest(m: map<nat, Part>, k: nat, from: nat)
    requires k < from
    ensures RegisteredFrom(m - {k}, from) == RegisteredFrom(m, from)
    decreases MAX_PART + 1 - from
  {
    if from <= MAX_PART {
      RegisteredOfRest(m, k, from + 1);
    }
  }

  /** The browser sorts its parts as the server's query does. */
  lemma {:induction false} SortedLikeServer(m: map<nat, Part>, from: nat)
    requires forall k | k in m :: from <= k <= MAX_PART
    ensures SortedParts(m) == RegisteredFrom(m, from)
    decreases MAX_PART + 1 - from
  {
    if from > MAX_PART {
      assert forall k | k in m :: false;
    } else if from in m {
      assert Least(m.Keys) == from;
      SortedLikeServer(m - {from}, from + 1);
      RegisteredOfRest(m, from, from + 1);
    } else {
      SortedLikeServer(m, from + 1);
    }
  }

  // ----- The controller

  datatype UploadPhase = Idle | Hashing | Uploading | Paused | Completing | Completed | Failed | Cancelled

  datatype Click = PauseClicked | CancelClicked | CancelSettled(ok: bool)

  /** phase, whether the abort signal of the running loop is set, and the bytes shown as uploaded. */
  datatype Signals = Signals(phase: UploadPhase, aborted: bool, shown: nat)

  /** What pause() and the two halves of cancel() do while the loop waits for an answer. */
  function Clicked(s: Signals, c: Click): Signals {
    match c
    case PauseClicked => if s.phase.Uploading? then s.(phase := Paused, aborted := true) else s
    case CancelClicked => s.(aborted := true)
    case CancelSettled(ok) => s.(phase := if ok then UploadPhase.Cancelled else UploadPhase.Failed)
  }

  function ClickedAll(s: Signals, clicks: seq<Click>): (r: Signals)
    ensures clicks == [] ==> r == s
    ensures r.shown == s.shown
    decreases |clicks|
  {
    if clicks == [] then s else ClickedAll(Clicked(s, clicks[0]), clicks[1..])
  }

  lemma {:induction false} LastClick(s: Signals, clicks: seq<Click>, c: Click)
    ensures ClickedAll(s, clicks + [c]) == Clicked(ClickedAll(s, clicks), c)
    decreases |clicks|
  {
    if clicks == [] {
      assert [] + [c] == [c] && [c][1..] == [];
    } else {
      assert (clicks + [c])[1..] == clicks[1..] + [c];
      LastClick(Clicked(s, clicks[0]), clicks[1..], c);
    }
  }

  /** Pause acts on a running upload only; cancel aborts at once, and its outcome decides the phase, whatever was clicked before. */
  lemma ClickDecides(s: Signals, clicks: seq<Click>, c: Click)
    ensures var before, after := ClickedAll(s, clicks), ClickedAll(s, clicks + [c]);
            match c
            case PauseClicked => after == if before.phase.Uploading? then Signals(Paused, true, before.shown) else before
            case CancelClicked => after == Signals(before.phase, true, before.shown)
            case CancelSettled(ok) => after == Signals(if ok then UploadPhase.Cancelled else UploadPhase.Failed, before.aborted, before.shown)
  {
    LastClick(s, clicks, c);
    hide ClickedAll;
  }

  /** Signing and sending one part: the etag, or None if either call threw; the last progress reported, and
      the clicks meanwhile. */
  datatype Try = Try(etag: Option<string>, loaded: Option<nat>, clicks: seq<Click>)

  /** What would happen to one part: three tries, and then the server's answer to the call that registers it,
      None if it threw. */
  datatype PartScript = PartScript(first: Try, second: Try, third: Try, registers: Option<Part>, clicks: seq<Click>) {
    function Tries(): seq<Try> { [first, second, third] }
  }

  function Tried(s: Signals, before: nat, t: Try): Signals {
    ClickedAll(if t.loaded.Some? then s.(shown := before + t.loaded.value) else s, t.clicks)
  }

  /** before is what was shown when the part's turn came. */
  function Retried(s: Signals, before: nat, tries: seq<Try>): (Signals, Option<string>)
    decreases |tries|
  {
    if tries == [] then (s, None)
    else
      var s1 := Tried(s, before, tries[0]);
      if tries[0].etag.Some? then (s1, tries[0].etag)
      else if s1.phase.Paused? || s1.aborted then (s1, None)
      else Retried(s1, before, tries[1..])
  }

  lemma {:induction false} AbortStays(s: Signals, clicks: seq<Click>)
    requires s.aborted
    ensures ClickedAll(s, clicks).aborted
    decreases |clicks|
  {
    if clicks != [] {
      AbortStays(Clicked(s, clicks[0]), clicks[1..]);
    }
  }

  lemma {:induction false} CancelAborts(s: Signals, clicks: seq<Click>)
    requires CancelClicked in clicks
    ensures ClickedAll(s, clicks).aborted
    decreases |clicks|
  {
    if clicks[0] == CancelClicked {
      AbortStays(Clicked(s, clicks[0]), clicks[1..]);
    } else {
      CancelAborts(Clicked(s, clicks[0]), clicks[1..]);
    }
  }

  /** A try that fails after the user paused the upload or asked to cancel it is the last. */
  lemma StopsTrying(s: Signals, before: nat, tries: seq<Try>)
    requires tries != [] && tries[0].etag.None?
    requires CancelClicked in tries[0].clicks || (s.phase.Uploading? && tries[0].clicks != [] && tries[0].clicks[0] == PauseClicked)
    ensures Retried(s, before, tries) == (Tried(s, before, tries[0]), None) && Tried(s, before, tries[0]).aborted
  {
    hide ClickedAll;
    var s1 := if tries[0].loaded.Some? then s.(shown := before + tries[0].loaded.value) else s;
    var clicks := tries[0].clicks;
    if CancelClicked in clicks {
      CancelAborts(s1, clicks);
    } else {
      FirstClick(s1, clicks);
      AbortStays(Clicked(s1, PauseClicked), clicks[1..]);
    }
  }

  lemma FirstClick(s: Signals, clicks: seq<Click>)
    requires clicks != []
    ensures ClickedAll(s, clicks) == ClickedAll(Clicked(s, clicks[0]), clicks[1..])
  {
  }

  /** At most two failures and no clicks: the part gets through. */
  predicate Smooth(p: PartScript) {
    p.registers.Some? && p.clicks == [] && p.first.clicks == [] && p.second.clicks == [] && p.third.clicks == []
    && (p.first.etag.Some? || p.second.etag.Some? || p.third.etag.Some?)
  }

  lemma SmoothGetsThrough(s: Signals, before: nat, p: PartScript)
    requires Smooth(p) && !s.aborted && s.phase.Uploading?
    ensures var (s', etag) := Retried(s, before, p.Tries()); s'.phase == s.phase && s'.aborted == s.aborted && etag.Some?
  {
    assert [p.third][1..] == [] && [p.second, p.third][1..] == [p.third] && p.Tries()[1..] == [p.second, p.third];
    var s1 := Tried(s, before, p.first);
    var s2 := Tried(s1, before, p.second);
    if p.first.etag.None? && p.second.etag.None? {
      assert Retried(s2, before, [p.third]) == (Tried(s2, before, p.third), p.third.etag);
      assert Retried(s1, before, [p.second, p.third]) == Retried(s2, before, [p.third]);
    }
  }

  /** Every registered part has the size of the file's part of that number. */
  predicate OwnParts(file: Bytes, registered: map<nat, Part>) {
    forall k | k in registered :: IsPart(|file|, k) && registered[k].size == |PartBody(file, k)|
  }

  ghost predicate AllRegistered(size: nat, registered: map<nat, Part>) { forall k: nat | IsPart(size, k) :: k in registered }

  /** The server answers a registration with the size it was given, as its handler does. */
  ghost predicate Echoes(file: Bytes, script: nat -> PartScript) {
    forall k: nat | IsPart(|file|, k) && script(k).registers.Some? :: script(k).registers.value.size == |PartBody(file, k)|
  }

  /** The sum over the values of the map. */
  function Total(registered: map<nat, Part>): nat { TotalSize(SortedParts(registered)) }

  /** The server will take no more parts of the session. */
  predicate HasEnded(status: UploadStatus) { status.Expired? || status.Aborted? || status.UploadFailed? }

  /** What was declared when the session was created. */
  datatype Session = Session(size: nat, sha256: Digest)

  class UploadController {
    var phase: UploadPhase
    var uploadedBytes: nat
    var aborted: bool
    var file: Bytes
    var session: Option<Session>
    var registered: map<nat, Part>

    constructor ()
      ensures phase.Idle? && session.None? && registered == map[] && uploadedBytes == 0
    {
      phase, uploadedBytes, aborted, file, session, registered := Idle, 0, false, [], None, map[];
    }

    function Flags(): Signals
      reads this
    {
      Signals(phase, aborted, uploadedBytes)
    }

    method Hear(clicks: seq<Click>)
      modifies this`phase, this`aborted
      ensures Flags() == ClickedAll(old(Flags()), clicks)
    {
      var i := 0;
      while i < |clicks|
        invariant 0 <= i <= |clicks| && ClickedAll(Flags(), clicks[i..]) == ClickedAll(old(Flags()), clicks)
      {
        var s := Clicked(Signals(phase, aborted, uploadedBytes), clicks[i]);
        phase, aborted := s.phase, s.aborted;
        i := i + 1;
        assert clicks[i - 1..][1..] == clicks[i..];
      }
    }

    /** None: the last error was thrown. */
    method UploadPartWithRetry(completedBefore: nat, p: PartScript) returns (etag: Option<string>)
      modifies this`phase, this`aborted, this`uploadedBytes
      ensures (Flags(), etag) == Retried(old(Flags()), completedBefore, p.Tries())
    {
      hide ClickedAll;
      var tries := [p.first, p.second, p.third];
      var attempt := 1;
      while attempt <= 3
        invariant 1 <= attempt <= 4
        invariant Retried(Flags(), completedBefore, tries[attempt - 1..]) == Retried(old(Flags()), completedBefore, tries)
      {
        if tries[attempt - 1].loaded.Some? {
          uploadedBytes := completedBefore + tries[attempt - 1].loaded.value;
        }
        Hear(tries[attempt - 1].clicks);
        if tries[attempt - 1].etag.Some? {
          return tries[attempt - 1].etag;
        }
        if phase.Paused? || aborted {
          return None;
        }
        assert tries[attempt - 1..][1..] == tries[attempt..];
        attempt := attempt + 1;
      }
      etag := None;
    }

    /** One turn of the loop: slice, upload, register. */
    method UploadPart(number: nat, p: PartScript) returns (threw: bool)
      requires IsPart(|file|, number)
      modifies this`phase, this`aborted, this`uploadedBytes, this`registered
      ensures threw ==> registered == old(registered)
      ensures !threw ==> p.registers.Some? && registered == old(registered)[number := p.registers.value] && uploadedBytes == Total(registered)
      ensures Smooth(p) && old(phase).Uploading? && !old(aborted) ==> !threw && phase.Uploading? && !aborted
    {
      hide Retried, ClickedAll, PartCount, Total;
      var body := PartBody(file, number);
      if Smooth(p) && phase.Uploading? && !aborted {
        SmoothGetsThrough(Flags(), uploadedBytes, p);
      }
      var etag := UploadPartWithRetry(uploadedBytes, p);
      if etag.None? {
        return true;
      }
      Hear(p.clicks);
      if p.registers.None? {
        return true;
      }
      registered := registered[number := p.registers.value];
      uploadedBytes := Total(registered);
      threw := false;
    }

    /** sent is the manifest given to completeUpload, if the loop gets there. */
    method UploadMissingParts(script: nat -> PartScript, completes: bool, clicks: seq<Click>) returns (threw: bool, sent: Option<Manifest>)
      modifies this
      ensures file == old(file) && session == old(session)
      ensures forall k | k in old(registered) :: k in registered && registered[k] == old(registered)[k]
      ensures forall k | k in registered && k !in old(registered) :: IsPart(|file|, k) && Some(registered[k]) == script(k).registers
      ensures sent.Some? ==> AllRegistered(|file|, registered) && sent.value == ManifestOf(SortedParts(registered))
      ensures sent.Some? && old(uploadedBytes == Total(registered)) ==> uploadedBytes == Total(registered)
      ensures sent.Some? && !threw ==> phase.Completed?
      ensures !old(aborted) && (forall k: nat | IsPart(|file|, k) && k !in old(registered) :: Smooth(script(k))) ==> sent.Some?
    {
      hide Smooth, ClickedAll, SortedParts, PartCount, PartStart, PartEnd, Total;
      phase := UploadPhase.Uploading;
      ghost var smooth := !aborted && forall k: nat | IsPart(|file|, k) && k !in registered :: Smooth(script(k));
      var partCount := PartCount(|file|);
      for number := 1 to partCount + 1
        invariant file == old(file) && session == old(session)
        invariant forall k | k in old(registered) :: k in registered && registered[k] == old(registered)[k]
        invariant forall k | k in registered && k !in old(registered) :: IsPart(|file|, k) && Some(registered[k]) == script(k).registers
        invariant forall k: nat | 1 <= k < number :: k in registered
        invariant old(uploadedBytes == Total(registered)) ==> uploadedBytes == Total(registered)
        invariant smooth ==> phase.Uploading? && !aborted
      {
        if !phase.Uploading? {
          return false, None;
        }
        if number in registered {
          continue;
        }
        threw := UploadPart(number, script(number));
        if threw {
          return true, None;
        }
      }
      if !phase.Uploading? {
        return false, None;
      }
      phase := UploadPhase.Completing;
      sent := Some(ManifestOf(SortedParts(registered)));
      Hear(clicks);
      if !completes {
        return true, sent;
      }
      phase := UploadPhase.Completed;
      threw := false;
    }

    method FailUnlessPaused()
      modifies this`phase
      ensures phase == if old(phase).Paused? || old(phase).Cancelled? then old(phase) else UploadPhase.Failed
    {
      if phase.Paused? || phase.Cancelled? {
        return;
      }
      phase := UploadPhase.Failed;
    }

    /** hashAborted says when the hashing loop sees the signal; early is clicked before the session exists. */
    method Start(newFile: Bytes, hashAborted: nat -> bool, early: seq<Click>, created: bool,
                 script: nat -> PartScript, completes: bool, clicks: seq<Click>) returns (busy: bool, sent: Option<Manifest>)
      requires |newFile| < 0x20_0000_0000_0000
      modifies this
      ensures busy <==> !(old(phase).Idle? || old(phase).Failed? || old(phase).Cancelled? || old(phase).Completed?)
      ensures busy ==> unchanged(this) && sent.None?
      ensures !busy ==> file == newFile && (Echoes(newFile, script) ==> OwnParts(file, registered))
      ensures !busy && session.Some? ==> session.value == Session(|file|, Sha256Spec.Sha256Hex(file))
      ensures sent.Some? ==> session.Some? && AllRegistered(|file|, registered) && sent.value == ManifestOf(SortedParts(registered))
                             && uploadedBytes == Total(registered)
    {
      hide PartCount, PartStart, PartEnd, SortedParts, ClickedAll, Smooth, Sha256Spec.Sha256Hex;
      if !(phase.Idle? || phase.Failed? || phase.Cancelled? || phase.Completed?) {
        return true, None;
      }
      file, registered, uploadedBytes, session := newFile, map[], 0, None;
      assert uploadedBytes == Total(registered) by { NothingRegistered(); }
      hide Total;
      aborted := false;
      phase := UploadPhase.Hashing;
      busy, sent := false, None;
      var digest := FileHash.Sha256File(file, hashAborted);
      Hear(early);
      if digest.Aborted? || !created {
        FailUnlessPaused();
        return;
      }
      session := Some(Session(|file|, digest.hex));
      var threw: bool;
      threw, sent := UploadMissingParts(script, completes, clicks);
      if threw {
        FailUnlessPaused();
      }
    }

    /** status and parts are the answers of the two calls that fetch the session, None if one threw, and early is
        clicked while they run.  Without a session the upload starts again, and the next two say how. */
    method Resume(status: Option<UploadStatus>, parts: Option<map<nat, Part>>, early: seq<Click>, hashAborted: nat -> bool, created: bool,
                  script: nat -> PartScript, completes: bool, clicks: seq<Click>) returns (sent: Option<Manifest>)
      requires |file| < 0x20_0000_0000_0000
      modifies this
      ensures file == old(file) && (old(session).Some? ==> session == old(session))
      ensures !(old(phase).Paused? || old(phase).Failed?) ==> unchanged(this) && sent.None?
      ensures old(phase).Failed? && old(session).None? ==>
                (Echoes(file, script) ==> OwnParts(file, registered)) && (session.Some? ==> session.value == Session(|file|, Sha256Spec.Sha256Hex(file)))
      ensures old(session).Some? && (status.None? || status.value in {Expired, Aborted, UploadFailed} || parts.None?) ==> sent.None? && registered == old(registered)
      ensures sent.Some? ==> session.Some? && AllRegistered(|file|, registered) && sent.value == ManifestOf(SortedParts(registered))
                             && uploadedBytes == Total(registered)
      ensures sent.Some? && old(session).Some? ==>
                && parts.Some? && (forall k | k in parts.value :: k in registered && registered[k] == parts.value[k])
                && (Echoes(file, script) && OwnParts(file, parts.value) ==> OwnParts(file, registered))
      ensures (old(phase).Paused? || old(phase).Failed?) && old(session).Some? && early == []
              && status.Some? && status.value !in {Expired, Aborted, UploadFailed} && parts.Some? ==>
                (forall k: nat | IsPart(|file|, k) && k !in parts.value :: Smooth(script(k))) ==> sent.Some?
    {
      hide PartCount, PartStart, PartEnd, SortedParts, ClickedAll, Smooth, Sha256Spec.Sha256Hex, Total;
      if !(phase.Paused? || phase.Failed?) {
        return None;
      }
      if session.None? {
        var busy;
        busy, sent := Start(file, hashAborted, early, created, script, completes, clicks);
        return;
      }
      aborted := false;
      Hear(early);
      if status.None? || HasEnded(status.value) || parts.None? {
        FailUnlessPaused();
        return None;
      }
      registered := parts.value;
      uploadedBytes := Total(registered);
      var threw: bool;
      threw, sent := UploadMissingParts(script, completes, clicks);
      if threw {
        FailUnlessPaused();
      }
    }
  }

  lemma NothingRegistered()
    ensures Total(map[]) == 0
  {
  }

  // ----- Client and server agree

  /** UploadCompleteRequest.validate_parts and the bounds of its fields. */
  predicate ValidParts(manifest: Manifest) {
    && 1 <= |manifest| <= 10_000
    && (forall i | 0 <= i < |manifest| :: 1 <= manifest[i].0 <= 10_000)
    && (forall i, j | 0 <= i < j < |manifest| :: manifest[i].0 < manifest[j].0)
  }

  /** Parts number from to count, as they were registered. */
  function InOrder(registered: map<nat, Part>, from: nat, count: nat): (r: seq<(nat, Part)>)
    requires from <= count + 1 && forall k | from <= k <= count :: k in registered
    ensures |r| == count + 1 - from
    ensures forall i | 0 <= i < |r| :: r[i] == (from + i, registered[from + i])
    decreases count + 1 - from
  {
    if from > count then [] else [(from, registered[from])] + InOrder(registered, from + 1, count)
  }

  lemma {:induction false} RegisteredInOrder(registered: map<nat, Part>, from: nat, count: nat)
    requires from <= count + 1 && count <= MAX_PART
    requires forall k | from <= k <= count :: k in registered
    requires forall k | k in registered :: k <= count
    ensures RegisteredFrom(registered, from) == InOrder(registered, from, count)
    decreases MAX_PART + 1 - from
  {
    if from <= count {
      RegisteredInOrder(registered, from + 1, count);
    } else {
      NoneLeft(registered, from);
    }
  }

  lemma {:induction false} NoneLeft(registered: map<nat, Part>, from: nat)
    requires forall k | k in registered :: k < from
    ensures RegisteredFrom(registered, from) == []
    decreases MAX_PART + 1 - from
  {
    if from <= MAX_PART {
      NoneLeft(registered, from + 1);
    }
  }

  lemma {:induction false} TotalOfParts(file: Bytes, parts: seq<(nat, Part)>)
    requires |parts| <= PartCount(|file|)
    requires forall i | 0 <= i < |parts| :: parts[i].0 == i + 1 && parts[i].1.size == |PartBody(file, i + 1)|
    ensures TotalSize(parts) == Covered(|file|, |parts|)
  {
    if parts != [] {
      TotalOfParts(file, parts[..|parts| - 1]);
      PartsMeet(|file|, |parts|);
      if |parts| > 1 {
        PartsMeet(|file|, |parts| - 1);
      }
    }
  }

  lemma AllInOrder(file: Bytes, registered: map<nat, Part>)
    requires |file| <= MAX_FILE_BYTES && OwnParts(file, registered) && AllRegistered(|file|, registered)
    ensures forall k | 1 <= k <= PartCount(|file|) :: k in registered
    ensures SortedParts(registered) == RegisteredFrom(registered, 1) == InOrder(registered, 1, PartCount(|file|))
  {
    PartCountFits(|file|);
    hide PartCount, PartBody;
    assert forall k | 1 <= k <= PartCount(|file|) :: IsPart(|file|, k);
    hide SortedParts;
    SortedLikeServer(registered, 1);
    RegisteredInOrder(registered, 1, PartCount(|file|));
  }

  /** The manifest of an upload loop that ran to the end passes the server: its schema, and the comparison
      with the registered rows and their total size. */
  lemma ManifestPasses(file: Bytes, registered: map<nat, Part>)
    requires 0 < |file| <= MAX_FILE_BYTES && OwnParts(file, registered) && AllRegistered(|file|, registered)
    ensures ValidParts(ManifestOf(SortedParts(registered))) && |ManifestOf(SortedParts(registered))| <= 2560
    ensures Total(registered) == |file|
    ensures ManifestAccepted(registered, |file|, ManifestOf(SortedParts(registered)))
  {
    AllInOrder(file, registered);
    PartCountFits(|file|);
    hide PartCount, PartBody, SortedParts, RegisteredFrom, InOrder, AllRegistered;
    var parts := InOrder(registered, 1, PartCount(|file|));
    TotalOfParts(file, parts);
    hide TotalSize, Covered, OwnParts, IsPart;
    InOrderIsValid(registered, PartCount(|file|));
    hide ManifestOf, ValidParts;
  }

  lemma InOrderIsValid(registered: map<nat, Part>, count: nat)
    requires 1 <= count <= 10_000 && forall k | 1 <= k <= count :: k in registered
    ensures ValidParts(ManifestOf(InOrder(registered, 1, count)))
  {
    hide InOrder;
  }

  // ----- From the browser's file to the served object

  /** The multipart upload holds the file's parts under the registered etags. */
  ghost predicate HoldsParts(stored: map<nat, StoredPart>, file: Bytes, registered: map<nat, Part>) {
    forall k: nat | IsPart(|file|, k) && k in registered :: k in stored && stored[k] == StoredPart(registered[k].etag, PartBody(file, k))
  }

  lemma {:induction false} AssembledRest(file: Bytes, registered: map<nat, Part>, stored: map<nat, StoredPart>, from: nat)
    requires AllRegistered(|file|, registered) && HoldsParts(stored, file, registered)
    requires 1 <= from <= PartCount(|file|) + 1 && forall k | from <= k <= PartCount(|file|) :: k in registered
    ensures Assemble(stored, ManifestOf(InOrder(registered, from, PartCount(|file|)))) == Some(file[Covered(|file|, from - 1)..])
    decreases PartCount(|file|) + 1 - from
  {
    var count := PartCount(|file|);
    hide *;
    if from <= count {
      PartIsStored(file, registered, stored, from);
      AssembledRest(file, registered, stored, from + 1);
      ManifestOfFirst(registered, from, count);
      AssembleFirst(stored, from, registered[from].etag, ManifestOf(InOrder(registered, from + 1, count)));
      PartFollows(file, from);
    } else {
      NothingAssembles(registered, stored, count);
      assert file[Covered(|file|, count)..] == [];
    }
  }

  lemma PartIsStored(file: Bytes, registered: map<nat, Part>, stored: map<nat, StoredPart>, number: nat)
    requires HoldsParts(stored, file, registered) && 1 <= number <= PartCount(|file|) && number in registered
    ensures IsPart(|file|, number) && number in stored && stored[number] == StoredPart(registered[number].etag, PartBody(file, number))
  {
    hide PartCount, PartBody;
  }

  lemma NothingAssembles(registered: map<nat, Part>, stored: map<nat, StoredPart>, count: nat)
    ensures Assemble(stored, ManifestOf(InOrder(registered, count + 1, count))) == Some([])
  {
    assert ManifestOf(InOrder(registered, count + 1, count)) == [];
  }

  lemma ManifestOfFirst(registered: map<nat, Part>, from: nat, count: nat)
    requires from <= count && forall k | from <= k <= count :: k in registered
    ensures ManifestOf(InOrder(registered, from, count)) == [(from, registered[from].etag)] + ManifestOf(InOrder(registered, from + 1, count))
  {
  }

  lemma AssembleFirst(stored: map<nat, StoredPart>, number: nat, etag: string, rest: Manifest)
    requires number in stored && stored[number].etag == etag && Assemble(stored, rest).Some?
    ensures Assemble(stored, [(number, etag)] + rest) == Some(stored[number].data + Assemble(stored, rest).value)
  {
    assert ([(number, etag)] + rest)[1..] == rest;
  }

  lemma PartFollows(file: Bytes, number: nat)
    requires IsPart(|file|, number)
    ensures PartBody(file, number) + file[Covered(|file|, number)..] == file[Covered(|file|, number - 1)..]
  {
    PartsMeet(|file|, number);
    if number > 1 {
      PartsMeet(|file|, number - 1);
    }
    hide PartCount;
  }

  /** End to end: the browser hashed and uploaded the file part by part and sent its manifest; the store
      kept the parts.  Then a handler that meets no fault publishes the file AVAILABLE. */
  lemma HonestUploadIsAvailable(c: Config, s: State, t: Txn, file: Bytes, registered: map<nat, Part>, head: Completion.Metadata, chunks: seq<Bytes>)
    requires UploadInvariant.Inv(c, s) && t in s.locals && s.locals[t].Relocked?
    requires |file| <= MAX_FILE_BYTES && OwnParts(file, registered) && AllRegistered(|file|, registered)
    requires var l := s.locals[t];
             && l.manifest == ManifestOf(SortedParts(registered)) && l.row.size == |file| && l.row.sha256 == Sha256Spec.Sha256Hex(file)
             && l.row.remote.Some? && l.row.remote.value in s.store.multiparts && s.store.multiparts[l.row.remote.value].key == l.row.key
             && HoldsParts(s.store.multiparts[l.row.remote.value].parts, file, registered)
    requires c.hash(file) == Sha256Spec.Sha256Hex(file) && Completion.Flatten(chunks) == file
    ensures var l := s.locals[t];
            var a := UploadTheorems.Verdict(c, l.id, l.row, file);
            && UploadTheorems.Publishes(s, UploadTheorems.CarryOn(c, CompleteRemote(s, t, NoFault), t, head, chunks), t, l.id, a)
            && a.status.Available? && a.key == l.row.key && a.size == |file| && a.sha256 == Sha256Spec.Sha256Hex(file)
  {
    var l := s.locals[t];
    hide *;
    assert l.row.size == |file| && l.row.sha256 == c.hash(file);
    assert Assembled(s.store, l.row.key, l.row.remote, l.manifest) == Some(file) by {
      AssembledFile(s.store, l.row.key, l.row.remote, file, registered);
    }
    AboutTo(s, t, file, chunks);
    UploadTheorems.CrashFree(c, s, t, head, chunks);
    VerdictIsAvailable(c, l.id, l.row, file);
  }

  lemma AssembledFile(store: Store, key: Key, remote: Option<RemoteId>, file: Bytes, registered: map<nat, Part>)
    requires |file| <= MAX_FILE_BYTES && OwnParts(file, registered) && AllRegistered(|file|, registered)
    requires remote.Some? && remote.value in store.multiparts && store.multiparts[remote.value].key == key
    requires HoldsParts(store.multiparts[remote.value].parts, file, registered)
    ensures Assembled(store, key, remote, ManifestOf(SortedParts(registered))) == Some(file)
  {
    AllInOrder(file, registered);
    hide SortedParts, HoldsParts, OwnParts, AllRegistered, PartCount;
    AssembledRest(file, registered, store.multiparts[remote.value].parts, 1);
    assert file[0..] == file;
  }

  lemma AboutTo(s: State, t: Txn, file: Bytes, chunks: seq<Bytes>)
    requires t in s.locals && s.locals[t].Relocked? && Completion.Flatten(chunks) == file
    requires Assembled(s.store, s.locals[t].row.key, s.locals[t].row.remote, s.locals[t].manifest) == Some(file)
    ensures UploadTheorems.AboutToComplete(s, t, chunks)
  {
  }

  lemma VerdictIsAvailable(c: Config, id: nat, row: Upload, file: Bytes)
    requires row.size == |file| && row.sha256 == c.hash(file)
    ensures var a := UploadTheorems.Verdict(c, id, row, file);
            a.status.Available? && a.key == row.key && a.size == |file| && a.sha256 == c.hash(file)
  {
  }

  // ----- The same from an UPLOADING session on

  /** A call to complete that meets no fault: the checks, the checkpoint, the second lock and the rest. */
  function WholeCall(c: Config, s: State, t: Txn, id: nat, now: Time, manifest: Manifest, head: Completion.Metadata, chunks: seq<Bytes>): State {
    var relocked := Relock(CheckManifest(LockForComplete(s, t, id), t, now, manifest), t);
    UploadTheorems.CarryOn(c, CompleteRemote(relocked, t, NoFault), t, head, chunks)
  }

  function Checked(s: State, id: nat): State
    requires id < |s.uploads|
  {
    SetUpload(s, id, CheckpointRow(s.uploads[id]))
  }

  lemma ChecksOut(c: Config, s: State, t: Txn, id: nat, now: Time, manifest: Manifest)
    requires UploadInvariant.Inv(c, s) && t !in s.locals && id < |s.uploads| && id < |s.parts| && UploadFree(s, t, id)
    requires s.uploads[id].status.Uploading? && now < s.uploads[id].expiresAt && ManifestAccepted(s.parts[id], s.uploads[id].size, manifest)
    ensures s.uploads[id].remote.Some?
    ensures CheckManifest(LockForComplete(s, t, id), t, now, manifest) == Go(Checked(s, id), t, Checkpointed(id, manifest))
  {
    var row := s.uploads[id];
    UploadSteps.CurrentRow(c, s, id);
    hide UploadInvariant.Inv, ManifestAccepted, HasArtifact;
    var locked := Go(s, t, CompleteLocked(id, row));
    assert LockForComplete(s, t, id) == locked;
    assert UploadFree(locked, t, id);
    hide UploadFree;
    UploadTheorems.GoAgain(Checked(s, id), t, CompleteLocked(id, row), Checkpointed(id, manifest));
    assert SetUpload(locked, id, CheckpointRow(row)) == Go(Checked(s, id), t, CompleteLocked(id, row));
  }

  lemma LocksAgain(s: State, t: Txn, id: nat, manifest: Manifest)
    requires id < |s.uploads| && s.uploads[id].status.Completing? && UploadFree(s, t, id)
    ensures Relock(Go(s, t, Checkpointed(id, manifest)), t) == Go(s, t, Relocked(id, s.uploads[id], manifest))
  {
    assert UploadFree(Go(s, t, Checkpointed(id, manifest)), t, id);
    hide UploadFree, HasArtifact;
    UploadTheorems.GoAgain(s, t, Checkpointed(id, manifest), Relocked(id, s.uploads[id], manifest));
  }

  lemma CheckedKeepsInv(c: Config, s: State, t: Txn, id: nat, now: Time, manifest: Manifest)
    requires UploadInvariant.Inv(c, s)
    ensures UploadInvariant.Inv(c, Relock(CheckManifest(LockForComplete(s, t, id), t, now, manifest), t))
  {
    hide UploadInvariant.Inv, LockForComplete, CheckManifest, Relock;
    ArtifactSteps.StepKeepsInv(c, s, By(t, DoLockForComplete(id)));
    var s1 := LockForComplete(s, t, id);
    ArtifactSteps.StepKeepsInv(c, s1, By(t, DoCheckManifest(now, manifest)));
    ArtifactSteps.StepKeepsInv(c, CheckManifest(s1, t, now, manifest), By(t, DoRelock));
  }

  /** End to end: the session is UPLOADING with every part of the file registered and stored, the browser sends its
      manifest in time, and nobody holds the row.  Then one call publishes the file AVAILABLE: the server's
      checks, the checkpoint and the verification all let it pass. */
  lemma HonestCallIsAvailable(c: Config, s: State, t: Txn, id: nat, file: Bytes, now: Time, head: Completion.Metadata, chunks: seq<Bytes>)
    requires UploadInvariant.Inv(c, s) && t !in s.locals && id < |s.uploads| && id < |s.parts| && UploadFree(s, t, id)
    requires 0 < |file| <= MAX_FILE_BYTES && OwnParts(file, s.parts[id]) && AllRegistered(|file|, s.parts[id])
    requires var row := s.uploads[id];
             && row.status.Uploading? && now < row.expiresAt && row.size == |file| && row.sha256 == Sha256Spec.Sha256Hex(file)
             && row.remote.Some? && row.remote.value in s.store.multiparts
             && HoldsParts(s.store.multiparts[row.remote.value].parts, file, s.parts[id])
    requires c.hash(file) == Sha256Spec.Sha256Hex(file) && Completion.Flatten(chunks) == file
    ensures var a := UploadTheorems.Verdict(c, id, s.uploads[id], file);
            && UploadTheorems.Publishes(s, WholeCall(c, s, t, id, now, ManifestOf(SortedParts(s.parts[id])), head, chunks), t, id, a)
            && a.status.Available? && a.key == s.uploads[id].key && a.size == |file| && a.sha256 == Sha256Spec.Sha256Hex(file)
  {
    var manifest := ManifestOf(SortedParts(s.parts[id]));
    var relocked := Go(Checked(s, id), t, Relocked(id, CheckpointRow(s.uploads[id]), manifest));
    ManifestPasses(file, s.parts[id]);
    ChecksOut(c, s, t, id, now, manifest);
    LocksAgain(Checked(s, id), t, id, manifest);
    CheckedKeepsInv(c, s, t, id, now, manifest);
    UploadSteps.CurrentRow(c, s, id);
    RemoteKeyIs(s, id);
    SameVerdict(c, id, s.uploads[id], file);
    hide CheckManifest, LockForComplete, Relock, UploadInvariant.Inv, SortedParts, ManifestOf, OwnParts, AllRegistered, HoldsParts, ManifestAccepted, UploadFree,
      UploadTheorems.CarryOn, CompleteRemote, UploadTheorems.Verdict, Completion.Flatten, Sha256Spec.Sha256Hex;
    HonestUploadIsAvailable(c, relocked, t, file, s.parts[id], head, chunks);
  }

  lemma RemoteKeyIs(s: State, id: nat)
    requires id < |s.uploads| && UploadInvariant.RemoteOk(s.uploads[id], s.store.multiparts, s.usedRemotes, s.written)
    ensures var row := s.uploads[id]; row.remote.Some? && row.remote.value in s.store.multiparts ==> s.store.multiparts[row.remote.value].key == row.key
  {
  }

  lemma SameVerdict(c: Config, id: nat, row: Upload, file: Bytes)
    ensures UploadTheorems.Verdict(c, id, CheckpointRow(row), file) == UploadTheorems.Verdict(c, id, row, file)
  {
  }
}
