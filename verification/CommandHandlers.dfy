/** The handlers that are idempotent commands, whole: the record of the command and the business change
    commit together, and a command that was carried out is answered from its record.
  */
module CommandHandlers {
  import opened ArtifactDomain
  import opened UploadProtocol
  import opened UploadHandlers
  import ObjectStore
  import I = Idempotency

  datatype Answer =
    | Carried(reply: Reply)            // out by this call
    | Repeated(response: I.Response)   // from the record of an earlier call
    | TurnedDown(error: I.Error)

  /** The key that identifies a command. */
  function KeyOf(actor: nat, route: string, key: Option<string>): I.CommandKey
    requires key.Some?
  {
    I.CommandKey(actor, route, key.value)
  }

  /** What became of the command store: after a success the command is on record with its response and counts
      as one effect; after a refusal, or without execution, records and effects are as they were. */
  predicate Recorded(before: I.State, after: I.State, k: I.CommandKey, hash: Digest, response: Option<I.Response>) {
    && after.claims == map[]
    && (if response.Some?
        then after.records == before.records[k := I.Record(hash, true, response)] && after.effects == before.effects + [I.Claim(k, hash, response)]
        else after.records == before.records && after.effects == before.effects)
  }

  class CommandService {
    const uploads: UploadService
    const commands: I.CommandStore

    constructor (config: Config)
      ensures fresh(uploads) && fresh(commands) && uploads.config == config && uploads.View() == EMPTY && commands.View() == I.EMPTY
    {
      uploads := new UploadService(config);
      commands := new I.CommandStore();
    }

    /** Ends the command of a call that was carried out: it is recorded if it succeeded and forgotten if it raised. */
    method Conclude(reply: Reply, response: I.Response)
      requires T in commands.claims && commands.claims[T].response.None? && commands.claims.Keys == {T}
      modifies commands
      ensures var claim := old(commands.claims)[T];
              Recorded(old(commands.View()), commands.View(), claim.key, claim.hash, if reply.Done? then Some(response) else None)
    {
      if reply.Done? {
        commands.CompleteCommand(T, response);
        commands.CommitCommand(T);
      } else {
        commands.RollbackCommand(T);
      }
      assert commands.claims.Keys == {};
    }

    /** create_upload_session; render is the body made of the new row. */
    method CreateCommand(actor: nat, route: string, key: Option<string>, hash: Digest, render: Upload -> I.Body,
                         org: nat, size: nat, sha256: Digest, objectKey: Key, expiresAt: Time) returns (answer: Answer)
      requires commands.claims == map[] && objectKey !in uploads.usedKeys
      modifies uploads, commands
      ensures commands.claims == map[]
      ensures var c0, v0 := old(commands.View()), old(uploads.View());
              var d := I.Decide(c0, T, actor, route, key, hash);
              if size > uploads.config.maxFile then
                answer == Carried(Refused(UploadTooLarge)) && uploads.View() == v0 && commands.View() == c0
              else if d.Executes? then
                && answer.Carried? && At(uploads.View(), Finished(answer.reply)) == CreateCall(uploads.config, v0, org, size, sha256, objectKey, expiresAt)
                && (answer.reply.Done? ==> uploads.uploads != [])
                && Recorded(c0, commands.View(), KeyOf(actor, route, key), hash,
                            if answer.reply.Done? then Some(I.Response(201, render(uploads.uploads[|uploads.uploads| - 1]))) else None)
              else
                && answer == (if d.Replays? then Repeated(d.response) else TurnedDown(d.error)) && uploads.View() == v0
                && commands.records == c0.records && commands.effects == c0.effects
    {
      if size > uploads.config.maxFile {
        return Carried(Refused(UploadTooLarge));
      }
      var d := commands.BeginCommand(T, actor, route, key, hash);
      match d
      case Rejected(error) => return TurnedDown(error);
      case Replays(response) => return Repeated(response);
      case Waits => assert false;
      case Executes =>
        var reply := uploads.CreateUpload(org, size, sha256, objectKey, expiresAt);
        CreatedAlone(uploads.config, old(uploads.View()), org, size, sha256, objectKey, expiresAt);
        hide CreateCall, I.Decide;
        var body := if uploads.uploads == [] then "" else render(uploads.uploads[|uploads.uploads| - 1]);
        Conclude(reply, I.Response(201, body));
        answer := Carried(reply);
    }

    /** cancel_upload_session */
    method CancelCommand(actor: nat, route: string, key: Option<string>, hash: Digest, render: Upload -> I.Body,
                         id: nat, now: Time, fault: ObjectStore.Fault) returns (answer: Answer)
      requires commands.claims == map[]
      modifies uploads, commands
      ensures commands.claims == map[]
      ensures var c0, v0 := old(commands.View()), old(uploads.View());
              var d := I.Decide(c0, T, actor, route, key, hash);
              if id >= |v0.uploads| then
                answer == Carried(Refused(UploadNotFound)) && uploads.View() == v0 && commands.View() == c0
              else if d.Executes? then
                && answer.Carried? && At(uploads.View(), Finished(answer.reply)) == CancelCall(v0, id, now, fault)
                && id < |uploads.uploads|
                && Recorded(c0, commands.View(), KeyOf(actor, route, key), hash,
                            if answer.reply.Done? then Some(I.Response(200, render(uploads.uploads[id]))) else None)
              else
                && answer == (if d.Replays? then Repeated(d.response) else TurnedDown(d.error)) && uploads.View() == v0
                && commands.records == c0.records && commands.effects == c0.effects
    {
      if id >= |uploads.uploads| {
        return Carried(Refused(UploadNotFound));
      }
      var d := commands.BeginCommand(T, actor, route, key, hash);
      match d
      case Rejected(error) => return TurnedDown(error);
      case Replays(response) => return Repeated(response);
      case Waits => assert false;
      case Executes =>
        var reply := uploads.CancelUpload(id, now, fault);
        CancelKeepsLength(old(uploads.View()), uploads.View(), id, now, fault, reply);
        hide CancelCall, I.Decide;
        Conclude(reply, I.Response(200, render(uploads.uploads[id])));
        answer := Carried(reply);
    }

    /** delete_artifact */
    method DeleteCommand(actor: nat, route: string, key: Option<string>, hash: Digest, render: Artifact -> I.Body,
                         id: nat, ifMatch: int) returns (answer: Answer)
      requires commands.claims == map[]
      modifies uploads, commands
      ensures commands.claims == map[]
      ensures var c0, v0 := old(commands.View()), old(uploads.View());
              var d := I.Decide(c0, T, actor, route, key, hash);
              if id >= |v0.artifacts| then
                answer == Carried(Refused(ArtifactNotFound)) && uploads.View() == v0 && commands.View() == c0
              else if d.Executes? then
                && answer.Carried? && At(uploads.View(), Finished(answer.reply)) == DeleteCall(v0, id, ifMatch)
                && id < |uploads.artifacts|
                && Recorded(c0, commands.View(), KeyOf(actor, route, key), hash,
                            if answer.reply.Done? then Some(I.Response(200, render(uploads.artifacts[id]))) else None)
              else
                && answer == (if d.Replays? then Repeated(d.response) else TurnedDown(d.error)) && uploads.View() == v0
                && commands.records == c0.records && commands.effects == c0.effects
    {
      if id >= |uploads.artifacts| {
        return Carried(Refused(ArtifactNotFound));
      }
      var d := commands.BeginCommand(T, actor, route, key, hash);
      match d
      case Rejected(error) => return TurnedDown(error);
      case Replays(response) => return Repeated(response);
      case Waits => assert false;
      case Executes =>
        var reply := uploads.DeleteArtifact(id, ifMatch);
        DeleteKeepsLength(old(uploads.View()), uploads.View(), id, ifMatch, reply);
        hide DeleteCall, I.Decide;
        Conclude(reply, I.Response(200, render(uploads.artifacts[id])));
        answer := Carried(reply);
    }

    /** complete_upload_session asks for a key but keeps no record: the session itself answers a repeated call. */
    method CompleteCommand(key: Option<string>, id: nat, now: Time, manifest: ObjectStore.Manifest, w: Weather) returns (answer: Answer)
      requires |uploads.parts| == |uploads.uploads|
      modifies uploads
      ensures var v0 := old(uploads.View());
              if key.None? then answer == TurnedDown(I.KeyRequired) && uploads.View() == v0
              else if !(16 <= |key.value| <= 128) then answer == TurnedDown(I.InvalidKey) && uploads.View() == v0
              else if id >= |v0.uploads| then answer == Carried(Refused(UploadNotFound)) && uploads.View() == v0
              else answer.Carried? && At(uploads.View(), Finished(answer.reply)) == CompleteCall(uploads.config, v0, id, now, manifest, w)
    {
      if key.None? {
        return TurnedDown(I.KeyRequired);
      }
      if !(16 <= |key.value| <= 128) {
        return TurnedDown(I.InvalidKey);
      }
      hide CompleteCall;
      var reply := uploads.CompleteUpload(id, now, manifest, w);
      answer := Carried(reply);
    }
  }

  lemma CancelKeepsLength(v: State, v': State, id: nat, now: Time, fault: ObjectStore.Fault, reply: Reply)
    requires v.locals == map[] && id < |v.uploads| && At(v', Finished(reply)) == CancelCall(v, id, now, fault)
    ensures |v'.uploads| == |v.uploads|
  {
    CancelledAlone(v, id, now, fault);
    hide CancelCall;
  }

  lemma DeleteKeepsLength(v: State, v': State, id: nat, ifMatch: int, reply: Reply)
    requires v.locals == map[] && id < |v.artifacts| && At(v', Finished(reply)) == DeleteCall(v, id, ifMatch)
    ensures |v'.artifacts| == |v.artifacts|
  {
  }

  /** So a command that succeeded is never carried out again: whatever else was recorded meanwhile, the same request
      is answered with the recorded response, and another request under its key is turned down. */
  lemma RecordedIsReplayed(before: I.State, after: I.State, actor: nat, route: string, key: Option<string>, hash: Digest, response: I.Response,
                           later: I.State, hash': Digest)
    requires key.Some? && 16 <= |key.value| <= 128 && Recorded(before, after, KeyOf(actor, route, key), hash, Some(response))
    requires KeyOf(actor, route, key) in later.records && later.records[KeyOf(actor, route, key)] == after.records[KeyOf(actor, route, key)]
    requires later.claims == map[]
    ensures I.Decide(later, T, actor, route, key, hash') == if hash' == hash then I.Replays(response) else I.Rejected(I.KeyConflict)
  {
  }
}
