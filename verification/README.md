# Verification models of the artifact platform

Dafny models of the parts of the platform whose correctness depends on state shared by concurrent
requests, on exact arithmetic, or on graph search, with proofs of what they promise.  `dafny verify
dfyconfig.toml` verifies the whole project.

## What is modelled

**Upload, verify, publish, delete.**  `UploadProtocol` is a transition system over the database and the
object store.  Any number of handlers (create, get, sign, register, complete, cancel, delete) and sweepers
(expiry, deletion, reconciliation, orphans) run at once.  A step is what one of them does between two points
where others may run: an unlocked read that remembers the version, taking a row lock, a storage call, an
UPDATE that waits for the row lock and commits only if the version is unchanged, an INSERT under unique
constraints.  Every storage call may fail before or after it took effect, every transaction may be
interrupted between any two steps, clients upload parts and outsiders add or lose objects at any time.
`UploadInvariant` says what every reachable state satisfies and what transactions may rely on in each other;
`UploadSteps`, `UploadWrites` and `ArtifactSteps` prove each step; `UploadTheorems`, `ExpiredSessions` and
`RegisteredParts` draw the conclusions over whole runs (`UploadRuns` and `UploadLocals` are their tools), and
`UploadScenario` is one run from the empty database.  `UploadHandlers` holds the handlers as they are written, as
methods that change rows and return early, and shows that a call that runs alone is a run of the machine;
`CommandHandlers` adds the idempotent commands around them.  `UploadDecisions` and `PartLists` tell what each handler decides
by statuses, times, lists and sums alone, without the predicates and queries that handlers and machine share.  `ArtifactDomain`, `ObjectStore` and `Completion` are the rows, the storage port and the verification of a stored object.

**The sweeper.**  `Maintenance` has the loops of one pass as methods over mutable tables, with their batch
queries and metrics.  `MaintenanceTheorems` proves draining and backoff; `MaintenanceRuns`, `ArtifactPassRuns` and
`OrphanPassRuns` show that the passes are runs of the concurrent machine, so that what holds of every run holds
of them; `BackoffRuns` proves the backoff for sweepers that overlap or die midway.
`SweeperBatches` tells which rows each query takes by the rows alone, that deletion drains, and what is counted.

**SHA-256 in the browser.**  `Sha256Spec` is FIPS 180-4 as a function of the whole message, `JsNumber` the
signed and unsigned 32-bit operators of JavaScript, `FileHash` the class with its buffer and in-place loops, and
`Sha256Constants` derives the constants from the first primes.

**The browser's upload controller.**  `UploadClient` cuts a file into parts, retries, resumes and completes;
its last theorem goes from the file in the browser to the AVAILABLE artifact.

**Concurrency guards.**  `Idempotency` is the record of idempotent commands, `OrganizationAccess` role changes
and removals under a row lock, `OrganizationAggregate` the in-memory aggregate and its relation to them.

**Algorithms.**  `JsonPointer`, `InputNames` and `OpenApiPolicy` resolve references and search cyclic schema graphs for input
names; what counts as reachable, declared and malformed is told by the document alone.  `Keyset` and `Cursor` are keyset paging and its opaque cursors.

## Where the code promises less than one might think

- EXPIRED is not final, although `modules/artifact/domain.py:16-22` calls it terminal.  A completer past the
  COMPLETING checkpoint looks only for COMPLETED when it locks the row again (`upload_sessions.py:711-718`),
  so it may complete a session that meanwhile expired.  `UploadScenario.ExpiredIsCompleted` is a run in which it
  does; `ExpiredSessions.ExpiredIsFinal` is the exact condition under which no run does.
- The registered parts of a COMPLETING session may still grow, because registration takes no lock
  (`upload_sessions.py:554-575`).  `UploadScenario.PartsGrowWhileCompleting` is a run in which they do,
  `RegisteredParts.PartsFrozenIff` the exact condition under which they cannot, and
  `RegisteredParts.ManifestStaysAccepted` what that means for the retry of crash recovery.  (In PostgreSQL the
  foreign key of a part makes its insert wait while another transaction has the session row FOR UPDATE.  The
  model lets it go on, so it has more runs than the database; the run above is not one of those.)
- A repeated delete request writes another deletion-requested event (`artifacts.py:263-295`), and because the row
  is read without a lock and only a changed row is version-checked, even for an artifact that is DELETED by
  then (`RecordedAfterDeletion`); only the deleted event is unique.  `DeletionIsRecorded` gives the exact
  condition.
- The counting guard of the last owner ignores `active`, the aggregate does not; `GuardsCompared` says when
  they differ.

## Model

| member | source | states |
|---|---|---|
| UploadTheorems.ReachedInv | apps/api/src/platform_api/db/models.py:187-213 | every state that any interleaving of handlers and sweepers reaches, with failing storage calls, lost commits and crashes, satisfies the whole invariant |
| UploadTheorems.QuotaHolds | apps/api/src/platform_api/api/upload_sessions.py:246-270 | in every run the set of active sessions of an organization is no larger than the limit and their reserved bytes never exceed the reserve limit |
| UploadTheorems.PublishedExactlyOnce | apps/api/src/platform_api/api/upload_sessions.py:650-718 | in every run a session is COMPLETED if and only if exactly one artifact row refers to it; otherwise none does |
| UploadTheorems.PublishNeverConflicts | apps/api/src/platform_api/api/upload_sessions.py:755-806 | a completer that got as far as publishing never meets the unique constraints or a stale version, and its one commit inserts the artifact and completes the session |
| UploadTheorems.SessionLifecycle | apps/api/src/platform_api/api/upload_sessions.py:277-285 | an active session reserves its declared size and any other 0; once inactive never active again, COMPLETED and ABORTED are final, EXPIRED becomes COMPLETED or stays; an equal version means an equal row |
| UploadTheorems.RunIsLater | apps/api/src/platform_api/db/models.py:180-187 | any further steps of anyone only move rows forward, never rewrite the bytes published under a key and never forget a delete call |
| UploadTheorems.NeverDeletesServed | apps/api/src/platform_api/modules/artifact/maintenance.py:141-187 | once delete was called on a key, every artifact of that key, now or ever after, is DELETING or DELETED, however stale the work list of the sweeper was |
| UploadTheorems.IntegrityHolds | apps/api/src/platform_api/api/upload_sessions.py:743-771 | an artifact that is or ever becomes AVAILABLE has the declared size and digest in the bytes published under its key; QUARANTINED means they differ; those bytes never change |
| UploadTheorems.OutboxAgrees | apps/api/src/platform_api/api/artifacts.py:263-295 | the event of highest rank committed for an artifact names its status, and there is exactly one deleted event if and only if the status is DELETED |
| UploadTheorems.ServedObjectsAreThere | apps/api/src/platform_api/modules/artifact/maintenance.py:226-275 | unless an outsider loses an object, every artifact that is not being deleted has its object in the store, with the size and digest that were verified: no sweeper removes it, the orphan sweep included |
| UploadTheorems.CrashFree | apps/api/src/platform_api/api/upload_sessions.py:719-806 | a completer that meets no fault after the remote call publishes one artifact with the verdict on the assembled bytes |
| UploadTheorems.RetryPublishes | apps/api/src/platform_api/api/upload_sessions.py:697-754 | a whole fault-free call on an unexpired COMPLETING session whose object is already in the store publishes it through the HEAD fallback, although completing again reports NOT_FOUND |
| UploadTheorems.CrashRecovery | apps/api/src/platform_api/api/upload_sessions.py:697-754 | the remote completion took effect and the handler died; after any further steps of anyone a fault-free retry publishes the very artifact the crash-free handler would have published |
| UploadTheorems.RecoveryFindsObject | apps/api/src/platform_api/api/upload_sessions.py:719-732 | as long as the session is COMPLETING, whatever others do meanwhile, the retry finds the object with the assembled bytes, unless an outsider lost it |
| UploadTheorems.OneVerdict | apps/api/src/platform_api/api/upload_sessions.py:755-772 | whoever publishes a session, now or later, gives the verdict on the first bytes written under its key |
| ExpiredSessions.LeavesExpiredOnlyByPublishing | apps/api/src/platform_api/api/upload_sessions.py:703-718 | in a reachable state a step takes a session out of EXPIRED if and only if it is the step that publishes that session |
| ExpiredSessions.ExpiredIsFinal | apps/api/src/platform_api/api/upload_sessions.py:697-754 | the exact condition in every reachable state: an EXPIRED session stays EXPIRED in every run if and only if no transaction has verified its object, none is past its checkpoint while the object is in the store, and none is before its remote call while the remote upload exists |
| ExpiredSessions.ExpiredCompletesIff | apps/api/src/platform_api/api/upload_sessions.py:697-806 | on every consistent state: some run completes an EXPIRED session if and only if one of these three holds |
| ExpiredSessions.ExpiredIsCompleted | apps/api/src/platform_api/api/upload_sessions.py:703-718 | from any state with a completer at the checkpoint whose parts can be assembled, a read expires the session and the completer completes it |
| UploadScenario.ExpiredIsCompleted | apps/api/src/platform_api/api/upload_sessions.py:703-718 | a concrete run from the empty database takes a session from COMPLETING to EXPIRED to COMPLETED |
| RegisteredParts.PartsChangeOnlyByRegistration | apps/api/src/platform_api/api/upload_sessions.py:551-575 | over every step of everyone: the parts of a session change if and only if a registration that read the session UPLOADING and in time brings a valid new number, and then by that part alone |
| RegisteredParts.PartsFrozenIff | apps/api/src/platform_api/api/upload_sessions.py:554-575 | the exact condition: the parts of a session past UPLOADING are unchanged in every run if and only if no open transaction still takes it for UPLOADING or all part numbers are taken |
| RegisteredParts.ManifestStaysAccepted | apps/api/src/platform_api/api/upload_sessions.py:682-695 | then a manifest that was accepted is accepted by every later retry |
| UploadScenario.PartsGrowWhileCompleting | apps/api/src/platform_api/api/upload_sessions.py:554-575 | a concrete run from the empty database in which a COMPLETING session gets another part |
| UploadTheorems.DeletionIsRecorded | apps/api/src/platform_api/api/artifacts.py:261-295 | for every interleaving between read and write: a delete request is recorded if and only if the row it read had the version asked for and was not DELETED, and was DELETING or has not been written since; then the artifact is DELETING or DELETED, otherwise nothing changes |
| ArtifactPassRuns.RecordedAfterDeletion | apps/api/src/platform_api/api/artifacts.py:261-295 | a request that read a DELETING artifact is recorded although the sweeper has deleted it since |
| UploadTheorems.DeletionIsRecordedEachTime | apps/api/src/platform_api/api/artifacts.py:261-295 | with nobody in between: if and only if the version matches and the artifact is not DELETED, first or repeated |
| UploadInvariant.LocalStable | apps/api/src/platform_api/api/upload_sessions.py:246-270 | what a transaction has read under a lock or remembers with its version stays true, as far as it relies on it, while others take steps; for a create, the quota it read stays an upper bound |
| UploadSteps.UpdateUploadGood | apps/api/src/platform_api/db/models.py:180-187 | an UPDATE guarded by the remembered version, of any row it may be applied to, keeps every table invariant and moves the row forward |
| UploadWrites.InsertUploadGood | apps/api/src/platform_api/api/upload_sessions.py:341-366 | inserting a session under the organization lock keeps every invariant, the quota of every organization included |
| UploadWrites.CompleteRemoteGood | apps/api/src/platform_api/api/upload_sessions.py:719-736 | the remote completion, failing or not, before or after its effect, keeps every invariant |
| ArtifactSteps.CommitExpiredGood | apps/api/src/platform_api/modules/artifact/maintenance.py:71-122 | the sweeper transaction that expires a batch keeps every invariant, although the batch was read without locks |
| ArtifactSteps.PublishGood | apps/api/src/platform_api/api/upload_sessions.py:743-806 | publishing keeps every invariant |
| ArtifactSteps.ActGood | apps/api/src/platform_api/api/upload_sessions.py:313-402 | every step of every handler keeps the invariant and the lock and version discipline the others rely on |
| ArtifactSteps.SweepGood | apps/api/src/platform_api/modules/artifact/maintenance.py:71-275 | so does every step of every sweeper |
| ArtifactSteps.RunKeepsInv | apps/api/src/platform_api/db/models.py:187-255 | every run from a state that satisfies the invariant ends in one |
| Completion.VerifyObject | apps/api/src/platform_api/modules/artifact/completion.py:33-52 | for every chunking, empty chunks included, and whatever size HEAD reported, the result has the byte count and the digest of the concatenated chunks and otherwise what HEAD reported |
| UploadHandlers.UploadService.ExpireIfNeeded | apps/api/src/platform_api/api/upload_sessions.py:277-285 | tells whether the session was active and past its time, and then, and only then, ends it and frees its reservation |
| UploadHandlers.UploadService.GetUpload | apps/api/src/platform_api/api/upload_sessions.py:405-445 | reading a session is its machine steps, lazy expiry included; an unknown session is refused and nothing changes |
| UploadHandlers.UploadService.CreateUpload | apps/api/src/platform_api/api/upload_sessions.py:326-397 | alone, the work of create is exactly the state change and the answer of its machine steps: too large, both quota refusals, or the new session |
| UploadHandlers.UploadService.SignParts | apps/api/src/platform_api/api/upload_sessions.py:449-538 | signing is its machine steps: expiry, the state conflicts, the start of the remote upload with its failure before or after the effect, and the answer when a URL cannot be signed |
| UploadHandlers.UploadService.CancelUpload | apps/api/src/platform_api/api/upload_sessions.py:843-858 | the work of cancel is its machine steps: expiry, refusal, a failing abort call after which nothing is written, and the repeated cancel |
| UploadHandlers.UploadService.DeleteArtifact | apps/api/src/platform_api/api/artifacts.py:261-295 | the work of delete is its machine steps: version mismatch, already deleted, repeated request, first request |
| CommandHandlers.CommandService.CreateCommand | apps/api/src/platform_api/api/upload_sessions.py:313-402 | the whole handler: the size check comes before the key is claimed, a recorded command is answered from its record and a rejected one turned down with nothing changed, otherwise the session is created and the record with its response commits with it, or nothing is recorded |
| CommandHandlers.CommandService.CancelCommand | apps/api/src/platform_api/api/upload_sessions.py:821-892 | the whole handler: a recorded command is answered from its record and a rejected one turned down with nothing changed, otherwise the session is cancelled as the machine cancels it and the record with its response commits with it, or nothing is recorded |
| CommandHandlers.CommandService.DeleteCommand | apps/api/src/platform_api/api/artifacts.py:237-300 | the whole handler: a recorded command is answered from its record and a rejected one turned down with nothing changed, otherwise the deletion is requested as the machine requests it and the record with its response commits with it, or nothing is recorded |
| CommandHandlers.CommandService.CompleteCommand | apps/api/src/platform_api/api/upload_sessions.py:630-817 | the key is required and bounded in length; then the call is its machine steps, and no command is recorded |
| CommandHandlers.CommandService.Conclude | apps/api/src/platform_api/common/reliability.py:100-108 | a success completes the command before it commits; a raised refusal leaves records and effects as they were |
| CommandHandlers.RecordedIsReplayed | apps/api/src/platform_api/common/reliability.py:78-97 | a recorded command is never carried out again: the same request gets the recorded response, another one a conflict |
| UploadHandlers.UploadService.RegisterUploadPart | apps/api/src/platform_api/api/upload_sessions.py:542-602 | registration is its machine steps: number check first, expiry, state conflict, repeated and conflicting parts |
| UploadHandlers.UploadService.CheckCompletion | apps/api/src/platform_api/api/upload_sessions.py:650-718 | the part of complete up to the second lock is its machine steps and leaves the row the handler goes on with |
| UploadHandlers.UploadService.CompleteOnStore | apps/api/src/platform_api/api/upload_sessions.py:719-732 | the remote completion with its HEAD fallback is its machine steps |
| UploadHandlers.UploadService.PublishObject | apps/api/src/platform_api/api/upload_sessions.py:733-806 | verification and publication are their machine steps, for every chunking of the download |
| UploadHandlers.UploadService.InsertArtifact | apps/api/src/platform_api/api/upload_sessions.py:743-806 | the verdict, the artifact, the completed session and the event, or the constraint violation |
| UploadHandlers.UploadService.CompleteUpload | apps/api/src/platform_api/api/upload_sessions.py:630-817 | the whole call is its machine steps, on every path and with every combination of storage faults |
| UploadHandlers.CallIsRun | apps/api/src/platform_api/api/upload_sessions.py:313-402 | a call that runs alone is a run of the machine, so its result is a state concurrent calls can reach too and the service keeps the invariant |
| UploadHandlers.CheckedAlone | apps/api/src/platform_api/api/upload_sessions.py:650-718 | what the checks of complete decide, case by case, when nobody interferes |
| UploadHandlers.CancelledAlone | apps/api/src/platform_api/api/upload_sessions.py:843-858 | what cancel decides, case by case, when nobody interferes |
| UploadHandlers.CompletedIsReplayed | apps/api/src/platform_api/api/upload_sessions.py:660-668 | in every consistent state a completed session answers each further complete call with its one artifact, whatever the manifest, clock and store, and nothing changes |
| PartLists.ChecksPassIff | apps/api/src/platform_api/api/upload_sessions.py:682-695 | among any other transactions: a complete call that holds the row passes the checks if and only if the session is UPLOADING or COMPLETING and in time, its list names exactly the registered parts with their etags in increasing order of number, and their sizes add up to the declared size; with another list it answers PART_LIST_MISMATCH and nothing changes |
| PartLists.AcceptedIffWhole | apps/api/src/platform_api/api/upload_sessions.py:682-695 | the comparisons of the list and of the sum accept exactly such a list, told with a sum over the map and an order that the query does not define |
| PartLists.ReachedNumbered | apps/api/src/platform_api/api/upload_sessions.py:552-553 | in every run the part numbers on record are from 1 to 10000 |
| UploadDecisions.CancelsIff | apps/api/src/platform_api/api/upload_sessions.py:843-857 | a cancel of a session that is not past its time, whose abort call does not fail, ends ABORTED with nothing reserved and no remote upload if and only if the session was PENDING_UPLOAD, UPLOADING or ABORTED; a COMPLETING, COMPLETED, EXPIRED or FAILED one is refused with nothing changed |
| UploadDecisions.CancelDecides | apps/api/src/platform_api/api/upload_sessions.py:843-858 | cancel in all cases, statuses and row fields written out: an overdue session is expired, a failing abort call leaves the tables as they are |
| UploadDecisions.CreateDecides | apps/api/src/platform_api/api/upload_sessions.py:326-366 | create in all cases: the size, then the number of open sessions of the organization, then the sum of their reservations decide, as a set and a sum over it; the new row reserves its whole size |
| UploadDecisions.GetDecides | apps/api/src/platform_api/api/upload_sessions.py:417-445 | a read expires an open session whose time is up and changes nothing else |
| UploadDecisions.RegisterDecides | apps/api/src/platform_api/api/upload_sessions.py:552-575 | register in all cases: number, time, status, a repeated and a conflicting part, and the new part |
| UploadDecisions.SignDecides | apps/api/src/platform_api/api/upload_sessions.py:477-538 | sign in all cases: the first call starts and records the remote upload, an UPLOADING session is only signed for, and what each failure leaves |
| UploadDecisions.CheckDecides | apps/api/src/platform_api/api/upload_sessions.py:660-718 | the checks of complete in all cases: the replay, the time, the status, the part list, and the checkpoint |
| UploadDecisions.PublishDecides | apps/api/src/platform_api/api/upload_sessions.py:743-806 | the artifact row, the session row and the event that follow from size and digest of the object |
| UploadDecisions.DeleteDecides | apps/api/src/platform_api/api/artifacts.py:261-295 | delete in all cases: version, already deleted, repeated and first request |
| Maintenance.MaintenanceService.ExpireBatch | apps/api/src/platform_api/modules/artifact/maintenance.py:71-122 | one loop over the batch ends the active rows, counts them and leaves the work list of remote uploads |
| Maintenance.MaintenanceService.RecordUploadFailure | apps/api/src/platform_api/modules/artifact/maintenance.py:277-286 | raises the attempts of the row and schedules the next one after the backoff |
| Maintenance.MaintenanceService.AbortTask | apps/api/src/platform_api/modules/artifact/maintenance.py:123-139 | aborts one remote upload and clears or reschedules its row; NOT_FOUND counts as done |
| Maintenance.MaintenanceService.ExpireSessions | apps/api/src/platform_api/modules/artifact/maintenance.py:71-139 | the pass takes the due rows that expired first, a batch of them, ends them and aborts their remote uploads one by one |
| Maintenance.MaintenanceService.DeleteArtifacts | apps/api/src/platform_api/modules/artifact/maintenance.py:141-187 | the pass over DELETING artifacts, oldest first, whatever calls fail |
| Maintenance.MaintenanceService.ReconcileMissing | apps/api/src/platform_api/modules/artifact/maintenance.py:189-224 | the pass over AVAILABLE artifacts, whatever calls fail |
| Maintenance.MaintenanceService.DeleteOrphans | apps/api/src/platform_api/modules/artifact/maintenance.py:226-275 | the pass over the listing, with its break after a batch of suspects |
| Maintenance.OnlyOrphansAreRemoved | apps/api/src/platform_api/modules/artifact/maintenance.py:226-275 | that pass leaves alone every session key, every key of an artifact that is not deleted, every young object and every other kind of key, touches no table and looks at no more than a batch |
| MaintenanceTheorems.SweepRow | apps/api/src/platform_api/modules/artifact/maintenance.py:71-139 | what one pass makes of one row, selected or not, with or without remote upload, failing or not |
| MaintenanceTheorems.PassesTakeBatches | apps/api/src/platform_api/modules/artifact/maintenance.py:71-139 | after any number of fault-free passes the ordered list of due rows is the old one without its first passes times batch rows |
| MaintenanceTheorems.Drain | apps/api/src/platform_api/modules/artifact/maintenance.py:71-139 | n due rows are gone after ceil(n / batch) fault-free passes and not before; before that n minus passes times batch are left |
| MaintenanceTheorems.DrainedRows | apps/api/src/platform_api/modules/artifact/maintenance.py:71-139 | then no active session is past due and no EXPIRED, ABORTED or FAILED one holds a remote upload, except rows that wait for another try |
| SweeperBatches.ExpiryTakes | apps/api/src/platform_api/modules/artifact/maintenance.py:73-104 | the query takes the sessions that are open with their time up, or ended with a remote upload left, and whose next try is due: the first by expiry time and id, as many as the batch allows |
| SweeperBatches.SessionsDrain | apps/api/src/platform_api/modules/artifact/maintenance.py:71-139 | of n such sessions, count fault-free passes leave n less a batch for each, and none from ceil(n / batch) on |
| SweeperBatches.DeletionTakes | apps/api/src/platform_api/modules/artifact/maintenance.py:143-160 | the query takes the DELETING artifacts whose next try is due, failed ones included: the first by time of change and id, as many as the batch allows |
| SweeperBatches.DeletionPassDeletes | apps/api/src/platform_api/modules/artifact/maintenance.py:161-187 | a fault-free pass turns exactly the artifacts of its batch DELETED with their bookkeeping reset, and changes no other |
| SweeperBatches.DeletionsDrain | apps/api/src/platform_api/modules/artifact/maintenance.py:141-187 | of n DELETING artifacts whose next try is due, count fault-free passes leave n less a batch for each, and none from ceil(n / batch) on |
| SweeperBatches.ReconciliationTakes | apps/api/src/platform_api/modules/artifact/maintenance.py:190-201 | the query takes the AVAILABLE artifacts, the first by time of change and id, as many as the batch allows |
| SweeperBatches.ReconciliationFinds | apps/api/src/platform_api/modules/artifact/maintenance.py:202-224 | a fault-free pass fails exactly the artifacts of its batch whose objects are missing |
| SweeperBatches.OrphansAreRemoved | apps/api/src/platform_api/modules/artifact/maintenance.py:226-258 | a fault-free pass with room for the old items removes each of them whose key no session and no artifact that is not DELETED has, a key being v1/o/ and 32 hexadecimal digits |
| SweeperBatches.PassCounts | apps/api/src/platform_api/modules/artifact/maintenance.py:105-139 | a pass counts each session it expires once and each remote upload of its batch once, as aborted or as a failure |
| SweeperBatches.DeletionPassCounts | apps/api/src/platform_api/modules/artifact/maintenance.py:161-187 | a pass counts each artifact of its batch once, as deleted or as a failure |
| SweeperBatches.ChecksAreCounted | apps/api/src/platform_api/modules/artifact/maintenance.py:202-224 | a pass counts each row it fails as missing and each call that fails otherwise as a failure |
| SweeperBatches.OrphansAreCounted | apps/api/src/platform_api/modules/artifact/maintenance.py:226-263 | a pass with room counts each old orphan once, as deleted or as a failure |
| BackoffRuns.CleanupFollows | apps/api/src/platform_api/modules/artifact/maintenance.py:277-286 | over every step of everyone: the retry bookkeeping of a session changes only when a sweeper commits the outcome of a try of it, and then as the outcome says |
| BackoffRuns.AttemptsAreFailures | apps/api/src/platform_api/modules/artifact/maintenance.py:277-286 | in every run of the concurrent machine the attempts a row records are its failures since it last succeeded |
| BackoffRuns.NextTryWaits | apps/api/src/platform_api/modules/artifact/maintenance.py:277-301 | in every run: after the k-th failure in a row is committed by a sweeper with clock now, any sweeper that selects the row before another outcome is committed has a clock of at least now plus the backoff of k, with overlapping, dying and stale sweepers and any handlers |
| MaintenanceTheorems.AttemptsCountFailures | apps/api/src/platform_api/modules/artifact/maintenance.py:277-286 | the same for the service: in every history of whole passes, faults and other writers between them |
| MaintenanceTheorems.BackoffSpacing | apps/api/src/platform_api/modules/artifact/maintenance.py:277-301 | the same spacing between passes of the service |
| MaintenanceTheorems.BackoffTimes | apps/api/src/platform_api/modules/artifact/maintenance.py:299-301 | the backoff starts at 30 s, doubles up to 1920 s and is 3600 s from the eighth failure on |
| MaintenanceTheorems.DeletePass | apps/api/src/platform_api/modules/artifact/maintenance.py:141-187 | only DELETING rows change status, to DELETED; with a store that does not lie, only when the object is gone; with no fault, all of the batch; one event for each |
| MaintenanceTheorems.ReconcilePass | apps/api/src/platform_api/modules/artifact/maintenance.py:189-224 | only AVAILABLE rows change, to FAILED, and with a store that does not lie only when the object is missing; with no fault the others have theirs |
| MaintenanceRuns.PassIsRun | apps/api/src/platform_api/modules/artifact/maintenance.py:71-139 | the pass over expired sessions, faults included and whatever else is open, is a run of the concurrent machine, as long as nobody holds a row of its batch, for which it would wait |
| OrphanPassRuns.OrphanPassIsRun | apps/api/src/platform_api/modules/artifact/maintenance.py:226-275 | the pass over the listing, faults included, is a run of the concurrent machine that leaves every table as it is |
| ArtifactPassRuns.DeletePassIsRun | apps/api/src/platform_api/modules/artifact/maintenance.py:141-187 | the pass over DELETING artifacts, faults included, is a run of the concurrent machine and calls delete for exactly the keys of its batch |
| ArtifactPassRuns.ReconcilePassIsRun | apps/api/src/platform_api/modules/artifact/maintenance.py:189-224 | so is the pass over AVAILABLE artifacts, which calls delete for nothing |
| MaintenanceRuns.HandlersArePlausible | apps/api/src/platform_api/modules/artifact/maintenance.py:277-286 | no run of handlers, clients and outsiders touches the retry bookkeeping of a row |
| JsNumber.RotateIsRotr | apps/web/src/fileHash.ts:12 | the two JavaScript shifts and the or are ROTR of FIPS 180-4, up to the sign of the 32-bit result |
| JsNumber.ExpressionIsSmallSigma0 | apps/web/src/fileHash.ts:53 | the signed exclusive or is the small sigma 0 of section 4.1.2 of FIPS 180-4 |
| JsNumber.ExpressionIsSmallSigma1 | apps/web/src/fileHash.ts:54 | the same for small sigma 1 |
| JsNumber.ExpressionIsBigSigma0 | apps/web/src/fileHash.ts:62 | the same for big sigma 0 |
| JsNumber.ExpressionIsBigSigma1 | apps/web/src/fileHash.ts:59 | the same for big sigma 1 |
| JsNumber.ChoiceIsCh | apps/web/src/fileHash.ts:60 | the signed choice is Ch |
| JsNumber.MajorityIsMaj | apps/web/src/fileHash.ts:63 | the signed majority is Maj |
| FileHash.LengthField | apps/web/src/fileHash.ts:39-43 | below 2^53 bytes the two 32-bit halves are the 64-bit length in bits |
| FileHash.PadIsWholeBlocksAndTail | apps/web/src/fileHash.ts:36-43 | the padded message of section 5.1.1 of FIPS 180-4 is the whole blocks already processed and the one or two final blocks |
| FileHash.PaddedWord | apps/web/src/fileHash.ts:45 | toString(16).padStart(8, 0) is eight hexadecimal digits |
| FileHash.Sha256.Update | apps/web/src/fileHash.ts:20-33 | for every cutting into calls the object has absorbed the concatenation: the state is the hash of its whole blocks and the buffer holds the rest |
| FileHash.Sha256.Words | apps/web/src/fileHash.ts:49-56 | the in-place loops compute the message schedule |
| FileHash.Sha256.RunRounds | apps/web/src/fileHash.ts:57-66 | the 64 turns over eight variables are the rounds of section 6.2.2 of FIPS 180-4 |
| FileHash.Sha256.Process | apps/web/src/fileHash.ts:48-69 | one call is the compression function |
| FileHash.Sha256.FinalBlocks | apps/web/src/fileHash.ts:36-43 | the final array is the pending bytes, 0x80, zeros and the length |
| FileHash.Sha256.DigestHex | apps/web/src/fileHash.ts:35-46 | the digest is SHA-256 of everything passed to update, as sections 5.1.1 and 6.2 of FIPS 180-4 define it, in lower-case hexadecimal |
| FileHash.Sha256File | apps/web/src/fileHash.ts:80-90 | hashing a file slice by slice of 4 MiB gives its SHA-256, or aborts if and only if the signal is set when some slice is due |
| Sha256Constants.InitialIsSquareRoot | apps/web/src/fileHash.ts:11 | each initial word is the first 32 bits of the fractional part of the square root of its prime (section 5.3.3 of FIPS 180-4) |
| Sha256Constants.RoundConstantIsCubeRoot | apps/web/src/fileHash.ts:1-10 | each round constant is the first 32 bits of the fractional part of the cube root of its prime (section 4.2.2) |
| Sha256Constants.FirstPrimes | apps/web/src/fileHash.ts:1-11 | those are the first 64 primes: from 2 on, each prime and none between two neighbours |
| Sha256Spec.RotrMovesBits | apps/web/src/fileHash.ts:12 | rotation takes bit i + n modulo 32 to bit i |
| Sha256Spec.ChoiceAndMajority | apps/web/src/fileHash.ts:60-63 | the choice and the majority, bit by bit |
| Sha256Spec.HexIsNumeral | apps/web/src/fileHash.ts:45 | the digest string consists of digits in small letters and stands for the number |
| UploadClient.PartsTile | apps/web/src/upload.ts:96-117 | the part slices put together are the file, and each is non-empty and at most 8 MiB |
| UploadClient.PartIsSlice | apps/web/src/upload.ts:96-103 | part n is the n-th slice of 8 MiB of the file, the last one what is left |
| UploadClient.PartsNeeded | apps/web/src/upload.ts:99 | as many parts as hold the file, and not one more |
| UploadClient.UploadController.UploadPartWithRetry | apps/web/src/upload.ts:119-132 | three tries, cut short when the user paused or the signal is aborted; the first success wins, and the bytes shown follow the progress |
| UploadClient.UploadController.UploadMissingParts | apps/web/src/upload.ts:96-117 | keeps registered parts, adds the server answers for parts of the file only, and calls completeUpload only with every part registered and the sorted manifest; it does call it when the missing parts get through, and then shows the bytes registered |
| UploadClient.UploadController.Start | apps/web/src/upload.ts:33-52 | refuses while busy; otherwise the session is declared with the size and SHA-256 of the file, and a manifest is sent only with every part registered, at its size if the server answers with the size it was given |
| UploadClient.UploadController.Resume | apps/web/src/upload.ts:60-79 | takes over what the server lists, stops when a call fails or the session has ended, starts again without one, and finishes if the missing parts get through |
| UploadClient.ManifestPasses | apps/api/src/platform_api/api/upload_sessions.py:163-174 | the manifest of a loop that ran to the end has at most 2560 parts for a file within 20 GiB, is strictly increasing, passes validate_parts, and passes the comparison with the registered rows and the declared size; the bytes shown are those of the file |
| UploadClient.HonestUploadIsAvailable | apps/api/src/platform_api/api/upload_sessions.py:719-771 | a file hashed and uploaded by the browser, whose parts the store kept, is published AVAILABLE with its size and SHA-256 by a handler that stands before the remote call and meets no fault |
| UploadClient.HonestCallIsAvailable | apps/api/src/platform_api/api/upload_sessions.py:650-806 | end to end from an UPLOADING session: one call, beside any others that do not hold the row, passes the checks, the checkpoint and the verification and publishes the file AVAILABLE |
| UploadClient.SmoothGetsThrough | apps/web/src/upload.ts:119-132 | at most two failures without a click do not stop a part |
| UploadClient.StopsTrying | apps/web/src/upload.ts:121-131 | a try that fails after a pause or a cancel is the last |
| UploadClient.ClickDecides | apps/web/src/upload.ts:57-94 | pause acts on a running upload only, cancel aborts at once and its outcome decides the phase, whatever was clicked before |
| UploadClient.SortedLikeServer | apps/web/src/upload.ts:113 | the browser's sort gives the order of the server's query |
| Idempotency.SameAnswers | apps/api/src/platform_api/common/reliability.py:78-97 | all callers of one key that get an answer get the same status and body for the same request, and only the first is no replay |
| Idempotency.AtMostOneEffect | apps/api/src/platform_api/common/reliability.py:39-97 | in every interleaving a key has exactly one committed effect if it has a record, which the record matches, and none otherwise |
| Idempotency.NoneLeftProcessing | apps/api/src/platform_api/common/reliability.py:100-108 | no committed record is left PROCESSING if and only if every transaction of the run completed its command before it committed |
| Idempotency.CommittedIsFinal | apps/api/src/platform_api/common/reliability.py:78-97 | after a commit every later begin with the same request hash replays the identical response, or is told it is in progress if there is none, and every other hash is a conflict; none executes anything |
| Idempotency.LostAnswerIsReplayed | apps/api/src/platform_api/common/reliability.py:78-97 | the server dies between commit and answer: the effect stands, nobody was told, and the same request, whenever it comes again, gets the lost response |
| Idempotency.KeyIsNeeded | apps/api/src/platform_api/common/reliability.py:46-51 | without a key of 16 to 128 characters a command neither executes nor replays, and nothing changes |
| Idempotency.KeyDecides | apps/api/src/platform_api/common/reliability.py:52-97 | with one: when it waits, when it executes, and what a record answers |
| Idempotency.CommandStore.CommitCommand | apps/api/src/platform_api/common/reliability.py:100-108 | record, response and effect become visible together |
| Idempotency.RunKeepsInv | apps/api/src/platform_api/db/models.py:280-292 | records and effects match one to one and at most one open transaction claims a key, in every run |
| Idempotency.CommandStore.BeginCommand | apps/api/src/platform_api/common/reliability.py:39-97 | all six outcomes of begin, tied to the step of the machine |
| Idempotency.CommandStore.CompleteCommand | apps/api/src/platform_api/common/reliability.py:100-108 | the response is stored with the open claim |
| OrganizationAccess.AlwaysAnOwner | apps/api/src/platform_api/api/organization_access.py:64-106 | every organization keeps at least one owner in every interleaving of role changes, removals, invitations and rollbacks |
| OrganizationAccess.OwnersChangeByOwners | apps/api/src/platform_api/api/organization_access.py:77-106 | the owners change only when the holder of the row lock writes for an actor who is an owner at that moment, and only by the member it names |
| OrganizationAccess.StepIsAtomic | apps/api/src/platform_api/api/organization_access.py:36-106 | a transaction that read actor, target and count at different times answers, and changes the table, as the indivisible operation would at the moment it answers |
| OrganizationAccess.Serializable | apps/api/src/platform_api/api/organization_access.py:36-106 | every run leaves the table, and gave the answers, of the same calls served one at a time |
| OrganizationAccess.RunKeepsInv | apps/api/src/platform_api/api/organization_access.py:36-47 | what a lock holder has read stays true until it commits, and there is one holder for each organization |
| OrganizationAccess.ExecuteKeepsOwner | apps/api/src/platform_api/api/organization_access.py:64-74 | no operation removes the last owner |
| OrganizationAccess.CommandDecides | apps/api/src/platform_api/api/organization_access.py:36-106 | who may do what, in all cases: a plain member nothing, an admin whatever neither makes nor touches an owner, an owner everything as long as another owner stays |
| OrganizationAccess.AdminChangesRole | apps/api/src/platform_api/api/organization_access.py:77-93 | an admin changes a member who is no owner to a role other than owner |
| OrganizationAccess.JoinDecides | apps/api/src/platform_api/api/organizations.py:380-402 | an acceptance adds the newcomer with the role of the invitation and touches nobody else; a member is refused |
| OrganizationAccess.JoinKeepsOwners | apps/api/src/platform_api/api/organizations.py:380-402 | accepting an invitation never changes the owners |
| OrganizationAggregate.Organization.AddMember | apps/api/src/platform_api/modules/organization/domain.py:27-30 | adds a member unless there already is one of that id |
| OrganizationAggregate.Organization.ChangeMemberRole | apps/api/src/platform_api/modules/organization/domain.py:32-36 | changes the role in place, or refuses an unknown member or the last active owner; nobody else changes |
| OrganizationAggregate.Organization.Remove | apps/api/src/platform_api/modules/organization/domain.py:38-42 | removes one member, or refuses an unknown one or the last active owner |
| OrganizationAggregate.Organization.HasAnotherOwner | apps/api/src/platform_api/modules/organization/domain.py:50-58 | finds an active owner other than the excluded one if and only if there is one |
| OrganizationAggregate.AggregateAlwaysOwned | apps/api/src/platform_api/modules/organization/domain.py:27-58 | an aggregate with an active owner keeps one through any sequence of additions, role changes and removals |
| OrganizationAggregate.GuardsCompared | apps/api/src/platform_api/api/organization_access.py:64-74 | counting and looking for another active owner agree if and only if some other owner is active whenever there is another owner; where they differ it is counting that lets the change pass |
| OrganizationAggregate.ServiceMatchesAggregate | apps/api/src/platform_api/modules/organization/domain.py:32-58 | with every member active and an owner acting the locked service and the aggregate give the same members and the same answer |
| JsonPointer.DecodeEncode | apps/api/src/platform_api/openapi_policy.py:19 | the two replacements invert the escaping of section 3 of RFC 6901 for every string |
| JsonPointer.EncodeDecode | apps/api/src/platform_api/openapi_policy.py:19 | escaping undoes them exactly on the tokens of the grammar, where they are the one-pass reading of section 4 of RFC 6901 |
| JsonPointer.SplitJoin | apps/api/src/platform_api/openapi_policy.py:18 | splitting inverts joining for tokens without a slash |
| JsonPointer.ResolveReference | apps/api/src/platform_api/openapi_policy.py:11-20 | the loop follows the tokens into dictionaries or raises |
| JsonPointer.ReferenceResolves | apps/api/src/platform_api/openapi_policy.py:11-20 | every value that can be reached by keys is what its reference resolves to, whatever the keys contain |
| JsonPointer.ResolveExact | apps/api/src/platform_api/openapi_policy.py:11-20 | a reference resolves to a value if and only if it is #/ and tokens between slashes, and looking up the unescaped tokens one after the other finds the value |
| OpenApiPolicy.ReferenceDecreases | apps/api/src/platform_api/openapi_policy.py:28-37 | following a reference that was not seen uses one up: the measure under which the walk ends on every finite document, cyclic ones included |
| OpenApiPolicy.SchemaJustified | apps/api/src/platform_api/openapi_policy.py:23-46 | whatever was seen before, the walk yields only reachable names and raises only if a reachable schema is malformed |
| OpenApiPolicy.PathCovered | apps/api/src/platform_api/openapi_policy.py:23-46 | along a path without repeated references the walk meets every schema |
| OpenApiPolicy.WithoutRepeats | apps/api/src/platform_api/openapi_policy.py:28-37 | any path can be cut to one without repeated references and with the same ends |
| OpenApiPolicy.WalkIsComplete | apps/api/src/platform_api/openapi_policy.py:28-37 | cutting at a repeated reference loses nothing: started with nothing seen, the walk yields every reachable name |
| OpenApiPolicy.WalkIsExact | apps/api/src/platform_api/openapi_policy.py:23-46 | the walk raises if and only if some reachable schema is malformed; otherwise it yields a name if and only if it is a key of properties of a reachable schema; reachable through references, properties, items, allOf, anyOf and oneOf as the document has them |
| OpenApiPolicy.MembersMean | apps/api/src/platform_api/openapi_policy.py:39-46 | the members visited are exactly the values under properties, the dictionary under items and the elements of the three lists, and their names the keys of properties |
| OpenApiPolicy.OperationFieldsExact | apps/api/src/platform_api/openapi_policy.py:49-68 | an operation raises if and only if the document is malformed there; otherwise a field is yielded if and only if a parameter of it or its path is that field, or it is a body name that can be reached from a media type |
| OpenApiPolicy.CheckFields | apps/api/src/platform_api/openapi_policy.py:90-102 | one operation contributes exactly its unapproved fields whose name reads as one of the four identities |
| InputNames.NormalizeReads | apps/api/src/platform_api/openapi_policy.py:71-72 | a name is normalized to a word of small letters and underscores if and only if, between white space, it spells out that word in either case and with hyphens or underscores |
| OpenApiPolicy.CheckPath | apps/api/src/platform_api/openapi_policy.py:86-102 | one path contributes exactly those of its operations, or raises if and only if one of them does |
| OpenApiPolicy.ForbiddenIdentityInputs | apps/api/src/platform_api/openapi_policy.py:75-103 | the result is exactly the set of forbidden and unapproved inputs that some operation declares; it raises if and only if the document or an operation is malformed |
| Keyset.PageFacts | apps/api/src/platform_api/api/artifacts.py:155-182 | a page is ordered, comes from the rows after the cursor, and its next cursor splits them |
| Keyset.WalkIsOrdered | apps/api/src/platform_api/api/artifacts.py:155-182 | whatever is inserted or removed between pages, a walk shows rows in order and none twice |
| Keyset.WalkIsSound | apps/api/src/platform_api/api/artifacts.py:155-182 | every row shown was there when its page was fetched |
| Keyset.WalkIsComplete | apps/api/src/platform_api/api/artifacts.py:155-182 | a finished walk shows every row that matched throughout exactly once, for any limit from 1 on |
| Keyset.FixedTableWalk | apps/api/src/platform_api/api/projects.py:332-360 | on a table that does not change the walk ends with the filtered sorted table |
| Keyset.PagesIsCeiling | apps/api/src/platform_api/api/projects.py:332-360 | and takes max(1, ceil(n / limit)) pages |
| Keyset.NewestFirst | apps/api/src/platform_api/api/artifacts.py:155-183 | in a walk of the artifact list creation times never increase, and ids decrease among equal ones, whatever changes between pages |
| Keyset.OldestFirst | apps/api/src/platform_api/api/projects.py:332-360 | in a walk of the project list they never decrease, and ids increase among equal ones |
| Cursor.CursorRoundTrip | apps/api/src/platform_api/api/artifacts.py:84-97 | base64url (section 5 of RFC 4648), padding stripped, padded again by the length modulo 4 and decoded is the identity on every byte sequence, a cursor consists of symbols alone and its length is never 1 modulo 4 |
| Cursor.DecodeEncode | apps/api/src/platform_api/api/projects.py:167-180 | decoding inverts encoding |
| Cursor.EncodePadding | apps/api/src/platform_api/api/projects.py:174-180 | padding again restores exactly what was stripped |
| Cursor.GroupIsBits | apps/api/src/platform_api/api/artifacts.py:84-88 | the four symbols of a group are the bits of its three bytes, six at a time (section 4 of RFC 4648) |
| Cursor.ShortGroupIsBits | apps/api/src/platform_api/api/artifacts.py:84-88 | and of a last group of one or two bytes, filled up with zeros and = |
| Cursor.AlphabetIsUrlSafe | apps/api/src/platform_api/api/artifacts.py:84-88 | the symbols are those of table 2 |

## Left out

- Assumed, not modelled: PostgreSQL row locks, READ COMMITTED reads, unique constraints and SQLAlchemy's version-checked UPDATE; they are the semantics of the steps.
- HTTP, authentication, project and organization authorization, tenancy policies, request schemas other than `validate_parts`, serialization and the parsing of If-Match.
- Presigned URLs; the case of a deployment without object storage; object metadata other than the size.
- Session and part events, audit events and aggregate versions of the outbox; only the events about artifacts are modelled.
- Commands and uploads as one concurrent machine: each is proved over all interleavings by itself, and their combination, in `CommandHandlers`, for a call that runs alone.  That handlers complete a command before they commit is what `CommandHandlers` shows; for the concurrent machine it is a property of the run, as `NoneLeftProcessing` says.
- Idempotency records are never deleted in the model, so the branch where a conflicting record has vanished is not reached; the request hash is an opaque string.
- The batch queries of the concurrent machine may return any matching rows; their order matters only in `Maintenance`, where `updated_at` is an input because the rows do not carry it.
- Wall-clock time is an input of each step and need not be monotonic; key patterns and the grace period of the orphan sweep are in `Maintenance`; the machine lets a sweeper look at every object, so it has more runs.
- Upload sessions never reach FAILED in the code; the status exists in the model for the query that mentions it.
- `cleanup_last_error`, `completed_at`, `deleted_at`, display names, content types and other columns that no decision reads.
- In the handlers the random object key and the remote upload id are inputs that were never used before.
- UploadClient.UploadController.Resume: overlapping loops after pause and resume are not modelled.
- Etags stand for what is left of them when white space around them is removed, as registration and completion do before they compare.
- The percentage that the upload controller displays; the bytes it is computed from are modelled.
- FileHash.Sha256.Update: for messages below 2^53 bytes, beyond which JavaScript cannot count them; read errors and progress callbacks of `sha256File` are not modelled.
- Case folding of letters that fold to nothing in a forbidden name (they are left as they are, which decides no name); a parameter whose `in` or `name` is not a string counts as raising; Python's recursion limit.
- Cursor: the JSON text inside a cursor is an opaque byte sequence, and input that base64 decoding tolerates beyond its alphabet is not modelled.
- Liveness of `_reconcile_missing` and `_delete_orphans`: a fixed batch may starve later rows, so none is claimed.
- `_check_version` and `_commit_project` of projects: the version check the artifact and session rows have, on one more table.
- Invitations beyond what an acceptance adds to an organization, project members, login, health checks, the storage adapter and its retries, the runner's advisory lock and timers, views and deployment.
