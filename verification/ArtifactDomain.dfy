/** Statuses, table rows and the changes a commit makes to one row. */
module ArtifactDomain {
  import Sha256Spec

  datatype Option<+T> = None | Some(value: T)

  type Key = string        // an object key of the store
  type RemoteId = string   // a multipart upload of the store
  type Digest = string
  type Bytes = seq<Sha256Spec.Byte>
  type Time = int          // seconds

  // ----- modules/artifact/domain.py

  datatype UploadStatus = PendingUpload | Uploading | Completing | Completed | Aborted | Expired | UploadFailed
  datatype ArtifactStatus = Verifying | Available | Quarantined | Failed | Deleting | Deleted

  /** ACTIVE_UPLOAD_STATUSES */
  predicate IsActive(s: UploadStatus) { s.PendingUpload? || s.Uploading? || s.Completing? }

  predicate IsCancellable(s: UploadStatus) { s.PendingUpload? || s.Uploading? || s.Aborted? }

  /** Retry bookkeeping of the background sweeper. */
  datatype Cleanup = Cleanup(attempts: nat, nextAttempt: Option<Time>)

  const NO_CLEANUP := Cleanup(0, None)

  datatype Upload = Upload(
    org: nat, key: Key, size: nat, sha256: Digest, expiresAt: Time,
    status: UploadStatus, remote: Option<RemoteId>, reserved: nat, version: nat, cleanup: Cleanup)

  datatype Part = Part(etag: string, size: nat)

  datatype Artifact = Artifact(
    upload: nat, key: Key, size: nat, sha256: Digest, verified: bool,
    status: ArtifactStatus, version: nat, cleanup: Cleanup)

  // ----- Row changes; every UPDATE raises the version

  function NewUpload(org: nat, key: Key, size: nat, sha256: Digest, expiresAt: Time): Upload {
    Upload(org, key, size, sha256, expiresAt, PendingUpload, None, size, 1, NO_CLEANUP)
  }

  predicate IsPastDue(u: Upload, now: Time) { IsActive(u.status) && u.expiresAt <= now }

  function ExpiredRow(u: Upload): Upload { u.(status := Expired, reserved := 0, version := u.version + 1) }
  function StartedRow(u: Upload, remote: RemoteId): Upload { u.(status := Uploading, remote := Some(remote), version := u.version + 1) }
  function CheckpointRow(u: Upload): Upload { u.(status := Completing, version := u.version + 1) }
  function CompletedRow(u: Upload): Upload { u.(status := Completed, reserved := 0, version := u.version + 1) }
  function AbortedRow(u: Upload): Upload { u.(status := Aborted, reserved := 0, version := u.version + 1) }
  function ClearedRow(u: Upload): Upload { u.(remote := None, cleanup := NO_CLEANUP, version := u.version + 1) }
  function RetryUploadRow(u: Upload, now: Time): Upload { u.(cleanup := NextRetry(u.cleanup, now), version := u.version + 1) }

  function ArtifactRow(a: Artifact, status: ArtifactStatus): Artifact { a.(status := status, version := a.version + 1) }
  function DeletedRow(a: Artifact): Artifact { a.(status := Deleted, cleanup := NO_CLEANUP, version := a.version + 1) }
  function RetryArtifactRow(a: Artifact, now: Time): Artifact { a.(cleanup := NextRetry(a.cleanup, now), version := a.version + 1) }

  function Min(a: int, b: int): int { if a < b then a else b }

  function PowerOfTwo(n: nat): nat { if n == 0 then 1 else 2 * PowerOfTwo(n - 1) }

  /** `_backoff`: seconds to wait after this many failed attempts in a row. */
  function Backoff(attempts: nat): nat
    requires attempts > 0
  {
    Min(3600, 30 * PowerOfTwo(Min(attempts - 1, 7)))
  }

  function NextRetry(c: Cleanup, now: Time): Cleanup {
    Cleanup(c.attempts + 1, Some(now + Backoff(c.attempts + 1)))
  }

  predicate RetryDue(c: Cleanup, now: Time) { c.nextAttempt.Some? ==> c.nextAttempt.value <= now }
}
