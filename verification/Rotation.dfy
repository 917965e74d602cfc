/** `rotation.rs`: rotation jobs. */
module Rotation {
  import opened Wrappers
  import opened Envelope

  datatype RotationJobStatus = StagedJob | Verified | Promoted | RolledBack | Failed

  datatype RotationJob = RotationJob(
    jobId: string,
    vaultId: string,
    secretRef: string,
    stagedVersion: nat,
    status: RotationJobStatus,
    createdAt: Stamp,
    updatedAt: Stamp,
    stagedRecord: SecretRecord,
    verifier: string,
    failureReason: Option<string>)

  function CreateJob(jobId: string, vaultId: string, secretRef: string, stagedVersion: nat, stagedRecord: SecretRecord,
                     now: int): RotationJob
  {
    RotationJob(jobId, vaultId, secretRef, stagedVersion, StagedJob, UtcMillis(now), UtcMillis(now), stagedRecord,
                "decrypt-self-test", None)
  }

  function Transition(job: RotationJob, status: RotationJobStatus, failureReason: Option<string>, now: int): RotationJob
  {
    job.(status := status, updatedAt := UtcMillis(now), failureReason := failureReason)
  }
}
