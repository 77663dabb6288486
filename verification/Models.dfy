/** The plain records shared by the backend and the worker. */
module Models {

  datatype Option<+T> = None | Some(value: T)

  datatype Result<+T, +E> = Ok(value: T) | Err(error: E)

  /** A point on the single UTC clock, in microseconds. */
  type Time = int

  /** A UTC calendar day. */
  type Date = int

  const SECOND: int := 1_000_000
  const DAY: int := 86_400 * SECOND

  function DateOf(t: Time): Date {
    t / DAY
  }

  /** A day is the 86,400 seconds from one midnight to the next. */
  lemma DateExact(t: Time, d: Date)
    ensures DateOf(t) == d <==> d * 86_400_000_000 <= t < (d + 1) * 86_400_000_000
  {
  }

  lemma DateMonotone(a: Time, b: Time)
    requires a <= b
    ensures DateOf(a) <= DateOf(b)
  {
  }

  type UserId = string
  type JobId = string
  type ContainerId = string  // Docker never hands out an empty id

  datatype JobStatus = Queued | Initializing | Training | Completed | Failed | Cancelled

  const ACTIVE: set<JobStatus> := {Queued, Initializing, Training}
  const QUEUED: set<JobStatus> := {Queued}
  /** The statuses in which a job occupies the one GPU. */
  const ON_GPU: set<JobStatus> := {Initializing, Training}

  datatype PolicyType = Act | SmolVla

  datatype SourceType = HfHub | ZipUpload

  datatype User = User(id: UserId, dailyQuotaUsed: nat, quotaResetDate: Option<Date>)

  datatype Progress = Progress(step: int, totalSteps: int, loss: real, updatedAt: Time)

  /** Why a job failed; each constructor is one message of the worker or backend. */
  datatype FailureReason =
    | HeartbeatTimeout
    | DatasetFetchFailed(detail: string)
    | ContainerLaunchFailed(detail: string)
    | ContainerExited(code: int, logs: string)
    | PackagingFailed(detail: string)
    | CheckpointUploadFailed

  datatype Job = Job(
    id: JobId,
    userId: UserId,
    policy: PolicyType,
    sourceType: SourceType,
    sourceRef: string,
    trainingSteps: int,
    status: JobStatus,
    containerId: Option<ContainerId>,
    heartbeatAt: Option<Time>,
    progress: Option<Progress>,
    cancelRequested: bool,
    checkpointPath: Option<string>,
    errorMessage: Option<FailureReason>,
    createdAt: Time,
    updatedAt: Time)

  function NewJob(id: JobId, userId: UserId, policy: PolicyType, sourceType: SourceType, sourceRef: string,
                  trainingSteps: int, now: Time): Job
  {
    Job(id, userId, policy, sourceType, sourceRef, trainingSteps, Queued, None, None, None, false, None, None, now, now)
  }

  function CheckpointPath(id: JobId): string {
    "checkpoints/" + id + ".zip"
  }
}
