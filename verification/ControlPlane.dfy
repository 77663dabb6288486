/** What one call of the backend or one tick of the worker does to everything they share:
    the job and user repositories, the Docker host, object storage and the job directories.
    Clock reads and the outcomes of external calls are inputs. */
module ControlPlane {
  import opened Models
  import opened JobStateMachine
  import opened JobStore
  import opened Quota
  import opened Heartbeat

  datatype ContainerState = Running | Exited(code: int)

  /** `jobLabel` is the job id under the service's own label; other workloads carry none. */
  datatype Container = Container(jobLabel: Option<JobId>, state: ContainerState)

  type Containers = map<ContainerId, Container>

  datatype World = World(
    store: Store,
    users: map<UserId, User>,
    containers: Containers,
    objects: set<string>,
    dirs: set<JobId>)

  datatype Outcome<+T> = Outcome(world: World, result: T)

  datatype WorkerError = UserMissing(userId: UserId)

  // ---- the Docker port ----------------------------------------------------------------------

  const SIGKILL_EXIT_CODE: int := 137

  function Killed(containers: Containers, victims: set<ContainerId>): Containers {
    map c | c in containers ::
      if c in victims && containers[c].state.Running? then containers[c].(state := Exited(SIGKILL_EXIT_CODE))
      else containers[c]
  }

  function ExitCode(containers: Containers, id: Option<ContainerId>): Option<int> {
    if id.Some? && id.value in containers && containers[id.value].state.Exited?
    then Some(containers[id.value].state.code)
    else None
  }

  function RunningLabelled(containers: Containers): set<ContainerId> {
    set c | c in containers && containers[c].state.Running? && containers[c].jobLabel.Some?
  }

  // ---- batch rewrites: cancellations and timeouts -------------------------------------------

  datatype Batch = Cancellations(at: Time) | Timeouts(at: Time)

  predicate ToCancel(job: Job) {
    job.status in ACTIVE && job.cancelRequested
  }

  predicate ToKill(job: Job) {
    ToCancel(job) && job.status in ON_GPU && job.containerId.Some?
  }

  predicate ToFail(job: Job, now: Time) {
    job.status in ON_GPU && IsTimedOut(job.status, job.heartbeatAt, now)
  }

  /** A document after the batch has looked at it. */
  function Applied(b: Batch, job: Job): Job {
    match b
    case Cancellations(now) =>
      if ToCancel(job) then job.(status := Cancelled, updatedAt := now) else job
    case Timeouts(now) =>
      if ToFail(job, now) then job.(status := Failed, updatedAt := now, errorMessage := Some(HeartbeatTimeout)) else job
  }

  function RewrittenJobs(jobs: seq<Job>, b: Batch): seq<Job> {
    seq(|jobs|, i requires 0 <= i < |jobs| => Applied(b, jobs[i]))
  }

  function Rewrite(s: Store, b: Batch): Store {
    Contents(RewrittenJobs(s.jobs, b),
             seq(|s.jobs|, i requires 0 <= i < |s.jobs| => Extend(s.traces[i], Applied(b, s.jobs[i]).status)),
             s.starts)
  }

  function KilledBy(jobs: seq<Job>): set<ContainerId> {
    set i | 0 <= i < |jobs| && ToKill(jobs[i]) :: jobs[i].containerId.value
  }

  function ClearedBy(jobs: seq<Job>): set<JobId> {
    set i | 0 <= i < |jobs| && ToKill(jobs[i]) :: jobs[i].id
  }

  function ProcessCancellations(w: World, now: Time): World {
    w.(store := Rewrite(w.store, Cancellations(now)),
       containers := Killed(w.containers, KilledBy(w.store.jobs)),
       dirs := w.dirs - ClearedBy(w.store.jobs))
  }

  function Sweep(w: World, now: Time): World {
    w.(store := Rewrite(w.store, Timeouts(now)))
  }

  // ---- the poller ---------------------------------------------------------------------------

  datatype FetchOutcome = Fetched | FetchFailed(fetchError: string)

  datatype RunOutcome = Launched(containerId: ContainerId) | LaunchFailed(launchError: string)

  datatype PollInputs = PollInputs(cancelAt: Time, startAt: Time, fetch: FetchOutcome, run: RunOutcome, failAt: Time)

  function Started(job: Job, now: Time): Job {
    job.(status := Initializing, updatedAt := now, heartbeatAt := Some(now))
  }

  function MarkStarted(w: World, job: Job, now: Time): World {
    w.(store := Put(w.store, Started(job, now)))
  }

  function Charge(w: World, userId: UserId, now: Time): World
    requires userId in w.users
  {
    w.(users := w.users[userId := RecordJobStarted(w.users[userId], DateOf(now))])
  }

  /** Extracting an upload creates the job directory first; the shared cache lies elsewhere. */
  function FetchInto(w: World, job: Job): World {
    if job.sourceType.ZipUpload? then w.(dirs := w.dirs + {job.id}) else w
  }

  /** Launching creates the output directory before it asks for the container. */
  function Launch(w: World, job: Job, run: RunOutcome): World {
    w.(dirs := w.dirs + {job.id},
       containers := match run
                     case Launched(c) => w.containers[c := Container(Some(job.id), Running)]
                     case LaunchFailed(_) => w.containers)
  }

  function FailStart(w: World, job: Job, reason: FailureReason, now: Time): Outcome<Job> {
    var failed := job.(status := Failed, updatedAt := now, errorMessage := Some(reason));
    Outcome(w.(store := Put(w.store, failed)), failed)
  }

  /** From a fetched dataset to a container attached to its job. */
  function LaunchJob(w: World, job: Job, run: RunOutcome, failAt: Time): Outcome<Job> {
    var launched := Launch(w, job, run);
    match run
    case LaunchFailed(detail) => FailStart(launched, job, ContainerLaunchFailed(detail), failAt)
    case Launched(c) =>
      var attached := job.(containerId := Some(c));
      Outcome(launched.(store := Put(launched.store, attached)), attached)
  }

  function StartJob(w: World, queued: Job, inp: PollInputs): Outcome<Job>
    requires queued.userId in w.users
  {
    var job := Started(queued, inp.startAt);
    var fetching := FetchInto(Charge(MarkStarted(w, queued, inp.startAt), queued.userId, inp.startAt), job);
    match inp.fetch
    case FetchFailed(detail) => FailStart(fetching, job, DatasetFetchFailed(detail), inp.failAt)
    case Fetched => LaunchJob(fetching, job, inp.run, inp.failAt)
  }

  /** The job the next poll would start, once cancellations are out of the way. */
  function NextToStart(w: World): Option<Job> {
    var queued := ListByStatuses(w.store.jobs, QUEUED);
    if ListByStatuses(w.store.jobs, ON_GPU) != [] || queued == [] then None else Some(queued[0])
  }

  function PollTick(w: World, inp: PollInputs): Outcome<Result<Option<Job>, WorkerError>> {
    var ready := ProcessCancellations(w, inp.cancelAt);
    match NextToStart(ready)
    case None => Outcome(ready, Ok(None))
    case Some(job) =>
      if job.userId !in ready.users then Outcome(ready, Err(UserMissing(job.userId)))
      else
        var o := StartJob(ready, job, inp);
        Outcome(o.world, Ok(Some(o.result)))
  }

  /** Where a worker crash can cut `_start_next_queued_job` short. */
  datatype CrashPoint = AfterMark | AfterCharge | AfterFetch | AfterLaunch

  function CrashedStart(w: World, queued: Job, inp: PollInputs, point: CrashPoint): World
    requires queued.userId in w.users
  {
    var marked := MarkStarted(w, queued, inp.startAt);
    var charged := Charge(marked, queued.userId, inp.startAt);
    match point
    case AfterMark => marked
    case AfterCharge => charged
    case AfterFetch => FetchInto(charged, queued)
    case AfterLaunch => Launch(FetchInto(charged, queued), queued, inp.run)
  }

  function CrashedPoll(w: World, inp: PollInputs, point: CrashPoint): World {
    var ready := ProcessCancellations(w, inp.cancelAt);
    match NextToStart(ready)
    case Some(job) => if job.userId in ready.users then CrashedStart(ready, job, inp, point) else ready
    case None => ready
  }

  // ---- the completion monitor ---------------------------------------------------------------

  /** `uploads[k]` says whether the k-th upload attempt succeeds. */
  datatype MonitorInputs = MonitorInputs(
    progress: Option<Progress>,
    readAt: Time,
    trainingAt: Time,
    heartbeatAt: Time,
    closingAt: Time,
    finishedAt: Time,
    logs: string,
    packageError: Option<string>,
    uploads: seq<bool>,
    retries: nat)

  function RecordedProgress(job: Job, latest: Progress, now: Time): Job {
    if ProgressChanged(job.progress, latest) then job.(progress := Some(latest), heartbeatAt := Some(now)) else job
  }

  function EnterTraining(job: Job, now: Time): Job {
    if job.status == Initializing then job.(status := Training, updatedAt := now) else job
  }

  /** The monitored document after its progress file and container were looked at. */
  function Observed(job: Job, exitCode: Option<int>, inp: MonitorInputs): Job {
    if inp.progress.Some? then RecordedProgress(EnterTraining(job, inp.trainingAt), inp.progress.value, inp.heartbeatAt)
    else if job.status == Initializing && exitCode.None? then job.(heartbeatAt := Some(inp.heartbeatAt))
    else job
  }

  predicate AttemptSucceeds(uploads: seq<bool>, k: nat) {
    k < |uploads| && uploads[k]
  }

  predicate UploadSucceeds(uploads: seq<bool>, retries: nat) {
    exists k :: 0 <= k < 1 + retries && AttemptSucceeds(uploads, k)
  }

  /** How an exited container's job ends: None for completed. */
  function FinalFailure(code: int, inp: MonitorInputs): Option<FailureReason> {
    if code != 0 then Some(ContainerExited(code, inp.logs))
    else if inp.packageError.Some? then Some(PackagingFailed(inp.packageError.value))
    else if UploadSucceeds(inp.uploads, inp.retries) then None
    else Some(CheckpointUploadFailed)
  }

  function Finished(training: Job, failure: Option<FailureReason>, now: Time): Job {
    match failure
    case None => training.(status := Completed, updatedAt := now, checkpointPath := Some(CheckpointPath(training.id)))
    case Some(reason) => training.(status := Failed, updatedAt := now, errorMessage := Some(reason))
  }

  function Finalize(w: World, job: Job, code: int, inp: MonitorInputs): Outcome<Job> {
    var training := EnterTraining(job, inp.closingAt);
    var failure := FinalFailure(code, inp);
    var finished := Finished(training, failure, inp.finishedAt);
    Outcome(
      w.(store := Put(Put(w.store, training), finished),
         objects := if failure == None then w.objects + {CheckpointPath(job.id)} else w.objects,
         dirs := if failure == Some(CheckpointUploadFailed) then w.dirs else w.dirs - {job.id}),
      finished)
  }

  function MonitorJob(w: World, monitored: Job, inp: MonitorInputs): Outcome<Job> {
    var exitCode := ExitCode(w.containers, monitored.containerId);
    var job := Observed(monitored, exitCode, inp);
    var observed := w.(store := Put(w.store, job));
    if exitCode.None? then Outcome(observed, job) else Finalize(observed, job, exitCode.value, inp)
  }

  function MonitorTick(w: World, inp: MonitorInputs): Outcome<Option<Job>> {
    var active := ListByStatuses(w.store.jobs, ON_GPU);
    if active == [] then Outcome(w, None)
    else
      var o := MonitorJob(w, active[0], inp);
      Outcome(o.world, Some(o.result))
  }

  // ---- restart ------------------------------------------------------------------------------

  function TrackedContainers(jobs: seq<Job>): set<ContainerId> {
    set i | 0 <= i < |jobs| && jobs[i].status in ON_GPU && jobs[i].containerId.Some? :: jobs[i].containerId.value
  }

  function Orphans(w: World): set<ContainerId> {
    RunningLabelled(w.containers) - TrackedContainers(w.store.jobs)
  }

  function Reconcile(w: World): World {
    w.(containers := Killed(w.containers, Orphans(w)))
  }

  // ---- the backend --------------------------------------------------------------------------

  const MIN_TRAINING_STEPS: int := 1
  const MAX_TRAINING_STEPS: int := 20_000

  datatype ServiceError =
    | InvalidTrainingSteps
    | UserNotFound
    | QuotaExceeded(reason: QuotaRefusal)
    | JobNotFound
    | NotJobOwner
    | CancelRefused(cancelError: CancelError)
    | DownloadNotAvailable

  datatype JobRequest = JobRequest(userId: UserId, policy: PolicyType, sourceType: SourceType, sourceRef: string,
      trainingSteps: int)

  function RefusalToCreate(w: World, request: JobRequest, now: Time): Option<ServiceError> {
    if !(MIN_TRAINING_STEPS <= request.trainingSteps <= MAX_TRAINING_STEPS) then Some(InvalidTrainingSteps)
    else if request.userId !in w.users then Some(UserNotFound)
    else
      match CanCreateJob(w.users[request.userId], ListForUser(w.store.jobs, request.userId), DateOf(now))
      case Some(reason) => Some(QuotaExceeded(reason))
      case None => None
  }

  function CreateJob(w: World, request: JobRequest, id: JobId, checkedAt: Time, createdAt: Time)
      : Outcome<Result<Job, ServiceError>>
  {
    match RefusalToCreate(w, request, checkedAt)
    case Some(error) => Outcome(w, Err(error))
    case None =>
      var job := NewJob(id, request.userId, request.policy, request.sourceType, request.sourceRef,
        request.trainingSteps, createdAt);
      Outcome(w.(store := Put(w.store, job)), Ok(job))
  }

  function CancelJob(w: World, userId: UserId, jobId: JobId, now: Time): Outcome<Result<Job, ServiceError>> {
    match Get(w.store.jobs, jobId)
    case None => Outcome(w, Err(JobNotFound))
    case Some(job) =>
      if job.userId != userId then Outcome(w, Err(NotJobOwner))
      else
        match RequestCancel(job, now)
        case Err(error) => Outcome(w, Err(CancelRefused(error)))
        case Ok(updated) => Outcome(w.(store := Put(w.store, updated)), Ok(updated))
  }
}
