/** The backend's job use cases, against their specification in ControlPlane. */
module BackendServices {
  import opened Models
  import opened JobStore
  import opened Quota
  import opened ControlPlane
  import opened Repositories
  import opened FifoQueue
  import opened FifoRefinement
  import opened Fairness

  const DOWNLOAD_URL_EXPIRES_IN_SECONDS: int := 7 * 24 * 60 * 60

  datatype DisplayStatus = ShownQueued | ShownRunning | ShownCompleted | ShownFailed | ShownCancelled

  function Display(status: JobStatus): DisplayStatus {
    match status
    case Queued => ShownQueued
    case Initializing => ShownRunning
    case Training => ShownRunning
    case Completed => ShownCompleted
    case Failed => ShownFailed
    case Cancelled => ShownCancelled
  }

  datatype JobView = JobView(job: Job, displayStatus: DisplayStatus, queuePosition: Option<nat>)

  /** What the owner sees of a job. */
  function ViewOf(jobs: seq<Job>, job: Job): JobView {
    JobView(job, Display(job.status), if job.status == Queued then Some(QueuePosition(jobs, job.id)) else None)
  }

  class JobService {
    const deps: Dependencies

    constructor (deps: Dependencies)
      ensures this.deps == deps
    {
      this.deps := deps;
    }

    method CreateJob(request: JobRequest, id: JobId, checkedAt: Time, createdAt: Time)
        returns (r: Result<Job, ServiceError>)
      requires deps.Valid()
      modifies deps.jobs
      ensures deps.Valid()
      ensures var o := ControlPlane.CreateJob(old(deps.View()), request, id, checkedAt, createdAt);
        deps.View() == o.world && r == o.result
    {
      if request.trainingSteps < MIN_TRAINING_STEPS || request.trainingSteps > MAX_TRAINING_STEPS {
        return Err(InvalidTrainingSteps);
      }
      var user := deps.users.Get(request.userId);
      if user.None? {
        return Err(UserNotFound);
      }
      var refusal := CanCreateJob(user.value, deps.jobs.ListForUser(request.userId), DateOf(checkedAt));
      if refusal.Some? {
        return Err(QuotaExceeded(refusal.value));
      }
      var job := NewJob(id, request.userId, request.policy, request.sourceType, request.sourceRef,
        request.trainingSteps, createdAt);
      deps.jobs.Create(job);
      r := Ok(job);
    }

    method RequestCancel(userId: UserId, jobId: JobId, now: Time) returns (r: Result<Job, ServiceError>)
      requires deps.Valid()
      modifies deps.jobs
      ensures deps.Valid()
      ensures var o := CancelJob(old(deps.View()), userId, jobId, now); deps.View() == o.world && r == o.result
    {
      var job := deps.jobs.Get(jobId);
      if job.None? {
        return Err(JobNotFound);
      }
      if job.value.userId != userId {
        return Err(NotJobOwner);
      }
      var updated := JobStateMachine.RequestCancel(job.value, now);
      if updated.Err? {
        return Err(CancelRefused(updated.error));
      }
      deps.jobs.Update(updated.value);
      r := Ok(updated.value);
    }

    /** One view per job of the user, in order; the position lookup of a queued job always succeeds. */
    method ListJobsForUser(userId: UserId) returns (views: seq<JobView>)
      requires deps.Valid()
      ensures |views| == |ListForUser(deps.jobs.jobs, userId)|
      ensures forall k :: 0 <= k < |views| ==>
        views[k] == ViewOf(deps.jobs.jobs, ListForUser(deps.jobs.jobs, userId)[k])
    {
      hide JobStore.ListForUser, JobStore.ListByStatuses, Ids, Position;
      var jobs := deps.jobs.ListForUser(userId);
      var queuedIdsInOrder := Ids(deps.jobs.ListByStatuses(QUEUED));
      views := [];
      for k := 0 to |jobs|
        invariant |views| == k
        invariant forall l :: 0 <= l < k ==> views[l] == ViewOf(deps.jobs.jobs, jobs[l])
      {
        var queuePosition: Option<nat> := None;
        if jobs[k].status == Queued {
          var index := Position(queuedIdsInOrder, jobs[k].id);
          IndexIsFound(deps.jobs.jobs, userId, jobs[k]);
          assert index < |queuedIdsInOrder|;
          queuePosition := Some(index + 1);
        }
        views := views + [JobView(jobs[k], Display(jobs[k].status), queuePosition)];
      }
    }

    /** `sign` is the storage's signing of an object path for so many seconds. */
    method GetDownloadUrl(userId: UserId, jobId: JobId, sign: (string, int) -> string)
        returns (r: Result<string, ServiceError>)
      ensures var job := JobStore.Get(deps.jobs.jobs, jobId);
        && (job.None? <==> r == Err(JobNotFound))
        && (job.Some? && job.value.userId != userId <==> r == Err(NotJobOwner))
        && (r.Ok? <==>
              (job.Some? && job.value.userId == userId && job.value.status == Completed
               && job.value.checkpointPath.Some?))
        && (r.Ok? ==> r.value == sign(job.value.checkpointPath.value, 604_800))
    {
      var job := deps.jobs.Get(jobId);
      if job.None? {
        return Err(JobNotFound);
      }
      if job.value.userId != userId {
        return Err(NotJobOwner);
      }
      if job.value.status != Completed || job.value.checkpointPath.None? {
        return Err(DownloadNotAvailable);
      }
      r := Ok(sign(job.value.checkpointPath.value, DOWNLOAD_URL_EXPIRES_IN_SECONDS));
    }
  }

  /** Every job is shown as what it is; both statuses on the GPU are shown as running. */
  lemma ShownExactly(jobs: seq<Job>, job: Job)
    ensures var view := ViewOf(jobs, job);
      && view.job == job
      && (view.displayStatus == ShownQueued <==> job.status == Queued)
      && (view.displayStatus == ShownRunning <==> job.status in {Initializing, Training})
      && (view.displayStatus == ShownCompleted <==> job.status == Completed)
      && (view.displayStatus == ShownFailed <==> job.status == Failed)
      && (view.displayStatus == ShownCancelled <==> job.status == Cancelled)
      && (view.queuePosition.Some? <==> job.status == Queued)
  {
  }

  /** A queued job of the user is in the listing of queued jobs, so its index is found. */
  lemma IndexIsFound(jobs: seq<Job>, userId: UserId, job: Job)
    requires job in ListForUser(jobs, userId) && job.status == Queued
    ensures Position(Ids(ListByStatuses(jobs, QUEUED)), job.id) < |ListByStatuses(jobs, QUEUED)|
    ensures |Ids(ListByStatuses(jobs, QUEUED))| == |ListByStatuses(jobs, QUEUED)|
  {
    var listed := ListByStatuses(jobs, QUEUED);
    InListForUser(jobs, userId, job);
    InListing(jobs, QUEUED, job);
    IdsAt(listed);
    var k :| 0 <= k < |listed| && listed[k] == job;
    assert Ids(listed)[k] == job.id;
  }
}
