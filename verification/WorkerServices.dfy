/** The worker's services and the timeout sweep, statement by statement, against their specification in ControlPlane. */
module WorkerServices {
  import opened Models
  import opened JobStateMachine
  import opened JobStore
  import opened Quota
  import opened Heartbeat
  import opened ControlPlane
  import opened Repositories

  // ---- cancellation watcher -----------------------------------------------------------------

  lemma KillOneMore(containers: Containers, victims: set<ContainerId>, id: ContainerId)
    ensures Killed(Killed(containers, victims), {id}) == Killed(containers, victims + {id})
  {
  }

  lemma KillNobody(containers: Containers)
    ensures Killed(containers, {}) == containers
    ensures KilledBy([]) == {} && ClearedBy([]) == {}
  {
  }

  lemma VisitedOneMore(visited: seq<Job>, job: Job)
    ensures KilledBy(visited + [job]) ==
      if ToKill(job) then KilledBy(visited) + {job.containerId.value} else KilledBy(visited)
    ensures ClearedBy(visited + [job]) == if ToKill(job) then ClearedBy(visited) + {job.id} else ClearedBy(visited)
  {
    var more := visited + [job];
    assert more[|visited|] == job && forall k :: 0 <= k < |visited| ==> more[k] == visited[k];
    assert KilledBy(more) >= KilledBy(visited) by {
      forall k | 0 <= k < |visited| && ToKill(visited[k])
        ensures visited[k].containerId.value in KilledBy(more)
      {
        assert more[k] == visited[k];
      }
    }
    assert ClearedBy(more) >= ClearedBy(visited) by {
      forall k | 0 <= k < |visited| && ToKill(visited[k])
        ensures visited[k].id in ClearedBy(more)
      {
        assert more[k] == visited[k];
      }
    }
  }

  lemma VisitedAll(jobs: seq<Job>, visited: seq<Job>)
    requires forall job :: job in visited <==> job in jobs && job.status in ACTIVE
    ensures KilledBy(visited) == KilledBy(jobs) && ClearedBy(visited) == ClearedBy(jobs)
  {
  }

  method ProcessCancellationRequests(deps: Dependencies, now: Time) returns (cancelled: seq<Job>)
    requires deps.Valid()
    modifies deps.jobs, deps.docker, deps.directories
    ensures deps.Valid() && deps.View() == ControlPlane.ProcessCancellations(old(deps.View()), now)
    ensures forall job :: job in cancelled <==> exists before :: before in old(deps.jobs.jobs) && ToCancel(before)
                                                           && job == Applied(Cancellations(now), before)
  {
    hide Partial, Put, Killed, KilledBy, ClearedBy, ListByStatuses, Rewrite;
    ghost var s, batch := deps.jobs.State(), Cancellations(now);
    ghost var w := deps.View();
    var candidates := deps.jobs.ListByStatuses(ACTIVE);
    forall job
      ensures job in candidates <==> job in s.jobs && job.status in ACTIVE
    {
      InListing(s.jobs, ACTIVE, job);
    }
    cancelled := [];
    PartialStart(s, batch);
    KillNobody(w.containers);
    assert candidates[..0] == [];
    for k := 0 to |candidates|
      invariant deps.Valid() && deps.jobs.State() == Partial(s, batch, candidates[..k])
      invariant deps.docker.containers == Killed(w.containers, KilledBy(candidates[..k]))
      invariant deps.directories.dirs == w.dirs - ClearedBy(candidates[..k])
      invariant deps.View() ==
        w.(store := deps.jobs.State(), containers := deps.docker.containers, dirs := deps.directories.dirs)
      invariant forall job :: job in cancelled <==>
        exists before :: before in candidates[..k] && ToCancel(before) && job == Applied(batch, before)
    {
      var job := candidates[k];
      assert candidates[..k + 1] == candidates[..k] + [job];
      PartialStep(s, batch, candidates[..k], job);
      VisitedOneMore(candidates[..k], job);
      if !job.cancelRequested {
        continue;
      }
      if job.status in {Initializing, Training} && job.containerId.Some? {
        KillOneMore(w.containers, KilledBy(candidates[..k]), job.containerId.value);
        deps.docker.Kill(job.containerId.value);
        deps.directories.Remove(job.id);
      }
      var updated := Transition(job, Cancelled, now).value;  // never illegal: only active jobs are scanned
      deps.jobs.Update(updated);
      cancelled := cancelled + [updated];
    }
    assert candidates[..|candidates|] == candidates;
    PartialEnd(s, batch, candidates);
    VisitedAll(s.jobs, candidates);
  }

  // ---- timeout service ----------------------------------------------------------------------

  method CheckAndFailTimedOutJobs(deps: Dependencies, now: Time) returns (failed: seq<Job>)
    requires deps.Valid()
    modifies deps.jobs
    ensures deps.Valid() && deps.View() == Sweep(old(deps.View()), now)
    ensures forall job :: job in failed <==> exists before :: before in old(deps.jobs.jobs) && ToFail(before, now)
                                                        && job == Applied(Timeouts(now), before)
  {
    hide Partial, Put, ListByStatuses, Rewrite;
    ghost var s, batch := deps.jobs.State(), Timeouts(now);
    ghost var w := deps.View();
    var candidates := deps.jobs.ListByStatuses(ON_GPU);
    forall job
      ensures job in candidates <==> job in s.jobs && job.status in ON_GPU
    {
      InListing(s.jobs, ON_GPU, job);
    }
    failed := [];
    PartialStart(s, batch);
    for k := 0 to |candidates|
      invariant deps.Valid() && deps.jobs.State() == Partial(s, batch, candidates[..k])
      invariant deps.View() == w.(store := deps.jobs.State())
      invariant forall job :: job in failed <==>
        exists before :: before in candidates[..k] && ToFail(before, now) && job == Applied(batch, before)
    {
      var job := candidates[k];
      assert candidates[..k + 1] == candidates[..k] + [job];
      PartialStep(s, batch, candidates[..k], job);
      if IsTimedOut(job.status, job.heartbeatAt, now) {
        var failedJob := Transition(job, Failed, now).value;  // never illegal: only jobs on the GPU are scanned
        failedJob := failedJob.(errorMessage := Some(HeartbeatTimeout));
        deps.jobs.Update(failedJob);
        failed := failed + [failedJob];
      }
    }
    assert candidates[..|candidates|] == candidates;
    PartialEnd(s, batch, candidates);
  }

  // ---- heartbeat updater --------------------------------------------------------------------

  class HeartbeatUpdater {
    const jobs: JobRepository

    constructor (jobs: JobRepository)
      ensures this.jobs == jobs
    {
      this.jobs := jobs;
    }

    method MarkContainerAlive(job: Job, now: Time) returns (updated: Job)
      requires jobs.Valid()
      modifies jobs
      ensures jobs.Valid() && jobs.State() == Put(old(jobs.State()), updated)
      ensures updated == job.(heartbeatAt := Some(now))
    {
      updated := job.(heartbeatAt := Some(now));
      jobs.Update(updated);
    }

    /** The heartbeat moves only when step or loss changed; otherwise nothing is written. */
    method RecordProgress(job: Job, latest: Progress, now: Time) returns (updated: Job)
      requires jobs.Valid()
      modifies jobs
      ensures jobs.Valid() && updated == RecordedProgress(job, latest, now)
      ensures jobs.State() ==
        if ProgressChanged(job.progress, latest) then Put(old(jobs.State()), updated) else old(jobs.State())
    {
      if !ProgressChanged(job.progress, latest) {
        return job;
      }
      updated := job.(progress := Some(latest), heartbeatAt := Some(now));
      jobs.Update(updated);
    }
  }

  // ---- job poller ---------------------------------------------------------------------------

  class JobPoller {
    const deps: Dependencies

    constructor (deps: Dependencies)
      ensures this.deps == deps
    {
      this.deps := deps;
    }

    method Tick(inp: PollInputs) returns (r: Result<Option<Job>, WorkerError>)
      requires deps.Valid()
      modifies deps.jobs, deps.users, deps.docker, deps.directories
      ensures deps.Valid()
      ensures var o := PollTick(old(deps.View()), inp); deps.View() == o.world && r == o.result
    {
      var _ := ProcessCancellationRequests(deps, inp.cancelAt);
      if deps.jobs.ListByStatuses(ON_GPU) != [] {
        return Ok(None);
      }
      r := StartNextQueuedJob(inp);
    }

    method StartNextQueuedJob(inp: PollInputs) returns (r: Result<Option<Job>, WorkerError>)
      requires deps.Valid()
      modifies deps.jobs, deps.users, deps.docker, deps.directories
      ensures deps.Valid()
      ensures var w := old(deps.View()); var queued := ListByStatuses(w.store.jobs, QUEUED);
        && (queued == [] ==> deps.View() == w && r == Ok(None))
        && (queued != [] && queued[0].userId !in w.users ==>
             deps.View() == w && r == Err(UserMissing(queued[0].userId)))
        && (queued != [] && queued[0].userId in w.users ==>
              deps.View() == StartJob(w, queued[0], inp).world && r == Ok(Some(StartJob(w, queued[0], inp).result)))
    {
      hide Put, ListByStatuses;
      var queuedJobs := deps.jobs.ListByStatuses(QUEUED);
      if queuedJobs == [] {
        return Ok(None);
      }
      var job := queuedJobs[0];
      InListing(deps.jobs.jobs, QUEUED, job);
      var user := deps.users.Get(job.userId);
      if user.None? {
        return Err(UserMissing(job.userId));
      }
      job := Transition(job, Initializing, inp.startAt).value;  // never illegal: the job is queued
      job := job.(heartbeatAt := Some(inp.startAt));
      deps.jobs.Update(job);
      deps.users.Update(RecordJobStarted(user.value, DateOf(inp.startAt)));
      if job.sourceType.ZipUpload? {
        deps.directories.Make(job.id);
      }
      if inp.fetch.FetchFailed? {
        job := FailDuringStart(job, DatasetFetchFailed(inp.fetch.fetchError), inp.failAt);
        return Ok(Some(job));
      }
      deps.directories.Make(job.id);
      var container := deps.docker.Run(job.id, inp.run);
      if container.Err? {
        job := FailDuringStart(job, ContainerLaunchFailed(container.error), inp.failAt);
        return Ok(Some(job));
      }
      job := job.(containerId := Some(container.value));
      deps.jobs.Update(job);
      r := Ok(Some(job));
    }

    method FailDuringStart(job: Job, reason: FailureReason, now: Time) returns (failed: Job)
      requires deps.Valid() && job.status == Initializing
      modifies deps.jobs
      ensures deps.Valid()
      ensures var o := FailStart(old(deps.View()), job, reason, now); deps.View() == o.world && failed == o.result
    {
      failed := Transition(job, Failed, now).value;
      failed := failed.(errorMessage := Some(reason));
      deps.jobs.Update(failed);
    }
  }

  lemma StaysMonitored(s: Store, monitored: Job, exitCode: Option<int>, inp: MonitorInputs)
    requires DistinctIds(s.jobs) && monitored in s.jobs && monitored.status in ON_GPU
    ensures var job := Observed(monitored, exitCode, inp); job in Put(s, job).jobs && job.status in ON_GPU
  {
    var i :| 0 <= i < |s.jobs| && s.jobs[i] == monitored;
    PutReplaces(s, i, Observed(monitored, exitCode, inp));
    assert Put(s, Observed(monitored, exitCode, inp)).jobs[i] == Observed(monitored, exitCode, inp);
  }

  // ---- completion monitor -------------------------------------------------------------------

  class JobCompletionMonitor {
    const deps: Dependencies
    const heartbeat: HeartbeatUpdater
    const uploadRetries: nat

    constructor (deps: Dependencies, uploadRetries: nat)
      ensures this.deps == deps && this.uploadRetries == uploadRetries && Wired()
    {
      this.deps, this.uploadRetries := deps, uploadRetries;
      this.heartbeat := new HeartbeatUpdater(deps.jobs);
    }

    ghost predicate Wired() {
      heartbeat.jobs == deps.jobs
    }

    method Tick(inp: MonitorInputs) returns (r: Option<Job>)
      requires Wired() && deps.Valid() && inp.retries == uploadRetries
      modifies deps.jobs, deps.storage, deps.directories
      ensures deps.Valid()
      ensures var o := MonitorTick(old(deps.View()), inp); deps.View() == o.world && r == o.result
    {
      hide Put, ListByStatuses, Observed, ControlPlane.Finalize;
      var activeJobs := deps.jobs.ListByStatuses(ON_GPU);
      if activeJobs == [] {
        return None;
      }
      var job := activeJobs[0];
      InListing(deps.jobs.jobs, ON_GPU, job);
      var exitCode := if job.containerId.Some? then deps.docker.GetExitCode(job.containerId.value) else None;
      StaysMonitored(deps.jobs.State(), job, exitCode, inp);
      job := Observe(job, exitCode, inp);
      if exitCode.None? {
        return Some(job);
      }
      job := Finalize(job, exitCode.value, inp);
      r := Some(job);
    }

    /** Lines that read the progress file and keep status, progress and heartbeat up to date. */
    method Observe(monitored: Job, exitCode: Option<int>, inp: MonitorInputs) returns (job: Job)
      requires Wired() && deps.Valid() && monitored in deps.jobs.jobs && monitored.status in ON_GPU
      modifies deps.jobs
      ensures deps.Valid() && job == Observed(monitored, exitCode, inp)
      ensures deps.View() == old(deps.View()).(store := Put(old(deps.jobs.State()), job))
    {
      hide Put;
      ghost var s := deps.jobs.State();
      ghost var i: nat :| i < |s.jobs| && s.jobs[i] == monitored;
      job := monitored;
      if inp.progress.Some? {
        if job.status == Initializing {
          job := Transition(job, Training, inp.trainingAt).value;
          deps.jobs.Update(job);
          PutTwice(s, i, job, RecordedProgress(job, inp.progress.value, inp.heartbeatAt));
        } else {
          PutSame(s, monitored);
        }
        job := heartbeat.RecordProgress(job, inp.progress.value, inp.heartbeatAt);
      } else if job.status == Initializing && exitCode.None? {
        job := heartbeat.MarkContainerAlive(job, inp.heartbeatAt);
      } else {
        PutSame(s, monitored);
      }
    }

    method Finalize(exited: Job, code: int, inp: MonitorInputs) returns (job: Job)
      requires deps.Valid() && exited in deps.jobs.jobs && exited.status in ON_GPU && inp.retries == uploadRetries
      modifies deps.jobs, deps.storage, deps.directories
      ensures deps.Valid()
      ensures var o := ControlPlane.Finalize(old(deps.View()), exited, code, inp);
        deps.View() == o.world && job == o.result
    {
      hide Put, UploadSucceeds;
      ghost var s := deps.jobs.State();
      job := exited;
      if job.status == Initializing {
        job := Transition(job, Training, inp.closingAt).value;
        deps.jobs.Update(job);
      } else {
        PutSame(s, exited);
      }
      if code != 0 {
        job := MarkFailed(job, ContainerExited(code, inp.logs), inp.finishedAt, true);
        return;
      }
      if inp.packageError.Some? {
        job := MarkFailed(job, PackagingFailed(inp.packageError.value), inp.finishedAt, true);
        return;
      }
      var objectPath := CheckpointPath(job.id);
      var uploaded, _ := UploadWithRetries(objectPath, inp.uploads);
      if uploaded {
        job := MarkCompleted(job, objectPath, inp.finishedAt);
        return;
      }
      job := MarkFailed(job, CheckpointUploadFailed, inp.finishedAt, false);
    }

    /** Succeeds with the first attempt that does, within one more attempt than there are retries. */
    method UploadWithRetries(objectPath: string, uploads: seq<bool>) returns (ok: bool, ghost made: nat)
      modifies deps.storage
      ensures ok <==> UploadSucceeds(uploads, uploadRetries)
      ensures made <= 1 + uploadRetries
      ensures ok ==> made > 0 && AttemptSucceeds(uploads, made - 1)
      ensures forall k :: 0 <= k < (if ok then made - 1 else made) ==> !AttemptSucceeds(uploads, k)
      ensures deps.storage.objects == if ok then old(deps.storage.objects) + {objectPath} else old(deps.storage.objects)
    {
      var attempts := 1 + uploadRetries;
      made := 0;
      for attempt := 0 to attempts
        invariant made == attempt
        invariant forall k :: 0 <= k < attempt ==> !AttemptSucceeds(uploads, k)
        invariant deps.storage.objects == old(deps.storage.objects)
      {
        made := attempt + 1;
        ok := deps.storage.UploadFile(objectPath, AttemptSucceeds(uploads, attempt));
        if ok {
          return;
        }
      }
      ok := false;
    }

    method MarkCompleted(job: Job, checkpointPath: string, now: Time) returns (completed: Job)
      requires deps.Valid() && job.status == Training
      modifies deps.jobs, deps.directories
      ensures deps.Valid()
        && completed == job.(status := Completed, updatedAt := now, checkpointPath := Some(checkpointPath))
      ensures deps.View() == old(deps.View()).(store := Put(old(deps.jobs.State()), completed),
                                               dirs := old(deps.directories.dirs) - {job.id})
    {
      completed := Transition(job, Completed, now).value;
      completed := completed.(checkpointPath := Some(checkpointPath));
      deps.jobs.Update(completed);
      deps.directories.Remove(job.id);
    }

    method MarkFailed(job: Job, reason: FailureReason, now: Time, cleanup: bool) returns (failed: Job)
      requires deps.Valid() && job.status == Training
      modifies deps.jobs, deps.directories
      ensures deps.Valid() && failed == job.(status := Failed, updatedAt := now, errorMessage := Some(reason))
      ensures deps.View() == old(deps.View()).(store := Put(old(deps.jobs.State()), failed),
                                               dirs := if cleanup then old(deps.directories.dirs) - {job.id}
                                                       else old(deps.directories.dirs))
    {
      failed := Transition(job, Failed, now).value;
      failed := failed.(errorMessage := Some(reason));
      deps.jobs.Update(failed);
      if cleanup {
        deps.directories.Remove(job.id);
      }
    }
  }

  // ---- reconciliation -----------------------------------------------------------------------

  function Resumed(tracked: seq<Job>, running: set<ContainerId>): (resumed: seq<Job>)
    ensures forall job :: job in resumed <==>
      job in tracked && job.containerId.Some? && job.containerId.value in running
  {
    if tracked == [] then []
    else
      var last := tracked[|tracked| - 1];
      assert tracked == tracked[..|tracked| - 1] + [last];
      Resumed(tracked[..|tracked| - 1], running)
      + if last.containerId.Some? && last.containerId.value in running then [last] else []
  }

  lemma TrackedInListing(jobs: seq<Job>)
    ensures TrackedContainers(ListByStatuses(jobs, ON_GPU)) == TrackedContainers(jobs)
    ensures forall job :: job in ListByStatuses(jobs, ON_GPU) <==> job in jobs && job.status in ON_GPU
  {
    var listed := ListByStatuses(jobs, ON_GPU);
    forall job
      ensures job in listed <==> job in jobs && job.status in ON_GPU
    {
      InListing(jobs, ON_GPU, job);
    }
    forall c | c in TrackedContainers(jobs)
      ensures c in TrackedContainers(listed)
    {
      var i :| 0 <= i < |jobs| && jobs[i].status in ON_GPU && jobs[i].containerId == Some(c);
      var k :| 0 <= k < |listed| && listed[k] == jobs[i];
    }
    forall c | c in TrackedContainers(listed)
      ensures c in TrackedContainers(jobs)
    {
      var k :| 0 <= k < |listed| && listed[k].status in ON_GPU && listed[k].containerId == Some(c);
      var i :| 0 <= i < |jobs| && jobs[i] == listed[k];
    }
  }

  method Reconcile(deps: Dependencies) returns (resumed: seq<Job>, killed: set<ContainerId>)
    requires deps.Valid()
    modifies deps.docker
    ensures deps.Valid() && deps.View() == ControlPlane.Reconcile(old(deps.View()))
    ensures killed == Orphans(old(deps.View()))
    ensures resumed ==
      Resumed(ListByStatuses(old(deps.jobs.jobs), ON_GPU), RunningLabelled(old(deps.docker.containers)))
    ensures forall job :: job in resumed <==>
      (job in old(deps.jobs.jobs) && job.status in ON_GPU && job.containerId.Some?
       && job.containerId.value in RunningLabelled(old(deps.docker.containers)))
  {
    hide Killed, ListByStatuses, TrackedContainers;
    ghost var w := deps.View();
    var running := deps.docker.ListRunningContainerIds();
    var trackedJobs := deps.jobs.ListByStatuses(ON_GPU);
    TrackedInListing(w.store.jobs);
    resumed := Resumed(trackedJobs, running);
    killed := running - TrackedContainers(trackedJobs);
    var todo := killed;
    KillNobody(w.containers);
    assert killed - todo == {};
    while todo != {}
      invariant todo <= killed && deps.Valid()
      invariant deps.View() == w.(containers := Killed(w.containers, killed - todo))
      decreases |todo|
    {
      var id :| id in todo;
      KillOneMore(w.containers, killed - todo, id);
      assert (killed - todo) + {id} == killed - (todo - {id});
      deps.docker.Kill(id);
      todo := todo - {id};
    }
    assert killed - {} == killed;
  }

  // ---- the worker's loop body ---------------------------------------------------------------

  /** One tick of the worker: the poller, then the monitor. */
  method WorkerTick(poller: JobPoller, monitor: JobCompletionMonitor, poll: PollInputs, read: MonitorInputs)
      returns (error: Option<WorkerError>)
    requires poller.deps == monitor.deps && poller.deps.Valid() && monitor.Wired()
      && read.retries == monitor.uploadRetries
    modifies poller.deps.Parts()
    ensures poller.deps.Valid()
    ensures var o := PollTick(old(poller.deps.View()), poll);
      poller.deps.View() == if o.result.Ok? then MonitorTick(o.world, read).world else o.world
    ensures error.Some? <==> PollTick(old(poller.deps.View()), poll).result.Err?
  {
    var started := poller.Tick(poll);
    if started.Err? {
      return Some(started.error);
    }
    var _ := monitor.Tick(read);
    error := None;
  }
}
