/** What crash-free runs add to the invariant, and what every job's fields and directory then say. */
module Settlement {
  import opened Models
  import opened JobStateMachine
  import opened JobStore
  import opened Quota
  import opened Heartbeat
  import opened ControlPlane
  import opened Invariants
  import opened Preservation
  import opened Runs
  import opened History
  import opened FifoRefinement

  /** A job on the GPU has its container attached, a cancelled one left nothing on disk. */
  ghost predicate JobSettled(job: Job, dirs: set<JobId>) {
    && (job.status in ON_GPU ==> job.containerId.Some?)
    && (job.status == Cancelled ==> job.id !in dirs)
  }

  ghost predicate Settled(w: World) {
    forall i :: 0 <= i < |w.store.jobs| ==> JobSettled(w.store.jobs[i], w.dirs)
  }

  /** A `training` job has reported progress. */
  ghost predicate Reported(jobs: seq<Job>) {
    forall i :: 0 <= i < |jobs| && jobs[i].status == Training ==> jobs[i].progress.Some?
  }

  // ---- progress, in every run ---------------------------------------------------------------

  lemma BatchReports(jobs: seq<Job>, b: Batch)
    requires Reported(jobs)
    ensures Reported(RewrittenJobs(jobs, b))
  {
  }

  lemma CreateReports(w: World, request: JobRequest, id: JobId, checkedAt: Time, createdAt: Time, now: Time,
      lost: seq<Start>)
    requires Inv(w, now, lost) && now <= checkedAt <= createdAt && !Known(w.store.jobs, id) && id !in w.dirs
      && Reported(w.store.jobs)
    ensures Reported(CreateJob(w, request, id, checkedAt, createdAt).world.store.jobs)
  {
    hide Inv, RefusalToCreate, Put;
    CreateKeeps(w, request, id, checkedAt, createdAt, now, lost);
  }

  lemma CancelReports(w: World, userId: UserId, jobId: JobId, at: Time, now: Time, lost: seq<Start>)
    requires Inv(w, now, lost) && now <= at && Reported(w.store.jobs)
    ensures Reported(CancelJob(w, userId, jobId, at).world.store.jobs)
  {
    hide Inv, CancelJob;
    Later(w, now, at, lost);
    CancelKeeps(w, userId, jobId, at, lost);
  }

  lemma MonitorReports(w: World, inp: MonitorInputs, now: Time, lost: seq<Start>)
    requires Inv(w, now, lost) && inp.heartbeatAt <= now && Reported(w.store.jobs)
    ensures Reported(MonitorTick(w, inp).world.store.jobs)
  {
    hide Inv, MonitorJob, ListByStatuses;
    var i := MonitorKeeps(w, inp, now, lost);
    if MonitorTick(w, inp).result.Some? {
      MonitorJobKeeps(w, i, inp, now, lost);
    }
  }

  lemma StepReports(m: Moment, step: Step)
    requires Sound(m) && Enabled(m, step) && Reported(m.world.store.jobs)
    ensures Reported(Next(m, step).world.store.jobs)
  {
    hide Inv, PollTick, CrashedPoll, MonitorTick, Sweep, CreateJob, CancelJob, Reported, RewrittenJobs;
    var w := m.world;
    match step
    case Create(request, id, checkedAt, createdAt) =>
      CreateReports(w, request, id, checkedAt, createdAt, m.clock, m.lost);
    case RequestCancel(userId, jobId, at) => CancelReports(w, userId, jobId, at, m.clock, m.lost);
    case TimeoutSweep(at) =>
      SweptJobs(w, at);
      BatchReports(w.store.jobs, Timeouts(at));
    case Poll(inp) => PollReports(w, inp, m.clock, m.lost);
    case CrashDuringPoll(inp, point) => CrashReports(w, inp, point, m.clock, m.lost);
    case Monitor(inp) =>
      Later(w, m.clock, inp.heartbeatAt, m.lost);
      MonitorReports(w, inp, inp.heartbeatAt, m.lost);
    case _ =>
  }

  lemma PollReports(w: World, inp: PollInputs, now: Time, lost: seq<Start>)
    requires Inv(w, now, lost) && Reported(w.store.jobs)
    ensures Reported(PollTick(w, inp).world.store.jobs)
  {
    hide Inv, StartJob, CrashedStart, Rewrite;
    var ready := ProcessCancellations(w, inp.cancelAt);
    CancellationsKeep(w, inp.cancelAt, now, lost);
    CancelledJobs(w, inp.cancelAt);
    BatchReports(w.store.jobs, Cancellations(inp.cancelAt));
    Structure(ready, now, lost);
    if NextToStart(ready).Some? {
      var i := NextIsFirstQueued(ready, now, lost);
      StartJobs(ready, i, inp);
    }
  }

  lemma CrashReports(w: World, inp: PollInputs, point: CrashPoint, now: Time, lost: seq<Start>)
    requires Inv(w, now, lost) && Reported(w.store.jobs)
    ensures Reported(CrashedPoll(w, inp, point).store.jobs)
  {
    hide Inv, StartJob, CrashedStart, Rewrite;
    var ready := ProcessCancellations(w, inp.cancelAt);
    CancellationsKeep(w, inp.cancelAt, now, lost);
    CancelledJobs(w, inp.cancelAt);
    BatchReports(w.store.jobs, Cancellations(inp.cancelAt));
    Structure(ready, now, lost);
    if NextToStart(ready).Some? {
      var i := NextIsFirstQueued(ready, now, lost);
      CrashedStartJobs(ready, i, inp, point);
    }
  }

  // ---- containers and directories, in crash-free runs ---------------------------------------

  lemma CancellationsSettle(w: World, at: Time, now: Time, lost: seq<Start>)
    requires Inv(w, now, lost) && Settled(w)
    ensures Settled(ProcessCancellations(w, at))
  {
  }

  /** The directories and containers a start touches are those of the started job. */
  lemma StartTouches(w: World, i: nat, inp: PollInputs)
    requires i < |w.store.jobs| && w.store.jobs[i].userId in w.users
    ensures var v := StartJob(w, w.store.jobs[i], inp).world;
      && SameDirsExcept(w.dirs, v.dirs, w.store.jobs[i].id)
      && v.containers == (if inp.fetch.Fetched? && inp.run.Launched?
                          then w.containers[inp.run.containerId := Container(Some(w.store.jobs[i].id), Running)]
                          else w.containers)
  {
  }

  lemma MonitorTouches(w: World, i: nat, inp: MonitorInputs)
    requires i < |w.store.jobs|
    ensures var v := MonitorJob(w, w.store.jobs[i], inp).world;
      SameDirsExcept(w.dirs, v.dirs, w.store.jobs[i].id) && v.containers == w.containers
  {
  }

  lemma EditSettles(w: World, v: World, i: nat, job: Job)
    requires Settled(w) && DistinctIds(w.store.jobs) && i < |w.store.jobs| && job.id == w.store.jobs[i].id
    requires v.store.jobs == w.store.jobs[i := job] && SameDirsExcept(w.dirs, v.dirs, job.id) && JobSettled(job, v.dirs)
    ensures Settled(v)
  {
  }

  lemma PollSettles(w: World, inp: PollInputs, now: Time, lost: seq<Start>)
    requires Inv(w, now, lost) && Settled(w)
    ensures Settled(PollTick(w, inp).world)
  {
    hide Inv, StartJob, Rewrite, Settled, ProcessCancellations, SingleServer, DistinctIds;
    var ready := ProcessCancellations(w, inp.cancelAt);
    CancellationsKeep(w, inp.cancelAt, now, lost);
    CancellationsSettle(w, inp.cancelAt, now, lost);
    Structure(ready, now, lost);
    if NextToStart(ready).Some? {
      var i := NextIsFirstQueued(ready, now, lost);
      StartJobs(ready, i, inp);
      StartTouches(ready, i, inp);
      EditSettles(ready, PollTick(w, inp).world, i, StartResult(ready.store.jobs[i], inp));
    }
  }

  lemma MonitorSettles(w: World, inp: MonitorInputs, now: Time, lost: seq<Start>)
    requires Inv(w, now, lost) && Settled(w) && inp.heartbeatAt <= now
    ensures Settled(MonitorTick(w, inp).world)
  {
    hide Inv, MonitorJob, Settled, ListByStatuses, SingleServer, DistinctIds;
    Structure(w, now, lost);
    var i := MonitorKeeps(w, inp, now, lost);
    if MonitorTick(w, inp).result.Some? {
      MonitorJobKeeps(w, i, inp, now, lost);
      MonitorTouches(w, i, inp);
      var job := MonitorResult(w.store.jobs[i], ExitCode(w.containers, w.store.jobs[i].containerId), inp);
      SettledAt(w, i);
      EditSettles(w, MonitorTick(w, inp).world, i, job);
    }
  }

  lemma SettledAt(w: World, i: nat)
    requires Settled(w) && i < |w.store.jobs|
    ensures JobSettled(w.store.jobs[i], w.dirs)
  {
  }

  lemma SweepSettles(w: World, at: Time)
    requires Settled(w)
    ensures Settled(Sweep(w, at))
  {
  }

  lemma StepSettles(m: Moment, step: Step)
    requires Sound(m) && Enabled(m, step) && Settled(m.world) && !step.CrashDuringPoll?
    ensures Settled(Next(m, step).world)
  {
    hide Inv, PollTick, MonitorTick, Sweep;
    var w := m.world;
    match step
    case Create(request, id, checkedAt, createdAt) =>
      CreateKeeps(w, request, id, checkedAt, createdAt, m.clock, m.lost);
    case RequestCancel(userId, jobId, at) =>
      Later(w, m.clock, at, m.lost);
      CancelKeeps(w, userId, jobId, at, m.lost);
    case TimeoutSweep(at) => SweepSettles(w, at);
    case Poll(inp) => PollSettles(w, inp, m.clock, m.lost);
    case Monitor(inp) =>
      Later(w, m.clock, inp.heartbeatAt, m.lost);
      MonitorSettles(w, inp, inp.heartbeatAt, m.lost);
    case _ =>
  }

  lemma {:induction false} RunSettles(m: Moment, steps: seq<Step>)
    requires Sound(m) && EnabledRun(m, steps) && CrashFree(steps) && Settled(m.world)
    ensures Settled(Run(m, steps).world)
  {
    if steps != [] {
      var init := steps[..|steps| - 1];
      assert forall step :: step in init ==> step in steps;
      RunSettles(m, init);
      RunKeeps(m, init);
      assert steps[|steps| - 1] in steps;
      StepSettles(Run(m, init), steps[|steps| - 1]);
    }
  }

  lemma {:induction false} RunReports(m: Moment, steps: seq<Step>)
    requires Sound(m) && EnabledRun(m, steps) && Reported(m.world.store.jobs)
    ensures Reported(Run(m, steps).world.store.jobs)
  {
    if steps != [] {
      RunReports(m, steps[..|steps| - 1]);
      RunKeeps(m, steps[..|steps| - 1]);
      StepReports(Run(m, steps[..|steps| - 1]), steps[|steps| - 1]);
    }
  }

  // ---- the guarantees -----------------------------------------------------------------------

  /** In every run: what the status of a job says about its other fields and about the uploaded checkpoint. */
  lemma FieldsCohere(now: Time, steps: seq<Step>, i: nat)
    requires EnabledRun(Begin(now), steps) && i < |Run(Begin(now), steps).world.store.jobs|
    ensures var m := Run(Begin(now), steps); var job := m.world.store.jobs[i];
      && (job.status == Completed <==> job.checkpointPath == Some(CheckpointPath(job.id)))
      && (job.status != Completed <==> job.checkpointPath == None)
      && (job.status == Completed ==> CheckpointPath(job.id) in m.world.objects)
      && (job.status == Failed <==> job.errorMessage.Some?)
      && (job.status == Cancelled ==> job.cancelRequested)
      && (job.status in ON_GPU ==> job.heartbeatAt.Some? && job.heartbeatAt.value <= m.clock)
      && (job.status == Training ==> job.progress.Some?)
  {
    ReachableIsSound(now, steps);
    EmptyInv(now);
    RunReports(Begin(now), steps);
    var m := Run(Begin(now), steps);
    JobIsOk(m.world, i, m.clock, m.lost);
  }

  /** No two completed jobs share a checkpoint. */
  lemma CheckpointsApart(now: Time, steps: seq<Step>, i: nat, j: nat)
    requires EnabledRun(Begin(now), steps) && i < j < |Run(Begin(now), steps).world.store.jobs|
    requires Run(Begin(now), steps).world.store.jobs[i].checkpointPath.Some?
    ensures var jobs := Run(Begin(now), steps).world.store.jobs; jobs[i].checkpointPath != jobs[j].checkpointPath
  {
    hide Inv, Run, EnabledRun, CheckpointPath;
    ReachableIsSound(now, steps);
    var m := Run(Begin(now), steps);
    Structure(m.world, m.clock, m.lost);
    JobIsOk(m.world, i, m.clock, m.lost);
    JobIsOk(m.world, j, m.clock, m.lost);
    if CheckpointPath(m.world.store.jobs[i].id) == CheckpointPath(m.world.store.jobs[j].id) {
      PathNamesJob(m.world.store.jobs[i].id, m.world.store.jobs[j].id);
    }
  }

  lemma PathNamesJob(a: JobId, b: JobId)
    requires CheckpointPath(a) == CheckpointPath(b)
    ensures a == b
  {
    assert CheckpointPath(a)[12..12 + |a|] == a;
    assert CheckpointPath(b)[12..12 + |b|] == b;
  }

  /** In crash-free runs: a job on the GPU has a container of its own and its directory; a completed or cancelled job
      has no directory left; one that failed only for want of a successful upload keeps it. */
  lemma ContainersAndDirectories(now: Time, steps: seq<Step>, i: nat)
    requires EnabledRun(Begin(now), steps) && CrashFree(steps) && i < |Run(Begin(now), steps).world.store.jobs|
    ensures var w := Run(Begin(now), steps).world; var job := w.store.jobs[i];
      && (job.status in ON_GPU ==> job.containerId.Some? && job.containerId.value in w.containers
                                   && w.containers[job.containerId.value].jobLabel == Some(job.id) && job.id in w.dirs)
      && (job.status in {Queued, Completed, Cancelled} ==> job.id !in w.dirs)
      && (job.errorMessage == Some(CheckpointUploadFailed) ==> job.id in w.dirs)
  {
    ReachableIsSound(now, steps);
    EmptyInv(now);
    RunSettles(Begin(now), steps);
    var m := Run(Begin(now), steps);
    JobIsOk(m.world, i, m.clock, m.lost);
    SettledAt(m.world, i);
  }

  /** No two jobs are ever on the GPU at once, no user ever has two active jobs, and each status history is a path
      of the graph with at most three changes, in every run. */
  lemma WholeRunLegality(now: Time, steps: seq<Step>)
    requires EnabledRun(Begin(now), steps)
    ensures var s := Run(Begin(now), steps).world.store;
      && SingleServer(s.jobs) && OneActivePerUser(s.jobs)
      && (forall i :: 0 <= i < |s.jobs| ==>
           LegalTrace(s.traces[i]) && |s.traces[i]| <= 4 && s.traces[i][|s.traces[i]| - 1] == s.jobs[i].status)
  {
    ReachableIsSound(now, steps);
    var m := Run(Begin(now), steps);
    forall i | 0 <= i < |m.world.store.jobs|
      ensures |m.world.store.traces[i]| <= 4
    {
      JobIsOk(m.world, i, m.clock, m.lost);
      TraceBounded(m.world.store.traces[i]);
    }
  }

  /** Terminal statuses are absorbing: a finished document is never written again. */
  lemma FinishedIsFrozen(m: Moment, steps: seq<Step>, i: nat)
    requires Sound(m) && EnabledRun(m, steps) && i < |m.world.store.jobs| && m.world.store.jobs[i].status !in ACTIVE
    ensures i < |Run(m, steps).world.store.jobs| && Run(m, steps).world.store.jobs[i] == m.world.store.jobs[i]
  {
    RunGrows(m, steps);
    assert JobGrows(m.world.store.jobs[i], Run(m, steps).world.store.jobs[i]);
  }

  /** A sweep fails exactly the jobs whose heartbeat is too old, and leaves every job on the GPU within its
      threshold. */
  lemma SweepIsExact(m: Moment, at: Time, i: nat)
    requires Sound(m) && m.clock <= at && i < |m.world.store.jobs|
    ensures var job := m.world.store.jobs[i]; var after := Sweep(m.world, at).store.jobs[i];
      && (after != job <==> job.status in ON_GPU && at - job.heartbeatAt.value > TimeoutForStatus(job.status).value)
      && (after != job ==> after == job.(status := Failed, updatedAt := at, errorMessage := Some(HeartbeatTimeout)))
      && (after.status in ON_GPU ==> at - after.heartbeatAt.value <= TimeoutForStatus(after.status).value)
  {
  }

  /** What a start leaves: charged in every case, on the GPU with its own running container exactly when both fetch
      and launch succeed, otherwise failed with the reason. */
  lemma StartOutcome(m: Moment, inp: PollInputs, i: nat)
    requires Sound(m) && PollEnabled(m, inp)
    requires var ready := ProcessCancellations(m.world, inp.cancelAt);
      i < |ready.store.jobs| && NextToStart(ready) == Some(ready.store.jobs[i])
    ensures var w := PollTick(m.world, inp).world; var ready := ProcessCancellations(m.world, inp.cancelAt);
      && i < |w.store.jobs|
      && (var job, today := w.store.jobs[i], DateOf(inp.startAt);
          && job.userId in w.users && job.userId in m.world.users
          && EffectiveDailyUsed(w.users[job.userId], today) == EffectiveDailyUsed(m.world.users[job.userId], today) + 1
          && (job.status == Initializing <==> inp.fetch.Fetched? && inp.run.Launched?)
          && (job.status == Failed <==> job.status != Initializing)
          && (inp.fetch.FetchFailed? ==>
               job.errorMessage == Some(DatasetFetchFailed(inp.fetch.fetchError)) && w.containers == ready.containers)
          && (inp.fetch.Fetched? && inp.run.LaunchFailed? ==>
                job.errorMessage == Some(ContainerLaunchFailed(inp.run.launchError))
                  && w.containers == ready.containers)
          && (job.status == Initializing ==>
                (job.containerId == Some(inp.run.containerId) && job.heartbeatAt == Some(inp.startAt)
                 && w.containers == ready.containers[inp.run.containerId := Container(Some(job.id), Running)])))
  {
    hide Inv, StartJob, ProcessCancellations, ListByStatuses;
    var ready := ProcessCancellations(m.world, inp.cancelAt);
    CancellationsKeep(m.world, inp.cancelAt, m.clock, m.lost);
    Structure(ready, m.clock, m.lost);
    var n := NextIsFirstQueued(ready, m.clock, m.lost);
    assert n == i;
    CancellationsKeepUsers(m.world, inp.cancelAt);
    StartJobs(ready, i, inp);
    StartTouches(ready, i, inp);
    StartCharges(ready, ready.store.jobs[i], inp);
  }

  lemma CancellationsKeepUsers(w: World, at: Time)
    ensures ProcessCancellations(w, at).users == w.users
  {
  }

  lemma StartCharges(w: World, queued: Job, inp: PollInputs)
    requires queued.userId in w.users
    ensures StartJob(w, queued, inp).world.users ==
      w.users[queued.userId := RecordJobStarted(w.users[queued.userId], DateOf(inp.startAt))]
  {
  }
}
