/** While a job is on the GPU and its owner does not cancel it, only the monitor and a sweep touch its document. */
module BusyGpu {
  import opened Models
  import opened JobStore
  import opened ControlPlane
  import opened Invariants
  import opened Preservation
  import opened Runs
  import opened History
  import opened FifoRefinement

  ghost predicate Busy(jobs: seq<Job>, i: nat) {
    i < |jobs| && jobs[i].status in ON_GPU && !jobs[i].cancelRequested
  }

  /** The owner of the job asks to cancel it. */
  predicate AsksToCancel(step: Step, job: Job) {
    step.RequestCancel? && step.cancelled == job.id && step.requester == job.userId
  }

  predicate TouchesJob(job: Job, step: Step) {
    match step
    case Monitor(_) => true
    case RequestCancel(_, _, _) => AsksToCancel(step, job)
    case TimeoutSweep(at) => ToFail(job, at)
    case _ => false
  }

  lemma PollIsIdle(w: World, inp: PollInputs, point: CrashPoint, now: Time, lost: seq<Start>, i: nat)
    requires Inv(w, now, lost) && Busy(w.store.jobs, i)
    ensures var after := PollTick(w, inp).world.store.jobs; i < |after| && after[i] == w.store.jobs[i]
    ensures var after := CrashedPoll(w, inp, point).store.jobs; i < |after| && after[i] == w.store.jobs[i]
    ensures StartedBy(w, inp) == []
  {
    hide Inv, StartJob, CrashedStart;
    var ready := ProcessCancellations(w, inp.cancelAt);
    CancelledJobs(w, inp.cancelAt);
    CancellationsKeep(w, inp.cancelAt, now, lost);
    assert ready.store.jobs[i] == w.store.jobs[i];
    NothingNext(ready, now, lost, i);
  }

  lemma NothingNext(w: World, now: Time, lost: seq<Start>, i: nat)
    requires Inv(w, now, lost) && i < |w.store.jobs| && w.store.jobs[i].status in ON_GPU
    ensures NextToStart(w).None?
  {
    ListingIsInsertionOrder(w.store.jobs, ON_GPU);
    NoneSelected(w.store.jobs, ON_GPU);
  }

  lemma CancelElsewhere(w: World, userId: UserId, jobId: JobId, at: Time, i: nat)
    requires DistinctIds(w.store.jobs) && i < |w.store.jobs|
    requires w.store.jobs[i].id != jobId || w.store.jobs[i].userId != userId
    ensures var after := CancelJob(w, userId, jobId, at).world.store.jobs; i < |after| && after[i] == w.store.jobs[i]
  {
  }

  lemma CreateElsewhere(w: World, request: JobRequest, id: JobId, checkedAt: Time, createdAt: Time, i: nat)
    requires i < |w.store.jobs| && IndexOf(w.store.jobs, id) == |w.store.jobs|
    ensures var after := CreateJob(w, request, id, checkedAt, createdAt).world.store.jobs;
      i < |after| && after[i] == w.store.jobs[i]
  {
  }

  lemma SweepElsewhere(w: World, at: Time, i: nat)
    requires i < |w.store.jobs| && !ToFail(w.store.jobs[i], at)
    ensures var after := Sweep(w, at).store.jobs; i < |after| && after[i] == w.store.jobs[i]
  {
  }

  lemma BusyUntouched(m: Moment, step: Step, i: nat)
    requires Sound(m) && Enabled(m, step) && Busy(m.world.store.jobs, i) && !TouchesJob(m.world.store.jobs[i], step)
    ensures var after := Next(m, step).world.store.jobs; i < |after| && after[i] == m.world.store.jobs[i]
    ensures NewStarts(m.world, step) == []
  {
    hide Inv, PollTick, CrashedPoll, MonitorTick, CreateJob, CancelJob, Sweep, StartedBy, Put;
    var w := m.world;
    Structure(w, m.clock, m.lost);
    match step
    case Poll(inp) => PollIsIdle(w, inp, AfterMark, m.clock, m.lost, i);
    case CrashDuringPoll(inp, point) => PollIsIdle(w, inp, point, m.clock, m.lost, i);
    case Create(request, id, checkedAt, createdAt) => CreateElsewhere(w, request, id, checkedAt, createdAt, i);
    case RequestCancel(userId, jobId, at) => CancelElsewhere(w, userId, jobId, at, i);
    case TimeoutSweep(at) => SweepElsewhere(w, at, i);
    case _ =>
  }

  /** The monitor reads exactly the busy job. */
  lemma MonitorReads(m: Moment, inp: MonitorInputs, i: nat)
    requires Sound(m) && Enabled(m, Monitor(inp)) && i < |m.world.store.jobs| && m.world.store.jobs[i].status in ON_GPU
    ensures var after := Next(m, Monitor(inp)).world.store.jobs;
      && i < |after|
      && after[i] ==
           MonitorResult(m.world.store.jobs[i], ExitCode(m.world.containers, m.world.store.jobs[i].containerId), inp)
  {
    hide Inv, MonitorJob, MonitorResult;
    Structure(m.world, m.clock, m.lost);
    Later(m.world, m.clock, inp.heartbeatAt, m.lost);
    var k := MonitorKeeps(m.world, inp, inp.heartbeatAt, m.lost);
    assert k == i;
    MonitorJobKeeps(m.world, k, inp, inp.heartbeatAt, m.lost);
  }

  /** What an exit means: completed exactly for exit code 0, a packaged checkpoint and an upload that succeeded within
      1 + retries attempts; otherwise failed with the first reason that applies. */
  lemma ExitDecides(m: Moment, inp: MonitorInputs, i: nat, code: int)
    requires Sound(m) && Enabled(m, Monitor(inp)) && i < |m.world.store.jobs| && m.world.store.jobs[i].status in ON_GPU
    requires ExitCode(m.world.containers, m.world.store.jobs[i].containerId) == Some(code)
    ensures var jobs := Next(m, Monitor(inp)).world.store.jobs;
      && i < |jobs|
      && (jobs[i].status == Completed <==>
            (code == 0 && inp.packageError.None?
             && exists k :: 0 <= k < |inp.uploads| && k <= inp.retries && inp.uploads[k]))
      && (jobs[i].status == Failed <==> jobs[i].status != Completed)
      && (code != 0 ==> jobs[i].errorMessage == Some(ContainerExited(code, inp.logs)))
      && (code == 0 && inp.packageError.Some? ==> jobs[i].errorMessage == Some(PackagingFailed(inp.packageError.value)))
      && (code == 0 && inp.packageError.None? && jobs[i].status == Failed ==>
           jobs[i].errorMessage == Some(CheckpointUploadFailed))
  {
    hide Inv, Next, Enabled;
    MonitorReads(m, inp, i);
    if UploadSucceeds(inp.uploads, inp.retries) {
      var k :| 0 <= k < 1 + inp.retries && AttemptSucceeds(inp.uploads, k);
      assert inp.uploads[k];
    }
    forall k | 0 <= k < |inp.uploads| && k <= inp.retries && inp.uploads[k]
      ensures UploadSucceeds(inp.uploads, inp.retries)
    {
      assert AttemptSucceeds(inp.uploads, k);
    }
  }

  predicate Repeats(job: Job, latest: Progress) {
    job.progress.Some? && job.progress.value.step == latest.step && job.progress.value.loss == latest.loss
  }

  /** Without an exit the first progress moves the job to `training`, and nothing else changes its status; the
      heartbeat of a `training` job moves exactly when step or loss changed, that of an `initializing` one with
      every read. */
  lemma ReadDecides(m: Moment, inp: MonitorInputs, i: nat)
    requires Sound(m) && Enabled(m, Monitor(inp)) && i < |m.world.store.jobs| && m.world.store.jobs[i].status in ON_GPU
    requires ExitCode(m.world.containers, m.world.store.jobs[i].containerId).None?
    ensures var job, jobs := m.world.store.jobs[i], Next(m, Monitor(inp)).world.store.jobs;
      && i < |jobs|
      && (jobs[i].status == Training <==> job.status == Training || inp.progress.Some?)
      && (jobs[i].status == Initializing <==> jobs[i].status != Training)
      && (job.status == Training && (inp.progress.None? || Repeats(job, inp.progress.value)) ==> jobs[i] == job)
      && (inp.progress.Some? && !Repeats(job, inp.progress.value) ==>
            (jobs[i].progress == inp.progress && jobs[i].heartbeatAt == Some(inp.heartbeatAt)))
      && (jobs[i].status == Initializing ==> jobs[i] == job.(heartbeatAt := Some(inp.heartbeatAt)))
  {
    hide Inv, Next, Enabled;
    MonitorReads(m, inp, i);
  }

  lemma MonitorStartsNothing(w: World, step: Step)
    requires step.Monitor?
    ensures NewStarts(w, step) == []
  {
  }
}
