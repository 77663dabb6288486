/** At most one training container: when it holds, when it breaks, and what a restart repairs. */
module ContainerExclusion {
  import opened Models
  import opened JobStore
  import opened ControlPlane
  import opened Invariants
  import opened Preservation
  import opened Runs
  import opened FifoRefinement
  import opened Settlement

  /** Every running container of the service belongs to a job on the GPU. */
  ghost predicate Exclusive(w: World) {
    RunningLabelled(w.containers) <= TrackedContainers(w.store.jobs)
  }

  lemma TrackedBy(jobs: seq<Job>, i: nat)
    requires SingleServer(jobs) && i < |jobs| && jobs[i].status in ON_GPU
    ensures TrackedContainers(jobs) == if jobs[i].containerId.Some? then {jobs[i].containerId.value} else {}
  {
  }

  lemma TrackedNone(jobs: seq<Job>)
    requires forall k :: 0 <= k < |jobs| ==> jobs[k].status !in ON_GPU
    ensures TrackedContainers(jobs) == {}
  {
  }

  /** A single server tracks a single container, so exclusive means at most one runs. */
  lemma AtMostOne(w: World)
    requires SingleServer(w.store.jobs) && Exclusive(w)
    ensures |RunningLabelled(w.containers)| <= 1
  {
    ExclusiveIsLone(w);
    LoneIsAtMostOne(RunningLabelled(w.containers));
  }

  // ---- restart ------------------------------------------------------------------------------

  /** In every run, crashes and timeouts included: right after reconciliation exactly the tracked containers
      among those that ran still run, at most one of them, and unlabelled workloads are untouched. */
  lemma ReconcileRestores(m: Moment)
    requires Sound(m)
    ensures var w := m.world; var after := Reconcile(w);
      && RunningLabelled(after.containers) == RunningLabelled(w.containers) * TrackedContainers(w.store.jobs)
      && Exclusive(after) && |RunningLabelled(after.containers)| <= 1
      && after.containers.Keys == w.containers.Keys
      && (forall c :: c in w.containers && w.containers[c].jobLabel.None? ==> after.containers[c] == w.containers[c])
      && after == w.(containers := after.containers)
  {
    var w := m.world;
    Structure(w, m.clock, m.lost);
    AtMostOne(Reconcile(w));
  }

  // ---- sweeps -------------------------------------------------------------------------------

  ghost predicate ContainerRuns(w: World, job: Job) {
    job.containerId.Some? && job.containerId.value in RunningLabelled(w.containers)
  }

  /** The premise under which a sweep is harmless: the jobs it fails have no running container any more. */
  ghost predicate FailsOnlyStopped(w: World, at: Time) {
    forall i :: 0 <= i < |w.store.jobs| && ToFail(w.store.jobs[i], at) ==> !ContainerRuns(w, w.store.jobs[i])
  }

  lemma SweptTracked(w: World, at: Time)
    requires SingleServer(w.store.jobs)
    ensures forall i :: 0 <= i < |w.store.jobs| && w.store.jobs[i].status in ON_GPU ==>
      TrackedContainers(Sweep(w, at).store.jobs) ==
        if ToFail(w.store.jobs[i], at) then {} else TrackedContainers(w.store.jobs)
    ensures (forall k :: 0 <= k < |w.store.jobs| ==> w.store.jobs[k].status !in ON_GPU) ==>
      TrackedContainers(Sweep(w, at).store.jobs) == {}
  {
    var after := Sweep(w, at).store.jobs;
    SweptJobs(w, at);
    BatchServing(w.store.jobs, Timeouts(at));
    if i :| 0 <= i < |w.store.jobs| && w.store.jobs[i].status in ON_GPU {
      TrackedBy(w.store.jobs, i);
      if ToFail(w.store.jobs[i], at) {
        TrackedNone(after);
      } else {
        assert after[i] == w.store.jobs[i];
        TrackedBy(after, i);
      }
    } else {
      TrackedNone(after);
    }
  }

  /** A sweep keeps containers exclusive exactly when it fails no job whose container still runs. */
  lemma SweepExclusiveIff(m: Moment, at: Time)
    requires Sound(m) && Exclusive(m.world)
    ensures Exclusive(Sweep(m.world, at)) <==> FailsOnlyStopped(m.world, at)
  {
    hide Inv, Sweep;
    var w := m.world;
    Structure(w, m.clock, m.lost);
    SweptTracked(w, at);
    SweepKeepsContainers(w, at);
    if i :| 0 <= i < |w.store.jobs| && w.store.jobs[i].status in ON_GPU {
      TrackedBy(w.store.jobs, i);
      assert ToFail(w.store.jobs[i], at) && ContainerRuns(w, w.store.jobs[i]) ==>
        w.store.jobs[i].containerId.value in RunningLabelled(w.containers);
    } else {
      TrackedNone(w.store.jobs);
    }
  }

  lemma SweepKeepsContainers(w: World, at: Time)
    ensures Sweep(w, at).containers == w.containers
  {
  }

  /** Outside that premise: a sweep that fails a job whose container runs lets the next poll start a second one. */
  lemma TimeoutLeavesTwoRunning(m: Moment, at: Time, i: nat, q: nat, inp: PollInputs)
    requires Sound(m) && m.clock <= at
    requires i < |m.world.store.jobs| && ToFail(m.world.store.jobs[i], at)
      && ContainerRuns(m.world, m.world.store.jobs[i])
    requires q < |m.world.store.jobs| && m.world.store.jobs[q].status == Queued
    requires forall k :: 0 <= k < |m.world.store.jobs| ==> !ToCancel(m.world.store.jobs[k])
    requires PollEnabled(Next(m, TimeoutSweep(at)), inp) && inp.fetch.Fetched? && inp.run.Launched?
    ensures var after := PollTick(Sweep(m.world, at), inp).world;
      && {m.world.store.jobs[i].containerId.value, inp.run.containerId} <= RunningLabelled(after.containers)
      && m.world.store.jobs[i].containerId.value != inp.run.containerId
  {
    hide Inv, PollTick;
    StepKeeps(m, TimeoutSweep(at));
    SweptGpuIsFree(m, at, i);
    SweepKeepsContainers(m.world, at);
    PollStartsAnother(Sweep(m.world, at), q, inp, at, m.lost);
  }

  lemma SweptGpuIsFree(m: Moment, at: Time, i: nat)
    requires Sound(m) && i < |m.world.store.jobs| && ToFail(m.world.store.jobs[i], at)
    ensures var before, after := m.world.store.jobs, Sweep(m.world, at).store.jobs;
      && |after| == |before|
      && (forall k :: 0 <= k < |after| ==> after[k].status !in ON_GPU)
      && (forall k :: 0 <= k < |after| && before[k].status == Queued ==> after[k] == before[k])
      && ((forall k :: 0 <= k < |before| ==> !ToCancel(before[k])) ==>
            forall k :: 0 <= k < |after| ==> !ToCancel(after[k]))
  {
  }

  /** With the GPU free in the store, the poller starts a container next to whatever runs. */
  lemma PollStartsAnother(w: World, q: nat, inp: PollInputs, now: Time, lost: seq<Start>)
    requires Inv(w, now, lost) && q < |w.store.jobs| && w.store.jobs[q].status == Queued
    requires forall k :: 0 <= k < |w.store.jobs| ==> !ToCancel(w.store.jobs[k]) && w.store.jobs[k].status !in ON_GPU
    requires inp.fetch.Fetched? && inp.run.Launched? && inp.run.containerId !in w.containers
    ensures RunningLabelled(PollTick(w, inp).world.containers) == RunningLabelled(w.containers) + {inp.run.containerId}
  {
    hide Inv, StartJob, ProcessCancellations;
    var ready := ProcessCancellations(w, inp.cancelAt);
    CancellationsKeep(w, inp.cancelAt, now, lost);
    NothingToCancel(w, inp.cancelAt);
    WillStart(ready, q, now, lost);
    var n := NextIsFirstQueued(ready, now, lost);
    StartTouches(ready, n, inp);
  }

  lemma NothingToCancel(w: World, at: Time)
    requires forall k :: 0 <= k < |w.store.jobs| ==> !ToCancel(w.store.jobs[k])
    ensures ProcessCancellations(w, at).store.jobs == w.store.jobs
    ensures ProcessCancellations(w, at).containers == w.containers
  {
  }

  lemma WillStart(w: World, q: nat, now: Time, lost: seq<Start>)
    requires Inv(w, now, lost) && q < |w.store.jobs| && w.store.jobs[q].status == Queued
    requires forall k :: 0 <= k < |w.store.jobs| ==> w.store.jobs[k].status !in ON_GPU
    ensures NextToStart(w).Some?
  {
    ListingIsInsertionOrder(w.store.jobs, QUEUED);
    ListingIsInsertionOrder(w.store.jobs, ON_GPU);
    NoneSelected(w.store.jobs, ON_GPU);
    NoneSelected(w.store.jobs, QUEUED);
  }

  // ---- runs ---------------------------------------------------------------------------------

  lemma CancellationsExclude(w: World, at: Time)
    requires Exclusive(w)
    ensures Exclusive(ProcessCancellations(w, at))
  {
    var v := ProcessCancellations(w, at);
    forall c | c in RunningLabelled(v.containers)
      ensures c in TrackedContainers(v.store.jobs)
    {
      assert c in RunningLabelled(w.containers) && c !in KilledBy(w.store.jobs);
      var i :| 0 <= i < |w.store.jobs| && w.store.jobs[i].status in ON_GPU && w.store.jobs[i].containerId == Some(c);
      assert !ToKill(w.store.jobs[i]);
      assert v.store.jobs[i] == w.store.jobs[i];
    }
  }

  lemma PollExcludes(w: World, inp: PollInputs, now: Time, lost: seq<Start>)
    requires Inv(w, now, lost) && Exclusive(w)
    ensures Exclusive(PollTick(w, inp).world)
  {
    hide Inv, StartJob, ProcessCancellations;
    var ready := ProcessCancellations(w, inp.cancelAt);
    CancellationsKeep(w, inp.cancelAt, now, lost);
    CancellationsExclude(w, inp.cancelAt);
    Structure(ready, now, lost);
    if NextToStart(ready).Some? {
      var i := NextIsFirstQueued(ready, now, lost);
      TrackedNone(ready.store.jobs);
      StartTouches(ready, i, inp);
      StartJobs(ready, i, inp);
      LaunchTracked(ready, PollTick(w, inp).world, i, inp);
    }
  }

  lemma LaunchTracked(w: World, v: World, i: nat, inp: PollInputs)
    requires i < |w.store.jobs| && RunningLabelled(w.containers) == {}
    requires v.store.jobs == w.store.jobs[i := StartResult(w.store.jobs[i], inp)]
    requires v.containers == (if inp.fetch.Fetched? && inp.run.Launched?
                              then w.containers[inp.run.containerId := Container(Some(w.store.jobs[i].id), Running)]
                              else w.containers)
    ensures Exclusive(v)
  {
    forall c | c in RunningLabelled(v.containers)
      ensures c in TrackedContainers(v.store.jobs)
    {
      assert c in w.containers && (inp.run.Launched? ==> c != inp.run.containerId) ==>
        c in RunningLabelled(w.containers);
      assert v.store.jobs[i].status in ON_GPU;
    }
  }

  lemma MonitorExcludes(w: World, inp: MonitorInputs, now: Time, lost: seq<Start>)
    requires Inv(w, now, lost) && Exclusive(w) && inp.heartbeatAt <= now
    ensures Exclusive(MonitorTick(w, inp).world)
  {
    hide Inv, MonitorJob, MonitorResult;
    Structure(w, now, lost);
    var i := MonitorKeeps(w, inp, now, lost);
    if MonitorTick(w, inp).result.Some? {
      var exitCode := ExitCode(w.containers, w.store.jobs[i].containerId);
      var job := MonitorResult(w.store.jobs[i], exitCode, inp);
      MonitorJobKeeps(w, i, inp, now, lost);
      MonitorTouches(w, i, inp);
      MonitorFinishes(w.store.jobs[i], exitCode, inp);
      MonitorKeepsContainer(w.store.jobs[i], exitCode, inp);
      EditTracked(w.store.jobs, i, job);
    }
  }

  lemma MonitorKeepsContainer(job: Job, exitCode: Option<int>, inp: MonitorInputs)
    ensures MonitorResult(job, exitCode, inp).containerId == job.containerId
  {
  }

  lemma EditTracked(jobs: seq<Job>, i: nat, job: Job)
    requires i < |jobs| && job.containerId == jobs[i].containerId
    ensures job.status in ON_GPU ==> TrackedContainers(jobs) <= TrackedContainers(jobs[i := job])
    ensures jobs[i].containerId.None? || job.status in ON_GPU || jobs[i].status !in ON_GPU ==>
      TrackedContainers(jobs) <= TrackedContainers(jobs[i := job])
    ensures jobs[i].containerId.Some? ==>
      TrackedContainers(jobs) <= TrackedContainers(jobs[i := job]) + {jobs[i].containerId.value}
  {
    var after := jobs[i := job];
    forall k | 0 <= k < |jobs| && jobs[k].status in ON_GPU && jobs[k].containerId.Some?
      ensures k != i ==> jobs[k].containerId.value in TrackedContainers(after)
      ensures job.status in ON_GPU ==> jobs[k].containerId.value in TrackedContainers(after)
    {
      assert k != i ==> after[k] == jobs[k];
      assert job.status in ON_GPU ==> after[k].status in ON_GPU && after[k].containerId == jobs[k].containerId;
    }
  }

  /** One step of a crash-free run keeps containers exclusive, provided sweeps fail only jobs whose container has
      stopped. */
  lemma StepExcludes(m: Moment, step: Step)
    requires Sound(m) && Enabled(m, step) && Exclusive(m.world) && !step.CrashDuringPoll?
    requires step.TimeoutSweep? ==> FailsOnlyStopped(m.world, step.at)
    ensures Exclusive(Next(m, step).world)
  {
    hide Inv, PollTick, MonitorTick, Sweep, CreateJob, CancelJob;
    var w := m.world;
    match step
    case Create(request, id, checkedAt, createdAt) =>
      CreateExcludes(w, request, id, checkedAt, createdAt, m.clock, m.lost);
    case RequestCancel(userId, jobId, at) => CancelExcludes(w, userId, jobId, at, m.clock, m.lost);
    case TimeoutSweep(at) => SweepExclusiveIff(m, at);
    case Poll(inp) => PollExcludes(w, inp, m.clock, m.lost);
    case Monitor(inp) =>
      Later(w, m.clock, inp.heartbeatAt, m.lost);
      MonitorExcludes(w, inp, inp.heartbeatAt, m.lost);
    case _ =>
  }

  lemma CreateExcludes(w: World, request: JobRequest, id: JobId, checkedAt: Time, createdAt: Time, now: Time,
      lost: seq<Start>)
    requires Inv(w, now, lost) && now <= checkedAt <= createdAt && !Known(w.store.jobs, id) && id !in w.dirs
      && Exclusive(w)
    ensures Exclusive(CreateJob(w, request, id, checkedAt, createdAt).world)
  {
    hide Inv;
    CreateKeeps(w, request, id, checkedAt, createdAt, now, lost);
    var after := CreateJob(w, request, id, checkedAt, createdAt).world.store.jobs;
    assert forall k :: 0 <= k < |w.store.jobs| ==> after[k] == w.store.jobs[k];
  }

  lemma CancelExcludes(w: World, userId: UserId, jobId: JobId, at: Time, now: Time, lost: seq<Start>)
    requires Inv(w, now, lost) && now <= at && Exclusive(w)
    ensures Exclusive(CancelJob(w, userId, jobId, at).world)
  {
    hide Inv;
    Later(w, now, at, lost);
    CancelKeeps(w, userId, jobId, at, lost);
    var o := CancelJob(w, userId, jobId, at);
    if o.result.Ok? {
      EditTracked(w.store.jobs, IndexOf(w.store.jobs, jobId), o.result.value);
    }
  }

  // ---- crashes ------------------------------------------------------------------------------

  lemma CrashTouches(w: World, i: nat, inp: PollInputs, point: CrashPoint)
    requires i < |w.store.jobs| && w.store.jobs[i].userId in w.users
    ensures CrashedStart(w, w.store.jobs[i], inp, point).containers ==
      if point == AfterLaunch && inp.run.Launched?
      then w.containers[inp.run.containerId := Container(Some(w.store.jobs[i].id), Running)] else w.containers
  {
  }

  /** A crash in a start keeps containers exclusive exactly when it has not launched one; in any case at most one
      runs. */
  lemma CrashExclusiveIff(m: Moment, inp: PollInputs, point: CrashPoint)
    requires Sound(m) && PollEnabled(m, inp) && Exclusive(m.world)
    ensures var after := CrashedPoll(m.world, inp, point);
      && Lone(RunningLabelled(after.containers))
      && (Exclusive(after) <==>
            !(point == AfterLaunch && inp.run.Launched?
              && NextToStart(ProcessCancellations(m.world, inp.cancelAt)).Some?))
  {
    hide Inv, CrashedStart, ProcessCancellations, ListByStatuses;
    var ready := ProcessCancellations(m.world, inp.cancelAt);
    CancellationsKeep(m.world, inp.cancelAt, m.clock, m.lost);
    CancellationsExclude(m.world, inp.cancelAt);
    Structure(ready, m.clock, m.lost);
    ExclusiveIsLone(ready);
    if NextToStart(ready).Some? {
      var i := NextIsFirstQueued(ready, m.clock, m.lost);
      TrackedNone(ready.store.jobs);
      QueuedHasNoContainer(ready, i, m.clock, m.lost);
      CrashTouches(ready, i, inp, point);
      CrashedStartJobs(ready, i, inp, point);
      NothingAttached(ready.store.jobs, i, Started(ready.store.jobs[i], inp.startAt));
      if point == AfterLaunch && inp.run.Launched? {
        OneLaunched(ready.containers, inp.run.containerId, ready.store.jobs[i].id);
      }
    }
  }

  lemma NothingAttached(jobs: seq<Job>, i: nat, job: Job)
    requires i < |jobs| && job.containerId.None? && forall k :: 0 <= k < |jobs| ==> jobs[k].status !in ON_GPU
    ensures TrackedContainers(jobs[i := job]) == {}
  {
  }

  lemma OneLaunched(containers: Containers, id: ContainerId, jobId: JobId)
    requires RunningLabelled(containers) == {}
    ensures RunningLabelled(containers[id := Container(Some(jobId), Running)]) == {id}
  {
    var running := RunningLabelled(containers[id := Container(Some(jobId), Running)]);
    forall c | c in running
      ensures c == id
    {
      assert c != id ==> c in RunningLabelled(containers);
    }
  }

  /** At most one container of the service runs. */
  ghost predicate Lone(running: set<ContainerId>) {
    forall c, d :: c in running && d in running ==> c == d
  }

  lemma LoneIsAtMostOne(running: set<ContainerId>)
    requires Lone(running)
    ensures |running| <= 1
  {
    if c :| c in running {
      assert running == {c};
    }
  }

  lemma ExclusiveIsLone(w: World)
    requires SingleServer(w.store.jobs) && Exclusive(w)
    ensures Lone(RunningLabelled(w.containers))
  {
    var jobs := w.store.jobs;
    if i :| 0 <= i < |jobs| && jobs[i].status in ON_GPU {
      TrackedBy(jobs, i);
    } else {
      TrackedNone(jobs);
    }
  }

  predicate WorkerStep(step: Step) {
    step.Poll? || step.CrashDuringPoll? || step.Monitor?
  }

  /** While the worker is down nothing is launched. */
  lemma StepWhileDown(m: Moment, step: Step)
    requires Enabled(m, step) && !WorkerStep(step)
    ensures RunningLabelled(Next(m, step).world.containers) <= RunningLabelled(m.world.containers)
  {
    hide Put, RefusalToCreate, Rewrite;
  }

  // ---- runs with crashes --------------------------------------------------------------------

  /** The worker has crashed and not been restarted. */
  predicate Down(steps: seq<Step>) {
    steps != [] &&
    (var last := steps[|steps| - 1]; last.CrashDuringPoll? || (!last.Restart? && Down(steps[..|steps| - 1])))
  }

  /** The premises over a run: a crashed worker takes no step before its restart, and while it is up
      no sweep fails a job whose container still runs. */
  ghost predicate Supervised(m: Moment, steps: seq<Step>) {
    steps == [] ||
    (var init, last := steps[..|steps| - 1], steps[|steps| - 1];
     && Supervised(m, init)
     && (Down(init) ==> !WorkerStep(last))
     && (!Down(init) && last.TimeoutSweep? ==> FailsOnlyStopped(Run(m, init).world, last.at)))
  }

  /** In such runs at most one container of the service ever runs, crashes included, and while the worker is up
      it is that of the job on the GPU. */
  lemma RunExcludes(now: Time, steps: seq<Step>)
    requires EnabledRun(Begin(now), steps) && Supervised(Begin(now), steps)
    ensures var w := Run(Begin(now), steps).world;
      |RunningLabelled(w.containers)| <= 1 && (!Down(steps) ==> Exclusive(w))
  {
    RunIsLone(now, steps);
    LoneIsAtMostOne(RunningLabelled(Run(Begin(now), steps).world.containers));
  }

  lemma {:induction false} RunIsLone(now: Time, steps: seq<Step>)
    requires EnabledRun(Begin(now), steps) && Supervised(Begin(now), steps)
    ensures var w := Run(Begin(now), steps).world;
      Lone(RunningLabelled(w.containers)) && (!Down(steps) ==> Exclusive(w))
  {
    hide Inv, Next, Enabled, Exclusive, Lone, FailsOnlyStopped;
    if steps == [] {
      NothingRuns(Begin(now));
    } else {
      var init, last := steps[..|steps| - 1], steps[|steps| - 1];
      RunIsLone(now, init);
      ReachableIsSound(now, init);
      StepIsLone(Run(Begin(now), init), last, Down(init));
    }
  }

  lemma StepIsLone(m: Moment, step: Step, down: bool)
    requires Sound(m) && Enabled(m, step) && Lone(RunningLabelled(m.world.containers)) && (!down ==> Exclusive(m.world))
    requires down ==> !WorkerStep(step)
    requires !down && step.TimeoutSweep? ==> FailsOnlyStopped(m.world, step.at)
    ensures var w := Next(m, step).world;
      && Lone(RunningLabelled(w.containers))
      && (!(step.CrashDuringPoll? || (!step.Restart? && down)) ==> Exclusive(w))
  {
    hide Inv, PollTick, CrashedPoll, MonitorTick, Sweep, CreateJob, CancelJob, Reconcile, Exclusive, FailsOnlyStopped,
      Killed;
    StepKeeps(m, step);
    if step.Restart? {
      ReconcileRestores(m);
    } else if step.CrashDuringPoll? {
      CrashExclusiveIff(m, step.poll, step.point);
    } else if down {
      StepWhileDown(m, step);
    } else {
      StepExcludes(m, step);
    }
    var n := Next(m, step);
    Structure(n.world, n.clock, n.lost);
    if !step.CrashDuringPoll? && (step.Restart? || !down) {
      ExclusiveIsLone(n.world);
    }
  }

  lemma NothingRuns(m: Moment)
    requires m.world == EMPTY_WORLD
    ensures Exclusive(m.world) && Lone(RunningLabelled(m.world.containers))
  {
  }
}
