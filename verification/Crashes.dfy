/** What a worker crash in the middle of a start costs. */
module Crashes {
  import opened Models
  import opened JobStore
  import opened Heartbeat
  import opened ControlPlane
  import opened Invariants
  import opened Preservation
  import opened Runs
  import opened History
  import opened FifoRefinement
  import opened BusyGpu
  import opened Cancellation
  import opened Settlement
  import opened ContainerExclusion
  import opened JobStateMachine

  /** A crash between the two writes gives the start away: it is on record, the counter is not touched. */
  lemma CrashStartsForFree(m: Moment, inp: PollInputs, job: Job)
    requires Sound(m) && PollEnabled(m, inp) && NextToStart(ProcessCancellations(m.world, inp.cancelAt)) == Some(job)
    ensures var after := CrashedPoll(m.world, inp, AfterMark); var today := DateOf(inp.startAt);
      && after.users == m.world.users
      && StartsOn(after.store.starts, job.userId, today) == StartsOn(m.world.store.starts, job.userId, today) + 1
  {
    CrashGrows(m.world, inp, AfterMark, m.clock, m.lost);
    OneMoreStart(m.world.store.starts, StartOf(Started(job, inp.startAt)));
  }

  /** A job marked `initializing` whose container never got attached, and whose owner has not asked for cancellation. */
  ghost predicate Stalled(jobs: seq<Job>, i: nat) {
    i < |jobs| && jobs[i].status == Initializing && jobs[i].containerId.None? && !jobs[i].cancelRequested
  }

  /** Everything that can happen except the three ways out: the owner cancels the job, it writes progress,
      or a sweep finds its heartbeat more than five minutes old. */
  ghost predicate LeavesStalled(m: Moment, step: Step, i: nat)
    requires i < |m.world.store.jobs|
  {
    match step
    case RequestCancel(_, _, _) => !AsksToCancel(step, m.world.store.jobs[i])
    case Monitor(inp) => inp.progress.None?
    case TimeoutSweep(at) => m.world.store.jobs[i].heartbeatAt.Some? ==>
      at - m.world.store.jobs[i].heartbeatAt.value <= INITIALIZING_TIMEOUT
    case _ => true
  }

  /** The monitor keeps a stalled job alive: it bumps the heartbeat although there is no container. */
  lemma MonitorStalls(m: Moment, inp: MonitorInputs, i: nat)
    requires Sound(m) && Enabled(m, Monitor(inp)) && Stalled(m.world.store.jobs, i) && inp.progress.None?
    ensures var jobs := Next(m, Monitor(inp)).world.store.jobs;
      Stalled(jobs, i) && jobs[i] == m.world.store.jobs[i].(heartbeatAt := Some(inp.heartbeatAt))
  {
    hide Inv, Next;
    MonitorReads(m, inp, i);
  }

  /** Out of the stall for good. */
  ghost predicate Released(jobs: seq<Job>, i: nat) {
    i < |jobs| && jobs[i].status != Queued && (jobs[i].status == Initializing ==> jobs[i].cancelRequested)
  }

  lemma StepStalls(m: Moment, step: Step, i: nat)
    requires Sound(m) && Enabled(m, step) && Stalled(m.world.store.jobs, i) && LeavesStalled(m, step, i)
    ensures Stalled(Next(m, step).world.store.jobs, i) && NewStarts(m.world, step) == []
  {
    hide Inv, Next, Enabled, NewStarts;
    if step.Monitor? {
      MonitorStalls(m, step.monitor, i);
      MonitorStartsNothing(m.world, step);
    } else {
      BusyUntouched(m, step, i);
    }
  }

  /** Each of the three ways out ends the stall. */
  lemma StepReleases(m: Moment, step: Step, i: nat)
    requires Sound(m) && Enabled(m, step) && Stalled(m.world.store.jobs, i) && !LeavesStalled(m, step, i)
    ensures Released(Next(m, step).world.store.jobs, i)
  {
    hide Inv, Next, MonitorResult;
    var job := m.world.store.jobs[i];
    match step
    case RequestCancel(userId, jobId, at) =>
      RequestExact(m, userId, jobId, at, i);
      NextCancels(m, step);
    case Monitor(inp) =>
      ReadDecides(m, inp, i);
    case TimeoutSweep(at) =>
      SweepIsExact(m, at, i);
      NextSweeps(m, at);
  }

  lemma NextCancels(m: Moment, step: Step)
    requires step.RequestCancel?
    ensures Next(m, step).world == CancelJob(m.world, step.requester, step.cancelled, step.at).world
  {
  }

  lemma NextSweeps(m: Moment, at: Time)
    ensures Next(m, TimeoutSweep(at)).world == Sweep(m.world, at)
  {
  }

  /** A stalled job stays stalled exactly in the steps that are none of the three ways out. */
  lemma StepStallsIff(m: Moment, step: Step, i: nat)
    requires Sound(m) && Enabled(m, step) && Stalled(m.world.store.jobs, i)
    ensures Stalled(Next(m, step).world.store.jobs, i) <==> LeavesStalled(m, step, i)
  {
    hide Inv, Next, Enabled, LeavesStalled, NewStarts;
    if LeavesStalled(m, step, i) {
      StepStalls(m, step, i);
    } else {
      StepReleases(m, step, i);
    }
  }

  lemma StaysReleased(m: Moment, step: Step, i: nat)
    requires Sound(m) && Enabled(m, step) && Released(m.world.store.jobs, i)
    ensures Released(Next(m, step).world.store.jobs, i)
  {
    hide Inv, Next, Enabled, NewStarts;
    var n := Next(m, step);
    StepGrows(m, step);
    StepKeeps(m, step);
    assert JobGrows(m.world.store.jobs[i], n.world.store.jobs[i]);
    JobIsOk(m.world, i, m.clock, m.lost);
    JobIsOk(n.world, i, n.clock, n.lost);
    var before, after := m.world.store.traces[i], n.world.store.traces[i];
    RankFalls(after, |before| - 1, |after| - 1);
  }

  ghost predicate LeavesStalledThroughout(m: Moment, steps: seq<Step>, i: nat) {
    steps == [] ||
    (var init := steps[..|steps| - 1];
     && LeavesStalledThroughout(m, init, i)
     && i < |Run(m, init).world.store.jobs|
     && LeavesStalled(Run(m, init), steps[|steps| - 1], i))
  }

  /** A crash after the first write wedges the queue: as long as the owner does not cancel and the worker keeps ticking,
      the stalled job never ends and no other job is ever started. */
  lemma {:induction false} StalledForever(m: Moment, steps: seq<Step>, i: nat)
    requires Sound(m) && EnabledRun(m, steps) && Stalled(m.world.store.jobs, i) && LeavesStalledThroughout(m, steps, i)
    ensures Stalled(Run(m, steps).world.store.jobs, i)
    ensures Run(m, steps).world.store.starts == m.world.store.starts
  {
    hide Inv, Next, Enabled, Stalled, LeavesStalled;
    if steps != [] {
      var init := steps[..|steps| - 1];
      StalledForever(m, init, i);
      RunKeeps(m, init);
      StepStalls(Run(m, init), steps[|steps| - 1], i);
      StepGrows(Run(m, init), steps[|steps| - 1]);
    }
  }

  /** Over a whole run the job is stalled at the end exactly when none of the three ways out was taken:
      once out it never stalls again. */
  lemma {:induction false} StalledIff(m: Moment, steps: seq<Step>, i: nat)
    requires Sound(m) && EnabledRun(m, steps) && Stalled(m.world.store.jobs, i)
    ensures Stalled(Run(m, steps).world.store.jobs, i) <==> LeavesStalledThroughout(m, steps, i)
    ensures Stalled(Run(m, steps).world.store.jobs, i) || Released(Run(m, steps).world.store.jobs, i)
  {
    hide Inv, Next, Enabled, LeavesStalled, NewStarts;
    if steps != [] {
      var init, last := steps[..|steps| - 1], steps[|steps| - 1];
      var p := Run(m, init);
      StalledIff(m, init, i);
      RunKeeps(m, init);
      if !Stalled(p.world.store.jobs, i) {
        StaysReleased(p, last, i);
      } else if LeavesStalled(p, last, i) {
        StepStalls(p, last, i);
      } else {
        StepReleases(p, last, i);
      }
    }
  }

  /** The heartbeat of a job that a read leaves `initializing` moves in any case; its container runs exactly when
      it has one. */
  lemma BeatsWhileRunningIff(m: Moment, inp: MonitorInputs, i: nat)
    requires Sound(m) && Enabled(m, Monitor(inp)) && i < |m.world.store.jobs|
    requires i < |Next(m, Monitor(inp)).world.store.jobs|
    requires m.world.store.jobs[i].status == Next(m, Monitor(inp)).world.store.jobs[i].status == Initializing
    ensures Next(m, Monitor(inp)).world.store.jobs[i].heartbeatAt == Some(inp.heartbeatAt)
    ensures ContainerRuns(m.world, m.world.store.jobs[i]) <==> m.world.store.jobs[i].containerId.Some?
  {
    hide Inv, Next, Enabled, MonitorResult;
    var exitCode := ExitCode(m.world.containers, m.world.store.jobs[i].containerId);
    JobIsOk(m.world, i, m.clock, m.lost);
    if exitCode.Some? {
      ExitDecides(m, inp, i, exitCode.value);
    } else {
      ReadDecides(m, inp, i);
    }
  }

  /** Such a job is what every crash before the container is attached leaves behind. */
  lemma CrashStalls(m: Moment, inp: PollInputs, point: CrashPoint)
    requires Sound(m) && PollEnabled(m, inp) && NextToStart(ProcessCancellations(m.world, inp.cancelAt)).Some?
    ensures exists i :: Stalled(CrashedPoll(m.world, inp, point).store.jobs, i)
  {
    hide Inv, CrashedStart;
    var w := m.world;
    var ready := ProcessCancellations(w, inp.cancelAt);
    CancellationsKeep(w, inp.cancelAt, m.clock, m.lost);
    Structure(ready, m.clock, m.lost);
    CancelledJobs(w, inp.cancelAt);
    var i := NextIsFirstQueued(ready, m.clock, m.lost);
    QueuedHasNoContainer(ready, i, m.clock, m.lost);
    CrashedStartJobs(ready, i, inp, point);
    assert Stalled(CrashedPoll(w, inp, point).store.jobs, i);
  }
}
