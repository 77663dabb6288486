/** Container, monitor and sweep together: no false timeout, and no missed one. */
module HeartbeatTiming {
  import opened Models
  import opened JobStore
  import opened Heartbeat
  import opened ControlPlane
  import opened Invariants
  import opened Preservation
  import opened Runs
  import opened TrainingLoop
  import opened BusyGpu
  import opened FifoRefinement
  import History

  /** What progress.json says at a moment: the latest write so far. */
  function Visible(writes: seq<Progress>, at: Time): Option<Progress> {
    if writes == [] then None
    else if writes[|writes| - 1].updatedAt <= at then Some(writes[|writes| - 1])
    else Visible(writes[..|writes| - 1], at)
  }

  /** Write number k is the latest one at a moment. */
  ghost predicate Latest(writes: seq<Progress>, k: nat, at: Time) {
    k < |writes| && writes[k].updatedAt <= at && forall l :: k < l < |writes| ==> at < writes[l].updatedAt
  }

  lemma {:induction false} VisibleIsLatest(writes: seq<Progress>, at: Time) returns (k: nat)
    ensures Visible(writes, at).Some? ==> Latest(writes, k, at) && Visible(writes, at) == Some(writes[k])
    ensures Visible(writes, at).None? ==> forall l :: 0 <= l < |writes| ==> at < writes[l].updatedAt
  {
    k := 0;
    if writes != [] {
      if writes[|writes| - 1].updatedAt <= at {
        k := |writes| - 1;
      } else {
        k := VisibleIsLatest(writes[..|writes| - 1], at);
      }
    }
  }

  // ---- what a read leaves behind ------------------------------------------------------------

  /** The document of a watched job whose progress file was last read at `read`: either no write was seen and its
      heartbeat is not older than that read, or it shows the latest write of then, and its heartbeat is not older
      than that write. */
  ghost predicate UpToDate(job: Job, writes: seq<Progress>, read: Time) {
    job.heartbeatAt.Some? &&
    match job.status
    case Initializing => read <= job.heartbeatAt.value && job.progress.None?
    case Training =>
      && job.progress.Some?
      && exists k: nat ::
           Latest(writes, k, read) && job.progress.value == writes[k] && writes[k].updatedAt <= job.heartbeatAt.value
    case _ => false
  }

  lemma ReadKeepsUpToDate(job: Job, writes: seq<Progress>, read: Time, inp: MonitorInputs)
    requires UpToDate(job, writes, read) && read <= inp.readAt <= inp.heartbeatAt && StepsIncrease(writes)
    requires inp.progress == Visible(writes, inp.readAt)
    ensures UpToDate(Observed(job, None, inp), writes, inp.readAt)
  {
    var at := inp.readAt;
    var k' := VisibleIsLatest(writes, at);
    var after := Observed(job, None, inp);
    if job.status == Training {
      var k: nat :| Latest(writes, k, read) && job.progress.value == writes[k]
                    && writes[k].updatedAt <= job.heartbeatAt.value;
      assert k' >= k;
      if k' == k {
        assert after == job;
        assert Latest(writes, k, at);
      } else {
        assert writes[k].step < writes[k'].step;
        assert Latest(writes, k', at) && after.progress.value == writes[k'];
      }
    } else if inp.progress.Some? {
      assert Latest(writes, k', at) && after.progress.value == writes[k'];
    }
  }

  /** A sweep within `readGap` of the last read, up to `save` after the final write: the checkpoint is still being
      saved. */
  ghost predicate SweepSees(writes: seq<Progress>, k: nat, read: Time, at: Time, readGap: int, save: int) {
    Latest(writes, k, read) && read <= at <= read + readGap && at <= writes[|writes| - 1].updatedAt + save
  }

  /** Writes come often enough for such sweeps: none finds the latest write a read saw more than two minutes old. */
  ghost predicate Timely(writes: seq<Progress>, readGap: int, save: int) {
    && readGap <= INITIALIZING_TIMEOUT
    && forall k: nat, read, at :: SweepSees(writes, k, read, at, readGap, save) ==>
         at - writes[k].updatedAt <= TRAINING_TIMEOUT
  }

  /** A sweep soon after a read finds an up-to-date job alive, up to `save` after its last write. */
  lemma UpToDateIsAlive(job: Job, writes: seq<Progress>, read: Time, at: Time, readGap: int, save: int)
    requires UpToDate(job, writes, read) && read <= at <= read + readGap && Timely(writes, readGap, save)
    requires writes != [] && (job.status == Training ==> at <= writes[|writes| - 1].updatedAt + save)
    ensures !IsTimedOut(job.status, job.heartbeatAt, at)
  {
    if job.status == Training {
      var k: nat :| Latest(writes, k, read) && job.progress.value == writes[k]
                    && writes[k].updatedAt <= job.heartbeatAt.value;
      assert SweepSees(writes, k, read, at, readGap, save);
    }
  }

  // ---- no false timeout ---------------------------------------------------------------------

  /** The moment of the last read after a step. */
  function ReadBy(step: Step, read: Time): Time {
    if step.Monitor? then step.monitor.readAt else read
  }

  function LastRead(steps: seq<Step>, read: Time): Time {
    if steps == [] then read else ReadBy(steps[|steps| - 1], LastRead(steps[..|steps| - 1], read))
  }

  /** A step of a healthy training: the owner does not cancel, the monitor sees what the container wrote and that it
      runs, and a sweep comes within `readGap` of the last read and no later than `save` after the final write. */
  ghost predicate HealthyStep(m: Moment, step: Step, i: nat, writes: seq<Progress>, read: Time, readGap: int, save: int)
    requires i < |m.world.store.jobs| && writes != []
  {
    var job := m.world.store.jobs[i];
    match step
    case RequestCancel(_, _, _) => !AsksToCancel(step, job)
    case Monitor(inp) =>
      inp.progress == Visible(writes, inp.readAt) && ExitCode(m.world.containers, job.containerId).None?
    case TimeoutSweep(at) => at <= read + readGap
      && (job.status == Training ==> at <= writes[|writes| - 1].updatedAt + save)
    case _ => true
  }

  ghost predicate HealthyRun(m: Moment, steps: seq<Step>, i: nat, writes: seq<Progress>, read: Time, readGap: int,
      save: int)
    requires writes != []
  {
    steps == [] ||
    (var init := steps[..|steps| - 1];
     && HealthyRun(m, init, i, writes, read, readGap, save)
     && i < |Run(m, init).world.store.jobs|
     && HealthyStep(Run(m, init), steps[|steps| - 1], i, writes, LastRead(init, read), readGap, save))
  }

  ghost predicate Watched(m: Moment, i: nat, writes: seq<Progress>, read: Time) {
    Busy(m.world.store.jobs, i) && UpToDate(m.world.store.jobs[i], writes, read) && read <= m.clock
  }

  lemma StepStaysWatched(m: Moment, step: Step, i: nat, writes: seq<Progress>, read: Time, readGap: int, save: int)
    requires Sound(m) && Enabled(m, step) && Watched(m, i, writes, read)
    requires writes != [] && StepsIncrease(writes) && Timely(writes, readGap, save)
    requires HealthyStep(m, step, i, writes, read, readGap, save)
    ensures Watched(Next(m, step), i, writes, ReadBy(step, read))
  {
    hide Inv, Next, UpToDate, Timely, StepsIncrease;
    var job := m.world.store.jobs[i];
    ClockAdvances(m, step);
    match step
    case Monitor(inp) =>
      MonitorReads(m, inp, i);
      ReadKeepsUpToDate(job, writes, read, inp);
      ObservedIsBusy(job, inp);
    case TimeoutSweep(at) =>
      UpToDateIsAlive(job, writes, read, at, readGap, save);
      BusyUntouched(m, step, i);
    case _ => BusyUntouched(m, step, i);
  }

  lemma ClockAdvances(m: Moment, step: Step)
    requires Enabled(m, step)
    ensures m.clock <= Next(m, step).clock && (step.Monitor? ==> step.monitor.readAt <= Next(m, step).clock)
  {
  }

  lemma ObservedIsBusy(job: Job, inp: MonitorInputs)
    requires job.status in ON_GPU && !job.cancelRequested
    ensures MonitorResult(job, None, inp) == Observed(job, None, inp)
    ensures Observed(job, None, inp).status in ON_GPU && !Observed(job, None, inp).cancelRequested
  {
  }

  /** Through a whole healthy run, whatever else the service does, the training job stays on the GPU: no sweep fails
      it. */
  lemma {:induction false} StaysWatched(m: Moment, steps: seq<Step>, i: nat, writes: seq<Progress>, read: Time,
      readGap: int, save: int)
    requires Sound(m) && EnabledRun(m, steps) && Watched(m, i, writes, read)
    requires writes != [] && StepsIncrease(writes) && Timely(writes, readGap, save)
    requires HealthyRun(m, steps, i, writes, read, readGap, save)
    ensures Watched(Run(m, steps), i, writes, LastRead(steps, read))
  {
    hide Inv, Next, Enabled, Watched, HealthyStep, ReadBy, Timely, StepsIncrease;
    if steps != [] {
      var init := steps[..|steps| - 1];
      StaysWatched(m, init, i, writes, read, readGap, save);
      RunKeeps(m, init);
      StepStaysWatched(Run(m, init), steps[|steps| - 1], i, writes, LastRead(init, read), readGap, save);
    }
  }

  /** Whatever the number of steps, the loop writes in time when a minute, the longest step and the read gap
      fit into two minutes, give or take two ticks of the clock, and so does the save. */
  lemma LoopIsTimely(t: Session, longest: int, readGap: int, save: int)
    requires StepsWithin(t, longest) && 0 <= longest && t.totalSteps > 0
    requires MAX_BETWEEN_WRITES + longest + readGap <= TRAINING_TIMEOUT + 2 && save <= TRAINING_TIMEOUT
    ensures Timely(Writes(t, t.totalSteps), readGap, save)
  {
    hide Writes;
    WriteGaps(t, longest, t.totalSteps);
    var w := Writes(t, t.totalSteps);
    forall k: nat, read, at | SweepSees(w, k, read, at, readGap, save)
      ensures at - w[k].updatedAt <= TRAINING_TIMEOUT
    {
      if k < |w| - 1 {
        assert w[..k + 1] != [] && w[..k + 1][k] == w[k];
        assert read < w[k + 1].updatedAt;
      }
    }
  }

  lemma LoopWrites(t: Session)
    requires Complete(t) && t.totalSteps > 0
    ensures StepsIncrease(Writes(t, t.totalSteps)) && Writes(t, t.totalSteps) != []
  {
    hide Writes;
    WritesReportSteps(t, t.totalSteps);
    WritesEndWithTotal(t);
  }

  /** No false timeout. A training whose steps take at most `longest`, swept at most `readGap` after the last read,
      with 60 s + longest + readGap <= 120 s and two ticks, survives every sweep until its checkpoint is saved,
      when that takes at most 120 s. */
  lemma NoFalseTimeout(m: Moment, steps: seq<Step>, i: nat, t: Session, longest: int, read: Time, readGap: int,
      save: int)
    requires Sound(m) && EnabledRun(m, steps)
    requires StepsWithin(t, longest) && 0 <= longest && t.totalSteps > 0
    requires MAX_BETWEEN_WRITES + longest + readGap <= TRAINING_TIMEOUT + 2 && save <= TRAINING_TIMEOUT
    requires Watched(m, i, Writes(t, t.totalSteps), read)
    requires Writes(t, t.totalSteps) != [] && HealthyRun(m, steps, i, Writes(t, t.totalSteps), read, readGap, save)
    ensures Busy(Run(m, steps).world.store.jobs, i)
  {
    hide Inv, Writes, HealthyRun, Run, EnabledRun, Timely;
    LoopWrites(t);
    LoopIsTimely(t, longest, readGap, save);
    StaysWatched(m, steps, i, Writes(t, t.totalSteps), read, readGap, save);
  }

  /** A job is watched from the poll that starts it. */
  lemma PolledIsWatched(m: Moment, inp: PollInputs, i: nat, writes: seq<Progress>)
    requires Sound(m) && PollEnabled(m, inp) && inp.fetch.Fetched? && inp.run.Launched?
    requires var ready := ProcessCancellations(m.world, inp.cancelAt);
      i < |ready.store.jobs| && NextToStart(ready) == Some(ready.store.jobs[i])
    ensures Sound(Next(m, Poll(inp))) && Watched(Next(m, Poll(inp)), i, writes, inp.startAt)
  {
    hide Inv, StartJob, ListByStatuses, Rewrite;
    StepKeeps(m, Poll(inp));
    var ready := ProcessCancellations(m.world, inp.cancelAt);
    CancellationsKeep(m.world, inp.cancelAt, m.clock, m.lost);
    CancelledJobs(m.world, inp.cancelAt);
    Structure(ready, m.clock, m.lost);
    var n := NextIsFirstQueued(ready, m.clock, m.lost);
    assert n == i;
    JobIsOk(ready, i, m.clock, m.lost);
    StartJobs(ready, i, inp);
  }

  // ---- no missed timeout --------------------------------------------------------------------

  predicate SameProgress(p: Progress, step: int, loss: real) {
    p.step == step && p.loss == loss
  }

  /** Since time `since` the progress file shows one step and loss; `firstRead` says whether the monitor has looked
      since. */
  ghost predicate StuckAt(job: Job, since: Time, firstBy: Time, step: int, loss: real, firstRead: bool) {
    && job.status == Training && job.heartbeatAt.Some? && job.progress.Some?
    && (if firstRead then SameProgress(job.progress.value, step, loss) && job.heartbeatAt.value <= firstBy
        else job.heartbeatAt.value <= since)
  }

  lemma ReadKeepsStuck(job: Job, since: Time, firstBy: Time, step: int, loss: real, firstRead: bool, inp: MonitorInputs)
    requires StuckAt(job, since, firstBy, step, loss, firstRead) && since <= firstBy
    requires inp.progress.Some? && SameProgress(inp.progress.value, step, loss)
    requires !firstRead ==> inp.heartbeatAt <= firstBy
    ensures StuckAt(Observed(job, None, inp), since, firstBy, step, loss, true)
  {
  }

  /** A step while progress is stuck: no cancellation, and every read sees a running container and the same step and
      loss; the first of them comes no later than `firstBy`. */
  ghost predicate StuckStep(m: Moment, s: Step, i: nat, firstBy: Time, step: int, loss: real, firstRead: bool)
    requires i < |m.world.store.jobs|
  {
    var job := m.world.store.jobs[i];
    match s
    case RequestCancel(_, _, _) => !AsksToCancel(s, job)
    case Monitor(inp) =>
      job.status in ON_GPU ==>
        && ExitCode(m.world.containers, job.containerId).None?
        && inp.progress.Some? && SameProgress(inp.progress.value, step, loss)
        && (!firstRead ==> inp.heartbeatAt <= firstBy)
    case _ => true
  }

  predicate HasRead(steps: seq<Step>) {
    exists s :: s in steps && s.Monitor?
  }

  ghost predicate StuckRun(m: Moment, steps: seq<Step>, i: nat, firstBy: Time, step: int, loss: real) {
    steps == [] ||
    (var init := steps[..|steps| - 1];
     && StuckRun(m, init, i, firstBy, step, loss)
     && i < |Run(m, init).world.store.jobs|
     && StuckStep(Run(m, init), steps[|steps| - 1], i, firstBy, step, loss, HasRead(init)))
  }

  lemma StepStaysStuck(m: Moment, s: Step, i: nat, since: Time, firstBy: Time, step: int, loss: real, firstRead: bool)
    requires Sound(m) && Enabled(m, s) && Busy(m.world.store.jobs, i) && since <= firstBy
    requires StuckAt(m.world.store.jobs[i], since, firstBy, step, loss, firstRead)
      && StuckStep(m, s, i, firstBy, step, loss, firstRead)
    ensures var jobs := Next(m, s).world.store.jobs;
      && i < |jobs|
      && (s.TimeoutSweep? && ToFail(m.world.store.jobs[i], s.at) ==> jobs[i].status == Failed)
      && (!(s.TimeoutSweep? && ToFail(m.world.store.jobs[i], s.at)) ==>
            Busy(jobs, i) && StuckAt(jobs[i], since, firstBy, step, loss, firstRead || s.Monitor?))
  {
    hide Inv, Next, StuckAt;
    var job := m.world.store.jobs[i];
    if s.Monitor? {
      MonitorReads(m, s.monitor, i);
      ReadKeepsStuck(job, since, firstBy, step, loss, firstRead, s.monitor);
      ObservedIsBusy(job, s.monitor);
    } else if s.TimeoutSweep? && ToFail(job, s.at) {
      SweepFails(m, s.at, i);
    } else {
      BusyUntouched(m, s, i);
    }
  }

  lemma SweepFails(m: Moment, at: Time, i: nat)
    requires i < |m.world.store.jobs| && ToFail(m.world.store.jobs[i], at)
    ensures var jobs := Next(m, TimeoutSweep(at)).world.store.jobs; i < |jobs| && jobs[i].status == Failed
  {
  }

  /** While progress is stuck the job is either still training with a heartbeat no later than `firstBy`, or a sweep
      has failed it. */
  lemma {:induction false} StaysStuck(m: Moment, steps: seq<Step>, i: nat, since: Time, firstBy: Time, step: int,
      loss: real)
    requires Sound(m) && EnabledRun(m, steps) && Busy(m.world.store.jobs, i) && since <= firstBy
    requires StuckAt(m.world.store.jobs[i], since, firstBy, step, loss, false)
      && StuckRun(m, steps, i, firstBy, step, loss)
    ensures var jobs := Run(m, steps).world.store.jobs;
      && i < |jobs|
      && (jobs[i].status == Failed || (Busy(jobs, i) && StuckAt(jobs[i], since, firstBy, step, loss, HasRead(steps))))
  {
    hide Inv, Next, Enabled, StuckAt, StuckStep;
    if steps != [] {
      var init, last := steps[..|steps| - 1], steps[|steps| - 1];
      StaysStuck(m, init, i, since, firstBy, step, loss);
      RunKeeps(m, init);
      assert HasRead(steps) == (HasRead(init) || last.Monitor?) by {
        assert steps == init + [last];
      }
      var p := Run(m, init);
      if p.world.store.jobs[i].status == Failed {
        FailedStays(p, last, i);
      } else {
        StepStaysStuck(p, last, i, since, firstBy, step, loss, HasRead(init));
      }
    }
  }

  lemma FailedStays(m: Moment, step: Step, i: nat)
    requires Sound(m) && Enabled(m, step) && i < |m.world.store.jobs| && m.world.store.jobs[i].status == Failed
    ensures var jobs := Next(m, step).world.store.jobs; i < |jobs| && jobs[i].status == Failed
  {
    hide Inv, Next;
    History.StepGrows(m, step);
    assert History.JobGrows(m.world.store.jobs[i], Next(m, step).world.store.jobs[i]);
  }

  /** No missed timeout. If a `training` job's step and loss stop changing at `since` and the monitor looks within
      `readGap`, then after a sweep later than since + readGap + 120 s the job has failed. */
  lemma StuckJobFails(m: Moment, steps: seq<Step>, i: nat, since: Time, readGap: int, step: int, loss: real, at: Time)
    requires Sound(m) && EnabledRun(m, steps + [TimeoutSweep(at)]) && Busy(m.world.store.jobs, i) && 0 <= readGap
    requires StuckAt(m.world.store.jobs[i], since, since + readGap, step, loss, false)
    requires StuckRun(m, steps, i, since + readGap, step, loss)
    requires at > since + readGap + TRAINING_TIMEOUT
    ensures var jobs := Run(m, steps + [TimeoutSweep(at)]).world.store.jobs; i < |jobs| && jobs[i].status == Failed
  {
    hide Inv, Next, Enabled, StuckRun;
    assert (steps + [TimeoutSweep(at)])[..|steps|] == steps;
    StaysStuck(m, steps, i, since, since + readGap, step, loss);
    RunKeeps(m, steps);
    var p := Run(m, steps);
    if p.world.store.jobs[i].status == Failed {
      FailedStays(p, TimeoutSweep(at), i);
    } else {
      SweepFails(p, at, i);
    }
  }

  const SWEEP_INTERVAL: int := 300 * SECOND

  /** Sweeps at most five minutes apart: one falls in every window of five minutes they span. */
  lemma {:induction false} SweepInWindow(sweeps: seq<Time>, from: Time) returns (k: nat)
    requires sweeps != [] && sweeps[0] <= from < sweeps[|sweeps| - 1]
    requires forall j :: 0 <= j < |sweeps| - 1 ==> sweeps[j + 1] - sweeps[j] <= SWEEP_INTERVAL
    ensures k < |sweeps| && from < sweeps[k] <= from + SWEEP_INTERVAL
  {
    k := |sweeps| - 1;
    if sweeps[k - 1] > from {
      k := SweepInWindow(sweeps[..k], from);
    }
  }

  function SweepTimes(steps: seq<Step>): seq<Time> {
    if steps == [] then []
    else
      var last := steps[|steps| - 1];
      SweepTimes(steps[..|steps| - 1]) + if last.TimeoutSweep? then [last.at] else []
  }

  lemma {:induction false} SweepAt(steps: seq<Step>, k: nat) returns (n: nat)
    requires k < |SweepTimes(steps)|
    ensures n < |steps| && steps[n] == TimeoutSweep(SweepTimes(steps)[k])
  {
    var init := steps[..|steps| - 1];
    if k < |SweepTimes(init)| {
      n := SweepAt(init, k);
    } else {
      n := |steps| - 1;
    }
  }

  lemma {:induction false} StuckPrefix(m: Moment, steps: seq<Step>, n: nat, i: nat, firstBy: Time, step: int,
      loss: real)
    requires EnabledRun(m, steps) && StuckRun(m, steps, i, firstBy, step, loss) && n <= |steps|
    ensures EnabledRun(m, steps[..n]) && StuckRun(m, steps[..n], i, firstBy, step, loss)
  {
    hide Enabled, StuckStep;
    if n < |steps| {
      StuckPrefix(m, steps[..|steps| - 1], n, i, firstBy, step, loss);
      assert steps[..|steps| - 1][..n] == steps[..n];
    } else {
      assert steps[..n] == steps;
    }
  }

  /** So with sweeps at most five minutes apart, one of them has failed the stuck job by since + readGap + 420 s. */
  lemma StuckJobFailsInTime(m: Moment, steps: seq<Step>, i: nat, since: Time, readGap: int, step: int, loss: real)
      returns (n: nat)
    requires Sound(m) && EnabledRun(m, steps) && Busy(m.world.store.jobs, i) && 0 <= readGap
    requires StuckAt(m.world.store.jobs[i], since, since + readGap, step, loss, false)
    requires StuckRun(m, steps, i, since + readGap, step, loss)
    requires var sweeps := SweepTimes(steps);
      && sweeps != [] && sweeps[0] <= since + readGap + TRAINING_TIMEOUT < sweeps[|sweeps| - 1]
      && forall j :: 0 <= j < |sweeps| - 1 ==> sweeps[j + 1] - sweeps[j] <= SWEEP_INTERVAL
    ensures 0 < n <= |steps| && steps[n - 1].TimeoutSweep? && steps[n - 1].at <= since + readGap + 420 * SECOND
    ensures var jobs := Run(m, steps[..n]).world.store.jobs; i < |jobs| && jobs[i].status == Failed
  {
    hide Inv, Next, Enabled, StuckRun, StuckAt, Run, EnabledRun;
    var k := SweepInWindow(SweepTimes(steps), since + readGap + TRAINING_TIMEOUT);
    var last := SweepAt(steps, k);
    n := last + 1;
    assert steps[..n] == steps[..last] + [steps[last]];
    StuckPrefix(m, steps, n, i, since + readGap, step, loss);
    StuckPrefix(m, steps, last, i, since + readGap, step, loss);
    StuckJobFails(m, steps[..last], i, since, readGap, step, loss, steps[last].at);
  }
}
