/** The sweep and healthy trainings: exactly which step and read times are safe. */
module FalseTimeout {
  import opened Models
  import opened Heartbeat
  import opened ControlPlane
  import opened Runs
  import opened BusyGpu
  import opened TrainingLoop
  import opened HeartbeatTiming
  import opened TimeoutBound
  import opened Scenarios

  /** No read comes later than `gap` after the one before. */
  predicate ReadsApart(steps: seq<Step>, read: Time, gap: int) {
    steps == [] ||
    (var init, last := steps[..|steps| - 1], steps[|steps| - 1];
     ReadsApart(init, read, gap) && (last.Monitor? ==> last.monitor.readAt <= LastRead(init, read) + gap))
  }

  /** A run from a sound moment through which an admitted training keeps working: its steps take at most `longest`,
      reads and sweeps come at most `readGap` after the last read, sweeps while the checkpoint is saved included. */
  ghost predicate HealthyTraining(m: Moment, steps: seq<Step>, i: nat, t: Session, read: Time,
                                  longest: nat, readGap: nat, save: nat)
  {
    && Sound(m) && EnabledRun(m, steps)
    && StepsWithin(t, longest) && 0 < t.totalSteps <= MAX_TRAINING_STEPS && Writes(t, t.totalSteps) != []
    && Watched(m, i, Writes(t, t.totalSteps), read)
    && HealthyRun(m, steps, i, Writes(t, t.totalSteps), read, readGap, save)
    && ReadsApart(steps, read, readGap)
  }

  ghost predicate NeverFailed(longest: nat, readGap: nat, save: nat) {
    forall m, steps, i, t, read ::
      HealthyTraining(m, steps, i, t, read, longest, readGap, save) ==> Busy(Run(m, steps).world.store.jobs, i)
  }

  /** Sweeps fail no healthy training exactly when steps, reads and save are not too slow. */
  lemma NoFalseTimeoutIff(longest: nat, readGap: nat, save: nat)
    requires readGap > 0
    ensures NeverFailed(longest, readGap, save) <==> !TooSlow(longest, readGap, save)
  {
    hide TooSlow, HealthyTraining;
    if TooSlow(longest, readGap, save) {
      var steps, t := FalselyFailed(longest, readGap, save);
      assert HealthyTraining(Run(Begin(0), STARTED), steps, 0, t, 0, longest, readGap, save);
    } else {
      forall m, steps, i, t, read | HealthyTraining(m, steps, i, t, read, longest, readGap, save)
        ensures Busy(Run(m, steps).world.store.jobs, i)
      {
        HealthyStays(m, steps, i, t, read, longest, readGap, save);
      }
    }
  }

  lemma HealthyStays(m: Moment, steps: seq<Step>, i: nat, t: Session, read: Time, longest: nat, readGap: nat, save: nat)
    requires HealthyTraining(m, steps, i, t, read, longest, readGap, save) && !TooSlow(longest, readGap, save)
    ensures Busy(Run(m, steps).world.store.jobs, i)
  {
    hide Sound, Run, EnabledRun, Writes, HealthyRun, Timely, ReadsApart, TooSlow;
    LoopWrites(t);
    AdmittedLoopIsTimely(t, longest, readGap, save);
    StaysWatched(m, steps, i, Writes(t, t.totalSteps), read, readGap, save);
  }

  // ---- reads that find nothing new ----------------------------------------------------------

  /** The file shows its first write, made at once, until a moment. */
  ghost predicate Shows(writes: seq<Progress>, first: Progress, until: int) {
    && writes != [] && first.updatedAt == 0
    && forall read :: 0 <= read < until ==> Visible(writes, read) == Some(first)
  }

  function FindAt(at: Time, first: Progress): MonitorInputs {
    MonitorInputs(Some(first), at, at, at, at, at, "", None, [], 0)
  }

  /** Reads every `gap` up to the last one. */
  function Reads(last: nat, gap: nat, first: Progress): seq<Step>
    requires gap > 0
  {
    (if last == 0 then [] else Reads(if last < gap then 0 else last - gap, gap, first))
      + [Monitor(FindAt(last, first))]
  }

  ghost predicate SeenOnce(m: Moment, first: Progress) {
    && Sound(m)
    && m.world.containers == map[FIRST_CONTAINER := Container(Some(FIRST_JOB), Running)]
    && m.world.store.jobs != []
    && (m.world.store.jobs[0] == RunningJob() || m.world.store.jobs[0] == ReadJob(first))
  }

  function ReadJob(first: Progress): Job {
    RunningJob().(status := Training, progress := Some(first))
  }

  lemma OneMoreRead(m: Moment, at: Time, first: Progress)
    requires SeenOnce(m, first) && m.clock <= at && (m.world.store.jobs[0].status == Initializing ==> at == 0)
    ensures var n := Next(m, Monitor(FindAt(at, first)));
      && Enabled(m, Monitor(FindAt(at, first)))
      && SeenOnce(n, first) && n.clock == at && n.world.store.jobs[0] == ReadJob(first)
  {
    hide Sound, MonitorTick;
    StepKeeps(m, Monitor(FindAt(at, first)));
    MonitorReads(m, FindAt(at, first), 0);
    ReadKeepsContainers(m, FindAt(at, first));
  }

  /** The reads so far meet every premise and leave the heartbeat at the first write. */
  ghost predicate ReadSoFar(m: Moment, steps: seq<Step>, last: Time, gap: nat, save: nat,
                            writes: seq<Progress>, first: Progress)
  {
    && EnabledRun(m, steps) && SeenOnce(Run(m, steps), first) && Run(m, steps).clock == last
    && LastRead(steps, 0) == last && ReadsApart(steps, 0, gap)
    && writes != [] && HealthyRun(m, steps, 0, writes, 0, gap, save)
  }

  lemma ReadOnceMore(m: Moment, steps: seq<Step>, last: Time, at: Time, gap: nat, save: nat,
                     writes: seq<Progress>, first: Progress, until: int)
    requires ReadSoFar(m, steps, last, gap, save, writes, first) && last <= at <= last + gap
    requires Shows(writes, first, until) && 0 <= at < until
    requires Run(m, steps).world.store.jobs[0].status == Initializing ==> at == 0
    ensures var more := steps + [Monitor(FindAt(at, first))];
      ReadSoFar(m, more, at, gap, save, writes, first) && Run(m, more).world.store.jobs[0] == ReadJob(first)
  {
    hide Sound, Run, EnabledRun, Next, Enabled, Visible;
    var step := Monitor(FindAt(at, first));
    assert (steps + [step])[..|steps|] == steps;
    assert Visible(writes, at) == Some(first);
    OneMoreRead(Run(m, steps), at, first);
    RunAppend(m, steps, step);
  }

  lemma {:induction false} ReadsChangeNothing(m: Moment, last: nat, gap: nat, save: nat,
                                              writes: seq<Progress>, first: Progress, until: int)
    requires Underway(m) && gap > 0 && Shows(writes, first, until) && last < until
    ensures var steps := Reads(last, gap, first);
      ReadSoFar(m, steps, last, gap, save, writes, first) && Run(m, steps).world.store.jobs[0] == ReadJob(first)
    decreases last
  {
    hide Sound, ReadSoFar, Next, Enabled, Visible;
    if last == 0 {
      NothingRead(m, gap, save, writes, first);
      ReadOnceMore(m, [], 0, 0, gap, save, writes, first, until);
    } else {
      var before := if last < gap then 0 else last - gap;
      ReadsChangeNothing(m, before, gap, save, writes, first, until);
      ReadOnceMore(m, Reads(before, gap, first), before, last, gap, save, writes, first, until);
    }
  }

  lemma NothingRead(m: Moment, gap: nat, save: nat, writes: seq<Progress>, first: Progress)
    requires Underway(m) && writes != []
    ensures ReadSoFar(m, [], 0, gap, save, writes, first)
  {
    hide Sound;
  }

  lemma UnderwayIsWatched(m: Moment, writes: seq<Progress>)
    requires Underway(m)
    ensures Watched(m, 0, writes, 0)
  {
  }

  // ---- a failed healthy training ------------------------------------------------------------

  /** A sweep after some reads that finds the heartbeat too old. */
  lemma SweepFailsHealthy(m: Moment, steps: seq<Step>, last: Time, at: Time, gap: nat, save: nat,
                          writes: seq<Progress>, first: Progress)
    requires ReadSoFar(m, steps, last, gap, save, writes, first) && last <= at <= last + gap
    requires var job := Run(m, steps).world.store.jobs[0];
      && ToFail(job, at)
      && (job.status == Training ==> at <= writes[|writes| - 1].updatedAt + save)
    ensures var all := steps + [TimeoutSweep(at)];
      && EnabledRun(m, all) && HealthyRun(m, all, 0, writes, 0, gap, save) && ReadsApart(all, 0, gap)
      && !Busy(Run(m, all).world.store.jobs, 0)
  {
    hide Sound, Run, EnabledRun, Next;
    assert (steps + [TimeoutSweep(at)])[..|steps|] == steps;
    RunAppend(m, steps, TimeoutSweep(at));
    SweepFails(Run(m, steps), at, 0);
  }

  /** While the file shows its first write for two minutes, a sweep in time can fail the training. */
  lemma StaleFileFails(m: Moment, last: nat, gap: nat, save: nat, writes: seq<Progress>, first: Progress, until: int)
    requires Underway(m) && gap > 0 && Shows(writes, first, until) && last < until
    requires last <= TRAINING_TIMEOUT + 1 <= last + gap && TRAINING_TIMEOUT < writes[|writes| - 1].updatedAt + save
    ensures var all := Reads(last, gap, first) + [TimeoutSweep(TRAINING_TIMEOUT + 1)];
      && EnabledRun(m, all) && HealthyRun(m, all, 0, writes, 0, gap, save) && ReadsApart(all, 0, gap)
      && !Busy(Run(m, all).world.store.jobs, 0)
  {
    hide Sound, Run, EnabledRun, ReadSoFar, HealthyRun, ReadsApart, Visible;
    ReadsChangeNothing(m, last, gap, save, writes, first, until);
    SeenIsReadSoFar(m, Reads(last, gap, first), last, gap, save, writes, first);
    SweepFailsHealthy(m, Reads(last, gap, first), last, TRAINING_TIMEOUT + 1, gap, save, writes, first);
  }

  lemma SeenIsReadSoFar(m: Moment, steps: seq<Step>, last: Time, gap: nat, save: nat,
                        writes: seq<Progress>, first: Progress)
    requires ReadSoFar(m, steps, last, gap, save, writes, first)
    ensures Run(m, steps).world.store.jobs != []
  {
  }

  /** With reads more than five minutes apart a sweep can fail a job that is still being prepared. */
  lemma PreparationFails(m: Moment, writes: seq<Progress>, readGap: nat, save: nat)
    requires Underway(m) && writes != [] && readGap > INITIALIZING_TIMEOUT
    ensures var steps := [TimeoutSweep(INITIALIZING_TIMEOUT + 1)];
      && EnabledRun(m, steps) && HealthyRun(m, steps, 0, writes, 0, readGap, save) && ReadsApart(steps, 0, readGap)
      && !Busy(Run(m, steps).world.store.jobs, 0)
  {
    hide Sound, Next;
    var sweep := TimeoutSweep(INITIALIZING_TIMEOUT + 1);
    assert [sweep][..0] == [];
    assert Run(m, []) == m;
    SweepFails(m, sweep.at, 0);
  }

  lemma SlowFileShows(longest: nat)
    requires WorstGap(longest) > 0
    ensures var w := Writes(SlowSession(longest), MAX_TRAINING_STEPS);
      && Shows(w, SlowWrite(LONGEST_INTERVAL, longest), WorstGap(longest))
      && w[|w| - 1].updatedAt == SlowEnd(MAX_TRAINING_STEPS, longest)
  {
    hide Writes, SlowEnd, WorstGap, Visible;
    SlowFile(longest, 0);
    forall read | 0 <= read < WorstGap(longest)
      ensures Visible(Writes(SlowSession(longest), MAX_TRAINING_STEPS), read) ==
        Some(SlowWrite(LONGEST_INTERVAL, longest))
    {
      SlowFile(longest, read);
    }
  }

  lemma QuickFileShows(until: int)
    ensures Shows(Writes(QUICK_SESSION, 1), Progress(1, 1, 0.0, 0), until)
  {
    hide Writes, Visible;
    QuickFile(0);
    forall read | 0 <= read < until
      ensures Visible(Writes(QUICK_SESSION, 1), read) == Some(Progress(1, 1, 0.0, 0))
    {
      QuickFile(read);
    }
  }

  /** For all times beyond the bound, a run from the empty service that fails a healthy training. */
  lemma FalselyFailed(longest: nat, readGap: nat, save: nat) returns (steps: seq<Step>, t: Session)
    requires readGap > 0 && TooSlow(longest, readGap, save)
    ensures EnabledRun(Begin(0), STARTED)
    ensures var m := Run(Begin(0), STARTED);
      && HealthyTraining(m, steps, 0, t, 0, longest, readGap, save)
      && !Busy(Run(m, steps).world.store.jobs, 0)
  {
    hide Sound, Run, EnabledRun, Writes, HealthyRun, ReadsApart, WorstGap, SlowEnd, Visible, Reads;
    AfterStart();
    var m := Run(Begin(0), STARTED);
    t := QUICK_SESSION;
    QuickFile(0);
    if readGap > INITIALIZING_TIMEOUT {
      steps := [TimeoutSweep(INITIALIZING_TIMEOUT + 1)];
      PreparationFails(m, Writes(t, 1), readGap, save);
    } else if save > TRAINING_TIMEOUT {
      var last := TRAINING_TIMEOUT + 1;
      QuickFileShows(last + 1);
      steps := Reads(last, readGap, Progress(1, 1, 0.0, 0)) + [TimeoutSweep(last)];
      StaleFileFails(m, last, readGap, save, Writes(t, 1), Progress(1, 1, 0.0, 0), last + 1);
    } else {
      t := SlowSession(longest);
      SlowSteps(longest);
      SlowEnough(longest, save);
      SlowFileShows(longest);
      var first := SlowWrite(LONGEST_INTERVAL, longest);
      var last := if WorstGap(longest) - 1 <= TRAINING_TIMEOUT then WorstGap(longest) - 1 else TRAINING_TIMEOUT + 1;
      steps := Reads(last, readGap, first) + [TimeoutSweep(TRAINING_TIMEOUT + 1)];
      StaleFileFails(m, last, readGap, save, Writes(t, t.totalSteps), first, WorstGap(longest));
    }
    UnderwayIsWatched(m, Writes(t, t.totalSteps));
  }
}
