/** The worker makes progress: with nothing new coming in, one poll and one monitor read per active job finish them
    all. */
module Drain {
  import opened Models
  import opened JobStore
  import opened Quota
  import opened ControlPlane
  import opened Invariants
  import opened Preservation
  import opened Runs
  import opened History
  import opened FifoRefinement

  /** Documents stay where they are and none becomes active. */
  ghost predicate Shrinks(a: seq<Job>, b: seq<Job>) {
    |a| == |b| && forall k :: 0 <= k < |a| && b[k].status in ACTIVE ==> a[k].status in ACTIVE
  }

  lemma {:induction false} CountShrinks(a: seq<Job>, b: seq<Job>)
    requires Shrinks(a, b)
    ensures CountActive(b) <= CountActive(a)
    ensures (exists k :: 0 <= k < |a| && a[k].status in ACTIVE && b[k].status !in ACTIVE) ==>
      CountActive(b) < CountActive(a)
  {
    if a != [] {
      var n := |a| - 1;
      CountShrinks(a[..n], b[..n]);
      if k :| 0 <= k < |a| && a[k].status in ACTIVE && b[k].status !in ACTIVE {
        assert k < n ==> a[..n][k].status in ACTIVE && b[..n][k].status !in ACTIVE;
      }
    }
  }

  lemma StepShrinks(m: Moment, step: Step)
    requires Sound(m) && Enabled(m, step) && !step.Create?
    ensures Shrinks(m.world.store.jobs, Next(m, step).world.store.jobs)
  {
    hide Inv, Sound, Next;
    StepGrows(m, step);
    SameLength(m, step);
    var a, b := m.world.store.jobs, Next(m, step).world.store.jobs;
    forall k | 0 <= k < |a| && b[k].status in ACTIVE
      ensures a[k].status in ACTIVE
    {
      assert JobGrows(a[k], b[k]);
    }
  }

  lemma SameLength(m: Moment, step: Step)
    requires Sound(m) && Enabled(m, step) && !step.Create?
    ensures |Next(m, step).world.store.jobs| == |m.world.store.jobs|
  {
    hide Inv, StartJob, CrashedStart, MonitorJob, Put;
    var w := m.world;
    Structure(w, m.clock, m.lost);
    match step
    case RequestCancel(userId, jobId, at) =>
      if CancelJob(w, userId, jobId, at).result.Ok? {
        PutReplaces(w.store, IndexOf(w.store.jobs, jobId), CancelJob(w, userId, jobId, at).result.value);
      }
    case Poll(inp) => PollLength(w, inp, m.clock, m.lost);
    case CrashDuringPoll(inp, point) => CrashLength(w, inp, point, m.clock, m.lost);
    case Monitor(inp) =>
      Later(w, m.clock, inp.heartbeatAt, m.lost);
      var i := MonitorKeeps(w, inp, inp.heartbeatAt, m.lost);
      if MonitorTick(w, inp).result.Some? {
        MonitorJobKeeps(w, i, inp, inp.heartbeatAt, m.lost);
      }
    case _ =>
  }

  lemma PollLength(w: World, inp: PollInputs, now: Time, lost: seq<Start>)
    requires Inv(w, now, lost)
    ensures |PollTick(w, inp).world.store.jobs| == |w.store.jobs|
  {
    hide Inv, StartJob;
    var ready := ProcessCancellations(w, inp.cancelAt);
    CancellationsKeep(w, inp.cancelAt, now, lost);
    Structure(ready, now, lost);
    if NextToStart(ready).Some? {
      var i := NextIsFirstQueued(ready, now, lost);
      StartJobs(ready, i, inp);
    }
  }

  lemma CrashLength(w: World, inp: PollInputs, point: CrashPoint, now: Time, lost: seq<Start>)
    requires Inv(w, now, lost)
    ensures |CrashedPoll(w, inp, point).store.jobs| == |w.store.jobs|
  {
    hide Inv, CrashedStart, SingleServer, DistinctIds, ProcessCancellations, ListByStatuses;
    var ready := ProcessCancellations(w, inp.cancelAt);
    CancellationsKeep(w, inp.cancelAt, now, lost);
    CancelledJobs(w, inp.cancelAt);
    Structure(ready, now, lost);
    if NextToStart(ready).Some? {
      var i := NextIsFirstQueued(ready, now, lost);
      CrashedStartJobs(ready, i, inp, point);
    }
  }

  // ---- what one poll achieves ---------------------------------------------------------------

  ghost predicate OnGpu(jobs: seq<Job>, k: nat) {
    k < |jobs| && jobs[k].status in ON_GPU
  }

  /** After a poll either something is on the GPU or an active job has gone, if there was any. */
  lemma PollAdvances(m: Moment, inp: PollInputs) returns (k: nat)
    requires Sound(m) && PollEnabled(m, inp)
    ensures var before, after := m.world.store.jobs, Next(m, Poll(inp)).world.store.jobs;
      OnGpu(after, k) || CountActive(after) < CountActive(before) || CountActive(before) == 0
  {
    hide Inv, PollTick, CountActive, RewrittenJobs, Shrinks;
    var mid := RewrittenJobs(m.world.store.jobs, Cancellations(inp.cancelAt));
    BatchShrinks(m.world.store.jobs, Cancellations(inp.cancelAt));
    CountShrinks(m.world.store.jobs, mid);
    k := PolledJobs(m.world, inp, m.clock, m.lost);
    var after := PollTick(m.world, inp).world.store.jobs;
    if after == mid {
      k := IdleOrBusy(mid);
    } else {
      StartAdvances(mid, k, inp);
    }
  }

  /** The documents after a poll: cancellations first, then the first queued job, if the GPU is free. */
  lemma PolledJobs(w: World, inp: PollInputs, now: Time, lost: seq<Start>) returns (i: nat)
    requires Inv(w, now, lost)
    ensures var mid := RewrittenJobs(w.store.jobs, Cancellations(inp.cancelAt));
      var after := PollTick(w, inp).world.store.jobs;
      || (after == mid && (Select(mid, ON_GPU) != [] || Select(mid, QUEUED) == []))
      || (i < |mid| && mid[i].status == Queued && after == mid[i := StartResult(mid[i], inp)])
  {
    hide Inv, StartJob, ProcessCancellations, StartResult, Select, ListByStatuses;
    i := 0;
    var ready := ProcessCancellations(w, inp.cancelAt);
    CancellationsKeep(w, inp.cancelAt, now, lost);
    Structure(ready, now, lost);
    CancelledJobs(w, inp.cancelAt);
    if NextToStart(ready).Some? {
      i := NextIsFirstQueued(ready, now, lost);
      StartJobs(ready, i, inp);
    } else {
      SortedListings(ready, now, lost);
    }
  }

  lemma BatchShrinks(jobs: seq<Job>, b: Batch)
    ensures Shrinks(jobs, RewrittenJobs(jobs, b))
  {
  }

  lemma StartAdvances(jobs: seq<Job>, i: nat, inp: PollInputs)
    requires i < |jobs| && jobs[i].status == Queued
    ensures var after := jobs[i := StartResult(jobs[i], inp)]; OnGpu(after, i) || CountActive(after) < CountActive(jobs)
  {
    CountShrinks(jobs, jobs[i := StartResult(jobs[i], inp)]);
  }

  lemma SortedListings(w: World, now: Time, lost: seq<Start>)
    requires Inv(w, now, lost)
    ensures ListByStatuses(w.store.jobs, QUEUED) == Select(w.store.jobs, QUEUED)
    ensures ListByStatuses(w.store.jobs, ON_GPU) == Select(w.store.jobs, ON_GPU)
  {
    ListingIsInsertionOrder(w.store.jobs, QUEUED);
    ListingIsInsertionOrder(w.store.jobs, ON_GPU);
  }

  lemma IdleOrBusy(jobs: seq<Job>) returns (k: nat)
    ensures Select(jobs, ON_GPU) != [] ==> OnGpu(jobs, k)
    ensures Select(jobs, ON_GPU) == [] && Select(jobs, QUEUED) == [] ==> CountActive(jobs) == 0
  {
    k := 0;
    NoneSelected(jobs, ON_GPU);
    NoneSelected(jobs, QUEUED);
    NoneActive(jobs);
    if Select(jobs, ON_GPU) != [] {
      k := FirstSelected(jobs, ON_GPU);
    }
  }

  // ---- rounds -------------------------------------------------------------------------------

  lemma {:induction false} RunConcat(m: Moment, a: seq<Step>, b: seq<Step>)
    ensures Run(m, a + b) == Run(Run(m, a), b)
    ensures EnabledRun(m, a + b) <==> EnabledRun(m, a) && EnabledRun(Run(m, a), b)
  {
    hide Next, Enabled;
    if b == [] {
      assert a + b == a;
    } else {
      assert (a + b)[..|a + b| - 1] == a + b[..|b| - 1];
      RunConcat(m, a, b[..|b| - 1]);
    }
  }

  lemma {:induction false} RunShrinks(m: Moment, steps: seq<Step>)
    requires Sound(m) && EnabledRun(m, steps) && forall step :: step in steps ==> !step.Create?
    ensures Shrinks(m.world.store.jobs, Run(m, steps).world.store.jobs)
  {
    hide Inv, Next, Enabled;
    if steps != [] {
      var init := steps[..|steps| - 1];
      assert forall step :: step in init ==> step in steps;
      assert steps[|steps| - 1] in steps;
      RunShrinks(m, init);
      RunKeeps(m, init);
      StepShrinks(Run(m, init), steps[|steps| - 1]);
    }
  }

  /** What the monitor needs to see: an exit code for the job on the GPU, if there is one. */
  ghost predicate SeesExit(w: World) {
    forall k: nat :: OnGpu(w.store.jobs, k) ==> ExitCode(w.containers, w.store.jobs[k].containerId).Some?
  }

  /** A poll, then anything but new jobs, then a monitor read that sees an exit code. */
  ghost predicate Round(m: Moment, poll: PollInputs, between: seq<Step>, monitor: MonitorInputs) {
    && EnabledRun(m, [Poll(poll)] + between + [Monitor(monitor)])
    && (forall step :: step in between ==> !step.Create?)
    && SeesExit(Run(m, [Poll(poll)] + between).world)
  }

  function AfterRound(m: Moment, poll: PollInputs, between: seq<Step>, monitor: MonitorInputs): Moment {
    Run(m, [Poll(poll)] + between + [Monitor(monitor)])
  }

  /** A job on the GPU either stays there or is over. */
  lemma LeavesOnlyForGood(m: Moment, steps: seq<Step>, k: nat)
    requires Sound(m) && EnabledRun(m, steps) && OnGpu(m.world.store.jobs, k)
    ensures k < |Run(m, steps).world.store.jobs|
    ensures OnGpu(Run(m, steps).world.store.jobs, k) || Run(m, steps).world.store.jobs[k].status !in ACTIVE
  {
    RunGrows(m, steps);
    RunKeeps(m, steps);
    hide Inv;
    var n := Run(m, steps);
    JobIsOk(m.world, k, m.clock, m.lost);
    JobIsOk(n.world, k, n.clock, n.lost);
    QueuedTrace(n.world.store.traces[k]);
    assert m.world.store.traces[k] <= n.world.store.traces[k];
  }

  lemma MonitorEnds(m: Moment, inp: MonitorInputs, k: nat)
    requires Sound(m) && Enabled(m, Monitor(inp)) && SeesExit(m.world) && OnGpu(m.world.store.jobs, k)
    ensures k < |Next(m, Monitor(inp)).world.store.jobs| && Next(m, Monitor(inp)).world.store.jobs[k].status !in ACTIVE
  {
    hide Inv, MonitorJob, MonitorResult;
    Structure(m.world, m.clock, m.lost);
    Later(m.world, m.clock, inp.heartbeatAt, m.lost);
    var i := MonitorKeeps(m.world, inp, inp.heartbeatAt, m.lost);
    assert i == k;
    MonitorJobKeeps(m.world, i, inp, inp.heartbeatAt, m.lost);
    assert OnGpu(m.world.store.jobs, i);
    MonitorFinishes(m.world.store.jobs[i], ExitCode(m.world.containers, m.world.store.jobs[i].containerId), inp);
  }

  /** Every round finishes at least one active job, while there are any. */
  lemma RoundDrains(m: Moment, poll: PollInputs, between: seq<Step>, monitor: MonitorInputs)
    requires Sound(m) && Round(m, poll, between, monitor)
    ensures Sound(AfterRound(m, poll, between, monitor))
    ensures var before, after :=
      CountActive(m.world.store.jobs), CountActive(AfterRound(m, poll, between, monitor).world.store.jobs);
      after <= before && (before > 0 ==> after < before)
  {
    hide Inv, Next, Enabled, Sound, CountActive;
    var all := [Poll(poll)] + between + [Monitor(monitor)];
    RunConcat(m, [Poll(poll)] + between, [Monitor(monitor)]);
    RunConcat(m, [Poll(poll)], between);
    OneStep(m, Poll(poll));
    var polled := Run(m, [Poll(poll)]);
    var read := Run(polled, between);
    OneStep(read, Monitor(monitor));
    var end := AfterRound(m, poll, between, monitor);
    RunKeeps(m, [Poll(poll)]);
    RunKeeps(polled, between);
    RunKeeps(m, all);
    RunShrinks(m, [Poll(poll)]);
    RunShrinks(polled, between);
    StepShrinks(read, Monitor(monitor));
    CountShrinks(m.world.store.jobs, polled.world.store.jobs);
    CountShrinks(polled.world.store.jobs, read.world.store.jobs);
    CountShrinks(read.world.store.jobs, end.world.store.jobs);
    var k := PollEnds(m, poll);
    if OnGpu(polled.world.store.jobs, k) {
      LeavesOnlyForGood(polled, between, k);
      if OnGpu(read.world.store.jobs, k) {
        MonitorEnds(read, monitor, k);
      }
    }
  }

  lemma PollEnds(m: Moment, inp: PollInputs) returns (k: nat)
    requires Sound(m) && Enabled(m, Poll(inp))
    ensures var before, after := m.world.store.jobs, Next(m, Poll(inp)).world.store.jobs;
      OnGpu(after, k) || CountActive(after) < CountActive(before) || CountActive(before) == 0
  {
    hide Inv, Next;
    k := PollAdvances(m, inp);
  }

  lemma OneStep(m: Moment, step: Step)
    ensures Run(m, [step]) == Next(m, step) && (EnabledRun(m, [step]) <==> Enabled(m, step))
  {
    hide Next, Enabled;
    assert [step][..0] == [];
    assert Run(m, []) == m;
  }

  datatype RoundInputs = RoundInputs(poll: PollInputs, between: seq<Step>, monitor: MonitorInputs)

  function AfterRounds(m: Moment, rounds: seq<RoundInputs>): Moment
    decreases rounds
  {
    if rounds == [] then m
    else AfterRounds(AfterRound(m, rounds[0].poll, rounds[0].between, rounds[0].monitor), rounds[1..])
  }

  ghost predicate Rounds(m: Moment, rounds: seq<RoundInputs>)
    decreases rounds
  {
    rounds == [] ||
    (Round(m, rounds[0].poll, rounds[0].between, rounds[0].monitor)
     && Rounds(AfterRound(m, rounds[0].poll, rounds[0].between, rounds[0].monitor), rounds[1..]))
  }

  /** From any moment with N active jobs, N rounds leave every job in a terminal status. */
  lemma {:induction false} Drains(m: Moment, rounds: seq<RoundInputs>)
    requires Sound(m) && Rounds(m, rounds) && CountActive(m.world.store.jobs) <= |rounds|
    ensures var jobs := AfterRounds(m, rounds).world.store.jobs;
      forall k :: 0 <= k < |jobs| ==> jobs[k].status !in ACTIVE
    decreases rounds
  {
    hide Sound, CountActive, Round, AfterRound;
    if rounds == [] {
      NoneActive(m.world.store.jobs);
    } else {
      RoundDrains(m, rounds[0].poll, rounds[0].between, rounds[0].monitor);
      var next := AfterRound(m, rounds[0].poll, rounds[0].between, rounds[0].monitor);
      Drains(next, rounds[1..]);
      assert AfterRounds(m, rounds) == AfterRounds(next, rounds[1..]);
    }
  }
}
