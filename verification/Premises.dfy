/** Why the calls of a run have to be atomic: what a document read at one moment and written back at another does. */
module Premises {
  import opened Models
  import opened JobStateMachine
  import opened JobStore
  import opened Heartbeat
  import opened ControlPlane
  import opened Invariants
  import opened Preservation
  import opened Runs
  import opened History
  import opened FifoRefinement
  import opened BusyGpu

  lemma PutSameIff(s: Store, i: nat, a: Job, b: Job)
    requires DistinctIds(s.jobs) && i < |s.jobs| && a.id == b.id == s.jobs[i].id
    ensures Put(s, a) == Put(s, b) <==> a == b
  {
    PutReplaces(s, i, a);
    PutReplaces(s, i, b);
    assert s.jobs[i := a][i] == a && s.jobs[i := b][i] == b;
  }

  // ---- a cancellation request that straddles other calls -------------------------------------

  /** Its document is written back with a legal status history exactly when the status is still the one that was read.
      In particular the write brings a job back to life that finished meanwhile. */
  lemma StaleWriteIsLegalIff(m: Moment, steps: seq<Step>, i: nat, at: Time)
    requires Sound(m) && EnabledRun(m, steps) && i < |m.world.store.jobs| && m.world.store.jobs[i].status in ACTIVE
    ensures var stale := JobStateMachine.RequestCancel(m.world.store.jobs[i], at); var s := Run(m, steps).world.store;
      && stale.Ok? && i < |s.jobs|
      && (LegalTrace(Put(s, stale.value).traces[i]) <==> s.jobs[i].status == m.world.store.jobs[i].status)
      && i < |Put(s, stale.value).jobs| && Put(s, stale.value).jobs[i].status in ACTIVE
  {
    hide Inv, Run, EnabledRun;
    var stale := JobStateMachine.RequestCancel(m.world.store.jobs[i], at).value;
    var n := Run(m, steps);
    RunGrows(m, steps);
    RunKeeps(m, steps);
    Structure(n.world, n.clock, n.lost);
    JobIsOk(m.world, i, m.clock, m.lost);
    JobIsOk(n.world, i, n.clock, n.lost);
    assert JobGrows(m.world.store.jobs[i], n.world.store.jobs[i]);
    PutReplaces(n.world.store, i, stale);
    var before, after := m.world.store.traces[i], n.world.store.traces[i];
    if n.world.store.jobs[i].status != stale.status {
      assert before <= after && |before| < |after|;
      RankFalls(after, |before| - 1, |after| - 1);
      var written := after + [stale.status];
      assert !CanTransition(written[|after| - 1], written[|after|]);
    }
  }

  /** The same document, up to what a request writes. */
  ghost predicate SameApartFromRequest(a: Job, b: Job) {
    a.(cancelRequested := true, updatedAt := 0) == b.(cancelRequested := true, updatedAt := 0)
  }

  /** The late write is the atomic request of its moment exactly when the document has not changed meanwhile, apart from
      flag and stamp; in any case it puts heartbeat, progress and container back to what was read. */
  lemma StaleWriteIsHarmlessIff(m: Moment, steps: seq<Step>, i: nat, at: Time)
    requires Sound(m) && EnabledRun(m, steps) && i < |m.world.store.jobs| && m.world.store.jobs[i].status in ACTIVE
    ensures var read := m.world.store.jobs[i]; var w := Run(m, steps).world;
      var stale := JobStateMachine.RequestCancel(read, at);
      && stale.Ok? && i < |w.store.jobs| && |Put(w.store, stale.value).jobs| == |w.store.jobs|
      && (Put(w.store, stale.value) == CancelJob(w, read.userId, read.id, at).world.store
          <==> SameApartFromRequest(read, w.store.jobs[i]))
      && (var written := Put(w.store, stale.value).jobs[i];
          && written.heartbeatAt == read.heartbeatAt
          && written.progress == read.progress
          && written.containerId == read.containerId)
  {
    hide Inv, Run, EnabledRun, Put;
    var read := m.world.store.jobs[i];
    var stale := JobStateMachine.RequestCancel(read, at).value;
    var n := Run(m, steps);
    RunGrows(m, steps);
    RunKeeps(m, steps);
    Structure(n.world, n.clock, n.lost);
    assert JobGrows(read, n.world.store.jobs[i]);
    IndexOfDistinct(n.world.store.jobs, i);
    PutReplaces(n.world.store, i, stale);
    PutSameIff(n.world.store, i, stale, n.world.store.jobs[i].(cancelRequested := true, updatedAt := at));
  }

  // ---- what can happen to a document while the worker is busy --------------------------------

  /** Everybody else is not. */
  predicate BesidesWorker(step: Step) {
    !step.Poll? && !step.CrashDuringPoll? && !step.Monitor? && !step.Restart?
  }

  predicate Outlives(step: Step, heartbeatAt: Time, limit: int) {
    step.TimeoutSweep? && step.at - heartbeatAt > limit
  }

  /** A sweep found the heartbeat older than the limit. */
  predicate SweptMeanwhile(steps: seq<Step>, heartbeatAt: Time, limit: int) {
    exists step :: step in steps && Outlives(step, heartbeatAt, limit)
  }

  /** The owner asked to cancel the job. */
  predicate AskedMeanwhile(steps: seq<Step>, job: Job) {
    exists step :: step in steps && AsksToCancel(step, job)
  }

  /** A document on the GPU while nothing but requests and sweeps can touch it. */
  ghost predicate Waits(job: Job, read: Job, swept: bool, asked: bool) {
    if swept then job.status == Failed && job.id == read.id
    else
      && job == read.(cancelRequested := read.cancelRequested || asked, updatedAt := job.updatedAt)
      && (!asked ==> job == read)
  }

  lemma StepWaits(m: Moment, step: Step, i: nat, read: Job, swept: bool, asked: bool)
    requires Sound(m) && Enabled(m, step) && BesidesWorker(step) && i < |m.world.store.jobs|
    requires read.status in ON_GPU && read.heartbeatAt.Some? && Waits(m.world.store.jobs[i], read, swept, asked)
    ensures var jobs := Next(m, step).world.store.jobs; var limit := TimeoutForStatus(read.status).value;
      && i < |jobs|
      && Waits(jobs[i], read, swept || Outlives(step, read.heartbeatAt.value, limit), asked || AsksToCancel(step, read))
  {
    hide Inv, Waits, CreateJob, CancelJob, Sweep;
    var w := m.world;
    Structure(w, m.clock, m.lost);
    match step
    case Create(request, id, checkedAt, createdAt) => CreateElsewhere(w, request, id, checkedAt, createdAt, i);
    case RequestCancel(userId, jobId, at) => RequestWaits(w, userId, jobId, at, i, read, swept, asked);
    case TimeoutSweep(at) => SweepWaits(w, at, i, read, swept, asked);
    case _ =>
  }

  lemma RequestWaits(w: World, userId: UserId, jobId: JobId, at: Time, i: nat, read: Job, swept: bool, asked: bool)
    requires DistinctIds(w.store.jobs) && i < |w.store.jobs| && read.status in ON_GPU
    requires Waits(w.store.jobs[i], read, swept, asked)
    ensures var jobs := CancelJob(w, userId, jobId, at).world.store.jobs;
      i < |jobs| && Waits(jobs[i], read, swept, asked || (jobId == read.id && userId == read.userId))
  {
    hide Put;
    IndexOfDistinct(w.store.jobs, i);
    if jobId == w.store.jobs[i].id {
      PutReplaces(w.store, i, w.store.jobs[i].(cancelRequested := true, updatedAt := at));
    } else {
      CancelElsewhere(w, userId, jobId, at, i);
    }
  }

  lemma SweepWaits(w: World, at: Time, i: nat, read: Job, swept: bool, asked: bool)
    requires i < |w.store.jobs| && read.status in ON_GPU && read.heartbeatAt.Some?
    requires Waits(w.store.jobs[i], read, swept, asked)
    ensures var jobs := Sweep(w, at).store.jobs;
      && i < |jobs|
      && Waits(jobs[i], read, swept || at - read.heartbeatAt.value > TimeoutForStatus(read.status).value, asked)
  {
    hide Sweep;
    SweptJobs(w, at);
  }

  lemma {:induction false} RunWaits(m: Moment, steps: seq<Step>, i: nat, read: Job)
    requires Sound(m) && EnabledRun(m, steps) && i < |m.world.store.jobs| && m.world.store.jobs[i] == read
    requires read.status in ON_GPU && read.heartbeatAt.Some?
    requires forall step :: step in steps ==> BesidesWorker(step)
    ensures var jobs := Run(m, steps).world.store.jobs; var limit := TimeoutForStatus(read.status).value;
      && i < |jobs|
      && Waits(jobs[i], read, SweptMeanwhile(steps, read.heartbeatAt.value, limit), AskedMeanwhile(steps, read))
  {
    hide Inv, Next, Enabled, Waits, BesidesWorker, Outlives, AsksToCancel;
    if steps == [] {
      NothingYet(read);
    } else {
      var init, last := steps[..|steps| - 1], steps[|steps| - 1];
      var from, limit := read.heartbeatAt.value, TimeoutForStatus(read.status).value;
      assert steps == init + [last];
      assert forall step :: step in init ==> step in steps;
      RunWaits(m, init, i, read);
      RunKeeps(m, init);
      StepWaits(Run(m, init), last, i, read, SweptMeanwhile(init, from, limit), AskedMeanwhile(init, read));
      assert SweptMeanwhile(steps, from, limit) == (SweptMeanwhile(init, from, limit) || Outlives(last, from, limit));
      assert AskedMeanwhile(steps, read) == (AskedMeanwhile(init, read) || AsksToCancel(last, read));
    }
  }

  lemma NothingYet(read: Job)
    ensures Waits(read, read, false, false)
  {
  }

  // ---- a start whose fetch straddles other calls ---------------------------------------------

  /** The state while the worker is fetching: the job is marked and charged, its container not attached. */
  function WhileFetching(m: Moment, inp: PollInputs): Moment {
    Moment(CrashedPoll(m.world, inp, AfterCharge), inp.startAt, m.lost)
  }

  lemma FetchingIsSound(m: Moment, inp: PollInputs, i: nat)
    requires Sound(m) && PollEnabled(m, inp)
    requires var ready := ProcessCancellations(m.world, inp.cancelAt);
      i < |ready.store.jobs| && NextToStart(ready) == Some(ready.store.jobs[i])
    ensures var queued := ProcessCancellations(m.world, inp.cancelAt).store.jobs[i];
      var jobs := WhileFetching(m, inp).world.store.jobs;
      && Sound(WhileFetching(m, inp)) && i < |jobs| && jobs[i] == Started(queued, inp.startAt)
      && queued.containerId.None? && !queued.cancelRequested
  {
    hide Inv, CrashedStart, ListByStatuses, Rewrite;
    var ready := ProcessCancellations(m.world, inp.cancelAt);
    var lost := CrashedPollKeeps(m.world, inp, AfterCharge, m.clock, m.lost);
    assert lost == m.lost;
    CancellationsKeep(m.world, inp.cancelAt, m.clock, m.lost);
    CancelledJobs(m.world, inp.cancelAt);
    Structure(ready, m.clock, m.lost);
    var n := NextIsFirstQueued(ready, m.clock, m.lost);
    assert n == i;
    QueuedHasNoContainer(ready, i, m.clock, m.lost);
    CrashedStartJobs(ready, i, inp, AfterCharge);
  }

  /** Attaching the container after a slow fetch keeps the status history legal exactly when no sweep meanwhile
      found the start more than five minutes old; it is the atomic attach of its moment exactly when, besides, the
      owner has not asked to cancel: it drops the request. */
  lemma LateAttachIsLegalIff(m: Moment, inp: PollInputs, steps: seq<Step>, i: nat, containerId: ContainerId)
    requires Sound(m) && PollEnabled(m, inp)
    requires var ready := ProcessCancellations(m.world, inp.cancelAt);
      i < |ready.store.jobs| && NextToStart(ready) == Some(ready.store.jobs[i])
    requires EnabledRun(WhileFetching(m, inp), steps) && forall step :: step in steps ==> BesidesWorker(step)
    ensures var started := Started(ProcessCancellations(m.world, inp.cancelAt).store.jobs[i], inp.startAt);
      var s := Run(WhileFetching(m, inp), steps).world.store;
      var attached := started.(containerId := Some(containerId));
      var swept := SweptMeanwhile(steps, inp.startAt, INITIALIZING_TIMEOUT);
      && i < |s.jobs| && |Put(s, attached).jobs| == |s.jobs|
      && (LegalTrace(Put(s, attached).traces[i]) <==> !swept)
      && (Put(s, attached) == Put(s, s.jobs[i].(containerId := Some(containerId)))
          <==> !swept && !AskedMeanwhile(steps, started))
      && Put(s, attached).jobs[i] == attached && !attached.cancelRequested
  {
    hide Inv, Run, EnabledRun, WhileFetching, ProcessCancellations, SweptMeanwhile, AskedMeanwhile, Put;
    FetchingIsSound(m, inp, i);
    var from := WhileFetching(m, inp);
    var started := Started(ProcessCancellations(m.world, inp.cancelAt).store.jobs[i], inp.startAt);
    RunWaits(from, steps, i, started);
    RunKeeps(from, steps);
    var n := Run(from, steps);
    var s, attached := n.world.store, started.(containerId := Some(containerId));
    Structure(n.world, n.clock, n.lost);
    PutReplaces(s, i, attached);
    PutSameIff(s, i, attached, s.jobs[i].(containerId := Some(containerId)));
    if s.jobs[i].status == Failed {
      NotOutOfFailed(s.traces[i], Initializing);
    }
  }

  lemma NotOutOfFailed(trace: seq<JobStatus>, status: JobStatus)
    requires TraceOk(trace, Failed) && status != Failed
    ensures !LegalTrace(Extend(trace, status))
  {
    var written := trace + [status];
    assert !CanTransition(written[|trace| - 1], written[|trace|]);
  }

  // ---- a finish whose packaging and upload straddle other calls ------------------------------

  /** The document the monitor works with after it saw the exit code. */
  function ToFinish(m: Moment, inp: MonitorInputs, i: nat): Job
    requires i < |m.world.store.jobs|
  {
    var job := m.world.store.jobs[i];
    EnterTraining(Observed(job, ExitCode(m.world.containers, job.containerId), inp), inp.closingAt)
  }

  /** The state while the worker is packaging and uploading: the job is written as `training`, its end is not. */
  function WhileFinishing(m: Moment, inp: MonitorInputs, i: nat): Moment
    requires i < |m.world.store.jobs|
  {
    var w, job := m.world, m.world.store.jobs[i];
    var observed := Observed(job, ExitCode(w.containers, job.containerId), inp);
    Moment(w.(store := Put(Put(w.store, observed), ToFinish(m, inp, i))), inp.closingAt, m.lost)
  }

  lemma FinishingIsSound(m: Moment, inp: MonitorInputs, i: nat)
    requires Sound(m) && Enabled(m, Monitor(inp)) && i < |m.world.store.jobs| && m.world.store.jobs[i].status in ON_GPU
    ensures var from := WhileFinishing(m, inp, i);
      && Sound(from) && i < |from.world.store.jobs| && from.world.store.jobs[i] == ToFinish(m, inp, i)
      && from.world.store.jobs[i].status == Training && from.world.store.jobs[i].heartbeatAt.Some?
  {
    hide Inv, Put;
    var exitCode := ExitCode(m.world.containers, m.world.store.jobs[i].containerId);
    Later(m.world, m.clock, inp.closingAt, m.lost);
    ObserveKeeps(m.world, i, exitCode, inp, inp.closingAt, m.lost);
    var observed := m.world.(store := Put(m.world.store, Observed(m.world.store.jobs[i], exitCode, inp)));
    EnterTrainingKeeps(observed, i, inp.closingAt, inp.closingAt, m.lost);
    var from := WhileFinishing(m, inp, i);
    JobIsOk(from.world, i, from.clock, from.lost);
  }

  /** Writing the end of a job after a slow upload keeps the status history legal exactly when no sweep meanwhile
      found the heartbeat more than two minutes old, or the end is a failure, too; it finds the document it has read
      exactly when neither a sweep failed the job nor its owner asked to cancel for the first time. */
  lemma LateFinishIsLegalIff(m: Moment, inp: MonitorInputs, steps: seq<Step>, i: nat,
                             failure: Option<FailureReason>, doneAt: Time)
    requires Sound(m) && Enabled(m, Monitor(inp)) && i < |m.world.store.jobs| && m.world.store.jobs[i].status in ON_GPU
    requires EnabledRun(WhileFinishing(m, inp, i), steps) && forall step :: step in steps ==> BesidesWorker(step)
    ensures ToFinish(m, inp, i).heartbeatAt.Some?
    ensures var read := ToFinish(m, inp, i); var finished := Finished(read, failure, doneAt);
      var s := Run(WhileFinishing(m, inp, i), steps).world.store;
      var swept := SweptMeanwhile(steps, read.heartbeatAt.value, TRAINING_TIMEOUT);
      && i < |s.jobs| && |Put(s, finished).jobs| == |s.jobs| && Put(s, finished).jobs[i] == finished
      && (swept <==> s.jobs[i].status == Failed)
      && (LegalTrace(Put(s, finished).traces[i]) <==> !swept || failure.Some?)
      && (s.jobs[i].(updatedAt := read.updatedAt) == read
          <==> !swept && (!AskedMeanwhile(steps, read) || read.cancelRequested))
  {
    hide Inv, Run, EnabledRun, WhileFinishing, ToFinish, SweptMeanwhile, AskedMeanwhile, Put;
    FinishingIsSound(m, inp, i);
    var from, read := WhileFinishing(m, inp, i), ToFinish(m, inp, i);
    RunWaits(from, steps, i, read);
    RunKeeps(from, steps);
    var n := Run(from, steps);
    var s := n.world.store;
    Structure(n.world, n.clock, n.lost);
    PutReplaces(s, i, Finished(read, failure, doneAt));
    if s.jobs[i].status == Failed && failure.None? {
      NotOutOfFailed(s.traces[i], Completed);
    }
  }
}
