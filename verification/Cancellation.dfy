/** Cancellation takes precedence over everything the poller does. */
module Cancellation {
  import JobStateMachine
  import opened Models
  import opened JobStore
  import opened ControlPlane
  import opened Invariants
  import opened Heartbeat
  import opened Preservation
  import opened Runs
  import opened History

  /** A request is granted exactly to the owner of an active job; it then sets the flag of that job, and a refusal
      changes nothing. */
  lemma RequestExact(m: Moment, userId: UserId, jobId: JobId, at: Time, i: nat)
    requires Sound(m) && i < |m.world.store.jobs| && m.world.store.jobs[i].id == jobId
    ensures var job := m.world.store.jobs[i]; var o := CancelJob(m.world, userId, jobId, at);
      && (o.result.Ok? <==> job.userId == userId && job.status in {Queued, Initializing, Training})
      && (o.result == Err(NotJobOwner) <==> job.userId != userId)
      && (o.result == Err(CancelRefused(JobStateMachine.CancelNotAllowed(job.status)))
          <==> job.userId == userId && job.status in {Completed, Failed, Cancelled})
      && (o.result.Err? ==> o.world == m.world)
      && (o.result.Ok? ==> o.world == m.world.(store := o.world.store)
                           && o.result.value == job.(cancelRequested := true, updatedAt := at)
                           && o.world.store.jobs == m.world.store.jobs[i := o.result.value])
  {
    hide Inv;
    Structure(m.world, m.clock, m.lost);
    PutReplaces(m.world.store, i, m.world.store.jobs[i].(cancelRequested := true, updatedAt := at));
    IndexOfDistinct(m.world.store.jobs, i);
  }

  lemma RequestForUnknown(m: Moment, userId: UserId, jobId: JobId, at: Time)
    ensures var o := CancelJob(m.world, userId, jobId, at);
      && (o.result == Err(JobNotFound) <==> forall job :: job in m.world.store.jobs ==> job.id != jobId)
      && (o.result == Err(JobNotFound) ==> o.world == m.world)
  {
    var jobs := m.world.store.jobs;
    var i := IndexOf(jobs, jobId);
    if i < |jobs| {
      assert jobs[i] in jobs;
    }
  }

  lemma CancelledAtOnce(w: World, at: Time, i: nat)
    requires i < |w.store.jobs|
    ensures var s := ProcessCancellations(w, at).store;
      && s.jobs[i] == (if ToCancel(w.store.jobs[i]) then w.store.jobs[i].(status := Cancelled, updatedAt := at)
                       else w.store.jobs[i])
      && s.traces[i] == Extend(w.store.traces[i], s.jobs[i].status)
  {
  }

  /** What the rest of a poll cannot touch: documents that are finished by then. */
  lemma RestOfPollFreezes(w: World, inp: PollInputs, now: Time, lost: seq<Start>, i: nat)
    requires Inv(w, now, lost) && now <= inp.startAt
    requires i < |w.store.jobs| && ToCancel(w.store.jobs[i])
    ensures var ready := ProcessCancellations(w, inp.cancelAt).store; var s := PollTick(w, inp).world.store;
      i < |ready.jobs| && i < |s.jobs| && s.jobs[i] == ready.jobs[i] && s.traces[i] == ready.traces[i]
    ensures forall point :: var ready := ProcessCancellations(w, inp.cancelAt).store;
      var s := CrashedPoll(w, inp, point).store;
      i < |ready.jobs| && i < |s.jobs| && s.jobs[i] == ready.jobs[i] && s.traces[i] == ready.traces[i]
  {
    hide Inv, StartJob, CrashedStart, Grows;
    var ready := ProcessCancellations(w, inp.cancelAt);
    CancelledAtOnce(w, inp.cancelAt, i);
    CancellationsKeep(w, inp.cancelAt, now, lost);
    Structure(ready, now, lost);
    if NextToStart(ready).Some? {
      var n := NextIsFirstQueued(ready, now, lost);
      StartGrows(ready, n, inp);
      FrozenBy(ready.store, PollTick(w, inp).world.store, i);
      forall point
        ensures var s := CrashedPoll(w, inp, point).store;
          i < |s.jobs| && s.jobs[i] == ready.store.jobs[i] && s.traces[i] == ready.store.traces[i]
      {
        CrashedStartGrows(ready, n, inp, point);
        FrozenBy(ready.store, CrashedPoll(w, inp, point).store, i);
      }
    }
  }

  lemma FrozenBy(s: Store, t: Store, i: nat)
    requires Grows(s, t) && i < |s.jobs| && s.jobs[i].status !in ACTIVE
    ensures i < |t.jobs| && t.jobs[i] == s.jobs[i] && t.traces[i] == s.traces[i]
  {
  }

  /** One tick of the poller cancels every active job whose owner asked for it, whatever else it does. */
  lemma PollCancels(m: Moment, inp: PollInputs, i: nat)
    requires Sound(m) && PollEnabled(m, inp)
    requires i < |m.world.store.jobs| && m.world.store.jobs[i].status in ACTIVE && m.world.store.jobs[i].cancelRequested
    ensures var after := PollTick(m.world, inp).world.store;
      && i < |after.jobs|
      && after.jobs[i] == m.world.store.jobs[i].(status := Cancelled, updatedAt := inp.cancelAt)
      && after.jobs[i].checkpointPath.None?
  {
    RestOfPollFreezes(m.world, inp, m.clock, m.lost, i);
    CancelledAtOnce(m.world, inp.cancelAt, i);
    JobIsOk(m.world, i, m.clock, m.lost);
  }

  /** Asked for while queued: from then on the job is waiting for its cancellation or cancelled, and was never
      started. */
  ghost predicate Doomed(s: Store, i: nat) {
    && i < |s.jobs| && s.jobs[i].cancelRequested
    && ((s.jobs[i].status == Queued && s.traces[i] == [Queued])
         || (s.jobs[i].status == Cancelled && s.traces[i] == [Queued, Cancelled]))
  }

  lemma DoomedByPoll(w: World, inp: PollInputs, now: Time, lost: seq<Start>, i: nat)
    requires Inv(w, now, lost) && now <= inp.startAt && Doomed(w.store, i)
    ensures Doomed(PollTick(w, inp).world.store, i)
    ensures forall point :: Doomed(CrashedPoll(w, inp, point).store, i)
  {
    hide Inv, PollTick, CrashedPoll, Grows;
    if w.store.jobs[i].status == Queued {
      RestOfPollFreezes(w, inp, now, lost, i);
      CancelledAtOnce(w, inp.cancelAt, i);
    } else {
      PollGrows(w, inp, now, lost);
      FrozenBy(w.store, PollTick(w, inp).world.store, i);
      forall point
        ensures Doomed(CrashedPoll(w, inp, point).store, i)
      {
        CrashGrows(w, inp, point, now, lost);
        FrozenBy(w.store, CrashedPoll(w, inp, point).store, i);
      }
    }
  }

  lemma DoomedByMonitor(w: World, inp: MonitorInputs, now: Time, lost: seq<Start>, i: nat)
    requires Inv(w, now, lost) && inp.heartbeatAt <= now && Doomed(w.store, i)
    ensures Doomed(MonitorTick(w, inp).world.store, i)
  {
    hide Inv, MonitorJob;
    Structure(w, now, lost);
    var k := MonitorKeeps(w, inp, now, lost);
    if MonitorTick(w, inp).result.Some? {
      UntouchedByMonitor(w, k, i, inp);
    }
  }

  lemma UntouchedByMonitor(w: World, k: nat, i: nat, inp: MonitorInputs)
    requires DistinctIds(w.store.jobs) && k < |w.store.jobs| && i < |w.store.jobs| && i != k
    ensures var s := MonitorJob(w, w.store.jobs[k], inp).world.store;
      |s.jobs| == |w.store.jobs| && s.jobs[i] == w.store.jobs[i] && s.traces[i] == w.store.traces[i]
  {
    hide Put;
    var exitCode := ExitCode(w.containers, w.store.jobs[k].containerId);
    var observed := Observed(w.store.jobs[k], exitCode, inp);
    PutReplaces(w.store, k, observed);
    if exitCode.Some? {
      var training := EnterTraining(observed, inp.closingAt);
      PutReplaces(Put(w.store, observed), k, training);
      PutReplaces(Put(Put(w.store, observed), training), k,
        Finished(training, FinalFailure(exitCode.value, inp), inp.finishedAt));
    }
  }

  lemma DoomedByOthers(w: World, step: Step, now: Time, lost: seq<Start>, i: nat)
    requires Inv(w, now, lost) && Doomed(w.store, i) && Enabled(Moment(w, now, lost), step)
    requires step.Create? || step.RequestCancel? || step.TimeoutSweep?
    ensures Doomed(Next(Moment(w, now, lost), step).world.store, i)
  {
    hide Inv, RefusalToCreate, Put, IsTimedOut;
    Structure(w, now, lost);
    match step
    case Create(request, id, checkedAt, createdAt) =>
      if RefusalToCreate(w, request, checkedAt).None? {
        PutAppends(w.store, CreateJob(w, request, id, checkedAt, createdAt).result.value);
      }
    case RequestCancel(userId, jobId, at) =>
      if CancelJob(w, userId, jobId, at).result.Ok? {
        var k := IndexOf(w.store.jobs, jobId);
        PutReplaces(w.store, k, w.store.jobs[k].(cancelRequested := true, updatedAt := at));
      }
    case _ =>
  }

  lemma StepDooms(m: Moment, step: Step, i: nat)
    requires Sound(m) && Enabled(m, step) && Doomed(m.world.store, i)
    ensures Doomed(Next(m, step).world.store, i)
  {
    hide Inv, PollTick, CrashedPoll, MonitorTick, CreateJob, CancelJob, Rewrite, Doomed;
    match step
    case Poll(inp) => DoomedByPoll(m.world, inp, m.clock, m.lost, i);
    case CrashDuringPoll(inp, point) => DoomedByPoll(m.world, inp, m.clock, m.lost, i);
    case Monitor(inp) =>
      Later(m.world, m.clock, inp.heartbeatAt, m.lost);
      DoomedByMonitor(m.world, inp, inp.heartbeatAt, m.lost, i);
    case Create(_, _, _, _) => DoomedByOthers(m.world, step, m.clock, m.lost, i);
    case RequestCancel(_, _, _) => DoomedByOthers(m.world, step, m.clock, m.lost, i);
    case TimeoutSweep(_) => DoomedByOthers(m.world, step, m.clock, m.lost, i);
    case _ =>
  }

  lemma {:induction false} RunDooms(m: Moment, steps: seq<Step>, i: nat)
    requires Sound(m) && EnabledRun(m, steps) && Doomed(m.world.store, i)
    ensures Doomed(Run(m, steps).world.store, i)
  {
    hide Inv, Next, Doomed;
    if steps != [] {
      RunDooms(m, steps[..|steps| - 1], i);
      RunKeeps(m, steps[..|steps| - 1]);
      StepDooms(Run(m, steps[..|steps| - 1]), steps[|steps| - 1], i);
    }
  }

  /** A job cancelled while queued never starts, in any run, crashes included: it has no start on record. */
  lemma CancelledNeverStarts(m: Moment, steps: seq<Step>, i: nat)
    requires Sound(m) && EnabledRun(m, steps)
    requires i < |m.world.store.jobs| && m.world.store.jobs[i].status == Queued && m.world.store.jobs[i].cancelRequested
    ensures var s := Run(m, steps).world.store;
      && i < |s.jobs| && s.jobs[i].status in {Queued, Cancelled}
      && StartsOf(s.starts, s.jobs[i].id) == 0
  {
    JobIsOk(m.world, i, m.clock, m.lost);
    QueuedTrace(m.world.store.traces[i]);
    RunDooms(m, steps, i);
    RunKeeps(m, steps);
    NeverCharged(Run(m, steps), i);
  }

  lemma NeverCharged(m: Moment, i: nat)
    requires Sound(m) && Doomed(m.world.store, i)
    ensures StartsOf(m.world.store.starts, m.world.store.jobs[i].id) == 0
  {
    assert !WasStarted(m.world.store.traces[i]);
  }
}
