/** What no step ever undoes: documents keep their identity, histories only grow, finished jobs are frozen. */
module History {
  import opened Models
  import opened JobStore
  import opened ControlPlane
  import opened Invariants
  import opened Preservation
  import opened Runs

  ghost predicate JobGrows(a: Job, b: Job) {
    && b.id == a.id && b.userId == a.userId && b.createdAt == a.createdAt
    && (a.cancelRequested ==> b.cancelRequested)
    && (a.status !in ACTIVE ==> b == a)
  }

  ghost predicate Grows(s: Store, t: Store) {
    && |s.jobs| <= |t.jobs|
    && (forall i :: 0 <= i < |s.jobs| ==> JobGrows(s.jobs[i], t.jobs[i]))
    && (forall i :: 0 <= i < |s.jobs| ==> s.traces[i] <= t.traces[i])
    && (forall i :: 0 <= i < |s.jobs| && s.jobs[i].status !in ACTIVE ==> t.traces[i] == s.traces[i])
  }

  lemma GrowsTransitive(s: Store, t: Store, u: Store)
    requires Grows(s, t) && Grows(t, u)
    ensures Grows(s, u)
  {
  }

  lemma PutGrows(s: Store, i: nat, job: Job)
    requires DistinctIds(s.jobs) && i < |s.jobs| && s.jobs[i].status in ACTIVE && JobGrows(s.jobs[i], job)
    ensures Grows(s, Put(s, job)) && DistinctIds(Put(s, job).jobs) && Put(s, job).jobs == s.jobs[i := job]
    ensures Put(s, job).starts ==
      s.starts + if job.status == Initializing && s.jobs[i].status != Initializing then [StartOf(job)] else []
  {
    PutReplaces(s, i, job);
  }

  lemma BatchGrows(s: Store, b: Batch)
    requires forall i :: 0 <= i < |s.jobs| ==> TraceOk(s.traces[i], s.jobs[i].status)
    ensures Grows(s, Rewrite(s, b)) && Rewrite(s, b).starts == s.starts
  {
  }

  lemma StartGrows(w: World, i: nat, inp: PollInputs)
    requires DistinctIds(w.store.jobs) && i < |w.store.jobs| && w.store.jobs[i].status == Queued
      && w.store.jobs[i].userId in w.users
    ensures var t := StartJob(w, w.store.jobs[i], inp).world.store;
      Grows(w.store, t) && t.starts == w.store.starts + [StartOf(Started(w.store.jobs[i], inp.startAt))]
  {
    var job := Started(w.store.jobs[i], inp.startAt);
    var marked := Put(w.store, job);
    PutGrows(w.store, i, job);
    PutGrows(marked, i, StartResult(w.store.jobs[i], inp));
    GrowsTransitive(w.store, marked, Put(marked, StartResult(w.store.jobs[i], inp)));
  }

  lemma MonitorGrows(w: World, i: nat, inp: MonitorInputs)
    requires DistinctIds(w.store.jobs) && i < |w.store.jobs| && w.store.jobs[i].status in ON_GPU
    ensures var t := MonitorJob(w, w.store.jobs[i], inp).world.store;
      Grows(w.store, t) && t.starts == w.store.starts
  {
    hide Put, Grows;
    var exitCode := ExitCode(w.containers, w.store.jobs[i].containerId);
    var observed := Observed(w.store.jobs[i], exitCode, inp);
    var s1 := Put(w.store, observed);
    PutGrows(w.store, i, observed);
    if exitCode.Some? {
      var training := EnterTraining(observed, inp.closingAt);
      var finished := Finished(training, FinalFailure(exitCode.value, inp), inp.finishedAt);
      var s2 := Put(s1, training);
      PutGrows(s1, i, training);
      PutGrows(s2, i, finished);
      GrowsTransitive(w.store, s1, s2);
      GrowsTransitive(w.store, s2, Put(s2, finished));
    }
  }

  lemma CrashedStartGrows(w: World, i: nat, inp: PollInputs, point: CrashPoint)
    requires DistinctIds(w.store.jobs) && i < |w.store.jobs| && w.store.jobs[i].status == Queued
      && w.store.jobs[i].userId in w.users
    ensures var t := CrashedStart(w, w.store.jobs[i], inp, point).store;
      Grows(w.store, t) && t.starts == w.store.starts + [StartOf(Started(w.store.jobs[i], inp.startAt))]
  {
    PutGrows(w.store, i, Started(w.store.jobs[i], inp.startAt));
    assert CrashedStart(w, w.store.jobs[i], inp, point).store == Put(w.store, Started(w.store.jobs[i], inp.startAt));
  }

  lemma GrowsReflexive(s: Store)
    ensures Grows(s, s)
  {
  }

  lemma CreateGrows(w: World, request: JobRequest, id: JobId, checkedAt: Time, createdAt: Time)
    requires IndexOf(w.store.jobs, id) == |w.store.jobs|
    ensures var t := CreateJob(w, request, id, checkedAt, createdAt).world.store;
      Grows(w.store, t) && t.starts == w.store.starts
  {
  }

  lemma CancelGrows(w: World, userId: UserId, jobId: JobId, now: Time)
    requires DistinctIds(w.store.jobs)
    ensures var t := CancelJob(w, userId, jobId, now).world.store; Grows(w.store, t) && t.starts == w.store.starts
  {
    if CancelJob(w, userId, jobId, now).result.Ok? {
      var i := IndexOf(w.store.jobs, jobId);
      PutGrows(w.store, i, w.store.jobs[i].(cancelRequested := true, updatedAt := now));
    }
  }

  /** The start a poll would record. */
  function StartedBy(w: World, inp: PollInputs): seq<Start> {
    match NextToStart(ProcessCancellations(w, inp.cancelAt))
    case None => []
    case Some(job) => [StartOf(Started(job, inp.startAt))]
  }

  function NewStarts(w: World, step: Step): seq<Start> {
    match step
    case Poll(inp) => StartedBy(w, inp)
    case CrashDuringPoll(inp, _) => StartedBy(w, inp)
    case _ => []
  }

  lemma PollGrows(w: World, inp: PollInputs, now: Time, lost: seq<Start>)
    requires Inv(w, now, lost) && now <= inp.startAt
    ensures Grows(w.store, PollTick(w, inp).world.store)
    ensures PollTick(w, inp).world.store.starts == w.store.starts + StartedBy(w, inp)
  {
    hide Inv, Grows, StartJob, CrashedStart;
    var ready := ProcessCancellations(w, inp.cancelAt);
    Structure(w, now, lost);
    BatchGrows(w.store, Cancellations(inp.cancelAt));
    CancellationsKeep(w, inp.cancelAt, now, lost);
    Structure(ready, now, lost);
    if NextToStart(ready).Some? {
      var i := NextIsFirstQueued(ready, now, lost);
      StartGrows(ready, i, inp);
      GrowsTransitive(w.store, ready.store, PollTick(w, inp).world.store);
    }
  }

  lemma CrashGrows(w: World, inp: PollInputs, point: CrashPoint, now: Time, lost: seq<Start>)
    requires Inv(w, now, lost) && now <= inp.startAt
    ensures Grows(w.store, CrashedPoll(w, inp, point).store)
    ensures CrashedPoll(w, inp, point).store.starts == w.store.starts + StartedBy(w, inp)
  {
    hide Inv, Grows, StartJob, CrashedStart, ListByStatuses;
    var ready := ProcessCancellations(w, inp.cancelAt);
    Structure(w, now, lost);
    BatchGrows(w.store, Cancellations(inp.cancelAt));
    CancellationsKeep(w, inp.cancelAt, now, lost);
    Structure(ready, now, lost);
    if NextToStart(ready).Some? {
      var i := NextIsFirstQueued(ready, now, lost);
      CrashedStartGrows(ready, i, inp, point);
      GrowsTransitive(w.store, ready.store, CrashedPoll(w, inp, point).store);
    }
  }

  /** Every step: documents are only appended or legally edited, finished ones are never written again,
      and the history of starts grows by exactly what the step started. */
  lemma StepGrows(m: Moment, step: Step)
    requires Sound(m) && Enabled(m, step)
    ensures Grows(m.world.store, Next(m, step).world.store)
    ensures Next(m, step).world.store.starts == m.world.store.starts + NewStarts(m.world, step)
  {
    hide Inv, Grows, MonitorJob, PollTick, CrashedPoll, CreateJob, CancelJob;
    var w := m.world;
    Structure(w, m.clock, m.lost);
    GrowsReflexive(w.store);
    match step
    case Create(request, id, checkedAt, createdAt) => CreateGrows(w, request, id, checkedAt, createdAt);
    case RequestCancel(userId, jobId, at) => CancelGrows(w, userId, jobId, at);
    case TimeoutSweep(at) => BatchGrows(w.store, Timeouts(at));
    case Poll(inp) => PollGrows(w, inp, m.clock, m.lost);
    case CrashDuringPoll(inp, point) => CrashGrows(w, inp, point, m.clock, m.lost);
    case Monitor(inp) =>
      Later(w, m.clock, inp.heartbeatAt, m.lost);
      var i := MonitorKeeps(w, inp, inp.heartbeatAt, m.lost);
      if MonitorTick(w, inp).result.Some? {
        MonitorGrows(w, i, inp);
      }
    case _ =>
  }

  /** Over whole runs: identities stay, traces only extend, a finished job is frozen for good. */
  lemma {:induction false} RunGrows(m: Moment, steps: seq<Step>)
    requires Sound(m) && EnabledRun(m, steps)
    ensures Grows(m.world.store, Run(m, steps).world.store)
    ensures m.world.store.starts <= Run(m, steps).world.store.starts
  {
    if steps != [] {
      var init := steps[..|steps| - 1];
      RunGrows(m, init);
      RunKeeps(m, init);
      StepGrows(Run(m, init), steps[|steps| - 1]);
      GrowsTransitive(m.world.store, Run(m, init).world.store, Run(m, steps).world.store);
    }
  }
}
