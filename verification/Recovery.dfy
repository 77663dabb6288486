/** A worker that dies inside a monitor read or a cancellation: its next tick completes what it had begun. */
module Recovery {
  import opened Models
  import opened JobStore
  import opened ControlPlane
  import opened Invariants
  import opened Preservation
  import opened Runs
  import opened Repositories
  import opened FifoRefinement
  import opened Premises

  // ---- inside a read ------------------------------------------------------------------------

  /** Where a crash can cut the finishing of a job short: after its status write, after the upload, after the final
      write. */
  datatype FinishCrash = AfterTraining | AfterUpload | AfterFinish

  function CrashedFinish(m: Moment, inp: MonitorInputs, i: nat, code: int, point: FinishCrash): World
    requires i < |m.world.store.jobs|
  {
    var begun, failure := WhileFinishing(m, inp, i).world, FinalFailure(code, inp);
    var uploaded := if failure == None then begun.objects + {CheckpointPath(m.world.store.jobs[i].id)}
      else begun.objects;
    match point
    case AfterTraining => begun
    case AfterUpload => begun.(objects := uploaded)
    case AfterFinish =>
      begun.(store := Put(begun.store, Finished(ToFinish(m, inp, i), failure, inp.finishedAt)), objects := uploaded)
  }

  /** The first read's view of the progress file with the second read's packaging, upload and final stamp. */
  function Retried(inp: MonitorInputs, again: MonitorInputs): MonitorInputs {
    inp.(finishedAt := again.finishedAt, logs := again.logs, packageError := again.packageError,
         uploads := again.uploads, retries := again.retries)
  }

  lemma ReadsTheOne(w: World, i: nat, now: Time, lost: seq<Start>)
    requires Inv(w, now, lost) && i < |w.store.jobs| && w.store.jobs[i].status in ON_GPU
    ensures ListByStatuses(w.store.jobs, ON_GPU) != [] && ListByStatuses(w.store.jobs, ON_GPU)[0] == w.store.jobs[i]
  {
    hide Inv, ListByStatuses;
    var k := MonitoredJob(w, now, lost);
    Structure(w, now, lost);
    assert k == i;
  }

  /** A second read of the same file finds nothing to record. */
  lemma ReadAgain(m: Moment, inp: MonitorInputs, again: MonitorInputs, i: nat, code: int)
    requires i < |m.world.store.jobs| && m.world.store.jobs[i].status in ON_GPU && again.progress == inp.progress
    requires ExitCode(m.world.containers, m.world.store.jobs[i].containerId) == Some(code)
    ensures var training := ToFinish(m, inp, i);
      && Observed(training, Some(code), again) == training
      && EnterTraining(training, again.closingAt) == training
      && training.id == m.world.store.jobs[i].id && training.containerId == m.world.store.jobs[i].containerId
  {
  }

  lemma ObservedKeepsId(job: Job, exitCode: Option<int>, inp: MonitorInputs)
    ensures Observed(job, exitCode, inp).id == job.id
  {
  }

  lemma PutStored(m: Moment, i: nat)
    requires Sound(m) && i < |m.world.store.jobs|
    ensures Put(m.world.store, m.world.store.jobs[i]) == m.world.store
  {
    hide Inv, Put;
    Structure(m.world, m.clock, m.lost);
    PutSame(m.world.store, m.world.store.jobs[i]);
  }

  /** A crash before the final write: the next read ends as one read that was not cut short would have,
      except that an object uploaded before the crash stays. */
  lemma FinishIsRetried(m: Moment, inp: MonitorInputs, again: MonitorInputs, i: nat, code: int, point: FinishCrash)
    requires Sound(m) && Enabled(m, Monitor(inp)) && i < |m.world.store.jobs| && m.world.store.jobs[i].status in ON_GPU
    requires ExitCode(m.world.containers, m.world.store.jobs[i].containerId) == Some(code)
    requires again.progress == inp.progress && !point.AfterFinish?
    ensures var crashed := CrashedFinish(m, inp, i, code, point);
      var once := MonitorTick(m.world, Retried(inp, again)).world;
      MonitorTick(crashed, again).world == once.(objects := once.objects + crashed.objects)
  {
    hide Inv, Put, ListByStatuses, Observed, EnterTraining, FinalFailure, Finished;
    var crashed, from := CrashedFinish(m, inp, i, code, point), WhileFinishing(m, inp, i);
    FinishingIsSound(m, inp, i);
    ReadsTheOne(m.world, i, m.clock, m.lost);
    ReadsTheOne(from.world, i, from.clock, from.lost);
    SameRead(m.world.store.jobs[i], Some(code), inp, again);
    ReadAgain(m, inp, again, i, code);
    ObservedKeepsId(m.world.store.jobs[i], Some(code), inp);
    PutStored(from, i);
    var once := MonitorTick(m.world, Retried(inp, again)).world;
    assert MonitorTick(crashed, again).world.objects == once.objects + crashed.objects;
  }

  lemma SameRead(job: Job, exitCode: Option<int>, inp: MonitorInputs, again: MonitorInputs)
    ensures Observed(job, exitCode, Retried(inp, again)) == Observed(job, exitCode, inp)
    ensures exitCode.Some? ==> FinalFailure(exitCode.value, Retried(inp, again)) == FinalFailure(exitCode.value, again)
  {
  }

  /** A crash after the final write: the next read does nothing, and all that differs from a read that was not cut
      short is the job's directory, which stays. */
  lemma FinishIsOver(m: Moment, inp: MonitorInputs, again: MonitorInputs, i: nat, code: int)
    requires Sound(m) && Enabled(m, Monitor(inp)) && i < |m.world.store.jobs| && m.world.store.jobs[i].status in ON_GPU
    requires ExitCode(m.world.containers, m.world.store.jobs[i].containerId) == Some(code)
    ensures var crashed := CrashedFinish(m, inp, i, code, AfterFinish); var once := MonitorTick(m.world, inp).world;
      && MonitorTick(crashed, again).world == crashed
      && crashed == once.(dirs := m.world.dirs)
  {
    hide Inv, Put, ListByStatuses, Observed, EnterTraining, FinalFailure, MonitorResult;
    var exitCode := Some(code);
    var n := Next(m, Monitor(inp));
    ObservedKeepsId(m.world.store.jobs[i], exitCode, inp);
    ReadsTheOne(m.world, i, m.clock, m.lost);
    StepKeeps(m, Monitor(inp));
    Structure(m.world, m.clock, m.lost);
    Later(m.world, m.clock, inp.heartbeatAt, m.lost);
    MonitorJobKeeps(m.world, i, inp, inp.heartbeatAt, m.lost);
    MonitorFinishes(m.world.store.jobs[i], exitCode, inp);
    var k := MonitoredJob(n.world, n.clock, n.lost);
    var crashed := CrashedFinish(m, inp, i, code, AfterFinish);
    assert crashed.store == n.world.store;
    assert crashed.objects == n.world.objects;
  }

  // ---- inside the cancellations -------------------------------------------------------------

  /** Some documents are rewritten, and at least their containers killed and directories removed. */
  ghost predicate PartlyCancelled(w: World, v: World, at: Time, killed: set<ContainerId>, cleared: set<JobId>) {
    && v == w.(store := v.store, containers := Killed(w.containers, killed), dirs := w.dirs - cleared)
    && killed <= KilledBy(w.store.jobs) && cleared <= ClearedBy(w.store.jobs)
    && |v.store.jobs| == |w.store.jobs| && v.store.starts == w.store.starts
    && (forall i :: 0 <= i < |w.store.jobs| ==> UntouchedOrCancelled(w.store, v.store, at, i))
    && (forall i :: 0 <= i < |w.store.jobs| && ToKill(w.store.jobs[i]) && v.store.jobs[i] != w.store.jobs[i] ==>
          w.store.jobs[i].containerId.value in killed && w.store.jobs[i].id in cleared)
  }

  ghost predicate UntouchedOrCancelled(s: Store, t: Store, at: Time, i: nat)
    requires i < |s.jobs| == |t.jobs|
  {
    || (t.jobs[i] == s.jobs[i] && t.traces[i] == s.traces[i])
    || (t.jobs[i] == Applied(Cancellations(at), s.jobs[i]) && t.traces[i] == Extend(s.traces[i], t.jobs[i].status))
  }

  /** However far the cancellations got, those of the next tick complete them: only stamps differ. */
  lemma CancellationsAreRetried(w: World, v: World, at: Time, again: Time, killed: set<ContainerId>,
      cleared: set<JobId>)
    requires PartlyCancelled(w, v, at, killed, cleared)
    ensures var whole, done := ProcessCancellations(w, at), ProcessCancellations(v, again);
      && done == whole.(store := done.store)
      && done.store.traces == whole.store.traces && done.store.starts == whole.store.starts
      && |done.store.jobs| == |whole.store.jobs|
      && forall i :: 0 <= i < |whole.store.jobs| ==>
           done.store.jobs[i].(updatedAt := 0) == whole.store.jobs[i].(updatedAt := 0)
  {
    hide Killed;
    forall i | 0 <= i < |w.store.jobs|
      ensures ToKill(v.store.jobs[i]) ==> ToKill(w.store.jobs[i]) && v.store.jobs[i] == w.store.jobs[i]
      ensures ToKill(w.store.jobs[i]) ==>
        w.store.jobs[i].containerId.value in KilledBy(v.store.jobs) + killed
        && w.store.jobs[i].id in ClearedBy(v.store.jobs) + cleared
    {
      assert UntouchedOrCancelled(w.store, v.store, at, i);
    }
    assert KilledBy(v.store.jobs) + killed == KilledBy(w.store.jobs);
    assert ClearedBy(v.store.jobs) + cleared == ClearedBy(w.store.jobs);
    KilledTwice(w.containers, killed, KilledBy(v.store.jobs));
    forall i | 0 <= i < |w.store.jobs|
      ensures ProcessCancellations(v, again).store.traces[i] == ProcessCancellations(w, at).store.traces[i]
      ensures Applied(Cancellations(again), v.store.jobs[i]).(updatedAt := 0)
           == Applied(Cancellations(at), w.store.jobs[i]).(updatedAt := 0)
    {
      assert UntouchedOrCancelled(w.store, v.store, at, i);
    }
  }

  lemma KilledTwice(containers: Containers, a: set<ContainerId>, b: set<ContainerId>)
    ensures Killed(Killed(containers, a), b) == Killed(containers, b + a)
  {
  }
}
