/** What each call leaves of everything it could touch, told by the documents and inputs before it. */
module StepEffects {
  import opened Models
  import opened JobStore
  import opened Heartbeat
  import opened ControlPlane
  import opened Invariants
  import opened Preservation
  import opened Runs
  import opened History
  import opened FifoRefinement
  import opened Settlement
  import opened BusyGpu
  import opened Drain
  import opened ContainerExclusion
  import opened TrainingLoop
  import opened HeartbeatTiming
  import opened Premises
  import opened Recovery

  // ---- a poll -------------------------------------------------------------------------------

  /** An active job whose owner has asked to cancel it. */
  predicate Asked(job: Job) {
    job.status in {Queued, Initializing, Training} && job.cancelRequested
  }

  /** The first in line of those nobody wants cancelled, while everything on the GPU is to be cancelled. */
  ghost predicate IsNext(jobs: seq<Job>, s: int) {
    && 0 <= s < |jobs| && jobs[s].status == Queued && !jobs[s].cancelRequested
    && (forall k :: 0 <= k < s && jobs[k].status == Queued ==> jobs[k].cancelRequested)
    && (forall k :: 0 <= k < |jobs| && jobs[k].status in {Initializing, Training} ==> jobs[k].cancelRequested)
  }

  /** The container a job to be cancelled runs in. */
  ghost predicate IsDoomed(jobs: seq<Job>, c: ContainerId) {
    exists i :: 0 <= i < |jobs| && jobs[i].status in {Initializing, Training} && jobs[i].cancelRequested
                && jobs[i].containerId == Some(c)
  }

  lemma PollPicks(m: Moment, inp: PollInputs) returns (s: nat)
    requires Sound(m)
    ensures var ready := ProcessCancellations(m.world, inp.cancelAt); var jobs := m.world.store.jobs;
      && (NextToStart(ready).Some? ==>
            (IsNext(jobs, s) && s < |ready.store.jobs| && NextToStart(ready) == Some(ready.store.jobs[s])
             && ready.store.jobs[s] == jobs[s] && jobs[s].userId in m.world.users))
      && (NextToStart(ready).None? ==> forall k :: !IsNext(jobs, k))
      && (NextToStart(ready).Some? ==> forall k :: IsNext(jobs, k) ==> k == s)
  {
    hide Inv, ProcessCancellations, ListByStatuses, Select;
    s := 0;
    var ready, jobs := ProcessCancellations(m.world, inp.cancelAt), m.world.store.jobs;
    CancellationsKeep(m.world, inp.cancelAt, m.clock, m.lost);
    CancellationsKeepUsers(m.world, inp.cancelAt);
    CancelledJobs(m.world, inp.cancelAt);
    if NextToStart(ready).Some? {
      s := NextIsFirstQueued(ready, m.clock, m.lost);
      NoneSelected(ready.store.jobs[..s], QUEUED);
      forall k | 0 <= k < s && jobs[k].status == Queued
        ensures jobs[k].cancelRequested
      {
        assert ready.store.jobs[..s][k] == ready.store.jobs[k];
      }
      forall k | 0 <= k < |jobs| && jobs[k].status in {Initializing, Training}
        ensures jobs[k].cancelRequested
      {
        assert ready.store.jobs[k].status !in ON_GPU;
      }
    } else {
      SortedListings(ready, m.clock, m.lost);
      NoneSelected(ready.store.jobs, QUEUED);
      NoneSelected(ready.store.jobs, ON_GPU);
      forall k | IsNext(jobs, k)
        ensures false
      {
        NextIsReady(m.world, inp.cancelAt, k);
        assert false;
      }
    }
  }

  lemma NextIsReady(w: World, at: Time, s: int)
    requires IsNext(w.store.jobs, s)
    ensures var ready := ProcessCancellations(w, at).store.jobs;
      && |ready| == |w.store.jobs| && ready[s].status == Queued
      && forall k :: 0 <= k < |ready| ==> ready[k].status !in ON_GPU
  {
  }

  /** The document of a job that a poll starts. */
  function AfterStart(job: Job, inp: PollInputs): Job {
    var started := job.(heartbeatAt := Some(inp.startAt));
    match inp.fetch
    case FetchFailed(why) =>
      started.(status := Failed, updatedAt := inp.failAt, errorMessage := Some(DatasetFetchFailed(why)))
    case Fetched =>
      match inp.run
      case LaunchFailed(why) =>
        started.(status := Failed, updatedAt := inp.failAt, errorMessage := Some(ContainerLaunchFailed(why)))
      case Launched(c) =>
        started.(status := Initializing, updatedAt := inp.startAt, containerId := Some(c))
  }

  /** Every document: cancelled if its owner asked, started if it is next, otherwise as before. */
  lemma PollDocuments(m: Moment, inp: PollInputs)
    requires Sound(m) && PollEnabled(m, inp)
    ensures var before, after := m.world.store.jobs, PollTick(m.world, inp).world.store.jobs;
      && |after| == |before|
      && forall k :: 0 <= k < |before| ==>
           after[k] == if Asked(before[k]) then before[k].(status := Cancelled, updatedAt := inp.cancelAt)
                       else if IsNext(before, k) then AfterStart(before[k], inp)
                       else before[k]
  {
    hide Inv, StartJob, ProcessCancellations, NextToStart, IsNext;
    var ready := ProcessCancellations(m.world, inp.cancelAt);
    CancellationsKeep(m.world, inp.cancelAt, m.clock, m.lost);
    CancelledJobs(m.world, inp.cancelAt);
    Structure(ready, m.clock, m.lost);
    CancellationsKeepUsers(m.world, inp.cancelAt);
    var s := PollPicks(m, inp);
    if NextToStart(ready).Some? {
      NextIsUnasked(m.world.store.jobs, s);
      StartJobs(ready, s, inp);
    }
  }

  /** And the answer: the document of the job it started, or none. */
  lemma PollAnswers(m: Moment, inp: PollInputs)
    requires Sound(m) && PollEnabled(m, inp)
    ensures var jobs, answer := m.world.store.jobs, PollTick(m.world, inp).result;
      && (forall s :: IsNext(jobs, s) ==> answer == Ok(Some(AfterStart(jobs[s], inp))))
      && ((forall s :: !IsNext(jobs, s)) ==> answer == Ok(None))
  {
    hide Inv, StartJob, ProcessCancellations, NextToStart, IsNext, AfterStart;
    CancellationsKeepUsers(m.world, inp.cancelAt);
    var s := PollPicks(m, inp);
    var ready := ProcessCancellations(m.world, inp.cancelAt);
    if NextToStart(ready).Some? {
      StartAnswers(ready, ready.store.jobs[s], inp);
    }
  }

  lemma StartAnswers(w: World, queued: Job, inp: PollInputs)
    requires queued.userId in w.users
    ensures StartJob(w, queued, inp).result == AfterStart(queued, inp)
  {
    hide Put;
  }

  lemma NextIsUnasked(jobs: seq<Job>, s: int)
    requires IsNext(jobs, s)
    ensures 0 <= s < |jobs| && jobs[s].status == Queued && !Asked(jobs[s])
  {
  }

  lemma KilledExactly(w: World, at: Time, c: ContainerId)
    requires c in w.containers
    ensures var after := ProcessCancellations(w, at).containers;
      && after.Keys == w.containers.Keys
      && after[c] == if w.containers[c].state.Running? && IsDoomed(w.store.jobs, c)
                     then w.containers[c].(state := Exited(137)) else w.containers[c]
  {
    assert IsDoomed(w.store.jobs, c) <==> c in KilledBy(w.store.jobs);
  }

  /** Every container: killed exactly if it runs for a job whose owner asked, otherwise as before; a new one exactly
      if a start launches it. */
  lemma PollContainers(m: Moment, inp: PollInputs)
    requires Sound(m) && PollEnabled(m, inp)
    ensures var before, after := m.world.containers, PollTick(m.world, inp).world.containers;
      var jobs := m.world.store.jobs;
      && (forall c :: c in before ==>
            (c in after
             && after[c] == if before[c].state.Running? && IsDoomed(jobs, c) then before[c].(state := Exited(137))
                            else before[c]))
      && (forall c :: c in after && c !in before ==> inp.fetch.Fetched? && inp.run == Launched(c))
      && (forall s :: IsNext(jobs, s) && inp.fetch.Fetched? && inp.run.Launched? ==>
            (inp.run.containerId in after && after[inp.run.containerId] == Container(Some(jobs[s].id), Running)))
      && ((forall s :: !IsNext(jobs, s)) ==> after.Keys == before.Keys)
  {
    hide Inv, StartJob, ProcessCancellations, NextToStart, IsNext, IsDoomed;
    var ready := ProcessCancellations(m.world, inp.cancelAt);
    forall c | c in m.world.containers
      ensures c in ready.containers && ready.containers[c] ==
        if m.world.containers[c].state.Running? && IsDoomed(m.world.store.jobs, c)
        then m.world.containers[c].(state := Exited(137)) else m.world.containers[c]
    {
      KilledExactly(m.world, inp.cancelAt, c);
    }
    CancellationsKeepKeys(m.world, inp.cancelAt);
    CancellationsKeepUsers(m.world, inp.cancelAt);
    var s := PollPicks(m, inp);
    if NextToStart(ready).Some? {
      StartTouches(ready, s, inp);
    }
  }

  lemma CancellationsKeepKeys(w: World, at: Time)
    ensures ProcessCancellations(w, at).containers.Keys == w.containers.Keys
    ensures ProcessCancellations(w, at).objects == w.objects
  {
  }

  /** The record of a user whose job was started. */
  function Charged(user: User, today: Date): User {
    User(user.id, if user.quotaResetDate == Some(today) then user.dailyQuotaUsed + 1 else 1, Some(today))
  }

  /** Users, objects and directories: the owner of the started job is charged and nobody else, no object is touched,
      directories go with the containers killed and come with the start. */
  lemma PollRest(m: Moment, inp: PollInputs)
    requires Sound(m) && PollEnabled(m, inp)
    ensures var before, after := m.world, PollTick(m.world, inp).world; var jobs := m.world.store.jobs;
      && after.objects == before.objects
      && (forall s :: IsNext(jobs, s) ==>
            (jobs[s].userId in before.users
             && after.users ==
                  before.users[jobs[s].userId := Charged(before.users[jobs[s].userId], DateOf(inp.startAt))]))
      && ((forall s :: !IsNext(jobs, s)) ==> after.users == before.users)
      && (forall id :: id in after.dirs <==>
            (|| (id in before.dirs && !LosesDirectory(jobs, id))
             || (exists s ::
                  IsNext(jobs, s) && jobs[s].id == id && (jobs[s].sourceType.ZipUpload? || inp.fetch.Fetched?))))
  {
    hide Inv, ProcessCancellations, NextToStart, IsNext, Put, LosesDirectory;
    var ready := ProcessCancellations(m.world, inp.cancelAt);
    CancellationsKeepKeys(m.world, inp.cancelAt);
    CancellationsKeepUsers(m.world, inp.cancelAt);
    ClearedExactly(m.world, inp.cancelAt);
    var s := PollPicks(m, inp);
    if NextToStart(ready).Some? {
      StartCharges(ready, ready.store.jobs[s], inp);
      StartDirectories(ready, ready.store.jobs[s], inp);
    }
  }

  ghost predicate LosesDirectory(jobs: seq<Job>, id: JobId) {
    exists i :: 0 <= i < |jobs| && jobs[i].id == id && jobs[i].status in {Initializing, Training}
                && jobs[i].cancelRequested && jobs[i].containerId.Some?
  }

  lemma ClearedExactly(w: World, at: Time)
    ensures forall id :: id in ProcessCancellations(w, at).dirs <==> id in w.dirs && !LosesDirectory(w.store.jobs, id)
  {
    forall id
      ensures id in ClearedBy(w.store.jobs) <==> LosesDirectory(w.store.jobs, id)
    {
    }
  }

  lemma StartDirectories(w: World, queued: Job, inp: PollInputs)
    requires queued.userId in w.users
    ensures var v := StartJob(w, queued, inp).world;
      && v.objects == w.objects
      && v.dirs == if queued.sourceType.ZipUpload? || inp.fetch.Fetched? then w.dirs + {queued.id} else w.dirs
  {
    hide Put;
  }

  /** A poll cut short by a crash treats the containers that were there before like one that is not, and leaves a new
      one exactly if it crashed after a launch. */
  lemma CrashContainers(m: Moment, inp: PollInputs, point: CrashPoint)
    requires Sound(m) && PollEnabled(m, inp)
    ensures var before, after := m.world.containers, CrashedPoll(m.world, inp, point).containers;
      var jobs := m.world.store.jobs;
      && (forall c :: c in before ==>
            (c in after
             && after[c] == if before[c].state.Running? && IsDoomed(jobs, c) then before[c].(state := Exited(137))
                            else before[c]))
      && (forall c :: c in after && c !in before ==> point == AfterLaunch && inp.run == Launched(c))
      && (forall s :: IsNext(jobs, s) && point == AfterLaunch && inp.run.Launched? ==>
            (inp.run.containerId in after && after[inp.run.containerId] == Container(Some(jobs[s].id), Running)))
      && ((forall s :: !IsNext(jobs, s)) ==> after.Keys == before.Keys)
  {
    hide Inv, CrashedStart, ProcessCancellations, NextToStart, IsNext, IsDoomed;
    var ready := ProcessCancellations(m.world, inp.cancelAt);
    forall c | c in m.world.containers
      ensures c in ready.containers && ready.containers[c] ==
        if m.world.containers[c].state.Running? && IsDoomed(m.world.store.jobs, c)
        then m.world.containers[c].(state := Exited(137)) else m.world.containers[c]
    {
      KilledExactly(m.world, inp.cancelAt, c);
    }
    CancellationsKeepKeys(m.world, inp.cancelAt);
    CancellationsKeepUsers(m.world, inp.cancelAt);
    var s := PollPicks(m, inp);
    if NextToStart(ready).Some? {
      CrashTouches(ready, s, inp, point);
    }
  }

  /** And its documents: the job it was starting is marked, with nothing else done to it. */
  lemma CrashDocuments(m: Moment, inp: PollInputs, point: CrashPoint)
    requires Sound(m) && PollEnabled(m, inp)
    ensures var before, after := m.world.store.jobs, CrashedPoll(m.world, inp, point).store.jobs;
      && |after| == |before|
      && forall k :: 0 <= k < |before| ==>
           after[k] == if Asked(before[k]) then before[k].(status := Cancelled, updatedAt := inp.cancelAt)
                       else if IsNext(before, k)
                       then before[k].(status := Initializing, updatedAt := inp.startAt,
                                       heartbeatAt := Some(inp.startAt))
                       else before[k]
  {
    hide Inv, CrashedStart, ProcessCancellations, NextToStart, IsNext;
    var ready := ProcessCancellations(m.world, inp.cancelAt);
    CancellationsKeep(m.world, inp.cancelAt, m.clock, m.lost);
    CancelledJobs(m.world, inp.cancelAt);
    Structure(ready, m.clock, m.lost);
    CancellationsKeepUsers(m.world, inp.cancelAt);
    var s := PollPicks(m, inp);
    if NextToStart(ready).Some? {
      NextIsUnasked(m.world.store.jobs, s);
      CrashedStartJobs(ready, s, inp, point);
    }
  }

  /** And users, objects and directories: the charge is made unless the crash came before it, no object is touched, and
      the directory of the job is there from the fetch of an upload, or else from the launch. */
  lemma CrashRest(m: Moment, inp: PollInputs, point: CrashPoint)
    requires Sound(m) && PollEnabled(m, inp)
    ensures var before, after := m.world, CrashedPoll(m.world, inp, point); var jobs := m.world.store.jobs;
      && after.objects == before.objects
      && (forall s :: IsNext(jobs, s) ==>
            (jobs[s].userId in before.users
             && after.users ==
                  if point == AfterMark then before.users
                  else before.users[jobs[s].userId := Charged(before.users[jobs[s].userId], DateOf(inp.startAt))]))
      && ((forall s :: !IsNext(jobs, s)) ==> after.users == before.users)
      && (forall id :: id in after.dirs <==>
            (|| (id in before.dirs && !LosesDirectory(jobs, id))
             || (exists s :: IsNext(jobs, s) && jobs[s].id == id && MakesDirectory(jobs[s], point))))
  {
    hide Inv, ProcessCancellations, NextToStart, IsNext, Put, LosesDirectory, MakesDirectory;
    var ready := ProcessCancellations(m.world, inp.cancelAt);
    CancellationsKeepKeys(m.world, inp.cancelAt);
    CancellationsKeepUsers(m.world, inp.cancelAt);
    ClearedExactly(m.world, inp.cancelAt);
    var s := PollPicks(m, inp);
    if NextToStart(ready).Some? {
      CrashDirectories(ready, ready.store.jobs[s], inp, point);
    }
  }

  predicate MakesDirectory(job: Job, point: CrashPoint) {
    point == AfterLaunch || (point == AfterFetch && job.sourceType.ZipUpload?)
  }

  lemma CrashDirectories(w: World, queued: Job, inp: PollInputs, point: CrashPoint)
    requires queued.userId in w.users
    ensures var v := CrashedStart(w, queued, inp, point);
      && v.objects == w.objects
      && v.dirs == if MakesDirectory(queued, point) then w.dirs + {queued.id} else w.dirs
  {
    hide Put;
  }

  // ---- a monitor read -----------------------------------------------------------------------

  /** What a read records before it looks at the exit: progress and heartbeat together, exactly when step or loss
      are new. */
  function AfterReading(job: Job, inp: MonitorInputs): Job {
    if inp.progress.Some? && !Repeats(job, inp.progress.value)
    then job.(progress := inp.progress, heartbeatAt := Some(inp.heartbeatAt))
    else job
  }

  /** Why an exited job does not complete, in the order in which the reasons are tried. */
  ghost predicate EndsWith(failure: Option<FailureReason>, code: int, inp: MonitorInputs) {
    if code != 0 then failure == Some(ContainerExited(code, inp.logs))
    else if inp.packageError.Some? then failure == Some(PackagingFailed(inp.packageError.value))
    else if exists k :: 0 <= k < |inp.uploads| && k <= inp.retries && inp.uploads[k] then failure == None
    else failure == Some(CheckpointUploadFailed)
  }

  /** The read looks at the one job on the GPU and writes no other. */
  lemma ReadsJob(m: Moment, inp: MonitorInputs, i: nat)
    requires Sound(m) && Enabled(m, Monitor(inp)) && i < |m.world.store.jobs|
    requires m.world.store.jobs[i].status in {Initializing, Training}
    ensures var jobs := m.world.store.jobs;
      && MonitorTick(m.world, inp).world == MonitorJob(m.world, jobs[i], inp).world
      && MonitorTick(m.world, inp).world.store.jobs ==
           jobs[i := MonitorResult(jobs[i], ExitCode(m.world.containers, jobs[i].containerId), inp)]
      && MonitorTick(m.world, inp).result ==
           Some(MonitorResult(jobs[i], ExitCode(m.world.containers, jobs[i].containerId), inp))
  {
    hide Inv, MonitorJob, MonitorResult;
    Structure(m.world, m.clock, m.lost);
    Later(m.world, m.clock, inp.heartbeatAt, m.lost);
    var k := MonitorKeeps(m.world, inp, inp.heartbeatAt, m.lost);
    assert k == i;
    MonitorJobKeeps(m.world, i, inp, inp.heartbeatAt, m.lost);
  }

  lemma ResultWithoutExit(job: Job, inp: MonitorInputs)
    requires job.status in {Initializing, Training}
    ensures inp.progress.None? ==>
      MonitorResult(job, None, inp) ==
        if job.status == Initializing then job.(heartbeatAt := Some(inp.heartbeatAt)) else job
    ensures inp.progress.Some? ==>
      MonitorResult(job, None, inp) ==
        AfterReading(if job.status == Initializing then job.(status := Training, updatedAt := inp.trainingAt)
                     else job, inp)
  {
  }

  /** The same document up to status and stamp. */
  ghost predicate SameReading(a: Job, b: Job) {
    a.(status := Training, updatedAt := 0) == b.(status := Training, updatedAt := 0)
  }

  lemma ReadingAtExit(job: Job, code: int, inp: MonitorInputs)
    requires job.status in {Initializing, Training}
    ensures SameReading(EnterTraining(Observed(job, Some(code), inp), inp.closingAt), AfterReading(job, inp))
  {
  }

  lemma EndOverwrites(a: Job, b: Job, failure: Option<FailureReason>, now: Time)
    requires SameReading(a, b)
    ensures Finished(a, failure, now) == Finished(b, failure, now)
  {
    hide CheckpointPath;
  }

  lemma EndOfReading(job: Job, failure: Option<FailureReason>, inp: MonitorInputs)
    ensures Finished(AfterReading(job, inp), failure, inp.finishedAt) == AfterExit(job, failure, inp)
  {
    hide Repeats;
  }

  lemma ResultOfExit(job: Job, code: int, inp: MonitorInputs)
    requires job.status in {Initializing, Training}
    ensures MonitorResult(job, Some(code), inp) == AfterExit(job, FinalFailure(code, inp), inp)
  {
    hide FinalFailure, SameReading, Observed, EnterTraining, AfterReading, AfterExit, Finished;
    var training := EnterTraining(Observed(job, Some(code), inp), inp.closingAt);
    ReadingAtExit(job, code, inp);
    EndOverwrites(training, AfterReading(job, inp), FinalFailure(code, inp), inp.finishedAt);
    EndOfReading(job, FinalFailure(code, inp), inp);
  }

  function AfterExit(job: Job, failure: Option<FailureReason>, inp: MonitorInputs): Job {
    var read := AfterReading(job, inp).(updatedAt := inp.finishedAt);
    if failure.None? then read.(status := Completed, checkpointPath := Some("checkpoints/" + job.id + ".zip"))
    else read.(status := Failed, errorMessage := failure)
  }

  ghost predicate HasExited(containers: Containers, id: Option<ContainerId>, code: int) {
    id.Some? && id.value in containers && containers[id.value].state == Exited(code)
  }

  ghost predicate StillRuns(containers: Containers, id: Option<ContainerId>) {
    forall code :: !HasExited(containers, id, code)
  }

  lemma ExitIs(containers: Containers, id: Option<ContainerId>)
    ensures StillRuns(containers, id) <==> ExitCode(containers, id).None?
    ensures forall code :: HasExited(containers, id, code) <==> ExitCode(containers, id) == Some(code)
  {
    if ExitCode(containers, id).Some? {
      assert HasExited(containers, id, ExitCode(containers, id).value);
    }
  }

  /** The whole document after a read, which is also its answer, with and without an exit. */
  lemma ReadDocument(m: Moment, inp: MonitorInputs, i: nat)
    requires Sound(m) && Enabled(m, Monitor(inp)) && i < |m.world.store.jobs|
    requires m.world.store.jobs[i].status in {Initializing, Training}
    ensures var before, after := m.world.store.jobs, MonitorTick(m.world, inp).world.store.jobs; var job := before[i];
      && |after| == |before| && (forall k :: 0 <= k < |before| && k != i ==> after[k] == before[k])
      && MonitorTick(m.world, inp).result == Some(after[i])
      && (StillRuns(m.world.containers, job.containerId) && inp.progress.None? ==>
            after[i] == if job.status == Initializing then job.(heartbeatAt := Some(inp.heartbeatAt)) else job)
      && (StillRuns(m.world.containers, job.containerId) && inp.progress.Some? ==>
            after[i] ==
              AfterReading(if job.status == Initializing then job.(status := Training, updatedAt := inp.trainingAt)
                           else job, inp))
      && (forall code :: HasExited(m.world.containers, job.containerId, code) ==>
            exists failure :: EndsWith(failure, code, inp) && after[i] == AfterExit(job, failure, inp))
  {
    hide Inv, MonitorTick, MonitorJob, MonitorResult, FinalFailure, EndsWith, AfterExit, AfterReading, Enabled;
    hide ExitCode, HasExited, StillRuns;
    ReadsJob(m, inp, i);
    var job, exit := m.world.store.jobs[i], ExitCode(m.world.containers, m.world.store.jobs[i].containerId);
    ExitIs(m.world.containers, job.containerId);
    if exit.Some? {
      FailureIs(exit.value, inp);
      ResultOfExit(job, exit.value, inp);
    } else {
      ResultWithoutExit(job, inp);
    }
  }

  lemma FailureIs(code: int, inp: MonitorInputs)
    ensures EndsWith(FinalFailure(code, inp), code, inp)
  {
    if UploadSucceeds(inp.uploads, inp.retries) {
      var k :| 0 <= k < 1 + inp.retries && AttemptSucceeds(inp.uploads, k);
      assert inp.uploads[k];
    }
    forall k | 0 <= k < |inp.uploads| && k <= inp.retries && inp.uploads[k]
      ensures UploadSucceeds(inp.uploads, inp.retries)
    {
      assert AttemptSucceeds(inp.uploads, k);
    }
  }

  lemma JobRest(w: World, job: Job, inp: MonitorInputs)
    requires job.status in {Initializing, Training} && job.errorMessage.None?
    ensures var o := MonitorJob(w, job, inp); var after, end := o.world, o.result;
      && after.users == w.users && after.containers == w.containers
      && after.objects ==
           (if end.status == Completed then w.objects + {"checkpoints/" + job.id + ".zip"} else w.objects)
      && after.dirs == if end.status in {Initializing, Training} || end.errorMessage == Some(CheckpointUploadFailed)
                       then w.dirs else w.dirs - {job.id}
  {
    hide Put, UploadSucceeds, ProgressChanged;
  }

  /** Everything else after a read: users and containers as before; the checkpoint is stored exactly when the job
      completes, the directory goes with every end but a failed upload. */
  lemma ReadRest(m: Moment, inp: MonitorInputs, i: nat)
    requires Sound(m) && Enabled(m, Monitor(inp)) && i < |m.world.store.jobs|
    requires m.world.store.jobs[i].status in {Initializing, Training}
    ensures var before, after := m.world, MonitorTick(m.world, inp).world;
      && after.users == before.users && after.containers == before.containers
      && i < |after.store.jobs|
      && (var id, end := before.store.jobs[i].id, after.store.jobs[i];
          && after.objects ==
               (if end.status == Completed then before.objects + {"checkpoints/" + id + ".zip"} else before.objects)
          && after.dirs == if end.status in {Initializing, Training} || end.errorMessage == Some(CheckpointUploadFailed)
                           then before.dirs else before.dirs - {id})
  {
    hide Inv, MonitorTick, MonitorJob, MonitorResult;
    ReadsJob(m, inp, i);
    JobIsOk(m.world, i, m.clock, m.lost);
    ResultIsMonitored(m, inp, i);
    JobRest(m.world, m.world.store.jobs[i], inp);
  }

  lemma ResultIsMonitored(m: Moment, inp: MonitorInputs, i: nat)
    requires Sound(m) && Enabled(m, Monitor(inp)) && i < |m.world.store.jobs|
    requires m.world.store.jobs[i].status in {Initializing, Training}
    ensures var job := m.world.store.jobs[i];
      MonitorJob(m.world, job, inp).result == MonitorResult(job, ExitCode(m.world.containers, job.containerId), inp)
  {
    hide Inv, MonitorJob, MonitorResult;
    Later(m.world, m.clock, inp.heartbeatAt, m.lost);
    MonitorJobKeeps(m.world, i, inp, inp.heartbeatAt, m.lost);
  }

  /** With nothing on the GPU a read does nothing. */
  lemma IdleRead(m: Moment, inp: MonitorInputs)
    requires Sound(m) && forall job :: job in m.world.store.jobs ==> job.status !in {Initializing, Training}
    ensures MonitorTick(m.world, inp) == Outcome(m.world, None)
  {
    hide Inv;
    var k := MonitoredJob(m.world, m.clock, m.lost);
  }

  /** What a crash inside the finishing of a job leaves: the reading recorded, then the object, then the whole end; the
      directory stays in any case. */
  lemma FinishCrashLeaves(m: Moment, inp: MonitorInputs, i: nat, code: int, point: FinishCrash)
    requires Sound(m) && Enabled(m, Monitor(inp)) && i < |m.world.store.jobs|
    requires m.world.store.jobs[i].status in {Initializing, Training}
    requires HasExited(m.world.containers, m.world.store.jobs[i].containerId, code)
    ensures var before, after := m.world, CrashedFinish(m, inp, i, code, point); var job := m.world.store.jobs[i];
      && after == before.(store := after.store, objects := after.objects)
      && |after.store.jobs| == |before.store.jobs|
      && (forall k :: 0 <= k < |before.store.jobs| && k != i ==> after.store.jobs[k] == before.store.jobs[k])
      && (point != AfterFinish ==>
            after.store.jobs[i].status == Training && SameReading(after.store.jobs[i], AfterReading(job, inp)))
      && exists failure ::
           && EndsWith(failure, code, inp)
           && (point == AfterFinish ==> after.store.jobs[i] == AfterExit(job, failure, inp))
           && after.objects ==
                if failure == None && point != AfterTraining then before.objects + {"checkpoints/" + job.id + ".zip"}
                else before.objects
  {
    hide Inv, Put, Observed, EnterTraining, FinalFailure, EndsWith, AfterExit, AfterReading, Finished, SameReading;
    hide HasExited, ExitCode, Enabled;
    var job, failure := m.world.store.jobs[i], FinalFailure(code, inp);
    var observed, training := Observed(job, Some(code), inp), ToFinish(m, inp, i);
    ExitIs(m.world.containers, job.containerId);
    Structure(m.world, m.clock, m.lost);
    FinishingKeepsId(job, code, inp);
    PutReplaces(m.world.store, i, observed);
    PutReplaces(Put(m.world.store, observed), i, training);
    FailureIs(code, inp);
    ReadingAtExit(job, code, inp);
    EnteredTraining(observed, inp.closingAt);
    if point == AfterFinish {
      PutReplaces(WhileFinishing(m, inp, i).world.store, i, Finished(training, failure, inp.finishedAt));
      EndOverwrites(training, AfterReading(job, inp), failure, inp.finishedAt);
      EndOfReading(job, failure, inp);
    }
  }

  lemma FinishingKeepsId(job: Job, code: int, inp: MonitorInputs)
    ensures Observed(job, Some(code), inp).id == job.id
    ensures EnterTraining(Observed(job, Some(code), inp), inp.closingAt).id == job.id
    ensures forall failure, now ::
      Finished(EnterTraining(Observed(job, Some(code), inp), inp.closingAt), failure, now).id == job.id
    ensures job.status in ON_GPU ==> Observed(job, Some(code), inp).status in ON_GPU
  {
  }

  lemma EnteredTraining(job: Job, now: Time)
    requires job.status in ON_GPU
    ensures EnterTraining(job, now).status == Training
  {
  }

  // ---- the backend --------------------------------------------------------------------------

  /** A sweep touches documents only, each by the rule of its status. */
  lemma SweepDocuments(m: Moment, at: Time)
    requires Sound(m)
    ensures var before, after := m.world, Sweep(m.world, at);
      && after == before.(store := after.store) && |after.store.jobs| == |before.store.jobs|
      && forall i :: 0 <= i < |before.store.jobs| ==>
           (var job := before.store.jobs[i];
            after.store.jobs[i] ==
              if (job.status == Initializing && job.heartbeatAt.Some? && at - job.heartbeatAt.value > 300 * SECOND)
                 || (job.status == Training && job.heartbeatAt.Some? && at - job.heartbeatAt.value > 120 * SECOND)
              then job.(status := Failed, updatedAt := at, errorMessage := Some(HeartbeatTimeout)) else job)
  {
  }

  /** A restart touches containers only: the running ones of the service that no job on the GPU has attached are
      killed. */
  lemma RestartContainers(m: Moment)
    requires Sound(m)
    ensures var before, after := m.world, Reconcile(m.world);
      && after == before.(containers := after.containers) && after.containers.Keys == before.containers.Keys
      && forall c :: c in before.containers ==>
           after.containers[c] ==
             if before.containers[c].state.Running? && before.containers[c].jobLabel.Some?
                && !(exists i :: 0 <= i < |before.store.jobs| && before.store.jobs[i].status in {Initializing, Training}
                                 && before.store.jobs[i].containerId == Some(c))
             then before.containers[c].(state := Exited(137)) else before.containers[c]
  {
    forall c | c in m.world.containers
      ensures c in TrackedContainers(m.world.store.jobs) <==>
        exists i :: 0 <= i < |m.world.store.jobs| && m.world.store.jobs[i].status in {Initializing, Training}
                    && m.world.store.jobs[i].containerId == Some(c)
    {
    }
  }

  // ---- what follows -------------------------------------------------------------------------

  /** The container of a job on the GPU that nobody asked to cancel: no step but its own stopping changes it. */
  lemma BusyContainerStays(m: Moment, step: Step, i: nat, c: ContainerId)
    requires Sound(m) && Enabled(m, step) && Busy(m.world.store.jobs, i) && m.world.store.jobs[i].containerId == Some(c)
    requires !(step.ContainerStops? && step.container == c)
    ensures c in m.world.containers && c in Next(m, step).world.containers
    ensures Next(m, step).world.containers[c] == m.world.containers[c]
  {
    hide Inv, PollTick, CrashedPoll, MonitorTick, Reconcile, CreateJob, CancelJob, Sweep, IsDoomed, IsNext, PollEnabled;
    BusyIsOk(m, i, c);
    match step
    case Poll(inp) =>
      BusyIsSpared(m, i, c);
      PollContainers(m, inp);
    case CrashDuringPoll(inp, point) =>
      BusyIsSpared(m, i, c);
      CrashContainers(m, inp, point);
    case Restart => RestartContainers(m);
    case Monitor(inp) => ReadRest(m, inp, i);
    case TimeoutSweep(at) => SweepDocuments(m, at);
    case Create(request, id, checkedAt, createdAt) => BackendKeepsContainers(m, step);
    case RequestCancel(_, _, _) => BackendKeepsContainers(m, step);
    case _ =>
  }

  lemma BusyIsSpared(m: Moment, i: nat, c: ContainerId)
    requires Sound(m) && Busy(m.world.store.jobs, i) && m.world.store.jobs[i].containerId == Some(c)
    ensures !IsDoomed(m.world.store.jobs, c)
  {
    hide Inv;
    Structure(m.world, m.clock, m.lost);
  }

  lemma BackendKeepsContainers(m: Moment, step: Step)
    requires step.Create? || step.RequestCancel?
    ensures Next(m, step).world == m.world.(store := Next(m, step).world.store)
  {
    hide Put, RefusalToCreate;
  }

  lemma BusyKeepsId(m: Moment, step: Step, i: nat)
    requires Sound(m) && Enabled(m, step) && Busy(m.world.store.jobs, i)
    requires Busy(Next(m, step).world.store.jobs, i)
    ensures Next(m, step).world.store.jobs[i].containerId == m.world.store.jobs[i].containerId
  {
    hide Inv, Next, Enabled, NewStarts, MonitorResult;
    var job := m.world.store.jobs[i];
    if step.Monitor? {
      MonitorReads(m, step.monitor, i);
      MonitorKeepsContainer(job, ExitCode(m.world.containers, job.containerId), step.monitor);
    } else if !TouchesJob(job, step) {
      BusyUntouched(m, step, i);
    } else {
      TouchedIsNotBusy(m, step, i);
    }
  }

  lemma TouchedIsNotBusy(m: Moment, step: Step, i: nat)
    requires Sound(m) && Enabled(m, step) && Busy(m.world.store.jobs, i)
    requires TouchesJob(m.world.store.jobs[i], step) && !step.Monitor?
    ensures !Busy(Next(m, step).world.store.jobs, i)
  {
    hide Inv, Put;
    Structure(m.world, m.clock, m.lost);
    if step.RequestCancel? {
      IndexOfDistinct(m.world.store.jobs, i);
      PutReplaces(m.world.store, i, m.world.store.jobs[i].(cancelRequested := true, updatedAt := step.at));
    }
  }

  lemma BusyBefore(m: Moment, init: seq<Step>, last: Step, i: nat)
    requires Sound(m) && EnabledRun(m, init) && Sound(Run(m, init)) && Enabled(Run(m, init), last)
    requires Busy(m.world.store.jobs, i) && Busy(Next(Run(m, init), last).world.store.jobs, i)
    ensures Busy(Run(m, init).world.store.jobs, i)
  {
    hide Inv, Next, Enabled, NewStarts;
    LeavesOnlyForGood(m, init, i);
    StepGrows(Run(m, init), last);
    assert JobGrows(Run(m, init).world.store.jobs[i], Next(Run(m, init), last).world.store.jobs[i]);
  }

  /** As long as its job stays on the GPU with nobody asking to cancel it, in any run, a container stops only by
      itself. */
  lemma {:induction false} BusyContainerRuns(m: Moment, steps: seq<Step>, i: nat, c: ContainerId)
    requires Sound(m) && EnabledRun(m, steps)
    requires Busy(m.world.store.jobs, i) && m.world.store.jobs[i].containerId == Some(c)
    requires Busy(Run(m, steps).world.store.jobs, i)
    requires forall step :: step in steps ==> !(step.ContainerStops? && step.container == c)
    ensures Run(m, steps).world.store.jobs[i].containerId == Some(c)
    ensures c in m.world.containers && c in Run(m, steps).world.containers
    ensures Run(m, steps).world.containers[c] == m.world.containers[c]
  {
    hide Inv, Next, Enabled, Busy;
    if steps == [] {
      BusyIsOk(m, i, c);
    } else {
      var init, last := steps[..|steps| - 1], steps[|steps| - 1];
      assert forall step :: step in init ==> step in steps;
      assert last in steps;
      RunKeeps(m, init);
      BusyBefore(m, init, last, i);
      BusyContainerRuns(m, init, i, c);
      BusyIsOk(Run(m, init), i, c);
      BusyKeepsId(Run(m, init), last, i);
      BusyContainerStays(Run(m, init), last, i, c);
      RunKeeps(m, steps);
      BusyIsOk(Run(m, steps), i, c);
    }
  }

  lemma BusyIsOk(m: Moment, i: nat, c: ContainerId)
    requires Sound(m) && Busy(m.world.store.jobs, i) && m.world.store.jobs[i].containerId == Some(c)
    ensures c in m.world.containers
  {
    hide Inv;
    JobIsOk(m.world, i, m.clock, m.lost);
  }

  /** However a job ends, after a read that finds the exit it shows the last step its container wrote. */
  lemma EndShowsLastStep(m: Moment, inp: MonitorInputs, i: nat, code: int, t: Session)
    requires Sound(m) && Enabled(m, Monitor(inp)) && i < |m.world.store.jobs|
    requires m.world.store.jobs[i].status in {Initializing, Training}
    requires HasExited(m.world.containers, m.world.store.jobs[i].containerId, code)
    requires Complete(t) && t.totalSteps > 0 && inp.progress == Visible(Writes(t, t.totalSteps), inp.readAt)
    requires LastWriteAt(t, Writes(t, t.totalSteps)) <= inp.readAt
    ensures var after := MonitorTick(m.world, inp).world.store.jobs;
      && i < |after| && after[i].status in {Completed, Failed}
      && after[i].progress.Some? && after[i].progress.value.step == t.totalSteps
  {
    hide Inv, Writes, MonitorTick, Enabled, EndsWith, HasExited;
    ReadDocument(m, inp, i);
    WritesEndWithTotal(t);
  }
}
