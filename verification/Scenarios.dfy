/** Concrete runs from the empty service, each reaching a moment that some guarantee excludes. */
module Scenarios {
  import opened Models
  import opened JobStateMachine
  import opened JobStore
  import opened Quota
  import opened Heartbeat
  import opened ControlPlane
  import opened Invariants
  import opened Preservation
  import opened Runs
  import opened QuotaGuarantees
  import opened History
  import opened FifoRefinement
  import opened Settlement
  import opened ContainerExclusion
  import opened BusyGpu
  import opened Crashes
  import opened Drain
  import opened Premises

  const FIRST_USER: UserId := "u"
  const SECOND_USER: UserId := "v"
  const FIRST_JOB: JobId := "a"
  const SECOND_JOB: JobId := "b"
  const FIRST_CONTAINER: ContainerId := "c"
  const SECOND_CONTAINER: ContainerId := "d"

  /** Every user trains on a dataset of their own. */
  function RequestOf(userId: UserId): JobRequest {
    JobRequest(userId, Act, HfHub, RepoOf(userId), MAX_TRAINING_STEPS)
  }

  function RepoOf(userId: UserId): string {
    "owner/" + userId
  }

  function QueuedJob(id: JobId, userId: UserId, at: Time): Job {
    NewJob(id, userId, Act, HfHub, RepoOf(userId), MAX_TRAINING_STEPS, at)
  }

  function CreateAt(userId: UserId, id: JobId, at: Time): Step {
    Create(RequestOf(userId), id, at, at)
  }

  function PollAt(at: Time, containerId: ContainerId): PollInputs {
    PollInputs(at, at, Fetched, Launched(containerId), at)
  }

  lemma RunAppend(m: Moment, steps: seq<Step>, step: Step)
    ensures Run(m, steps + [step]) == Next(Run(m, steps), step)
    ensures EnabledRun(m, steps + [step]) <==> EnabledRun(m, steps) && Enabled(Run(m, steps), step)
  {
    assert (steps + [step])[..|steps|] == steps;
  }

  // ---- two users, a queued job each ---------------------------------------------------------

  const REGISTRATIONS: seq<Step> := [Register(FIRST_USER), Register(SECOND_USER)]

  const OPENING: seq<Step> := REGISTRATIONS
    + [CreateAt(FIRST_USER, FIRST_JOB, 0)] + [CreateAt(SECOND_USER, SECOND_JOB, 0)]

  lemma AfterRegistrations()
    ensures EnabledRun(Begin(0), REGISTRATIONS)
    ensures Run(Begin(0), REGISTRATIONS) ==
      Moment(EMPTY_WORLD.(users :=
        map[FIRST_USER := User(FIRST_USER, 0, None), SECOND_USER := User(SECOND_USER, 0, None)]), 0, [])
  {
    assert REGISTRATIONS == [] + [Register(FIRST_USER)] + [Register(SECOND_USER)];
    RunAppend(Begin(0), [], Register(FIRST_USER));
    RunAppend(Begin(0), [] + [Register(FIRST_USER)], Register(SECOND_USER));
  }

  lemma Admitted(m: Moment, userId: UserId, id: JobId, at: Time)
    requires Sound(m) && m.clock <= at && userId in m.world.users
    requires EffectiveDailyUsed(m.world.users[userId], DateOf(at)) < MAX_DAILY_JOBS
    requires !Known(m.world.store.jobs, id) && id !in m.world.dirs
    requires forall job :: job in m.world.store.jobs && job.userId == userId ==> job.status !in ACTIVE
    ensures var n := Next(m, CreateAt(userId, id, at));
      && Enabled(m, CreateAt(userId, id, at)) && Sound(n)
      && n == m.(world := m.world.(store := n.world.store), clock := at)
      && n.world.store.jobs == m.world.store.jobs + [QueuedJob(id, userId, at)]
      && n.world.store.starts == m.world.store.starts
  {
    hide Inv, Put;
    StepKeeps(m, CreateAt(userId, id, at));
    StepGrows(m, CreateAt(userId, id, at));
    AdmissionExact(m, RequestOf(userId), id, at, at);
    CreateKeeps(m.world, RequestOf(userId), id, at, at, m.clock, m.lost);
  }

  ghost predicate Opened(m: Moment) {
    && Sound(m) && m.clock == 0 && m.lost == []
    && m.world.users == map[FIRST_USER := User(FIRST_USER, 0, None), SECOND_USER := User(SECOND_USER, 0, None)]
    && m.world.containers == map[] && m.world.dirs == {} && m.world.store.starts == []
    && m.world.store.jobs == [QueuedJob(FIRST_JOB, FIRST_USER, 0), QueuedJob(SECOND_JOB, SECOND_USER, 0)]
  }

  lemma AfterOpening()
    ensures EnabledRun(Begin(0), OPENING) && Opened(Run(Begin(0), OPENING))
  {
    hide Inv, Run, EnabledRun, Next, Enabled;
    AfterRegistrations();
    ReachableIsSound(0, REGISTRATIONS);
    var m := Run(Begin(0), REGISTRATIONS);
    var first, second := CreateAt(FIRST_USER, FIRST_JOB, 0), CreateAt(SECOND_USER, SECOND_JOB, 0);
    Admitted(m, FIRST_USER, FIRST_JOB, 0);
    RunAppend(Begin(0), REGISTRATIONS, first);
    Admitted(Next(m, first), SECOND_USER, SECOND_JOB, 0);
    RunAppend(Begin(0), REGISTRATIONS + [first], second);
  }

  lemma FirstQueuedAt(jobs: seq<Job>, i: nat, n: nat)
    requires i < |jobs| && n < |jobs| && jobs[i].status == jobs[n].status == Queued
    requires (forall k :: 0 <= k < i ==> jobs[k].status != Queued) && Select(jobs[..n], QUEUED) == []
    ensures n == i
  {
    if i < n {
      NoneSelected(jobs[..n], QUEUED);
      QueuedBefore(jobs, i, n);
    }
  }

  lemma QueuedBefore(jobs: seq<Job>, i: nat, n: nat)
    requires i < n <= |jobs| && jobs[i].status == Queued
    ensures Select(jobs[..n], QUEUED) != []
  {
    NoneSelected(jobs[..n], QUEUED);
    assert jobs[..n][i] == jobs[i];
  }

  /** The head of the line when nothing is on the GPU and nobody asked to cancel. */
  lemma HeadStarts(m: Moment, at: Time, i: nat)
    requires Sound(m) && i < |m.world.store.jobs| && m.world.store.jobs[i].status == Queued
    requires forall k :: 0 <= k < i ==> m.world.store.jobs[k].status != Queued
    requires forall job :: job in m.world.store.jobs ==> job.status !in ON_GPU && !job.cancelRequested
    ensures var ready := ProcessCancellations(m.world, at);
      && ready == m.world && NextToStart(ready) == Some(m.world.store.jobs[i])
  {
    hide Inv, Select, ListByStatuses;
    var w := m.world;
    Structure(w, m.clock, m.lost);
    NothingToCancel(w, at);
    var ready := ProcessCancellations(w, at);
    assert ready == w;
    WillStart(w, i, m.clock, m.lost);
    var n := NextIsFirstQueued(w, m.clock, m.lost);
    FirstQueuedAt(w.store.jobs, i, n);
  }

  // ---- the first job on the GPU, the second waiting -----------------------------------------

  const STARTED: seq<Step> := OPENING + [Poll(PollAt(0, FIRST_CONTAINER))]

  function RunningJob(): Job {
    Started(QueuedJob(FIRST_JOB, FIRST_USER, 0), 0).(containerId := Some(FIRST_CONTAINER))
  }

  ghost predicate Underway(m: Moment) {
    && Sound(m) && m.clock == 0 && m.lost == []
    && m.world.users.Keys == {FIRST_USER, SECOND_USER}
    && m.world.containers == map[FIRST_CONTAINER := Container(Some(FIRST_JOB), Running)]
    && m.world.store.jobs == [RunningJob(), QueuedJob(SECOND_JOB, SECOND_USER, 0)]
  }

  lemma AfterStart()
    ensures EnabledRun(Begin(0), STARTED) && Underway(Run(Begin(0), STARTED))
  {
    hide Inv, Run, EnabledRun, StartJob, ProcessCancellations, ListByStatuses;
    AfterOpening();
    var m, inp := Run(Begin(0), OPENING), PollAt(0, FIRST_CONTAINER);
    RunAppend(Begin(0), OPENING, Poll(inp));
    StepKeeps(m, Poll(inp));
    HeadStarts(m, 0, 0);
    Structure(m.world, m.clock, m.lost);
    StartJobs(m.world, 0, inp);
    StartTouches(m.world, 0, inp);
    StartCharges(m.world, m.world.store.jobs[0], inp);
  }

  // ---- a sweep leaves a container running ---------------------------------------------------

  const LATE: Time := INITIALIZING_TIMEOUT + SECOND

  /** Two users, two jobs, one sweep: two training containers run at once. */
  lemma TwoContainers()
    ensures EnabledRun(Begin(0), TWO_STARTS)
      && RunningLabelled(Run(Begin(0), TWO_STARTS).world.containers) >= {FIRST_CONTAINER, SECOND_CONTAINER}
      && FIRST_CONTAINER != SECOND_CONTAINER
  {
    hide Inv, Run, EnabledRun, PollTick;
    AfterStart();
    var m, inp := Run(Begin(0), STARTED), PollAt(LATE, SECOND_CONTAINER);
    RunAppend(Begin(0), STARTED, TimeoutSweep(LATE));
    RunAppend(Begin(0), STARTED + [TimeoutSweep(LATE)], Poll(inp));
    TimeoutLeavesTwoRunning(m, LATE, 0, 1, inp);
  }

  lemma SecondWaits()
    ensures EnabledRun(Begin(0), STARTED + [TimeoutSweep(LATE)])
    ensures var m := Run(Begin(0), STARTED + [TimeoutSweep(LATE)]); var jobs := m.world.store.jobs;
      && Sound(m) && m.clock == LATE && m.lost == [] && |jobs| == 2
      && jobs[0].status == Failed && !jobs[0].cancelRequested && jobs[0].sourceRef == RepoOf(FIRST_USER)
      && jobs[0].containerId == Some(FIRST_CONTAINER)
      && jobs[1] == QueuedJob(SECOND_JOB, SECOND_USER, 0)
  {
    hide Inv, Run, EnabledRun;
    AfterStart();
    RunAppend(Begin(0), STARTED, TimeoutSweep(LATE));
    StepKeeps(Run(Begin(0), STARTED), TimeoutSweep(LATE));
    SweptJobs(Run(Begin(0), STARTED).world, LATE);
  }

  lemma FinishedHeadStays(m: Moment, step: Step)
    requires Sound(m) && Enabled(m, step) && m.world.store.jobs != [] && m.world.store.jobs[0].status !in ACTIVE
    ensures Next(m, step).world.store.jobs != [] && Next(m, step).world.store.jobs[0] == m.world.store.jobs[0]
  {
    hide Inv, Next, Enabled, NewStarts;
    StepGrows(m, step);
    assert JobGrows(m.world.store.jobs[0], Next(m, step).world.store.jobs[0]);
  }

  const TWO_STARTS: seq<Step> := STARTED + [TimeoutSweep(LATE)] + [Poll(PollAt(LATE, SECOND_CONTAINER))]

  /** The failed job is never written again. */
  lemma FirstJobAfter()
    ensures var jobs := Run(Begin(0), TWO_STARTS).world.store.jobs;
      && jobs != [] && jobs[0].status == Failed
      && jobs[0].sourceRef == RepoOf(FIRST_USER) && jobs[0].containerId == Some(FIRST_CONTAINER)
  {
    hide Sound, Run, EnabledRun, Next, Enabled, RunningLabelled;
    TwoContainers();
    SecondWaits();
    var m, poll := Run(Begin(0), STARTED + [TimeoutSweep(LATE)]), Poll(PollAt(LATE, SECOND_CONTAINER));
    RunAppend(Begin(0), STARTED + [TimeoutSweep(LATE)], poll);
    FinishedHeadStays(m, poll);
  }

  // ---- a late write revives a finished job --------------------------------------------------

  const FINISH: MonitorInputs := MonitorInputs(None, 0, 0, 0, 0, 0, "", None, [true], 0)

  const FINISHING: seq<Step> := [ContainerStops(FIRST_CONTAINER, 0)] + [Monitor(FINISH)]

  lemma AfterFinish(m: Moment)
    requires Underway(m)
    ensures EnabledRun(m, FINISHING) && Sound(Run(m, FINISHING))
    ensures var jobs := Run(m, FINISHING).world.store.jobs;
      |jobs| == 2 && jobs[0].id == FIRST_JOB && jobs[0].status == Completed
  {
    hide Inv, Run, EnabledRun, MonitorTick;
    var stop := ContainerStops(FIRST_CONTAINER, 0);
    TwoSteps(m, stop, Monitor(FINISH));
    var stopped := Next(m, stop);
    StepKeeps(m, stop);
    StepKeeps(stopped, Monitor(FINISH));
    SameLength(stopped, Monitor(FINISH));
    StepGrows(stopped, Monitor(FINISH));
    assert JobGrows(stopped.world.store.jobs[0], Next(stopped, Monitor(FINISH)).world.store.jobs[0]);
    assert FINISH.uploads[0];
    ExitDecides(stopped, FINISH, 0, 0);
  }

  lemma TwoSteps(m: Moment, first: Step, second: Step)
    ensures Run(m, [first] + [second]) == Next(Next(m, first), second)
    ensures EnabledRun(m, [first] + [second]) <==> Enabled(m, first) && Enabled(Next(m, first), second)
  {
    hide Next, Enabled;
    assert Run(m, []) == m && EnabledRun(m, []);
    assert [first] == [] + [first];
    RunAppend(m, [], first);
    RunAppend(m, [first], second);
  }

  /** The owner's request reads the running job, the job completes, the request is written back: the job is active
      again. */
  lemma CompletedJobRevived()
    ensures var m := Run(Begin(0), STARTED);
      && EnabledRun(Begin(0), STARTED) && EnabledRun(m, FINISHING)
      && m.world.store.jobs != []
      && (var s, stale := Run(m, FINISHING).world.store, JobStateMachine.RequestCancel(m.world.store.jobs[0], 0);
          && stale.Ok? && s.jobs != [] && s.jobs[0].status == Completed
          && Put(s, stale.value).jobs != [] && Put(s, stale.value).jobs[0].status in ACTIVE
          && !LegalTrace(Put(s, stale.value).traces[0]))
  {
    hide Inv, Run, EnabledRun, Put, LegalTrace;
    AfterStart();
    var m := Run(Begin(0), STARTED);
    AfterFinish(m);
    StaleWriteIsLegalIff(m, FINISHING, 0, 0);
  }

  // ---- a slow upload completes a failed job -------------------------------------------------

  const STOPPED: seq<Step> := STARTED + [ContainerStops(FIRST_CONTAINER, 0)]

  /** The container exits with code 0, a sweep fails the job while its checkpoint is still being uploaded,
      the worker writes it as completed. */
  lemma FailedJobCompleted()
    ensures var m := Run(Begin(0), STOPPED);
      && EnabledRun(Begin(0), STOPPED) && m.world.store.jobs != [] && Enabled(m, Monitor(FINISH))
      && (var from, sweep := WhileFinishing(m, FINISH, 0), [TimeoutSweep(TRAINING_TIMEOUT + 1)];
          var s, completed :=
            Run(from, sweep).world.store, Finished(ToFinish(m, FINISH, 0), None, TRAINING_TIMEOUT + 1);
          && EnabledRun(from, sweep)
          && s.jobs != [] && s.jobs[0].status == Failed
          && Put(s, completed).jobs != [] && Put(s, completed).jobs[0].status == Completed
          && !LegalTrace(Put(s, completed).traces[0]))
  {
    hide Inv, Run, EnabledRun, Put, LegalTrace, WhileFinishing;
    AfterStart();
    var started, stop := Run(Begin(0), STARTED), ContainerStops(FIRST_CONTAINER, 0);
    RunAppend(Begin(0), STARTED, stop);
    StepKeeps(started, stop);
    var m, sweep := Run(Begin(0), STOPPED), TimeoutSweep(TRAINING_TIMEOUT + 1);
    FinishingIsSound(m, FINISH, 0);
    var from := WhileFinishing(m, FINISH, 0);
    FinishingClock(m, FINISH, 0);
    OneStep(from, sweep);
    assert Outlives(sweep, 0, TRAINING_TIMEOUT) && sweep in [sweep];
    LateFinishIsLegalIff(m, FINISH, [sweep], 0, None, TRAINING_TIMEOUT + 1);
  }

  lemma FinishingClock(m: Moment, inp: MonitorInputs, i: nat)
    requires i < |m.world.store.jobs|
    ensures WhileFinishing(m, inp, i).clock == inp.closingAt
  {
  }

  // ---- a slow fetch gives one user two active jobs ------------------------------------------

  const THIRD_JOB: JobId := "e"

  const MEANWHILE: seq<Step> := [TimeoutSweep(LATE)] + [CreateAt(FIRST_USER, THIRD_JOB, LATE)]

  /** A sweep fails the job while its dataset is still being fetched, its owner submits another, the worker attaches. */
  lemma TwoActiveJobs()
    ensures var from := WhileFetching(Run(Begin(0), OPENING), PollAt(0, FIRST_CONTAINER));
      && EnabledRun(Begin(0), OPENING) && EnabledRun(from, MEANWHILE)
      && !OneActivePerUser(Put(Run(from, MEANWHILE).world.store, RunningJob()).jobs)
  {
    hide Inv, Run, EnabledRun, WhileFetching, Put;
    AfterOpening();
    var from := WhileFetching(Run(Begin(0), OPENING), PollAt(0, FIRST_CONTAINER));
    FetchingWorld(Run(Begin(0), OPENING));
    AfterSweep(from);
    TwoSteps(from, TimeoutSweep(LATE), CreateAt(FIRST_USER, THIRD_JOB, LATE));
    var swept := Next(from, TimeoutSweep(LATE));
    Admitted(swept, FIRST_USER, THIRD_JOB, LATE);
    var n := Run(from, MEANWHILE);
    Structure(n.world, n.clock, n.lost);
    PutReplaces(n.world.store, 0, RunningJob());
    var jobs := Put(n.world.store, RunningJob()).jobs;
    assert jobs[0].userId == jobs[2].userId && jobs[0].status in ACTIVE && jobs[2].status in ACTIVE;
  }

  ghost predicate Preparing(m: Moment) {
    && Sound(m) && m.clock == 0
    && m.world.users == map[FIRST_USER := User(FIRST_USER, 1, Some(0)), SECOND_USER := User(SECOND_USER, 0, None)]
    && m.world.dirs == {}
    && m.world.store.jobs == [Started(QueuedJob(FIRST_JOB, FIRST_USER, 0), 0), QueuedJob(SECOND_JOB, SECOND_USER, 0)]
  }

  lemma FetchingWorld(m: Moment)
    requires Opened(m)
    ensures Preparing(WhileFetching(m, PollAt(0, FIRST_CONTAINER)))
  {
    hide Inv, ListByStatuses, ProcessCancellations;
    HeadStarts(m, 0, 0);
    FetchingIsSound(m, PollAt(0, FIRST_CONTAINER), 0);
    Structure(m.world, m.clock, m.lost);
    CrashedStartJobs(m.world, 0, PollAt(0, FIRST_CONTAINER), AfterCharge);
  }

  lemma AfterSweep(m: Moment)
    requires Preparing(m)
    ensures var n := Next(m, TimeoutSweep(LATE));
      && Enabled(m, TimeoutSweep(LATE)) && Sound(n) && n.clock == LATE
      && n.world.users == m.world.users && n.world.dirs == m.world.dirs
      && |n.world.store.jobs| == 2
      && n.world.store.jobs[0].id == FIRST_JOB && n.world.store.jobs[0].status == Failed
      && n.world.store.jobs[1] == m.world.store.jobs[1]
  {
    hide Inv;
    StepKeeps(m, TimeoutSweep(LATE));
    SweptJobs(m.world, LATE);
  }

  // ---- crashes between the two writes: more starts than the daily maximum --------------------

  const CYCLE: Time := INITIALIZING_TIMEOUT + SECOND

  function NthJob(n: nat): JobId {
    seq(n, (k: nat) => 'x')
  }

  function NthCycle(n: nat): seq<Step> {
    [CreateAt(FIRST_USER, NthJob(n), n * CYCLE)]
    + [CrashDuringPoll(PollAt(n * CYCLE, FIRST_CONTAINER), AfterMark)]
    + [Restart]
    + [TimeoutSweep((n + 1) * CYCLE)]
  }

  function Cycles(n: nat): seq<Step> {
    if n == 0 then [Register(FIRST_USER)] else Cycles(n - 1) + NthCycle(n - 1)
  }

  /** n uncharged and k charged starts on record on the first day. */
  ghost predicate StartedSoFar(m: Moment, n: nat, k: nat) {
    && Sound(m) && m.clock == n * CYCLE
    && m.world.users == map[FIRST_USER := User(FIRST_USER, k, if k == 0 then None else Some(0))]
    && m.world.containers == map[] && m.world.dirs == {}
    && (forall job :: job in m.world.store.jobs ==> job.status == Failed && !job.cancelRequested && |job.id| < n + k)
    && StartsOn(m.world.store.starts, FIRST_USER, 0) == n + k
    && StartsOn(m.lost, FIRST_USER, 0) == n
  }

  const CYCLES_IN_A_DAY: nat := 280

  /** The n-th job has been created, marked as started, and forgotten by the crashed worker. */
  ghost predicate Forgotten(m: Moment, n: nat) {
    && Sound(m) && m.clock == n * CYCLE
    && m.world.users == map[FIRST_USER := User(FIRST_USER, 0, None)]
    && m.world.containers == map[] && m.world.dirs == {}
    && (forall job :: job in m.world.store.jobs ==>
          ((job.status == Failed || (job.status == Initializing && job.heartbeatAt == Some(n * CYCLE)))
           && !job.cancelRequested && |job.id| < n + 1))
    && StartsOn(m.world.store.starts, FIRST_USER, 0) == n + 1
    && StartsOn(m.lost, FIRST_USER, 0) == n + 1
  }

  /** The n-th job waits behind failed ones. */
  ghost predicate InLine(m: Moment, n: nat) {
    && Sound(m) && m.clock == n * CYCLE
    && m.world.users == map[FIRST_USER := User(FIRST_USER, 0, None)]
    && m.world.containers == map[] && m.world.dirs == {}
    && m.world.store.jobs != []
    && (var last := |m.world.store.jobs| - 1;
        && m.world.store.jobs[last] == QueuedJob(NthJob(n), FIRST_USER, n * CYCLE)
        && forall k :: 0 <= k < last ==>
             m.world.store.jobs[k].status == Failed && !m.world.store.jobs[k].cancelRequested
             && |m.world.store.jobs[k].id| < n)
    && StartsOn(m.world.store.starts, FIRST_USER, 0) == n
    && StartsOn(m.lost, FIRST_USER, 0) == n
  }

  lemma CycleCreates(m: Moment, n: nat)
    requires StartedSoFar(m, n, 0)
    ensures var create := CreateAt(FIRST_USER, NthJob(n), n * CYCLE); Enabled(m, create) && InLine(Next(m, create), n)
  {
    hide Inv, Next, Enabled, StartsOn;
    Admitted(m, FIRST_USER, NthJob(n), n * CYCLE);
  }

  lemma CycleForgets(m: Moment, n: nat)
    requires InLine(m, n) && n < CYCLES_IN_A_DAY
    ensures var crash := CrashDuringPoll(PollAt(n * CYCLE, FIRST_CONTAINER), AfterMark);
      Enabled(m, crash) && Forgotten(Next(m, crash), n)
  {
    hide Inv, CrashedPoll, ProcessCancellations, ListByStatuses, StartsOn, LostCharge;
    var inp, i := PollAt(n * CYCLE, FIRST_CONTAINER), |m.world.store.jobs| - 1;
    HeadStarts(m, n * CYCLE, i);
    MarkedOnly(m, inp, i);
    StepKeeps(m, CrashDuringPoll(inp, AfterMark));
  }

  lemma CycleEnds(m: Moment, n: nat)
    requires Forgotten(m, n)
    ensures var restarted := Next(m, Restart);
      && Enabled(m, Restart) && Enabled(restarted, TimeoutSweep((n + 1) * CYCLE))
      && StartedSoFar(Next(restarted, TimeoutSweep((n + 1) * CYCLE)), n + 1, 0)
  {
    hide Inv, StartsOn;
    var restarted, sweep := Next(m, Restart), TimeoutSweep((n + 1) * CYCLE);
    StepKeeps(m, Restart);
    StepKeeps(restarted, sweep);
    SweptJobs(restarted.world, sweep.at);
    StepGrows(restarted, sweep);
  }

  lemma OneMoreCycle(m: Moment, n: nat)
    requires StartedSoFar(m, n, 0) && n < CYCLES_IN_A_DAY
    ensures EnabledRun(m, NthCycle(n)) && StartedSoFar(Run(m, NthCycle(n)), n + 1, 0)
  {
    hide Run, EnabledRun, Next, Enabled, StartedSoFar, InLine, Forgotten;
    var create := CreateAt(FIRST_USER, NthJob(n), n * CYCLE);
    var crash := CrashDuringPoll(PollAt(n * CYCLE, FIRST_CONTAINER), AfterMark);
    CycleCreates(m, n);
    CycleForgets(Next(m, create), n);
    CycleEnds(Next(Next(m, create), crash), n);
    FourSteps(m, create, crash, Restart, TimeoutSweep((n + 1) * CYCLE));
  }

  lemma MarkedOnly(m: Moment, inp: PollInputs, i: nat)
    requires Sound(m) && PollEnabled(m, inp) && i < |m.world.store.jobs|
    requires ProcessCancellations(m.world, inp.cancelAt) == m.world
      && NextToStart(m.world) == Some(m.world.store.jobs[i])
    ensures var job, after := m.world.store.jobs[i], CrashedPoll(m.world, inp, AfterMark);
      && after == m.world.(store := after.store)
      && after.store.jobs == m.world.store.jobs[i := Started(job, inp.startAt)]
      && StartsOn(after.store.starts, job.userId, DateOf(inp.startAt))
        == StartsOn(m.world.store.starts, job.userId, DateOf(inp.startAt)) + 1
      && StartsOn(m.lost + LostCharge(m.world, inp, AfterMark), job.userId, DateOf(inp.startAt))
        == StartsOn(m.lost, job.userId, DateOf(inp.startAt)) + 1
  {
    hide Inv, ProcessCancellations, ListByStatuses, StartsOn;
    OneMoreStart(m.lost, StartOf(Started(m.world.store.jobs[i], inp.startAt)));
    Structure(m.world, m.clock, m.lost);
    var n := NextIsFirstQueued(m.world, m.clock, m.lost);
    IndexOfDistinct(m.world.store.jobs, i);
    IndexOfDistinct(m.world.store.jobs, n);
    CrashStartsForFree(m, inp, m.world.store.jobs[i]);
    CrashedStartJobs(m.world, i, inp, AfterMark);
  }

  lemma FourSteps(m: Moment, a: Step, b: Step, c: Step, d: Step)
    ensures Run(m, [a] + [b] + [c] + [d]) == Next(Next(Next(Next(m, a), b), c), d)
    ensures EnabledRun(m, [a] + [b] + [c] + [d]) <==>
      (Enabled(m, a) && Enabled(Next(m, a), b) && Enabled(Next(Next(m, a), b), c)
       && Enabled(Next(Next(Next(m, a), b), c), d))
  {
    hide Next, Enabled;
    TwoSteps(m, a, b);
    RunAppend(m, [a] + [b], c);
    RunAppend(m, [a] + [b] + [c], d);
  }

  /** With a crash in every start, one user gets as many starts in a day as fit into it. */
  lemma {:induction false} FreeStarts(n: nat)
    requires n <= CYCLES_IN_A_DAY
    ensures EnabledRun(Begin(0), Cycles(n))
    ensures var w := Run(Begin(0), Cycles(n)).world;
      FIRST_USER in w.users && w.users[FIRST_USER].dailyQuotaUsed == 0 && StartsOn(w.store.starts, FIRST_USER, 0) == n
    ensures StartedSoFar(Run(Begin(0), Cycles(n)), n, 0)
  {
    hide Inv, Run, EnabledRun, StartsOn;
    if n == 0 {
      RegisteredOnly();
    } else {
      FreeStarts(n - 1);
      OneMoreCycle(Run(Begin(0), Cycles(n - 1)), n - 1);
      RunConcat(Begin(0), Cycles(n - 1), NthCycle(n - 1));
    }
  }

  lemma RegisteredOnly()
    ensures EnabledRun(Begin(0), Cycles(0)) && StartedSoFar(Run(Begin(0), Cycles(0)), 0, 0)
  {
    EmptyInv(0);
    OneStep(Begin(0), Register(FIRST_USER));
    StepKeeps(Begin(0), Register(FIRST_USER));
  }

  /** A start whose dataset cannot be fetched: charged and over at once. */
  function ChargedStart(n: nat, k: nat): seq<Step> {
    [CreateAt(FIRST_USER, NthJob(n + k), n * CYCLE)] + [Poll(FailingPoll(n * CYCLE))]
  }

  function FailingPoll(at: Time): PollInputs {
    PollInputs(at, at, FetchFailed("gone"), LaunchFailed("never asked"), at)
  }

  function CyclesAndStarts(n: nat, k: nat): seq<Step> {
    if k == 0 then Cycles(n) else CyclesAndStarts(n, k - 1) + ChargedStart(n, k - 1)
  }

  lemma PollCharges(m: Moment, n: nat, k: nat)
    requires Sound(m) && m.clock == n * CYCLE && n <= CYCLES_IN_A_DAY && m.world.store.jobs != []
    requires m.world.users == map[FIRST_USER := User(FIRST_USER, k, if k == 0 then None else Some(0))]
    requires m.world.containers == map[] && m.world.dirs == {}
    requires var i := |m.world.store.jobs| - 1;
      && m.world.store.jobs[i] == QueuedJob(NthJob(n + k), FIRST_USER, n * CYCLE)
      && forall j :: 0 <= j < i ==> m.world.store.jobs[j].status == Failed && !m.world.store.jobs[j].cancelRequested
    ensures var poll := Poll(FailingPoll(n * CYCLE)); var after := Next(m, poll);
      && Enabled(m, poll) && Sound(after) && after.clock == m.clock && after.lost == m.lost
      && after.world.users == map[FIRST_USER := User(FIRST_USER, k + 1, Some(0))]
      && after.world.containers == map[] && after.world.dirs == {}
      && after.world.store.jobs == m.world.store.jobs[|m.world.store.jobs| - 1 :=
           StartResult(m.world.store.jobs[|m.world.store.jobs| - 1], FailingPoll(n * CYCLE))]
      && StartsOn(after.world.store.starts, FIRST_USER, 0) == StartsOn(m.world.store.starts, FIRST_USER, 0) + 1
  {
    hide Inv, ProcessCancellations, ListByStatuses, StartsOn, Put;
    var inp, i := FailingPoll(n * CYCLE), |m.world.store.jobs| - 1;
    HeadStarts(m, n * CYCLE, i);
    Structure(m.world, m.clock, m.lost);
    StepKeeps(m, Poll(inp));
    StepGrows(m, Poll(inp));
    StartJobs(m.world, i, inp);
    StartCharges(m.world, m.world.store.jobs[i], inp);
    OneMoreStart(m.world.store.starts, StartOf(Started(m.world.store.jobs[i], inp.startAt)));
  }

  lemma OneMoreCharged(m: Moment, n: nat, k: nat)
    requires StartedSoFar(m, n, k) && n <= CYCLES_IN_A_DAY && k < MAX_DAILY_JOBS
    ensures EnabledRun(m, ChargedStart(n, k)) && StartedSoFar(Run(m, ChargedStart(n, k)), n, k + 1)
  {
    hide Inv, Run, EnabledRun, PollTick, StartsOn;
    var create := CreateAt(FIRST_USER, NthJob(n + k), n * CYCLE);
    Admitted(m, FIRST_USER, NthJob(n + k), n * CYCLE);
    PollCharges(Next(m, create), n, k);
    TwoSteps(m, create, Poll(FailingPoll(n * CYCLE)));
  }

  lemma {:induction false} ChargedAfterFree(n: nat, k: nat)
    requires n <= CYCLES_IN_A_DAY && k <= MAX_DAILY_JOBS
    ensures EnabledRun(Begin(0), CyclesAndStarts(n, k))
    ensures StartedSoFar(Run(Begin(0), CyclesAndStarts(n, k)), n, k)
  {
    hide Inv, Run, EnabledRun, StartedSoFar;
    if k == 0 {
      FreeStarts(n);
    } else {
      ChargedAfterFree(n, k - 1);
      OneMoreCharged(Run(Begin(0), CyclesAndStarts(n, k - 1)), n, k - 1);
      RunConcat(Begin(0), CyclesAndStarts(n, k - 1), ChargedStart(n, k - 1));
    }
  }

  /** The bound on a user's starts is reached: n swallowed charges and 10 + n starts on one day, for every n that
      fits. */
  lemma BoundIsReached(n: nat)
    requires n <= CYCLES_IN_A_DAY
    ensures var steps := CyclesAndStarts(n, MAX_DAILY_JOBS);
      && EnabledRun(Begin(0), steps)
      && StartsOn(Swallowed(Begin(0), steps), FIRST_USER, 0) == n
      && StartsOn(Run(Begin(0), steps).world.store.starts, FIRST_USER, 0) == MAX_DAILY_JOBS + n
  {
    hide Inv, Run, EnabledRun, Swallowed, StartsOn;
    ChargedAfterFree(n, MAX_DAILY_JOBS);
    LostIsSwallowed(Begin(0), CyclesAndStarts(n, MAX_DAILY_JOBS));
    assert [] + Swallowed(Begin(0), CyclesAndStarts(n, MAX_DAILY_JOBS)) ==
      Swallowed(Begin(0), CyclesAndStarts(n, MAX_DAILY_JOBS));
  }

  /** In particular one crash is enough for eleven starts on one day, against a maximum of ten. */
  lemma ElevenStarts()
    ensures var steps := CyclesAndStarts(1, MAX_DAILY_JOBS);
      EnabledRun(Begin(0), steps) && StartsOn(Run(Begin(0), steps).world.store.starts, FIRST_USER, 0) > MAX_DAILY_JOBS
  {
    hide Run, EnabledRun, StartsOn, CyclesAndStarts;
    BoundIsReached(1);
  }

  // ---- a crash after the first write: the queue stands still ---------------------------------

  const STALLED: seq<Step> := OPENING + [CrashDuringPoll(PollAt(0, FIRST_CONTAINER), AfterCharge)]

  function ReadAt(at: Time): MonitorInputs {
    MonitorInputs(None, at, at, at, at, at, "", None, [], 0)
  }

  /** Five minutes of a working service: a sweep, a poll, a restart, a monitor read. */
  function IdleRound(at: Time): seq<Step> {
    [TimeoutSweep(at)] + [Poll(PollAt(at, SECOND_CONTAINER))] + [Restart]
    + [Monitor(ReadAt(at))]
  }

  function IdleRounds(n: nat): seq<Step> {
    if n == 0 then [] else IdleRounds(n - 1) + IdleRound(n * INITIALIZING_TIMEOUT)
  }

  ghost predicate StandsStill(m: Moment, n: nat) {
    && Sound(m) && m.clock == n * INITIALIZING_TIMEOUT
    && Stalled(m.world.store.jobs, 0) && m.world.store.jobs[0].heartbeatAt == Some(m.clock)
    && SECOND_CONTAINER !in m.world.containers
    && |m.world.store.starts| == 1
  }

  /** A step that touches neither the stalled job nor the clock's reading of its heartbeat. */
  lemma StandsBy(m: Moment, step: Step)
    requires Sound(m) && Enabled(m, step) && Stalled(m.world.store.jobs, 0)
    requires step.TimeoutSweep? || step.Poll? || step.Restart?
    requires step.TimeoutSweep? && m.world.store.jobs[0].heartbeatAt.Some? ==>
      step.at - m.world.store.jobs[0].heartbeatAt.value <= INITIALIZING_TIMEOUT
    ensures var n := Next(m, step);
      && Sound(n) && n.world.store.jobs != [] && n.world.store.jobs[0] == m.world.store.jobs[0]
      && n.world.store.starts == m.world.store.starts && n.world.containers.Keys == m.world.containers.Keys
  {
    hide Inv, PollTick, Sweep, Reconcile, NewStarts;
    StepKeeps(m, step);
    BusyUntouched(m, step, 0);
    StepGrows(m, step);
    if step.Poll? {
      IdlePollKeepsContainers(m, step.poll);
    } else if step.Restart? {
      ReconcileRestores(m);
    } else {
      SweepKeepsContainers(m.world, step.at);
    }
  }

  lemma IdlePollKeepsContainers(m: Moment, inp: PollInputs)
    requires Sound(m) && PollEnabled(m, inp) && Stalled(m.world.store.jobs, 0)
    ensures PollTick(m.world, inp).world.containers.Keys == m.world.containers.Keys
  {
    hide Inv, ListByStatuses;
    var ready := ProcessCancellations(m.world, inp.cancelAt);
    CancelledJobs(m.world, inp.cancelAt);
    CancellationsKeep(m.world, inp.cancelAt, m.clock, m.lost);
    NothingNext(ready, m.clock, m.lost, 0);
  }

  lemma OneMoreRound(m: Moment, n: nat)
    requires StandsStill(m, n)
    ensures var steps := IdleRound((n + 1) * INITIALIZING_TIMEOUT);
      EnabledRun(m, steps) && StandsStill(Run(m, steps), n + 1)
  {
    hide Inv, Run, EnabledRun, PollTick, Sweep, Reconcile, MonitorTick;
    var at := (n + 1) * INITIALIZING_TIMEOUT;
    var sweep, poll := TimeoutSweep(at), Poll(PollAt(at, SECOND_CONTAINER));
    var read := Monitor(ReadAt(at));
    StandsBy(m, sweep);
    var swept := Next(m, sweep);
    StandsBy(swept, poll);
    var polled := Next(swept, poll);
    StandsBy(polled, Restart);
    var restarted := Next(polled, Restart);
    StepKeeps(restarted, read);
    MonitorStalls(restarted, ReadAt(at), 0);
    StepGrows(restarted, read);
    ReadKeepsContainers(restarted, ReadAt(at));
    FourSteps(m, sweep, poll, Restart, read);
  }

  lemma ReadKeepsContainers(m: Moment, inp: MonitorInputs)
    ensures MonitorTick(m.world, inp).world.containers == m.world.containers
  {
  }

  /** For as long as one likes sweeps come every five minutes, the worker polls, restarts and reads, and the job of
      the crashed start neither ends nor lets any other start. */
  lemma {:induction false} StandsStillFor(n: nat)
    ensures EnabledRun(Begin(0), STALLED + IdleRounds(n))
    ensures StandsStill(Run(Begin(0), STALLED + IdleRounds(n)), n)
  {
    hide Inv, Run, EnabledRun, StandsStill;
    if n == 0 {
      assert STALLED + [] == STALLED;
      AfterCrash();
    } else {
      StandsStillFor(n - 1);
      var m := Run(Begin(0), STALLED + IdleRounds(n - 1));
      OneMoreRound(m, n - 1);
      RunConcat(Begin(0), STALLED + IdleRounds(n - 1), IdleRound(n * INITIALIZING_TIMEOUT));
      assert STALLED + IdleRounds(n) == STALLED + IdleRounds(n - 1) + IdleRound(n * INITIALIZING_TIMEOUT);
    }
  }

  lemma AfterCrash()
    ensures EnabledRun(Begin(0), STALLED) && StandsStill(Run(Begin(0), STALLED), 0)
  {
    hide Inv, Run, EnabledRun, CrashedStart, ProcessCancellations, ListByStatuses, Put;
    AfterOpening();
    var m, inp := Run(Begin(0), OPENING), PollAt(0, FIRST_CONTAINER);
    var crash := CrashDuringPoll(inp, AfterCharge);
    RunAppend(Begin(0), OPENING, crash);
    StepKeeps(m, crash);
    HeadStarts(m, 0, 0);
    Structure(m.world, m.clock, m.lost);
    CrashedStartJobs(m.world, 0, inp, AfterCharge);
    CrashGrows(m.world, inp, AfterCharge, m.clock, m.lost);
    CrashTouches(m.world, 0, inp, AfterCharge);
  }
}
