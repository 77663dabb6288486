/** Every call and every tick keeps the invariant; and what each leaves in the store. */
module Preservation {
  import opened Models
  import opened JobStateMachine
  import opened JobStore
  import opened Quota
  import opened ControlPlane
  import opened Invariants

  // ---- batches ------------------------------------------------------------------------------

  lemma BatchEvolves(s: Store, b: Batch)
    requires forall i :: 0 <= i < |s.jobs| ==> TraceOk(s.traces[i], s.jobs[i].status)
    ensures Evolves(s, Rewrite(s, b)) && NoneStarts(s, Rewrite(s, b))
    ensures forall i :: 0 <= i < |s.jobs| ==> Rewrite(s, b).jobs[i] == Applied(b, s.jobs[i])
  {
  }

  lemma CancellationsKeep(w: World, at: Time, now: Time, lost: seq<Start>)
    requires Inv(w, now, lost)
    ensures Inv(ProcessCancellations(w, at), now, lost)
  {
    hide Inv, Rewrite, Evolves, NoneStarts;
    var v := ProcessCancellations(w, at);
    Structure(w, now, lost);
    BatchEvolves(w.store, Cancellations(at));
    forall i | 0 <= i < |v.store.jobs|
      ensures JobOk(v.store.jobs[i], v, now)
    {
      JobIsOk(w, i, now, lost);
      CancelledIsOk(w, at, now, i);
    }
    Evolution(w, v, now, lost);
  }

  lemma CancelledIsOk(w: World, at: Time, now: Time, i: nat)
    requires DistinctIds(w.store.jobs) && i < |w.store.jobs| && JobOk(w.store.jobs[i], w, now)
    ensures JobOk(Applied(Cancellations(at), w.store.jobs[i]), ProcessCancellations(w, at), now)
  {
  }

  lemma SweepKeeps(w: World, now: Time, lost: seq<Start>)
    requires Inv(w, now, lost)
    ensures Inv(Sweep(w, now), now, lost)
  {
    var v := Sweep(w, now);
    BatchEvolves(w.store, Timeouts(now));
    forall i | 0 <= i < |v.store.jobs|
      ensures JobOk(v.store.jobs[i], v, now)
    {
      assert JobOk(w.store.jobs[i], w, now);
    }
    Evolution(w, v, now, lost);
  }

  // ---- surroundings -------------------------------------------------------------------------

  /** The Docker host or the directory of one job changes while every document stays. */
  lemma Surroundings(w: World, v: World, now: Time, lost: seq<Start>)
    requires Inv(w, now, lost)
    requires v == w.(containers := v.containers, dirs := v.dirs) && LabelsKept(w.containers, v.containers)
    requires forall i :: 0 <= i < |w.store.jobs| ==> DirOk(w.store.jobs[i], v.dirs)
    ensures Inv(v, now, lost)
  {
  }

  // ---- starting a job -----------------------------------------------------------------------

  /** Marking the head of the queue: the start is on record, its charge still outstanding. */
  lemma MarkStartedKeeps(w: World, i: nat, now: Time, lost: seq<Start>)
    requires Inv(w, now, lost) && i < |w.store.jobs| && w.store.jobs[i].status == Queued
    requires forall k :: 0 <= k < |w.store.jobs| ==> w.store.jobs[k].status !in ON_GPU
    ensures var job := Started(w.store.jobs[i], now);
      && Inv(MarkStarted(w, w.store.jobs[i], now), now, lost + [StartOf(job)])
      && MarkStarted(w, w.store.jobs[i], now).store.jobs == w.store.jobs[i := job]
  {
    hide QuotaOk, StartsOk, Put;
    var s, job := w.store, Started(w.store.jobs[i], now);
    var v := MarkStarted(w, s.jobs[i], now);
    PutReplaces(s, i, job);
    forall k | 0 <= k < |s.jobs|
      ensures v.store.traces[k] == Extend(s.traces[k], v.store.jobs[k].status)
      ensures JobOk(v.store.jobs[k], v, now)
    {
      assert TraceOk(s.traces[k], s.jobs[k].status);
      assert JobOk(s.jobs[k], w, now);
    }
    EvolvedStore(s, v.store, w.users.Keys, now);
    MarkedStarts(s, i, job, w.users.Keys, now);
    MarkedQuota(w.users, s.starts, lost, StartOf(job), now);
  }

  lemma MarkedQuota(users: map<UserId, User>, starts: seq<Start>, lost: seq<Start>, start: Start, now: Time)
    requires QuotaOk(users, starts, lost, now) && start.userId in users
    ensures QuotaOk(users, starts + [start], lost + [start], now)
  {
    OneMoreStart(starts, start);
    OneMoreStart(lost, start);
    forall u, d | u in users
      ensures ChargedOn(users[u], starts + [start], lost + [start], u, d)
    {
      assert ChargedOn(users[u], starts, lost, u, d);
    }
  }

  lemma MarkedStarts(s: Store, i: nat, job: Job, userIds: set<UserId>, now: Time)
    requires StoreOk(s, userIds, now) && StartsOk(s, userIds) && i < |s.jobs|
    requires s.jobs[i].status == Queued && job.status == Initializing
    requires job.id == s.jobs[i].id && job.userId == s.jobs[i].userId
    ensures StartsOk(Put(s, job), userIds)
  {
    hide StartsOf, Put;
    var t := Put(s, job);
    PutReplaces(s, i, job);
    OneMoreStart(s.starts, StartOf(job));
    forall k | 0 <= k < |t.starts|
      ensures Known(t.jobs, t.starts[k].jobId)
    {
      if k == |s.starts| {
        assert t.jobs[i].id == t.starts[k].jobId;
      } else {
        assert Known(s.jobs, s.starts[k].jobId);
        var j :| 0 <= j < |s.jobs| && s.jobs[j].id == s.starts[k].jobId;
        assert t.jobs[j].id == t.starts[k].jobId;
      }
    }
    forall k | 0 <= k < |t.jobs|
      ensures StartsOf(t.starts, t.jobs[k].id) == if WasStarted(t.traces[k]) then 1 else 0
    {
      QueuedTrace(s.traces[i]);
      assert TraceOk(s.traces[i], s.jobs[i].status);
      assert StartsOf(s.starts, s.jobs[k].id) == if WasStarted(s.traces[k]) then 1 else 0;
    }
  }

  lemma QueuedTrace(trace: seq<JobStatus>)
    ensures TraceOk(trace, Queued) ==> trace == [Queued]
  {
    if TraceOk(trace, Queued) {
      RankFalls(trace, 0, |trace| - 1);
    }
  }

  /** The charge settles the outstanding start. */
  lemma ChargeSettles(w: World, start: Start, now: Time, lost: seq<Start>)
    requires Inv(w, now, lost + [start])
    requires start.date == DateOf(now)
    requires start.userId in w.users && EffectiveDailyUsed(w.users[start.userId], DateOf(now)) < MAX_DAILY_JOBS
    requires forall k :: 0 <= k < |w.store.jobs| && w.store.jobs[k].status == Queued ==>
      w.store.jobs[k].userId != start.userId
    ensures Inv(Charge(w, start.userId, now), now, lost)
  {
    var v := Charge(w, start.userId, now);
    OneMoreStart(lost, start);
    forall u, d | u in v.users
      ensures ChargedOn(v.users[u], v.store.starts, lost, u, d)
    {
      assert ChargedOn(w.users[u], w.store.starts, lost + [start], u, d);
      assert UserOk(w.users[u], now);
    }
    forall k | 0 <= k < |lost|
      ensures lost[k].userId in v.users
    {
      assert (lost + [start])[k].userId in w.users;
    }
    forall k | 0 <= k < |v.store.jobs|
      ensures JobOk(v.store.jobs[k], v, now)
    {
      assert JobOk(w.store.jobs[k], w, now);
    }
    assert v.users.Keys == w.users.Keys;
  }

  /** The documents a launch and a whole start leave behind. */
  function LaunchResult(job: Job, run: RunOutcome, failAt: Time): Job {
    match run
    case LaunchFailed(detail) =>
      job.(status := Failed, updatedAt := failAt, errorMessage := Some(ContainerLaunchFailed(detail)))
    case Launched(c) => job.(containerId := Some(c))
  }

  function StartResult(queued: Job, inp: PollInputs): Job {
    var job := Started(queued, inp.startAt);
    match inp.fetch
    case FetchFailed(detail) =>
      job.(status := Failed, updatedAt := inp.failAt, errorMessage := Some(DatasetFetchFailed(detail)))
    case Fetched => LaunchResult(job, inp.run, inp.failAt)
  }

  ghost predicate ReadyToStart(w: World, i: nat, inp: PollInputs) {
    && i < |w.store.jobs| && w.store.jobs[i].status == Queued && w.store.jobs[i].userId in w.users
    && (forall k :: 0 <= k < |w.store.jobs| ==> w.store.jobs[k].status !in ON_GPU)
    && (inp.run.Launched? ==> inp.run.containerId !in w.containers)
  }

  lemma MarkAndCharge(w: World, i: nat, inp: PollInputs, now: Time, lost: seq<Start>)
    requires Inv(w, now, lost) && ReadyToStart(w, i, inp) && inp.startAt == now
    ensures var job := w.store.jobs[i]; var v := Charge(MarkStarted(w, job, now), job.userId, now);
      Inv(v, now, lost) && v.store.jobs == w.store.jobs[i := Started(job, now)]
  {
    var job := w.store.jobs[i];
    var marked := MarkStarted(w, job, now);
    MarkStartedKeeps(w, i, now, lost);
    assert JobOk(job, w, now);
    forall k | 0 <= k < |marked.store.jobs| && marked.store.jobs[k].status == Queued
      ensures marked.store.jobs[k].userId != job.userId
    {
      assert w.store.jobs[k].status in ACTIVE && job.status in ACTIVE && k != i;
      assert k < i || i < k;
    }
    ChargeSettles(marked, StartOf(Started(job, now)), now, lost);
  }

  lemma FetchKeeps(w: World, i: nat, now: Time, lost: seq<Start>)
    requires Inv(w, now, lost) && i < |w.store.jobs|
    requires w.store.jobs[i].status == Initializing && w.store.jobs[i].containerId.None?
    ensures Inv(FetchInto(w, w.store.jobs[i]), now, lost)
  {
    forall k | 0 <= k < |w.store.jobs|
      ensures DirOk(w.store.jobs[k], FetchInto(w, w.store.jobs[i]).dirs)
    {
      assert JobOk(w.store.jobs[k], w, now);
    }
    Surroundings(w, FetchInto(w, w.store.jobs[i]), now, lost);
  }

  lemma LaunchKeeps(w: World, i: nat, run: RunOutcome, now: Time, lost: seq<Start>)
    requires Inv(w, now, lost) && i < |w.store.jobs|
    requires w.store.jobs[i].status == Initializing
    requires run.Launched? ==> run.containerId !in w.containers
    ensures Inv(Launch(w, w.store.jobs[i], run), now, lost)
  {
  }

  lemma FailStartKeeps(w: World, i: nat, reason: FailureReason, at: Time, now: Time, lost: seq<Start>)
    requires Inv(w, now, lost) && i < |w.store.jobs| && w.store.jobs[i].status == Initializing
    requires reason != CheckpointUploadFailed
    ensures var o := FailStart(w, w.store.jobs[i], reason, at);
      Inv(o.world, now, lost) && o.world.store.jobs == w.store.jobs[i := o.result]
  {
    hide Inv;
    var o := FailStart(w, w.store.jobs[i], reason, at);
    JobIsOk(w, i, now, lost);
    Edit(w, o.world, i, o.result, now, lost);
  }

  lemma AttachKeeps(w: World, i: nat, id: ContainerId, now: Time, lost: seq<Start>)
    requires Inv(w, now, lost) && i < |w.store.jobs| && w.store.jobs[i].status == Initializing
    requires w.store.jobs[i].id in w.dirs && id in w.containers && w.containers[id].jobLabel == Some(w.store.jobs[i].id)
    ensures var job := w.store.jobs[i].(containerId := Some(id)); var v := w.(store := Put(w.store, job));
      Inv(v, now, lost) && v.store.jobs == w.store.jobs[i := job]
  {
    hide Inv;
    var job := w.store.jobs[i].(containerId := Some(id));
    JobIsOk(w, i, now, lost);
    Edit(w, w.(store := Put(w.store, job)), i, job, now, lost);
  }

  lemma QueuedHasNoContainer(w: World, i: nat, now: Time, lost: seq<Start>)
    requires Inv(w, now, lost) && i < |w.store.jobs| && w.store.jobs[i].status == Queued
    ensures w.store.jobs[i].containerId.None?
  {
  }

  lemma LaunchJobKeeps(w: World, i: nat, run: RunOutcome, failAt: Time, now: Time, lost: seq<Start>)
    requires Inv(w, now, lost) && i < |w.store.jobs| && w.store.jobs[i].status == Initializing
    requires run.Launched? ==> run.containerId !in w.containers
    ensures var o := LaunchJob(w, w.store.jobs[i], run, failAt);
      Inv(o.world, now, lost) && o.result == LaunchResult(w.store.jobs[i], run, failAt)
        && o.world.store.jobs == w.store.jobs[i := o.result]
  {
    hide Inv;
    LaunchKeeps(w, i, run, now, lost);
    var launched := Launch(w, w.store.jobs[i], run);
    match run
    case LaunchFailed(detail) => FailStartKeeps(launched, i, ContainerLaunchFailed(detail), failAt, now, lost);
    case Launched(c) => AttachKeeps(launched, i, c, now, lost);
  }

  lemma FetchingKeeps(w: World, i: nat, inp: PollInputs, now: Time, lost: seq<Start>)
    requires Inv(w, now, lost) && ReadyToStart(w, i, inp) && inp.startAt == now
    ensures var job := w.store.jobs[i];
      var v := FetchInto(Charge(MarkStarted(w, job, now), job.userId, now), Started(job, now));
      Inv(v, now, lost) && v.store.jobs == w.store.jobs[i := Started(job, now)] && v.containers == w.containers
  {
    hide Inv;
    var job := w.store.jobs[i];
    QueuedHasNoContainer(w, i, now, lost);
    MarkAndCharge(w, i, inp, now, lost);
    FetchKeeps(Charge(MarkStarted(w, job, now), job.userId, now), i, now, lost);
  }

  /** A start that reaches its end keeps the invariant, charge included. */
  lemma StartKeeps(w: World, i: nat, inp: PollInputs, now: Time, lost: seq<Start>)
    requires Inv(w, now, lost) && ReadyToStart(w, i, inp) && inp.startAt == now
    ensures var o := StartJob(w, w.store.jobs[i], inp);
      Inv(o.world, now, lost) && o.result == StartResult(w.store.jobs[i], inp)
        && o.world.store.jobs == w.store.jobs[i := o.result]
  {
    hide Inv;
    var queued := w.store.jobs[i];
    var job := Started(queued, now);
    FetchingKeeps(w, i, inp, now, lost);
    var fetching := FetchInto(Charge(MarkStarted(w, queued, now), queued.userId, now), job);
    match inp.fetch
    case FetchFailed(detail) => FailStartKeeps(fetching, i, DatasetFetchFailed(detail), inp.failAt, now, lost);
    case Fetched => LaunchJobKeeps(fetching, i, inp.run, inp.failAt, now, lost);
  }

  lemma CrashedStartKeeps(w: World, i: nat, inp: PollInputs, point: CrashPoint, now: Time, lost: seq<Start>)
    requires Inv(w, now, lost) && ReadyToStart(w, i, inp) && inp.startAt == now
    ensures var job := w.store.jobs[i]; var v := CrashedStart(w, job, inp, point);
      && Inv(v, now, if point == AfterMark then lost + [StartOf(Started(job, now))] else lost)
      && v.store.jobs == w.store.jobs[i := Started(job, now)]
  {
    hide Inv;
    var queued := w.store.jobs[i];
    match point
    case AfterMark => MarkStartedKeeps(w, i, now, lost);
    case AfterCharge => MarkAndCharge(w, i, inp, now, lost);
    case AfterFetch => FetchingKeeps(w, i, inp, now, lost);
    case AfterLaunch =>
      FetchingKeeps(w, i, inp, now, lost);
      LaunchKeeps(FetchInto(Charge(MarkStarted(w, queued, now), queued.userId, now), Started(queued, now)), i, inp.run,
        now, lost);
  }

  /** What the poller picks is the oldest queued job, while nothing occupies the GPU. */
  lemma NextIsFirstQueued(w: World, now: Time, lost: seq<Start>) returns (i: nat)
    requires Inv(w, now, lost) && NextToStart(w).Some?
    ensures i < |w.store.jobs| && NextToStart(w).value == w.store.jobs[i] && w.store.jobs[i].status == Queued
    ensures Select(w.store.jobs[..i], QUEUED) == []
    ensures forall k :: 0 <= k < |w.store.jobs| ==> w.store.jobs[k].status !in ON_GPU
    ensures w.store.jobs[i].userId in w.users
  {
    ListingIsInsertionOrder(w.store.jobs, QUEUED);
    ListingIsInsertionOrder(w.store.jobs, ON_GPU);
    NoneSelected(w.store.jobs, ON_GPU);
    i := FirstSelected(w.store.jobs, QUEUED);
  }

  lemma PollKeeps(w: World, inp: PollInputs, now: Time, lost: seq<Start>)
    requires Inv(w, now, lost) && now <= inp.startAt
    requires inp.run.Launched? ==> inp.run.containerId !in w.containers
    ensures PollTick(w, inp).result.Ok?
    ensures Inv(PollTick(w, inp).world, inp.startAt, lost)
  {
    hide Inv;
    var ready := ProcessCancellations(w, inp.cancelAt);
    Later(w, now, inp.startAt, lost);
    CancellationsKeep(w, inp.cancelAt, inp.startAt, lost);
    if NextToStart(ready).Some? {
      var i := NextIsFirstQueued(ready, inp.startAt, lost);
      StartKeeps(ready, i, inp, inp.startAt, lost);
    }
  }

  lemma CrashedPollKeeps(w: World, inp: PollInputs, point: CrashPoint, now: Time, lost: seq<Start>)
      returns (lost': seq<Start>)
    requires Inv(w, now, lost) && now <= inp.startAt
    requires inp.run.Launched? ==> inp.run.containerId !in w.containers
    ensures Inv(CrashedPoll(w, inp, point), inp.startAt, lost')
    ensures lost' == lost + LostCharge(w, inp, point)
  {
    hide Inv, CrashedStart, ListByStatuses, Rewrite, KilledBy, ClearedBy, Started, StartOf;
    var ready := ProcessCancellations(w, inp.cancelAt);
    Later(w, now, inp.startAt, lost);
    CancellationsKeep(w, inp.cancelAt, inp.startAt, lost);
    lost' := lost + LostCharge(w, inp, point);
    assert LostCharge(w, inp, point) == [] ==> lost' == lost;
    if NextToStart(ready).Some? {
      var i := NextIsFirstQueued(ready, inp.startAt, lost);
      CrashedStartKeeps(ready, i, inp, point, inp.startAt, lost);
    }
  }

  /** The start whose charge a crash of this poll swallows: only a crash between the two writes has one. */
  function LostCharge(w: World, inp: PollInputs, point: CrashPoint): seq<Start> {
    var next := NextToStart(ProcessCancellations(w, inp.cancelAt));
    if point == AfterMark && next.Some? && next.value.userId in w.users
    then [StartOf(Started(next.value, inp.startAt))]
    else []
  }

  // ---- monitoring ---------------------------------------------------------------------------

  function MonitorResult(job: Job, exitCode: Option<int>, inp: MonitorInputs): Job {
    var observed := Observed(job, exitCode, inp);
    if exitCode.None? then observed
    else Finished(EnterTraining(observed, inp.closingAt), FinalFailure(exitCode.value, inp), inp.finishedAt)
  }

  lemma ObserveKeeps(w: World, i: nat, exitCode: Option<int>, inp: MonitorInputs, now: Time, lost: seq<Start>)
    requires Inv(w, now, lost) && i < |w.store.jobs| && w.store.jobs[i].status in ON_GPU && inp.heartbeatAt <= now
    ensures var job := Observed(w.store.jobs[i], exitCode, inp); var v := w.(store := Put(w.store, job));
      Inv(v, now, lost) && v.store.jobs == w.store.jobs[i := job]
  {
    hide Inv, Put;
    var job := Observed(w.store.jobs[i], exitCode, inp);
    JobIsOk(w, i, now, lost);
    Edit(w, w.(store := Put(w.store, job)), i, job, now, lost);
  }

  lemma EnterTrainingKeeps(w: World, i: nat, at: Time, now: Time, lost: seq<Start>)
    requires Inv(w, now, lost) && i < |w.store.jobs| && w.store.jobs[i].status in ON_GPU
    ensures var job := EnterTraining(w.store.jobs[i], at); var v := w.(store := Put(w.store, job));
      Inv(v, now, lost) && v.store.jobs == w.store.jobs[i := job]
  {
    hide Inv;
    var job := EnterTraining(w.store.jobs[i], at);
    JobIsOk(w, i, now, lost);
    Edit(w, w.(store := Put(w.store, job)), i, job, now, lost);
  }

  /** The closing write, with the upload before it and the clean-up after it. */
  lemma FinishKeeps(w: World, v: World, i: nat, failure: Option<FailureReason>, at: Time, now: Time, lost: seq<Start>)
    requires Inv(w, now, lost) && i < |w.store.jobs| && w.store.jobs[i].status == Training
      && w.store.jobs[i].containerId.Some?
    requires v == World(Put(w.store, Finished(w.store.jobs[i], failure, at)), w.users, w.containers,
                        if failure == None then w.objects + {CheckpointPath(w.store.jobs[i].id)} else w.objects,
                        if failure == Some(CheckpointUploadFailed) then w.dirs else w.dirs - {w.store.jobs[i].id})
    ensures Inv(v, now, lost) && v.store.jobs == w.store.jobs[i := Finished(w.store.jobs[i], failure, at)]
  {
    hide Inv;
    JobIsOk(w, i, now, lost);
    Edit(w, v, i, Finished(w.store.jobs[i], failure, at), now, lost);
  }

  lemma FinalizeKeeps(w: World, i: nat, code: int, inp: MonitorInputs, now: Time, lost: seq<Start>)
    requires Inv(w, now, lost) && i < |w.store.jobs| && w.store.jobs[i].status in ON_GPU
      && w.store.jobs[i].containerId.Some?
    ensures var o := Finalize(w, w.store.jobs[i], code, inp);
      Inv(o.world, now, lost) && o.world.store.jobs == w.store.jobs[i := o.result]
  {
    hide Inv;
    var training := EnterTraining(w.store.jobs[i], inp.closingAt);
    EnterTrainingKeeps(w, i, inp.closingAt, now, lost);
    var mid := w.(store := Put(w.store, training));
    FinishKeeps(mid, Finalize(w, w.store.jobs[i], code, inp).world, i, FinalFailure(code, inp), inp.finishedAt, now,
      lost);
  }

  /** The job the monitor looks at: the only one on the GPU. */
  lemma MonitoredJob(w: World, now: Time, lost: seq<Start>) returns (i: nat)
    requires Inv(w, now, lost)
    ensures var active := ListByStatuses(w.store.jobs, ON_GPU);
      && (active == [] <==> forall k :: 0 <= k < |w.store.jobs| ==> w.store.jobs[k].status !in ON_GPU)
      && (active != [] ==> i < |w.store.jobs| && w.store.jobs[i] == active[0] && w.store.jobs[i].status in ON_GPU)
  {
    i := 0;
    ListingIsInsertionOrder(w.store.jobs, ON_GPU);
    NoneSelected(w.store.jobs, ON_GPU);
    if Select(w.store.jobs, ON_GPU) != [] {
      i := FirstSelected(w.store.jobs, ON_GPU);
    }
  }

  lemma MonitorJobKeeps(w: World, i: nat, inp: MonitorInputs, now: Time, lost: seq<Start>)
    requires Inv(w, now, lost) && i < |w.store.jobs| && w.store.jobs[i].status in ON_GPU && inp.heartbeatAt <= now
    ensures var o := MonitorJob(w, w.store.jobs[i], inp);
      && Inv(o.world, now, lost)
      && o.result == MonitorResult(w.store.jobs[i], ExitCode(w.containers, w.store.jobs[i].containerId), inp)
      && o.world.store.jobs == w.store.jobs[i := o.result]
  {
    hide Inv;
    var exitCode := ExitCode(w.containers, w.store.jobs[i].containerId);
    ObserveKeeps(w, i, exitCode, inp, now, lost);
    if exitCode.Some? {
      FinalizeKeeps(w.(store := Put(w.store, Observed(w.store.jobs[i], exitCode, inp))), i, exitCode.value, inp, now,
        lost);
    }
  }

  /** The monitor looks at the one job on the GPU and edits no other document. */
  lemma MonitorKeeps(w: World, inp: MonitorInputs, now: Time, lost: seq<Start>) returns (i: nat)
    requires Inv(w, now, lost) && inp.heartbeatAt <= now
    ensures Inv(MonitorTick(w, inp).world, now, lost)
    ensures var o := MonitorTick(w, inp);
      && (o.result.None? ==> o.world == w && forall k :: 0 <= k < |w.store.jobs| ==> w.store.jobs[k].status !in ON_GPU)
      && (o.result.Some? ==> i < |w.store.jobs| && w.store.jobs[i].status in ON_GPU
                             && o == Outcome(MonitorJob(w, w.store.jobs[i], inp).world,
                                  Some(MonitorJob(w, w.store.jobs[i], inp).result)))
  {
    i := MonitoredJob(w, now, lost);
    if ListByStatuses(w.store.jobs, ON_GPU) != [] {
      MonitorJobKeeps(w, i, inp, now, lost);
    }
  }

  // ---- the backend and the Docker host ------------------------------------------------------

  lemma CreateKeeps(w: World, request: JobRequest, id: JobId, checkedAt: Time, createdAt: Time, now: Time,
      lost: seq<Start>)
    requires Inv(w, now, lost) && now <= checkedAt <= createdAt && !Known(w.store.jobs, id) && id !in w.dirs
    ensures Inv(CreateJob(w, request, id, checkedAt, createdAt).world, createdAt, lost)
    ensures CreateJob(w, request, id, checkedAt, createdAt).result.Ok? ==>
      CreateJob(w, request, id, checkedAt, createdAt).world.store.jobs ==
        w.store.jobs + [CreateJob(w, request, id, checkedAt, createdAt).result.value]
  {
    hide QuotaOk, StartsOk, StoreOk, Put;
    Later(w, now, createdAt, lost);
    Structure(w, now, lost);
    if RefusalToCreate(w, request, checkedAt).None? {
      var o := CreateJob(w, request, id, checkedAt, createdAt);
      var job := o.result.value;
      PutAppends(w.store, job);
      RoomForOne(w, request, checkedAt, createdAt, now, lost);
      CreatedStore(w.store, job, w.users.Keys, createdAt);
      CreatedStarts(w.store, job, w.users.Keys);
      forall k | 0 <= k < |o.world.store.jobs|
        ensures JobOk(o.world.store.jobs[k], o.world, createdAt)
      {
        if k < |w.store.jobs| {
          assert JobOk(w.store.jobs[k], w, createdAt);
        }
      }
    }
  }

  /** An admitted request comes from a user with no active job and with quota left when the job is stamped. */
  lemma RoomForOne(w: World, request: JobRequest, checkedAt: Time, createdAt: Time, now: Time, lost: seq<Start>)
    requires Inv(w, now, lost) && now <= checkedAt <= createdAt && RefusalToCreate(w, request, checkedAt).None?
    ensures forall k :: 0 <= k < |w.store.jobs| && w.store.jobs[k].status in ACTIVE ==>
      w.store.jobs[k].userId != request.userId
    ensures EffectiveDailyUsed(w.users[request.userId], DateOf(createdAt)) < MAX_DAILY_JOBS
  {
    var jobs := w.store.jobs;
    NoneActive(ListForUser(jobs, request.userId));
    forall k | 0 <= k < |jobs| && jobs[k].status in ACTIVE
      ensures jobs[k].userId != request.userId
    {
      InListForUser(jobs, request.userId, jobs[k]);
    }
    assert UserOk(w.users[request.userId], now);
    DateMonotone(now, checkedAt);
    DateMonotone(checkedAt, createdAt);
  }

  lemma CreatedStore(s: Store, job: Job, userIds: set<UserId>, now: Time)
    requires StoreOk(s, userIds, now) && !Known(s.jobs, job.id) && job.status == Queued && job.userId in userIds
      && job.createdAt == now
    requires forall k :: 0 <= k < |s.jobs| && s.jobs[k].status in ACTIVE ==> s.jobs[k].userId != job.userId
    ensures StoreOk(Put(s, job), userIds, now)
  {
    PutAppends(s, job);
    var t := Put(s, job);
    assert t.traces[|s.jobs|] == [Queued];
    forall k | 0 <= k < |t.jobs|
      ensures TraceOk(t.traces[k], t.jobs[k].status)
    {
      assert k < |s.jobs| ==> TraceOk(s.traces[k], s.jobs[k].status);
    }
  }

  lemma CreatedStarts(s: Store, job: Job, userIds: set<UserId>)
    requires DistinctIds(s.jobs) && StartsOk(s, userIds) && !Known(s.jobs, job.id) && job.status == Queued
    ensures StartsOk(Put(s, job), userIds)
  {
    var t := Put(s, job);
    PutAppends(s, job);
    forall k | 0 <= k < |t.starts|
      ensures Known(t.jobs, t.starts[k].jobId) && t.starts[k].jobId != job.id
    {
      assert Known(s.jobs, s.starts[k].jobId);
      var i :| 0 <= i < |s.jobs| && s.jobs[i].id == s.starts[k].jobId;
      assert t.jobs[i].id == t.starts[k].jobId;
    }
    NeverStarted(t.starts, job.id);
  }

  lemma CancelKeeps(w: World, userId: UserId, jobId: JobId, now: Time, lost: seq<Start>)
    requires Inv(w, now, lost)
    ensures var o := CancelJob(w, userId, jobId, now);
      && Inv(o.world, now, lost)
      && (o.result.Ok? ==>
            (var i := IndexOf(w.store.jobs, jobId);
             && i < |w.store.jobs|
             && o.result.value == w.store.jobs[i].(cancelRequested := true, updatedAt := now)
             && o.world.store.jobs == w.store.jobs[i := o.result.value]))
      && (o.result.Err? ==> o.world == w)
  {
    hide Inv;
    var o := CancelJob(w, userId, jobId, now);
    if o.result.Ok? {
      var i := IndexOf(w.store.jobs, jobId);
      JobIsOk(w, i, now, lost);
      Edit(w, o.world, i, o.result.value, now, lost);
    }
  }

  lemma RegisterKeeps(w: World, userId: UserId, now: Time, lost: seq<Start>)
    requires Inv(w, now, lost) && userId !in w.users
    ensures Inv(w.(users := w.users[userId := User(userId, 0, None)]), now, lost)
  {
    var v := w.(users := w.users[userId := User(userId, 0, None)]);
    assert v.users.Keys == w.users.Keys + {userId};
    forall u, d | u in v.users
      ensures ChargedOn(v.users[u], v.store.starts, lost, u, d)
    {
      if u == userId {
        NoStarts(w.store.starts, u, d);
        NoStarts(lost, u, d);
      } else {
        assert ChargedOn(w.users[u], w.store.starts, lost, u, d);
      }
    }
    forall i | 0 <= i < |v.store.jobs|
      ensures JobOk(v.store.jobs[i], v, now)
    {
      assert JobOk(w.store.jobs[i], w, now);
    }
  }

  /** Containers that stop, are killed, or appear change no document. */
  lemma DockerKeeps(w: World, containers: Containers, now: Time, lost: seq<Start>)
    requires Inv(w, now, lost) && LabelsKept(w.containers, containers)
    ensures Inv(w.(containers := containers), now, lost)
  {
  }
}
