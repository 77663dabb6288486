/** What holds of the shared state between any two calls, in every run, crashes included. */
module Invariants {
  import opened Models
  import opened JobStateMachine
  import opened Sorting
  import opened JobStore
  import opened Quota
  import opened ControlPlane

  // ---- counting starts ----------------------------------------------------------------------

  function StartsOn(starts: seq<Start>, userId: UserId, date: Date): nat {
    if starts == [] then 0
    else
      var last := starts[|starts| - 1];
      StartsOn(starts[..|starts| - 1], userId, date) + if last.userId == userId && last.date == date then 1 else 0
  }

  function StartsOf(starts: seq<Start>, jobId: JobId): nat {
    if starts == [] then 0
    else StartsOf(starts[..|starts| - 1], jobId) + if starts[|starts| - 1].jobId == jobId then 1 else 0
  }

  lemma OneMoreStart(starts: seq<Start>, start: Start)
    ensures forall u, d ::
      StartsOn(starts + [start], u, d) == StartsOn(starts, u, d) + if start.userId == u && start.date == d then 1 else 0
    ensures forall id :: StartsOf(starts + [start], id) == StartsOf(starts, id) + if start.jobId == id then 1 else 0
  {
  }

  lemma {:induction false} NoStarts(starts: seq<Start>, userId: UserId, date: Date)
    requires forall k :: 0 <= k < |starts| ==> starts[k].userId != userId
    ensures StartsOn(starts, userId, date) == 0
  {
    if starts != [] {
      NoStarts(starts[..|starts| - 1], userId, date);
    }
  }

  lemma {:induction false} NeverStarted(starts: seq<Start>, jobId: JobId)
    requires forall k :: 0 <= k < |starts| ==> starts[k].jobId != jobId
    ensures StartsOf(starts, jobId) == 0
  {
    if starts != [] {
      NeverStarted(starts[..|starts| - 1], jobId);
    }
  }

  // ---- the invariant ------------------------------------------------------------------------

  ghost predicate TraceOk(trace: seq<JobStatus>, status: JobStatus) {
    LegalTrace(trace) && trace[|trace| - 1] == status
  }

  predicate WasStarted(trace: seq<JobStatus>) {
    |trace| > 1 && trace[1] == Initializing
  }

  ghost predicate SingleServer(jobs: seq<Job>) {
    forall i, j :: 0 <= i < j < |jobs| ==> !(jobs[i].status in ON_GPU && jobs[j].status in ON_GPU)
  }

  ghost predicate OneActivePerUser(jobs: seq<Job>) {
    forall i, j :: 0 <= i < j < |jobs| && jobs[i].status in ACTIVE && jobs[j].status in ACTIVE ==>
      jobs[i].userId != jobs[j].userId
  }

  ghost predicate StoreOk(s: Store, userIds: set<UserId>, now: Time) {
    && DistinctIds(s.jobs)
    && Ascending(s.jobs, ByCreation)
    && SingleServer(s.jobs)
    && OneActivePerUser(s.jobs)
    && (forall i :: 0 <= i < |s.jobs| ==> s.jobs[i].createdAt <= now && s.jobs[i].userId in userIds)
    && (forall i :: 0 <= i < |s.jobs| ==> TraceOk(s.traces[i], s.jobs[i].status))
  }

  ghost predicate Known(jobs: seq<Job>, id: JobId) {
    exists i :: 0 <= i < |jobs| && jobs[i].id == id
  }

  /** Every start in the history belongs to a stored job, and each job has one exactly when its trace entered
      `initializing`. */
  ghost predicate StartsOk(s: Store, userIds: set<UserId>) {
    && (forall k :: 0 <= k < |s.starts| ==> s.starts[k].userId in userIds)
    && (forall k :: 0 <= k < |s.starts| ==> Known(s.jobs, s.starts[k].jobId))
    && (forall i :: 0 <= i < |s.jobs| ==> StartsOf(s.starts, s.jobs[i].id) == if WasStarted(s.traces[i]) then 1 else 0)
  }

  ghost predicate FieldsOk(job: Job, objects: set<string>, now: Time) {
    && (job.status == Completed <==> job.checkpointPath.Some?)
    && (job.checkpointPath.Some? ==>
         job.checkpointPath.value == CheckpointPath(job.id) && job.checkpointPath.value in objects)
    && (job.status == Failed <==> job.errorMessage.Some?)
    && (job.status == Cancelled ==> job.cancelRequested)
    && (job.status in ON_GPU ==> job.heartbeatAt.Some? && job.heartbeatAt.value <= now)
    && (job.status == Queued ==> job.containerId.None? && job.heartbeatAt.None? && job.progress.None?)
  }

  ghost predicate DirOk(job: Job, dirs: set<JobId>) {
    && (job.status in {Queued, Completed} ==> job.id !in dirs)
    && (job.status in ON_GPU && job.containerId.Some? ==> job.id in dirs)
    && (job.errorMessage == Some(CheckpointUploadFailed) ==> job.id in dirs)
  }

  ghost predicate ContainerOk(job: Job, containers: Containers) {
    job.containerId.Some? ==>
      job.containerId.value in containers && containers[job.containerId.value].jobLabel == Some(job.id)
  }

  /** A queued job can be started today without exceeding its owner's daily quota. */
  ghost predicate SpareQuota(job: Job, users: map<UserId, User>, now: Time) {
    job.status == Queued && job.userId in users ==> EffectiveDailyUsed(users[job.userId], DateOf(now)) < MAX_DAILY_JOBS
  }

  ghost predicate JobOk(job: Job, w: World, now: Time) {
    FieldsOk(job, w.objects, now) && DirOk(job, w.dirs) && ContainerOk(job, w.containers)
      && SpareQuota(job, w.users, now)
  }

  ghost predicate UserOk(user: User, now: Time) {
    && user.dailyQuotaUsed <= MAX_DAILY_JOBS
    && (user.quotaResetDate.Some? ==> user.quotaResetDate.value <= DateOf(now))
  }

  /** The counter of a user against the starts of one day; `lost` are the starts whose charge a crash swallowed. */
  ghost predicate ChargedOn(user: User, starts: seq<Start>, lost: seq<Start>, userId: UserId, date: Date) {
    && StartsOn(starts, userId, date) <= MAX_DAILY_JOBS + StartsOn(lost, userId, date)
    && (user.quotaResetDate == Some(date) ==>
          StartsOn(starts, userId, date) == user.dailyQuotaUsed + StartsOn(lost, userId, date))
    && (user.quotaResetDate.None? || user.quotaResetDate.value < date ==>
          StartsOn(starts, userId, date) == StartsOn(lost, userId, date))
  }

  ghost predicate QuotaOk(users: map<UserId, User>, starts: seq<Start>, lost: seq<Start>, now: Time) {
    && (forall u :: u in users ==> UserOk(users[u], now))
    && (forall u, d :: u in users ==> ChargedOn(users[u], starts, lost, u, d))
    && (forall k :: 0 <= k < |lost| ==> lost[k].userId in users)
  }

  ghost predicate Inv(w: World, now: Time, lost: seq<Start>) {
    && StoreOk(w.store, w.users.Keys, now)
    && StartsOk(w.store, w.users.Keys)
    && (forall i :: 0 <= i < |w.store.jobs| ==> JobOk(w.store.jobs[i], w, now))
    && QuotaOk(w.users, w.store.starts, lost, now)
  }

  lemma Structure(w: World, now: Time, lost: seq<Start>)
    requires Inv(w, now, lost)
    ensures DistinctIds(w.store.jobs) && SingleServer(w.store.jobs)
    ensures forall i :: 0 <= i < |w.store.jobs| ==> TraceOk(w.store.traces[i], w.store.jobs[i].status)
  {
  }

  lemma JobIsOk(w: World, i: nat, now: Time, lost: seq<Start>)
    requires Inv(w, now, lost) && i < |w.store.jobs|
    ensures JobOk(w.store.jobs[i], w, now) && w.store.jobs[i].userId in w.users
    ensures TraceOk(w.store.traces[i], w.store.jobs[i].status)
  {
  }

  const EMPTY_WORLD: World := World(Contents([], [], []), map[], map[], {}, {})

  lemma EmptyInv(now: Time)
    ensures Inv(EMPTY_WORLD, now, [])
  {
  }

  /** Nothing breaks by waiting: a later day only frees quota. */
  lemma Later(w: World, now: Time, later: Time, lost: seq<Start>)
    requires Inv(w, now, lost) && now <= later
    ensures Inv(w, later, lost)
  {
  }

  // ---- documents that evolve in place -------------------------------------------------------

  ghost predicate JobEvolves(a: Job, b: Job) {
    && b.id == a.id && b.userId == a.userId && b.createdAt == a.createdAt
    && (b.status == a.status || CanTransition(a.status, b.status))
    && (a.cancelRequested ==> b.cancelRequested)
  }

  ghost predicate Evolves(s: Store, t: Store) {
    && |t.jobs| == |s.jobs|
    && (forall i :: 0 <= i < |s.jobs| ==> JobEvolves(s.jobs[i], t.jobs[i]))
    && (forall i :: 0 <= i < |s.jobs| ==> t.traces[i] == Extend(s.traces[i], t.jobs[i].status))
  }

  lemma TraceExtends(trace: seq<JobStatus>, from: JobStatus, to: JobStatus)
    requires TraceOk(trace, from) && (to == from || CanTransition(from, to))
    ensures TraceOk(Extend(trace, to), to)
  {
  }

  /** Legal edits keep the structure of the store as long as no second job gets onto the GPU. */
  lemma EvolvedStore(s: Store, t: Store, userIds: set<UserId>, now: Time)
    requires StoreOk(s, userIds, now) && Evolves(s, t) && SingleServer(t.jobs)
    ensures StoreOk(t, userIds, now)
  {
    forall i | 0 <= i < |t.jobs|
      ensures TraceOk(t.traces[i], t.jobs[i].status)
      ensures t.jobs[i].createdAt <= now && t.jobs[i].userId in userIds
    {
      assert JobEvolves(s.jobs[i], t.jobs[i]);
      TraceExtends(s.traces[i], s.jobs[i].status, t.jobs[i].status);
    }
  }

  ghost predicate NoneStarts(s: Store, t: Store)
    requires |t.jobs| == |s.jobs|
  {
    t.starts == s.starts && forall i :: 0 <= i < |s.jobs| && t.jobs[i].status == Initializing ==>
      s.jobs[i].status == Initializing
  }

  lemma EvolvedStarts(s: Store, t: Store, userIds: set<UserId>, now: Time)
    requires StoreOk(s, userIds, now) && StartsOk(s, userIds) && Evolves(s, t) && NoneStarts(s, t)
    ensures StartsOk(t, userIds)
  {
  }

  /** The workhorse: any step made of legal edits that starts nothing keeps the invariant,
      provided each document is coherent with the state around it. */
  lemma Evolution(w: World, v: World, now: Time, lost: seq<Start>)
    requires Inv(w, now, lost)
    requires Evolves(w.store, v.store) && NoneStarts(w.store, v.store) && v.users == w.users
    requires forall i :: 0 <= i < |v.store.jobs| ==> JobOk(v.store.jobs[i], v, now)
    ensures Inv(v, now, lost)
  {
    forall i, j | 0 <= i < j < |v.store.jobs|
      ensures !(v.store.jobs[i].status in ON_GPU && v.store.jobs[j].status in ON_GPU)
    {
      assert JobEvolves(w.store.jobs[i], v.store.jobs[i]) && JobEvolves(w.store.jobs[j], v.store.jobs[j]);
      assert !(w.store.jobs[i].status in ON_GPU && w.store.jobs[j].status in ON_GPU);
    }
    EvolvedStore(w.store, v.store, w.users.Keys, now);
    EvolvedStarts(w.store, v.store, w.users.Keys, now);
  }

  /** The Docker host as other documents see it: containers stay, with their labels. */
  ghost predicate LabelsKept(a: Containers, b: Containers) {
    forall c :: c in a ==> c in b && b[c].jobLabel == a[c].jobLabel
  }

  ghost predicate SameDirsExcept(a: set<JobId>, b: set<JobId>, id: JobId) {
    forall other :: other != id ==> (other in a <==> other in b)
  }

  lemma EditEvolves(s: Store, i: nat, job: Job)
    requires DistinctIds(s.jobs) && i < |s.jobs| && JobEvolves(s.jobs[i], job)
    requires job.status == Initializing ==> s.jobs[i].status == Initializing
    requires forall k :: 0 <= k < |s.jobs| ==> TraceOk(s.traces[k], s.jobs[k].status)
    ensures Evolves(s, Put(s, job)) && NoneStarts(s, Put(s, job))
    ensures Put(s, job).jobs == s.jobs[i := job]
  {
    PutReplaces(s, i, job);
    forall k | 0 <= k < |s.jobs|
      ensures Put(s, job).traces[k] == Extend(s.traces[k], Put(s, job).jobs[k].status)
    {
      assert TraceOk(s.traces[k], s.jobs[k].status);
    }
  }

  /** One document edited, together with what that document is about. */
  lemma Edit(w: World, v: World, i: nat, job: Job, now: Time, lost: seq<Start>)
    requires Inv(w, now, lost) && i < |w.store.jobs| && JobEvolves(w.store.jobs[i], job)
    requires job.status == Initializing ==> w.store.jobs[i].status == Initializing
    requires v.store == Put(w.store, job) && v.users == w.users && w.objects <= v.objects
    requires LabelsKept(w.containers, v.containers) && SameDirsExcept(w.dirs, v.dirs, job.id)
    requires JobOk(job, v, now)
    ensures Inv(v, now, lost)
    ensures v.store.jobs == w.store.jobs[i := job]
  {
    EditEvolves(w.store, i, job);
    forall k | 0 <= k < |v.store.jobs|
      ensures JobOk(v.store.jobs[k], v, now)
    {
      assert k == i || JobOk(w.store.jobs[k], w, now);
    }
    Evolution(w, v, now, lost);
  }
}
