/** The daily quota over whole runs. */
module QuotaGuarantees {
  import opened Models
  import opened JobStateMachine
  import opened JobStore
  import opened Quota
  import opened ControlPlane
  import opened Invariants
  import opened Preservation
  import opened Runs

  /** The starts whose charge was swallowed by a crash between the two writes, over a run. */
  function Swallowed(m: Moment, steps: seq<Step>): seq<Start> {
    if steps == [] then []
    else
      var init, last := steps[..|steps| - 1], steps[|steps| - 1];
      Swallowed(m, init) + if last.CrashDuringPoll? then LostCharge(Run(m, init).world, last.poll, last.point) else []
  }

  lemma NextLost(m: Moment, step: Step)
    ensures Next(m, step).lost ==
      m.lost + if step.CrashDuringPoll? then LostCharge(m.world, step.poll, step.point) else []
  {
  }

  lemma {:induction false} LostIsSwallowed(m: Moment, steps: seq<Step>)
    ensures Run(m, steps).lost == m.lost + Swallowed(m, steps)
    ensures CrashFree(steps) ==> Swallowed(m, steps) == []
  {
    hide Next, LostCharge;
    if steps != [] {
      var init, last := steps[..|steps| - 1], steps[|steps| - 1];
      LostIsSwallowed(m, init);
      NextLost(Run(m, init), last);
      assert last in steps;
      assert CrashFree(steps) ==> CrashFree(init);
    }
  }

  lemma LimitAt(m: Moment, userId: UserId, date: Date)
    requires Sound(m)
    ensures StartsOn(m.world.store.starts, userId, date) <= MAX_DAILY_JOBS + StartsOn(m.lost, userId, date)
  {
    if userId in m.world.users {
      assert ChargedOn(m.world.users[userId], m.world.store.starts, m.lost, userId, date);
    } else {
      NoStarts(m.world.store.starts, userId, date);
    }
  }

  lemma ChargedAt(m: Moment, userId: UserId)
    requires Sound(m) && userId in m.world.users
    ensures forall date :: ChargedOn(m.world.users[userId], m.world.store.starts, m.lost, userId, date)
  {
  }

  /** In every run, crashes included, a user's starts on one day exceed the daily maximum
      by no more than the crashes that swallowed a charge of that user on that day. */
  lemma DailyLimitUpToCrashes(now: Time, steps: seq<Step>, userId: UserId, date: Date)
    requires EnabledRun(Begin(now), steps)
    ensures StartsOn(Run(Begin(now), steps).world.store.starts, userId, date)
         <= MAX_DAILY_JOBS + StartsOn(Swallowed(Begin(now), steps), userId, date)
  {
    hide Sound, Run, Next, Swallowed, EnabledRun;
    ReachableIsSound(now, steps);
    LostIsSwallowed(Begin(now), steps);
    assert Run(Begin(now), steps).lost == Swallowed(Begin(now), steps);
    LimitAt(Run(Begin(now), steps), userId, date);
  }

  /** In crash-free runs no user has more than ten jobs enter `initializing` on any one day. */
  lemma DailyLimit(now: Time, steps: seq<Step>, userId: UserId, date: Date)
    requires EnabledRun(Begin(now), steps) && CrashFree(steps)
    ensures StartsOn(Run(Begin(now), steps).world.store.starts, userId, date) <= 10
  {
    DailyLimitUpToCrashes(now, steps, userId, date);
    LostIsSwallowed(Begin(now), steps);
  }

  /** Conservation: on the day of its last reset a user's counter plus the swallowed charges is the number of starts;
      no later day has any charged start. */
  lemma QuotaConserved(now: Time, steps: seq<Step>, userId: UserId)
    requires EnabledRun(Begin(now), steps) && userId in Run(Begin(now), steps).world.users
    ensures var w := Run(Begin(now), steps).world; var user := w.users[userId];
      && (user.quotaResetDate.Some? ==>
            user.dailyQuotaUsed + StartsOn(Swallowed(Begin(now), steps), userId, user.quotaResetDate.value)
              == StartsOn(w.store.starts, userId, user.quotaResetDate.value))
      && (forall date :: user.quotaResetDate.None? || user.quotaResetDate.value < date ==>
            StartsOn(w.store.starts, userId, date) == StartsOn(Swallowed(Begin(now), steps), userId, date))
  {
    hide Sound, Run, Next, Swallowed, EnabledRun;
    ReachableIsSound(now, steps);
    LostIsSwallowed(Begin(now), steps);
    var m := Run(Begin(now), steps);
    assert m.lost == Swallowed(Begin(now), steps);
    var user, starts := m.world.users[userId], m.world.store.starts;
    ChargedAt(m, userId);
    assert user.quotaResetDate.Some? ==> ChargedOn(user, starts, m.lost, userId, user.quotaResetDate.value);
    forall date | user.quotaResetDate.None? || user.quotaResetDate.value < date
      ensures StartsOn(starts, userId, date) == StartsOn(m.lost, userId, date)
    {
      assert ChargedOn(user, starts, m.lost, userId, date);
    }
  }

  /** Each job is counted exactly once if it entered `initializing` and never if it was cancelled while queued. */
  lemma StartsAreJobs(now: Time, steps: seq<Step>, i: nat)
    requires EnabledRun(Begin(now), steps) && i < |Run(Begin(now), steps).world.store.jobs|
    ensures var s := Run(Begin(now), steps).world.store;
      StartsOf(s.starts, s.jobs[i].id) == if Initializing in s.traces[i] then 1 else 0
  {
    ReachableIsSound(now, steps);
    var m := Run(Begin(now), steps);
    JobIsOk(m.world, i, m.clock, m.lost);
    TraceBounded(m.world.store.traces[i]);
  }

  /** A refused request changes nothing; an admitted one comes from a known user with no active job and quota left
      today. */
  lemma AdmissionExact(m: Moment, request: JobRequest, id: JobId, checkedAt: Time, createdAt: Time)
    requires Sound(m)
    ensures var o := CreateJob(m.world, request, id, checkedAt, createdAt); var jobs := m.world.store.jobs;
      && (o.result.Err? ==> o.world == m.world)
      && (o.result.Ok? <==>
            && 1 <= request.trainingSteps <= 20_000
            && request.userId in m.world.users
            && (forall k :: 0 <= k < |jobs| && jobs[k].userId == request.userId ==> jobs[k].status !in ACTIVE)
            && EffectiveDailyUsed(m.world.users[request.userId], DateOf(checkedAt)) < 10)
  {
    var jobs := m.world.store.jobs;
    NoneActive(ListForUser(jobs, request.userId));
    forall k | 0 <= k < |jobs|
      ensures jobs[k] in ListForUser(jobs, request.userId) <==> jobs[k].userId == request.userId
    {
      InListForUser(jobs, request.userId, jobs[k]);
    }
    forall job | job in ListForUser(jobs, request.userId)
      ensures job in jobs && job.userId == request.userId
    {
      InListForUser(jobs, request.userId, job);
    }
  }

  /** The user has a job queued or on the GPU. */
  ghost predicate HasActive(jobs: seq<Job>, userId: UserId) {
    exists k :: 0 <= k < |jobs| && jobs[k].userId == userId && jobs[k].status in {Queued, Initializing, Training}
  }

  /** The user's counter of the day is used up. */
  predicate IsSpent(user: User, today: Date) {
    user.quotaResetDate == Some(today) && user.dailyQuotaUsed >= 10
  }

  /** Which answer a request gets, each exactly when its own condition holds and none before it. */
  lemma AnswersExact(m: Moment, request: JobRequest, id: JobId, checkedAt: Time, createdAt: Time)
    requires Sound(m) && IndexOf(m.world.store.jobs, id) == |m.world.store.jobs|
    ensures var o := CreateJob(m.world, request, id, checkedAt, createdAt); var w, u := m.world, request.userId;
      var inRange := 1 <= request.trainingSteps <= 20_000;
      && (o.result == Err(InvalidTrainingSteps) <==> !inRange)
      && (o.result == Err(UserNotFound) <==> inRange && u !in w.users)
      && (o.result == Err(QuotaExceeded(QuotaRefusal.ConcurrentLimit)) <==>
            inRange && u in w.users && HasActive(w.store.jobs, u))
      && (o.result == Err(QuotaExceeded(QuotaRefusal.DailyLimit)) <==>
            inRange && u in w.users && !HasActive(w.store.jobs, u) && IsSpent(w.users[u], DateOf(checkedAt)))
      && (o.result.Ok? <==>
            inRange && u in w.users && !HasActive(w.store.jobs, u) && !IsSpent(w.users[u], DateOf(checkedAt)))
      && (o.result.Err? ==> o.world == w)
      && (o.result.Ok? ==>
            (o.world == w.(store := o.world.store) && o.world.store.jobs == w.store.jobs + [o.result.value]
             && o.result.value ==
                  Job(id, u, request.policy, request.sourceType, request.sourceRef, request.trainingSteps,
                                      Queued, None, None, None, false, None, None, createdAt, createdAt)))
  {
    hide Inv, Put, ListForUser;
    var jobs := m.world.store.jobs;
    Structure(m.world, m.clock, m.lost);
    ActiveListed(jobs, request.userId);
    if RefusalToCreate(m.world, request, checkedAt).None? {
      PutAppends(m.world.store, CreateJob(m.world, request, id, checkedAt, createdAt).result.value);
    }
  }

  lemma ActiveListed(jobs: seq<Job>, userId: UserId)
    ensures CountActive(ListForUser(jobs, userId)) == 0 <==> !HasActive(jobs, userId)
  {
    hide CountActive;
    NoneActive(ListForUser(jobs, userId));
    forall job
      ensures job in ListForUser(jobs, userId) <==> job in jobs && job.userId == userId
    {
      InListForUser(jobs, userId, job);
    }
    forall k | 0 <= k < |jobs| && jobs[k].userId == userId && jobs[k].status in ACTIVE
      ensures CountActive(ListForUser(jobs, userId)) != 0
    {
      assert jobs[k] in ListForUser(jobs, userId);
    }
  }
}
