/** Per-user quota rules. */
module Quota {
  import opened Models

  const MAX_CONCURRENT_JOBS: int := 1
  const MAX_DAILY_JOBS: int := 10

  datatype QuotaRefusal = ConcurrentLimit | DailyLimit

  function CountActive(jobs: seq<Job>): nat {
    if jobs == [] then 0
    else CountActive(jobs[..|jobs| - 1]) + if jobs[|jobs| - 1].status in ACTIVE then 1 else 0
  }

  function EffectiveDailyUsed(user: User, today: Date): nat {
    if user.quotaResetDate != Some(today) then 0 else user.dailyQuotaUsed
  }

  /** None when the user may create a job. */
  function CanCreateJob(user: User, jobs: seq<Job>, today: Date): Option<QuotaRefusal> {
    if !(CountActive(jobs) < MAX_CONCURRENT_JOBS) then Some(ConcurrentLimit)
    else if !(EffectiveDailyUsed(user, today) < MAX_DAILY_JOBS) then Some(DailyLimit)
    else None
  }

  function RecordJobStarted(user: User, today: Date): User {
    user.(dailyQuotaUsed := EffectiveDailyUsed(user, today) + 1, quotaResetDate := Some(today))
  }

  lemma {:induction false} NoneActive(jobs: seq<Job>)
    ensures CountActive(jobs) == 0 <==> forall j :: j in jobs ==> j.status !in ACTIVE
  {
    if jobs != [] {
      NoneActive(jobs[..|jobs| - 1]);
      assert jobs == jobs[..|jobs| - 1] + [jobs[|jobs| - 1]];
    }
  }
}
