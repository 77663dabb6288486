/** What the queue refinement means for the owner of a queued job. */
module Fairness {
  import opened Models
  import opened JobStore
  import opened Invariants
  import opened Runs
  import opened History
  import opened FifoQueue
  import opened FifoRefinement

  /** The queue operations of a whole run. */
  function RunOps(m: Moment, steps: seq<Step>): seq<Op> {
    if steps == [] then []
    else
      var init := steps[..|steps| - 1];
      RunOps(m, init) + OpsOf(Run(m, init).world, steps[|steps| - 1])
  }

  /** The starts on record since a moment. */
  function StartsSince(m: Moment, later: Moment): seq<Start>
    requires m.world.store.starts <= later.world.store.starts
  {
    later.world.store.starts[|m.world.store.starts|..]
  }

  lemma {:induction false} JobIdsConcat(a: seq<Start>, b: seq<Start>)
    ensures JobIds(a + b) == JobIds(a) + JobIds(b)
  {
    if b == [] {
      assert a + b == a;
    } else {
      assert (a + b)[..|a + b| - 1] == a + b[..|b| - 1];
      JobIdsConcat(a, b[..|b| - 1]);
    }
  }

  lemma {:induction false} JobIdsAt(starts: seq<Start>)
    ensures |JobIds(starts)| == |starts| && forall k :: 0 <= k < |starts| ==> JobIds(starts)[k] == starts[k].jobId
  {
    if starts != [] {
      JobIdsAt(starts[..|starts| - 1]);
    }
  }

  /** A whole run refines the abstract queue: its operations are legal, lead from the abstraction of its first state
      to that of its last, and serve exactly the jobs put on record as started, in that order. */
  lemma {:induction false} RunRefinesQueue(m: Moment, steps: seq<Step>)
    requires Sound(m) && EnabledRun(m, steps)
    ensures m.world.store.starts <= Run(m, steps).world.store.starts
    ensures DoAll(Abs(m.world.store.jobs), RunOps(m, steps)) == Some(Abs(Run(m, steps).world.store.jobs))
    ensures Served(Abs(m.world.store.jobs), RunOps(m, steps)) == JobIds(StartsSince(m, Run(m, steps)))
  {
    hide Inv, Abs, OpsOf, Next, Enabled, DoAll, Served, JobIds, NewStarts, Grows;
    if steps == [] {
      assert StartsSince(m, m) == [];
      NothingDone(Abs(m.world.store.jobs));
      NoIds();
    } else {
      var init, last := steps[..|steps| - 1], steps[|steps| - 1];
      var p := Run(m, init);
      RunRefinesQueue(m, init);
      RunKeeps(m, init);
      StepSimulates(p, last);
      StepGrows(p, last);
      DoAllConcat(Abs(m.world.store.jobs), RunOps(m, init), OpsOf(p.world, last));
      JobIdsConcat(StartsSince(m, p), NewStarts(p.world, last));
      assert StartsSince(m, Next(p, last)) == StartsSince(m, p) + NewStarts(p.world, last);
    }
  }

  lemma WaitingIsProper(m: Moment)
    requires Sound(m)
    ensures Proper(Abs(m.world.store.jobs))
  {
    hide Inv, Waiting, Serving, Done, Known;
    var jobs := m.world.store.jobs;
    Structure(m.world, m.clock, m.lost);
    WaitingDistinct(jobs);
    forall id | id in Done(jobs)
      ensures id !in Waiting(jobs)
    {
      DoneIsNotWaiting(jobs, id);
    }
    if Serving(jobs).Some? {
      ServingIsElsewhere(jobs);
    }
  }

  lemma WaitingDistinct(jobs: seq<Job>)
    requires DistinctIds(jobs)
    ensures forall i, j :: 0 <= i < j < |Waiting(jobs)| ==> Waiting(jobs)[i] != Waiting(jobs)[j]
  {
    IdsAt(Select(jobs, QUEUED));
    SelectDistinct(jobs, QUEUED);
  }

  lemma DoneIsNotWaiting(jobs: seq<Job>, id: JobId)
    requires DistinctIds(jobs) && id in Done(jobs)
    ensures id !in Waiting(jobs)
  {
    hide Waiting;
    WaitingIff(jobs, id);
  }

  lemma ServingIsElsewhere(jobs: seq<Job>)
    requires DistinctIds(jobs) && Serving(jobs).Some?
    ensures Serving(jobs).value !in Waiting(jobs) && Serving(jobs).value !in Done(jobs)
  {
    hide Waiting;
    NoneSelected(jobs, ON_GPU);
    var f := FirstSelected(jobs, ON_GPU);
    WaitingIff(jobs, jobs[f].id);
  }

  lemma {:induction false} SelectDistinct(jobs: seq<Job>, statuses: set<JobStatus>)
    requires DistinctIds(jobs)
    ensures DistinctIds(Select(jobs, statuses))
  {
    if jobs != [] {
      var init := jobs[..|jobs| - 1];
      SelectDistinct(init, statuses);
      forall k | 0 <= k < |Select(init, statuses)|
        ensures Select(init, statuses)[k].id != jobs[|jobs| - 1].id
      {
        InSelect(init, statuses, Select(init, statuses)[k]);
      }
    }
  }

  /** The 1-based position `list_jobs_for_user` reports. */
  function QueuePosition(jobs: seq<Job>, id: JobId): nat {
    Position(Ids(ListByStatuses(jobs, QUEUED)), id) + 1
  }

  predicate IsQueued(jobs: seq<Job>, id: JobId) {
    exists i :: 0 <= i < |jobs| && jobs[i].id == id && jobs[i].status == Queued
  }

  lemma ReportedPosition(m: Moment, id: JobId)
    requires Sound(m)
    ensures QueuePosition(m.world.store.jobs, id) == Position(Abs(m.world.store.jobs).waiting, id) + 1
    ensures IsQueued(m.world.store.jobs, id) <==> id in Abs(m.world.store.jobs).waiting
  {
    ListingIsInsertionOrder(m.world.store.jobs, QUEUED);
    WaitingIff(m.world.store.jobs, id);
  }

  /** While a job waits, its reported position never rises, and falls by at least one for every start. */
  lemma PositionNeverRises(m: Moment, steps: seq<Step>, id: JobId)
    requires Sound(m) && EnabledRun(m, steps)
    requires IsQueued(m.world.store.jobs, id) && IsQueued(Run(m, steps).world.store.jobs, id)
    ensures m.world.store.starts <= Run(m, steps).world.store.starts
    ensures QueuePosition(Run(m, steps).world.store.jobs, id)
      + |StartsSince(m, Run(m, steps))| <= QueuePosition(m.world.store.jobs, id)
  {
    hide Inv, Abs, DoAll, Served, QueuePosition, IsQueued;
    RunRefinesQueue(m, steps);
    RunKeeps(m, steps);
    WaitingIsProper(m);
    ReportedPosition(m, id);
    ReportedPosition(Run(m, steps), id);
    JobIdsAt(StartsSince(m, Run(m, steps)));
    BoundedWaiting(Abs(m.world.store.jobs), RunOps(m, steps), id);
  }

  /** A job at position k that starts is preceded by at most k - 1 other starts. */
  lemma StartsInTurn(m: Moment, steps: seq<Step>, id: JobId, p: nat)
    requires Sound(m) && EnabledRun(m, steps) && IsQueued(m.world.store.jobs, id)
    requires m.world.store.starts <= Run(m, steps).world.store.starts
    requires p < |StartsSince(m, Run(m, steps))| && StartsSince(m, Run(m, steps))[p].jobId == id
    ensures p < QueuePosition(m.world.store.jobs, id)
  {
    hide Inv, Abs, DoAll, Served, QueuePosition, IsQueued;
    RunRefinesQueue(m, steps);
    WaitingIsProper(m);
    ReportedPosition(m, id);
    JobIdsAt(StartsSince(m, Run(m, steps)));
    ServedInTurn(Abs(m.world.store.jobs), RunOps(m, steps), id, p);
  }

  /** While an earlier job waits, no later one is started. */
  lemma NobodyOvertakes(m: Moment, steps: seq<Step>, a: JobId, b: JobId)
    requires Sound(m) && EnabledRun(m, steps)
    requires IsQueued(m.world.store.jobs, a) && IsQueued(m.world.store.jobs, b)
    requires QueuePosition(m.world.store.jobs, a) < QueuePosition(m.world.store.jobs, b)
    requires IsQueued(Run(m, steps).world.store.jobs, a)
    ensures m.world.store.starts <= Run(m, steps).world.store.starts
    ensures forall k :: 0 <= k < |StartsSince(m, Run(m, steps))| ==> StartsSince(m, Run(m, steps))[k].jobId != b
  {
    hide Inv, Abs, DoAll, Served, QueuePosition, IsQueued;
    RunRefinesQueue(m, steps);
    RunKeeps(m, steps);
    WaitingIsProper(m);
    ReportedPosition(m, a);
    ReportedPosition(m, b);
    ReportedPosition(Run(m, steps), a);
    var since := StartsSince(m, Run(m, steps));
    JobIdsAt(since);
    var q := Abs(m.world.store.jobs);
    assert q.waiting[Position(q.waiting, a)] == a && q.waiting[Position(q.waiting, b)] == b;
    NoOvertaking(q, RunOps(m, steps), a, b);
    forall k | 0 <= k < |since|
      ensures since[k].jobId != b
    {
      assert JobIds(since)[k] == since[k].jobId;
    }
  }
}
