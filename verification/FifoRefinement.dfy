/** The job store is a first-come-first-served queue for a single server. */
module FifoRefinement {
  import opened Models
  import opened JobStore
  import opened ControlPlane
  import opened Invariants
  import opened Preservation
  import opened Runs
  import opened History
  import opened FifoQueue

  // ---- the abstraction ----------------------------------------------------------------------

  function Ids(jobs: seq<Job>): seq<JobId> {
    if jobs == [] then [] else Ids(jobs[..|jobs| - 1]) + [jobs[|jobs| - 1].id]
  }

  function Waiting(jobs: seq<Job>): seq<JobId> {
    Ids(Select(jobs, QUEUED))
  }

  function Serving(jobs: seq<Job>): Option<JobId> {
    var onGpu := Select(jobs, ON_GPU);
    if onGpu == [] then None else Some(onGpu[0].id)
  }

  function Done(jobs: seq<Job>): set<JobId> {
    set i | 0 <= i < |jobs| && jobs[i].status !in ACTIVE :: jobs[i].id
  }

  function Abs(jobs: seq<Job>): Queue {
    Queue(Waiting(jobs), Serving(jobs), Done(jobs))
  }

  lemma {:induction false} IdsConcat(a: seq<Job>, b: seq<Job>)
    ensures Ids(a + b) == Ids(a) + Ids(b)
  {
    if b == [] {
      assert a + b == a;
    } else {
      assert (a + b)[..|a + b| - 1] == a + b[..|b| - 1];
      IdsConcat(a, b[..|b| - 1]);
    }
  }

  lemma {:induction false} IdsAt(jobs: seq<Job>)
    ensures |Ids(jobs)| == |jobs| && forall k :: 0 <= k < |jobs| ==> Ids(jobs)[k] == jobs[k].id
  {
    if jobs != [] {
      IdsAt(jobs[..|jobs| - 1]);
    }
  }

  lemma WaitingAt(jobs: seq<Job>, i: nat)
    requires i < |jobs|
    ensures Waiting(jobs) ==
      Waiting(jobs[..i]) + (if jobs[i].status == Queued then [jobs[i].id] else []) + Waiting(jobs[i + 1..])
  {
    var at := if jobs[i].status == Queued then [jobs[i]] else [];
    SelectAt(jobs, QUEUED, i);
    IdsConcat(Select(jobs[..i], QUEUED) + at, Select(jobs[i + 1..], QUEUED));
    IdsConcat(Select(jobs[..i], QUEUED), at);
    assert at != [] ==> at[..0] == [];
  }

  lemma WaitingIff(jobs: seq<Job>, id: JobId)
    ensures id in Waiting(jobs) <==> exists i :: 0 <= i < |jobs| && jobs[i].id == id && jobs[i].status == Queued
  {
    var queued := Select(jobs, QUEUED);
    IdsAt(queued);
    if id in Waiting(jobs) {
      var k :| 0 <= k < |queued| && queued[k].id == id;
      InSelect(jobs, QUEUED, queued[k]);
    }
    forall i | 0 <= i < |jobs| && jobs[i].id == id && jobs[i].status == Queued
      ensures id in Waiting(jobs)
    {
      InSelect(jobs, QUEUED, jobs[i]);
      var k :| 0 <= k < |queued| && queued[k] == jobs[i];
    }
  }

  lemma ServingNone(jobs: seq<Job>)
    ensures Serving(jobs).None? <==> forall i :: 0 <= i < |jobs| ==> jobs[i].status !in ON_GPU
  {
    NoneSelected(jobs, ON_GPU);
  }

  lemma ServingIs(jobs: seq<Job>, i: nat)
    requires SingleServer(jobs) && i < |jobs| && jobs[i].status in ON_GPU
    ensures Serving(jobs) == Some(jobs[i].id)
  {
    NoneSelected(jobs, ON_GPU);
    var k := FirstSelected(jobs, ON_GPU);
    assert k == i;
  }

  // ---- how edits look from the queue --------------------------------------------------------

  ghost predicate SameClass(a: Job, b: Job) {
    b.id == a.id && (a.status == Queued <==> b.status == Queued) && (a.status in ON_GPU <==> b.status in ON_GPU)
  }

  lemma WaitingEdited(jobs: seq<Job>, i: nat, job: Job)
    requires i < |jobs| && job.id == jobs[i].id
    ensures jobs[i].status != Queued && job.status != Queued ==> Waiting(jobs[i := job]) == Waiting(jobs)
    ensures jobs[i].status == Queued && job.status == Queued ==> Waiting(jobs[i := job]) == Waiting(jobs)
    ensures Select(jobs[..i], QUEUED) == [] && jobs[i].status == Queued && job.status != Queued ==>
      Waiting(jobs) == [job.id] + Waiting(jobs[i := job])
  {
    WaitingAt(jobs, i);
    WaitingAt(jobs[i := job], i);
    assert jobs[i := job][..i] == jobs[..i] && jobs[i := job][i + 1..] == jobs[i + 1..];
  }

  lemma DoneEdited(jobs: seq<Job>, i: nat, job: Job)
    requires i < |jobs| && job.id == jobs[i].id && jobs[i].status in ACTIVE
    ensures Done(jobs[i := job]) == Done(jobs) + if job.status in ACTIVE then {} else {job.id}
  {
    var edited := jobs[i := job];
    forall k | 0 <= k < |jobs| && jobs[k].status !in ACTIVE
      ensures jobs[k].id in Done(edited)
    {
      assert edited[k] == jobs[k];
    }
    if job.status !in ACTIVE {
      assert edited[i].id in Done(edited);
    }
  }

  /** An edit within one class is invisible. */
  lemma EditStutters(jobs: seq<Job>, i: nat, job: Job)
    requires SingleServer(jobs) && i < |jobs| && SameClass(jobs[i], job) && jobs[i].status in ACTIVE
    ensures Abs(jobs[i := job]) == Abs(jobs) && SingleServer(jobs[i := job])
  {
    var edited := jobs[i := job];
    WaitingEdited(jobs, i, job);
    DoneEdited(jobs, i, job);
    SameServing(jobs, edited);
  }

  lemma SameServing(a: seq<Job>, b: seq<Job>)
    requires |a| == |b| && SingleServer(a)
    requires forall k :: 0 <= k < |a| ==> b[k].id == a[k].id && (a[k].status in ON_GPU <==> b[k].status in ON_GPU)
    ensures Serving(b) == Serving(a) && SingleServer(b)
  {
    ServingNone(a);
    ServingNone(b);
    if k :| 0 <= k < |a| && a[k].status in ON_GPU {
      assert b[k].status in ON_GPU;
      ServingIs(a, k);
      ServingIs(b, k);
    }
  }

  /** The first queued document moves onto the free GPU. */
  lemma EditServes(jobs: seq<Job>, i: nat, job: Job)
    requires i < |jobs| && job.id == jobs[i].id && jobs[i].status == Queued && job.status in ON_GPU
    requires Select(jobs[..i], QUEUED) == [] && forall k :: 0 <= k < |jobs| ==> jobs[k].status !in ON_GPU
    ensures SingleServer(jobs[i := job])
    ensures Abs(jobs).waiting != [] && Abs(jobs).waiting[0] == job.id
    ensures Legal(Abs(jobs), Serve) && Abs(jobs[i := job]) == Do(Abs(jobs), Serve)
  {
    WaitingEdited(jobs, i, job);
    DoneEdited(jobs, i, job);
    ServingNone(jobs);
    ServingIs(jobs[i := job], i);
  }

  /** The document on the GPU reaches a terminal status. */
  lemma EditFinishes(jobs: seq<Job>, i: nat, job: Job)
    requires SingleServer(jobs) && i < |jobs| && job.id == jobs[i].id && jobs[i].status in ON_GPU
      && job.status !in ACTIVE
    ensures SingleServer(jobs[i := job])
    ensures Legal(Abs(jobs), Finish) && Abs(jobs[i := job]) == Do(Abs(jobs), Finish)
  {
    WaitingEdited(jobs, i, job);
    DoneEdited(jobs, i, job);
    ServingIs(jobs, i);
    ServingNone(jobs[i := job]);
    assert forall k :: 0 <= k < |jobs| && k != i ==> jobs[k].status !in ON_GPU;
  }

  lemma ServingKnown(jobs: seq<Job>)
    ensures Serving(jobs).Some? ==> Known(jobs, Serving(jobs).value)
  {
    if Select(jobs, ON_GPU) != [] {
      var k := FirstSelected(jobs, ON_GPU);
      assert Known(jobs, jobs[k].id);
    }
  }

  lemma WaitingAppended(jobs: seq<Job>, job: Job)
    requires job.status == Queued
    ensures Waiting(jobs + [job]) == Waiting(jobs) + [job.id]
  {
    WaitingAt(jobs + [job], |jobs|);
    assert (jobs + [job])[..|jobs|] == jobs && (jobs + [job])[|jobs| + 1..] == [];
  }

  lemma DoneAppended(jobs: seq<Job>, job: Job)
    requires job.status == Queued
    ensures Done(jobs + [job]) == Done(jobs)
  {
    var longer := jobs + [job];
    assert forall k :: 0 <= k < |jobs| ==> longer[k] == jobs[k];
  }

  lemma ServingAppended(jobs: seq<Job>, job: Job)
    requires job.status == Queued
    ensures Serving(jobs + [job]) == Serving(jobs)
  {
    hide Select;
    SelectConcat(jobs, [job], ON_GPU);
    SelectOne(job, ON_GPU);
  }

  lemma UnknownIsNowhere(jobs: seq<Job>, id: JobId)
    requires !Known(jobs, id)
    ensures id !in Waiting(jobs) && Serving(jobs) != Some(id) && id !in Done(jobs)
  {
    hide Waiting, Serving;
    WaitingIff(jobs, id);
    ServingKnown(jobs);
  }

  lemma Appends(jobs: seq<Job>, job: Job)
    requires !Known(jobs, job.id) && job.status == Queued
    ensures Legal(Abs(jobs), Enqueue(job.id)) && Abs(jobs + [job]) == Do(Abs(jobs), Enqueue(job.id))
  {
    hide Waiting, Serving, Done, Known;
    WaitingAppended(jobs, job);
    DoneAppended(jobs, job);
    ServingAppended(jobs, job);
    UnknownIsNowhere(jobs, job.id);
  }

  // ---- batches ------------------------------------------------------------------------------

  function WithdrawnIds(jobs: seq<Job>): set<JobId> {
    set i | 0 <= i < |jobs| && jobs[i].status == Queued && jobs[i].cancelRequested :: jobs[i].id
  }

  function BatchWithdraws(jobs: seq<Job>, b: Batch): set<JobId> {
    if b.Cancellations? then WithdrawnIds(jobs) else {}
  }

  /** Whether the batch ends the job on the GPU. */
  function BatchFinishes(jobs: seq<Job>, b: Batch): bool {
    var onGpu := Select(jobs, ON_GPU);
    onGpu != [] && Applied(b, onGpu[0]).status !in ON_GPU
  }

  lemma {:induction false} BatchWaiting(jobs: seq<Job>, b: Batch, gone: set<JobId>)
    requires forall i :: 0 <= i < |jobs| && jobs[i].status == Queued ==>
      (jobs[i].id in gone <==> Applied(b, jobs[i]).status != Queued)
    ensures Waiting(RewrittenJobs(jobs, b)) == Without(Waiting(jobs), gone)
  {
    hide Waiting, Without;
    var after := RewrittenJobs(jobs, b);
    EmptyLine(gone);
    if jobs != [] {
      var init, last := jobs[..|jobs| - 1], jobs[|jobs| - 1];
      BatchWaiting(init, b, gone);
      assert after[..|after| - 1] == RewrittenJobs(init, b);
      WaitingLast(jobs);
      WaitingLast(after);
      WithoutLast(Waiting(init), last.id, gone);
    }
  }

  lemma EmptyLine(gone: set<JobId>)
    ensures Waiting([]) == [] && Without([], gone) == []
  {
  }

  lemma WaitingLast(jobs: seq<Job>)
    requires jobs != []
    ensures jobs[|jobs| - 1].status == Queued ==> Waiting(jobs) == Waiting(jobs[..|jobs| - 1]) + [jobs[|jobs| - 1].id]
    ensures jobs[|jobs| - 1].status != Queued ==> Waiting(jobs) == Waiting(jobs[..|jobs| - 1])
  {
    WaitingAt(jobs, |jobs| - 1);
    assert jobs[|jobs| - 1 + 1..] == [];
  }

  lemma BatchServing(jobs: seq<Job>, b: Batch)
    requires SingleServer(jobs)
    ensures Serving(RewrittenJobs(jobs, b)) == if BatchFinishes(jobs, b) then None else Serving(jobs)
    ensures BatchFinishes(jobs, b) ==> Serving(jobs).Some?
    ensures SingleServer(RewrittenJobs(jobs, b))
  {
    hide Select;
    var after := RewrittenJobs(jobs, b);
    assert forall k :: 0 <= k < |jobs| && after[k].status in ON_GPU ==> jobs[k].status in ON_GPU;
    ServingNone(jobs);
    ServingNone(after);
    if k :| 0 <= k < |jobs| && jobs[k].status in ON_GPU {
      ServingIs(jobs, k);
      NoneSelected(jobs, ON_GPU);
      var f := FirstSelected(jobs, ON_GPU);
      assert f == k;
      if after[k].status in ON_GPU {
        ServingIs(after, k);
      }
    }
  }

  function FinishedIds(jobs: seq<Job>, b: Batch): set<JobId> {
    if BatchFinishes(jobs, b) then {Select(jobs, ON_GPU)[0].id} else {}
  }

  lemma FinishedIsServed(jobs: seq<Job>, b: Batch, k: nat)
    requires SingleServer(jobs) && k < |jobs| && jobs[k].status in ON_GPU
    ensures FinishedIds(jobs, b) == if Applied(b, jobs[k]).status in ON_GPU then {} else {jobs[k].id}
  {
    NoneSelected(jobs, ON_GPU);
    var f := FirstSelected(jobs, ON_GPU);
    assert f == k;
  }

  lemma BatchDone(jobs: seq<Job>, b: Batch)
    requires SingleServer(jobs)
    ensures Done(RewrittenJobs(jobs, b)) == Done(jobs) + BatchWithdraws(jobs, b) + FinishedIds(jobs, b)
  {
    hide Select;
    var after, all := RewrittenJobs(jobs, b), Done(jobs) + BatchWithdraws(jobs, b) + FinishedIds(jobs, b);
    forall k | 0 <= k < |jobs|
      ensures after[k].status !in ACTIVE ==> jobs[k].id in all
    {
      if jobs[k].status in ON_GPU {
        FinishedIsServed(jobs, b, k);
      }
    }
    forall id | id in all
      ensures id in Done(after)
    {
      var k: nat;
      if id in FinishedIds(jobs, b) {
        NoneSelected(jobs, ON_GPU);
        k := FirstSelected(jobs, ON_GPU);
      } else if id in Done(jobs) {
        k :| 0 <= k < |jobs| && jobs[k].status !in ACTIVE && jobs[k].id == id;
      } else {
        k :| 0 <= k < |jobs| && jobs[k].status == Queued && jobs[k].cancelRequested && jobs[k].id == id;
      }
      assert after[k].status !in ACTIVE && after[k].id == id;
    }
  }

  function BatchOps(jobs: seq<Job>, b: Batch): seq<Op> {
    [Withdraw(BatchWithdraws(jobs, b))] + if BatchFinishes(jobs, b) then [Finish] else []
  }

  /** A cancellation batch withdraws the cancelled from the line and may end the job being served; a sweep only the
      latter. */
  lemma BatchSimulates(jobs: seq<Job>, b: Batch)
    requires DistinctIds(jobs) && SingleServer(jobs)
    ensures DoAll(Abs(jobs), BatchOps(jobs, b)) == Some(Abs(RewrittenJobs(jobs, b)))
    ensures Served(Abs(jobs), BatchOps(jobs, b)) == []
  {
    var q, gone := Abs(jobs), BatchWithdraws(jobs, b);
    forall id | id in gone
      ensures id in q.waiting
    {
      WaitingIff(jobs, id);
    }
    BatchWaiting(jobs, b, gone);
    BatchServing(jobs, b);
    BatchDone(jobs, b);
    OneOp(q, Withdraw(gone));
    var withdrawn := Do(q, Withdraw(gone));
    assert Abs(RewrittenJobs(jobs, b)) == if BatchFinishes(jobs, b) then Do(withdrawn, Finish) else withdrawn by {
      NoneSelected(jobs, ON_GPU);
    }
    if BatchFinishes(jobs, b) {
      OneOp(withdrawn, Finish);
      DoAllConcat(q, [Withdraw(gone)], [Finish]);
    } else {
      assert BatchOps(jobs, b) == [Withdraw(gone)];
    }
  }

  lemma OneOp(q: Queue, op: Op)
    requires Legal(q, op)
    ensures DoAll(q, [op]) == Some(Do(q, op))
    ensures Served(q, [op]) == if op.Serve? then [q.waiting[0]] else []
  {
  }

  // ---- the operations of every step ---------------------------------------------------------

  function StartOps(w: World, inp: PollInputs, crashed: bool): seq<Op> {
    match NextToStart(w)
    case None => []
    case Some(job) => [Serve] + if !crashed && StartResult(job, inp).status == Failed then [Finish] else []
  }

  function OpsOf(w: World, step: Step): seq<Op> {
    match step
    case Create(request, id, checkedAt, createdAt) =>
      if CreateJob(w, request, id, checkedAt, createdAt).result.Ok? then [Enqueue(id)] else []
    case TimeoutSweep(at) => BatchOps(w.store.jobs, Timeouts(at))
    case Poll(inp) =>
      BatchOps(w.store.jobs, Cancellations(inp.cancelAt)) + StartOps(ProcessCancellations(w, inp.cancelAt), inp, false)
    case CrashDuringPoll(inp, _) =>
      BatchOps(w.store.jobs, Cancellations(inp.cancelAt)) + StartOps(ProcessCancellations(w, inp.cancelAt), inp, true)
    case Monitor(inp) =>
      var onGpu := Select(w.store.jobs, ON_GPU);
      if onGpu != [] && ExitCode(w.containers, onGpu[0].containerId).Some? then [Finish] else []
    case _ => []
  }

  lemma StartSimulates(jobs: seq<Job>, i: nat, inp: PollInputs, crashed: bool)
    requires SingleServer(jobs) && i < |jobs| && jobs[i].status == Queued
    requires Select(jobs[..i], QUEUED) == [] && forall k :: 0 <= k < |jobs| ==> jobs[k].status !in ON_GPU
    ensures var final := if crashed then Started(jobs[i], inp.startAt) else StartResult(jobs[i], inp);
            var ops := [Serve] + if !crashed && StartResult(jobs[i], inp).status == Failed then [Finish] else [];
      && DoAll(Abs(jobs), ops) == Some(Abs(jobs[i := final]))
      && Served(Abs(jobs), ops) == [jobs[i].id]
  {
    hide Abs, DoAll, Served, Select, SingleServer;
    var started := Started(jobs[i], inp.startAt);
    var mid := jobs[i := started];
    EditServes(jobs, i, started);
    OneOp(Abs(jobs), Serve);
    assert [Serve] + [] == [Serve];
    if !crashed {
      var final := StartResult(jobs[i], inp);
      assert mid[i := final] == jobs[i := final];
      if final.status == Failed {
        EditFinishes(mid, i, final);
        OneOp(Abs(mid), Finish);
        DoAllConcat(Abs(jobs), [Serve], [Finish]);
      } else {
        EditStutters(mid, i, final);
      }
    }
  }

  lemma PollSimulates(w: World, inp: PollInputs, now: Time, lost: seq<Start>)
    requires Inv(w, now, lost) && now == inp.startAt && (inp.run.Launched? ==> inp.run.containerId !in w.containers)
    ensures DoAll(Abs(w.store.jobs), OpsOf(w, Poll(inp))) == Some(Abs(PollTick(w, inp).world.store.jobs))
    ensures Served(Abs(w.store.jobs), OpsOf(w, Poll(inp))) == JobIds(StartedBy(w, inp))
  {
    hide Inv, Abs, StartJob, CrashedStart, BatchOps, DoAll, Served, StartResult, ProcessCancellations, JobIds,
      SingleServer, DistinctIds, Select, ListByStatuses;
    var ready := ProcessCancellations(w, inp.cancelAt);
    Structure(w, now, lost);
    CancellationsKeep(w, inp.cancelAt, now, lost);
    Structure(ready, now, lost);
    BatchSimulates(w.store.jobs, Cancellations(inp.cancelAt));
    CancelledJobs(w, inp.cancelAt);
    var first := BatchOps(w.store.jobs, Cancellations(inp.cancelAt));
    if NextToStart(ready).Some? {
      var i := NextIsFirstQueued(ready, now, lost);
      StartJobs(ready, i, inp);
      StartSimulates(ready.store.jobs, i, inp, false);
      DoAllConcat(Abs(w.store.jobs), first, StartOps(ready, inp, false));
      OneId(StartOf(Started(ready.store.jobs[i], inp.startAt)));
    } else {
      assert first + [] == first;
      NoIds();
    }
  }

  lemma CrashSimulates(w: World, inp: PollInputs, point: CrashPoint, now: Time, lost: seq<Start>)
    requires Inv(w, now, lost) && now == inp.startAt && (inp.run.Launched? ==> inp.run.containerId !in w.containers)
    ensures DoAll(Abs(w.store.jobs), OpsOf(w, CrashDuringPoll(inp, point))) ==
      Some(Abs(CrashedPoll(w, inp, point).store.jobs))
    ensures Served(Abs(w.store.jobs), OpsOf(w, CrashDuringPoll(inp, point))) == JobIds(StartedBy(w, inp))
  {
    hide Inv, Abs, StartJob, CrashedStart, BatchOps, DoAll, Served, StartResult, ProcessCancellations, JobIds,
      SingleServer, DistinctIds, Select, ListByStatuses;
    var ready := ProcessCancellations(w, inp.cancelAt);
    Structure(w, now, lost);
    CancellationsKeep(w, inp.cancelAt, now, lost);
    Structure(ready, now, lost);
    BatchSimulates(w.store.jobs, Cancellations(inp.cancelAt));
    CancelledJobs(w, inp.cancelAt);
    var first := BatchOps(w.store.jobs, Cancellations(inp.cancelAt));
    if NextToStart(ready).Some? {
      var i := NextIsFirstQueued(ready, now, lost);
      CrashedStartJobs(ready, i, inp, point);
      StartSimulates(ready.store.jobs, i, inp, true);
      DoAllConcat(Abs(w.store.jobs), first, StartOps(ready, inp, true));
      OneId(StartOf(Started(ready.store.jobs[i], inp.startAt)));
    } else {
      assert first + [] == first;
      NoIds();
    }
  }

  lemma StartJobs(w: World, i: nat, inp: PollInputs)
    requires DistinctIds(w.store.jobs) && i < |w.store.jobs| && w.store.jobs[i].status == Queued
      && w.store.jobs[i].userId in w.users
    ensures StartJob(w, w.store.jobs[i], inp).world.store.jobs == w.store.jobs[i := StartResult(w.store.jobs[i], inp)]
  {
    var job := Started(w.store.jobs[i], inp.startAt);
    PutReplaces(w.store, i, job);
    PutReplaces(Put(w.store, job), i, StartResult(w.store.jobs[i], inp));
  }

  lemma CrashedStartJobs(w: World, i: nat, inp: PollInputs, point: CrashPoint)
    requires DistinctIds(w.store.jobs) && i < |w.store.jobs| && w.store.jobs[i].status == Queued
      && w.store.jobs[i].userId in w.users
    ensures CrashedStart(w, w.store.jobs[i], inp, point).store.jobs ==
      w.store.jobs[i := Started(w.store.jobs[i], inp.startAt)]
  {
    PutReplaces(w.store, i, Started(w.store.jobs[i], inp.startAt));
  }

  function JobIds(starts: seq<Start>): seq<JobId> {
    if starts == [] then [] else JobIds(starts[..|starts| - 1]) + [starts[|starts| - 1].jobId]
  }

  lemma OneId(start: Start)
    ensures JobIds([start]) == [start.jobId]
  {
  }

  lemma NoIds()
    ensures JobIds([]) == []
  {
  }

  lemma MonitorSimulates(w: World, inp: MonitorInputs, now: Time, lost: seq<Start>)
    requires Inv(w, now, lost) && inp.heartbeatAt <= now
    ensures DoAll(Abs(w.store.jobs), OpsOf(w, Monitor(inp))) == Some(Abs(MonitorTick(w, inp).world.store.jobs))
    ensures Served(Abs(w.store.jobs), OpsOf(w, Monitor(inp))) == []
  {
    hide Inv, Abs, MonitorJob, MonitorResult, DoAll, Served;
    var jobs := w.store.jobs;
    Structure(w, now, lost);
    var i := MonitoredJob(w, now, lost);
    ServedFirst(jobs, i);
    if ListByStatuses(jobs, ON_GPU) != [] {
      MonitorJobKeeps(w, i, inp, now, lost);
      var exitCode := ExitCode(w.containers, jobs[i].containerId);
      if exitCode.Some? {
        MonitorFinishes(jobs[i], exitCode, inp);
        EditFinishes(jobs, i, MonitorResult(jobs[i], exitCode, inp));
        OneOp(Abs(jobs), Finish);
      } else {
        MonitorFinishes(jobs[i], exitCode, inp);
        EditStutters(jobs, i, MonitorResult(jobs[i], exitCode, inp));
        NothingDone(Abs(jobs));
      }
    } else {
      NothingDone(Abs(jobs));
    }
  }

  lemma NothingDone(q: Queue)
    ensures DoAll(q, []) == Some(q) && Served(q, []) == []
  {
  }

  lemma MonitorFinishes(job: Job, exitCode: Option<int>, inp: MonitorInputs)
    requires job.status in ON_GPU
    ensures exitCode.Some? ==>
      MonitorResult(job, exitCode, inp).id == job.id && MonitorResult(job, exitCode, inp).status !in ACTIVE
    ensures exitCode.None? ==> SameClass(job, MonitorResult(job, exitCode, inp))
  {
  }

  lemma ServedFirst(jobs: seq<Job>, i: nat)
    requires SingleServer(jobs)
    ensures Select(jobs, ON_GPU) == [] <==> forall k :: 0 <= k < |jobs| ==> jobs[k].status !in ON_GPU
    ensures i < |jobs| && jobs[i].status in ON_GPU ==> Select(jobs, ON_GPU) != [] && Select(jobs, ON_GPU)[0] == jobs[i]
  {
    NoneSelected(jobs, ON_GPU);
    if i < |jobs| && jobs[i].status in ON_GPU {
      var f := FirstSelected(jobs, ON_GPU);
      assert f == i;
    }
  }

  lemma CancelStutters(w: World, userId: UserId, jobId: JobId, at: Time, now: Time, lost: seq<Start>)
    requires Inv(w, now, lost)
    ensures Abs(CancelJob(w, userId, jobId, at).world.store.jobs) == Abs(w.store.jobs)
  {
    hide Inv, Abs;
    Structure(w, now, lost);
    if CancelJob(w, userId, jobId, at).result.Ok? {
      var i := IndexOf(w.store.jobs, jobId);
      PutReplaces(w.store, i, w.store.jobs[i].(cancelRequested := true, updatedAt := at));
      EditStutters(w.store.jobs, i, w.store.jobs[i].(cancelRequested := true, updatedAt := at));
    }
  }

  /** Every step of the service is a legal sequence of queue operations, and serves exactly the jobs it starts. */
  lemma StepSimulates(m: Moment, step: Step)
    requires Sound(m) && Enabled(m, step)
    ensures DoAll(Abs(m.world.store.jobs), OpsOf(m.world, step)) == Some(Abs(Next(m, step).world.store.jobs))
    ensures Served(Abs(m.world.store.jobs), OpsOf(m.world, step)) == JobIds(NewStarts(m.world, step))
  {
    hide Inv, Abs, PollTick, CrashedPoll, MonitorTick, BatchOps, CancelJob, CreateJob, Rewrite;
    var w := m.world;
    Structure(w, m.clock, m.lost);
    match step
    case Create(request, id, checkedAt, createdAt) =>
      CreateKeeps(w, request, id, checkedAt, createdAt, m.clock, m.lost);
      CreateSimulates(w, request, id, checkedAt, createdAt, m.clock, m.lost);
    case RequestCancel(userId, jobId, at) => CancelStutters(w, userId, jobId, at, m.clock, m.lost);
    case TimeoutSweep(at) =>
      BatchSimulates(w.store.jobs, Timeouts(at));
      SweptJobs(w, at);
    case Poll(inp) =>
      Later(w, m.clock, inp.startAt, m.lost);
      PollSimulates(w, inp, inp.startAt, m.lost);
    case CrashDuringPoll(inp, point) =>
      Later(w, m.clock, inp.startAt, m.lost);
      CrashSimulates(w, inp, point, inp.startAt, m.lost);
    case Monitor(inp) =>
      Later(w, m.clock, inp.heartbeatAt, m.lost);
      MonitorSimulates(w, inp, inp.heartbeatAt, m.lost);
    case _ =>
  }

  lemma CancelledJobs(w: World, at: Time)
    ensures ProcessCancellations(w, at).store.jobs == RewrittenJobs(w.store.jobs, Cancellations(at))
  {
  }

  lemma SweptJobs(w: World, at: Time)
    ensures Sweep(w, at).store.jobs == RewrittenJobs(w.store.jobs, Timeouts(at))
  {
  }

  lemma CreateSimulates(w: World, request: JobRequest, id: JobId, checkedAt: Time, createdAt: Time, now: Time,
      lost: seq<Start>)
    requires Inv(w, now, lost) && now <= checkedAt <= createdAt && !Known(w.store.jobs, id) && id !in w.dirs
    ensures var o := CreateJob(w, request, id, checkedAt, createdAt);
      var ops := if o.result.Ok? then [Enqueue(id)] else [];
      DoAll(Abs(w.store.jobs), ops) == Some(Abs(o.world.store.jobs)) && Served(Abs(w.store.jobs), ops) == []
  {
    hide Inv, Abs;
    Structure(w, now, lost);
    var o := CreateJob(w, request, id, checkedAt, createdAt);
    if o.result.Ok? {
      PutAppends(w.store, o.result.value);
      Appends(w.store.jobs, o.result.value);
      OneOp(Abs(w.store.jobs), Enqueue(id));
    }
  }
}
