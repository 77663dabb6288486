/** The dataset cache next to the running service: what a training container has mounted is not evicted under it. */
module MountedDataset {
  import opened Models
  import opened JobStore
  import opened ControlPlane
  import opened Invariants
  import opened Preservation
  import opened Runs
  import opened History
  import opened Cancellation
  import opened Drain
  import opened FifoRefinement
  import opened PathEncoding
  import opened DiskManager
  import opened DatasetFetcher
  import opened Scenarios
  import opened ContainerExclusion

  /** A poll that starts a job has first found the GPU free. */
  lemma StartFindsGpuFree(m: Moment, step: Step, i: nat)
    requires Sound(m) && Enabled(m, step) && OnGpu(m.world.store.jobs, i) && NewStarts(m.world, step) != []
    ensures !OnGpu(Next(m, step).world.store.jobs, i)
  {
    hide Inv, StartJob, CrashedStart, ListByStatuses;
    var inp := step.poll;
    var ready := ProcessCancellations(m.world, inp.cancelAt);
    CancellationsKeep(m.world, inp.cancelAt, m.clock, m.lost);
    CancelledJobs(m.world, inp.cancelAt);
    var n := NextIsFirstQueued(ready, m.clock, m.lost);
    assert ready.store.jobs[i].status !in ON_GPU;
    RestOfPollFreezes(m.world, inp, m.clock, m.lost, i);
  }

  /** From the moment a job is on the GPU until it leaves it, in any run, no other job is started. */
  lemma {:induction false} NothingStartsMeanwhile(m: Moment, steps: seq<Step>, i: nat, k: nat)
    requires Sound(m) && EnabledRun(m, steps) && k < |steps|
    requires OnGpu(m.world.store.jobs, i) && OnGpu(Run(m, steps).world.store.jobs, i)
    ensures NewStarts(Run(m, steps[..k]).world, steps[k]) == []
  {
    hide Inv, Next, Enabled, NewStarts, OnGpu;
    var init, last := steps[..|steps| - 1], steps[|steps| - 1];
    RunKeeps(m, init);
    StaysOnGpu(m, init, last, i);
    if k == |steps| - 1 {
      if NewStarts(Run(m, init).world, last) != [] {
        StartFindsGpuFree(Run(m, init), last, i);
      }
    } else {
      NothingStartsMeanwhile(m, init, i, k);
      assert init[..k] == steps[..k];
    }
  }

  lemma StaysOnGpu(m: Moment, init: seq<Step>, last: Step, i: nat)
    requires Sound(m) && EnabledRun(m, init) && Sound(Run(m, init)) && Enabled(Run(m, init), last)
    requires OnGpu(m.world.store.jobs, i) && OnGpu(Next(Run(m, init), last).world.store.jobs, i)
    ensures OnGpu(Run(m, init).world.store.jobs, i)
  {
    hide Inv, Next, Enabled;
    LeavesOnlyForGood(m, init, i);
    StepGrows(Run(m, init), last);
    assert JobGrows(Run(m, init).world.store.jobs[i], Next(Run(m, init), last).world.store.jobs[i]);
  }

  // ---- the cache over a run of the service --------------------------------------------------

  /** A start may do to the cache what any fetch does, complete or cut short; a restart cleans up; nothing else
      touches it. */
  ghost predicate CacheMoves(hub: Hub, cap: int, w: World, step: Step, before: Cache, after: Cache) {
    if NewStarts(w, step) != [] then exists c: CacheStep :: !c.CleanUp? && CacheNext(hub, cap, c, before, after)
    else if step.Restart? then exists olderThan, now :: CacheNext(hub, cap, CleanUp(olderThan, now), before, after)
    else after == before
  }

  ghost predicate CacheFollows(hub: Hub, cap: int, m: Moment, steps: seq<Step>, states: seq<Cache>) {
    && |states| == |steps| + 1
    && forall k :: 0 <= k < |steps| ==>
         CacheMoves(hub, cap, Run(m, steps[..k]).world, steps[k], states[k], states[k + 1])
  }

  /** While a job is on the GPU every finished entry of the cache stays as it is, so the one it has mounted does. */
  lemma {:induction false} MountedStays(hub: Hub, cap: int, m: Moment, steps: seq<Step>, states: seq<Cache>, i: nat,
      name: string, k: nat)
    requires Sound(m) && EnabledRun(m, steps) && CacheFollows(hub, cap, m, steps, states) && k <= |steps|
    requires OnGpu(m.world.store.jobs, i) && OnGpu(Run(m, steps).world.store.jobs, i)
    requires name in states[0] && !IsTmp(name)
    ensures name in states[k] && states[k][name] == states[0][name]
  {
    hide Inv, Run, EnabledRun, NewStarts, OnGpu, IsTmp;
    if k > 0 {
      MountedStays(hub, cap, m, steps, states, i, name, k - 1);
      NothingStartsMeanwhile(m, steps, i, k - 1);
      assert CacheMoves(hub, cap, Run(m, steps[..k - 1]).world, steps[k - 1], states[k - 1], states[k]);
    }
  }

  // ---- after a sweep that leaves the container running ---------------------------------------

  const FIRST_REPO: string := RepoOf(FIRST_USER)
  const SECOND_REPO: string := RepoOf(SECOND_USER)
  const CONTENTS: Files := map["data" := "x"]
  const HUB: Hub := map[FIRST_REPO := CONTENTS, SECOND_REPO := CONTENTS]
  const CAP: nat := 1  // room for one of the two

  function FirstCache(): Cache {
    map[FinalName(FIRST_REPO) := Directory(CONTENTS, 0)]
  }

  function SecondCache(): Cache {
    map[FinalName(SECOND_REPO) := Directory(CONTENTS, LATE)]
  }

  lemma ShortIsNotTmp(name: string)
    requires |name| < |TMP_SUFFIX|
    ensures !IsTmp(name)
  {
  }

  lemma ContentsSize()
    ensures Size(CONTENTS) == 1
  {
    SizeWithout(CONTENTS, "data");
    assert CONTENTS - {"data"} == map[];
  }

  lemma FirstFetch()
    ensures CacheNext(HUB, CAP, Fetch(FIRST_REPO, 0, 0), map[], FirstCache())
  {
    hide FinalName, TmpName, IsTmp, Size;
    Repos();
    ContentsSize();
    var order := [CacheEntry(FinalName(FIRST_REPO), 1, 0)];
    assert map[] + CONTENTS == CONTENTS;
    assert Published(map[], FIRST_REPO, CONTENTS, 0) == FirstCache();
    assert order[0..] == order && order[1..] == [] && order[..0] == [];
    assert Names(order[..0]) == {};
    assert Total(order[0..]) == 1;
    assert Evicted(FirstCache(), FirstCache(), CAP, order, 0);
    assert Fetches(HUB, CAP, map[], FirstCache(), FIRST_REPO, 0, 0, order, 0);
  }

  function BothCached(): Cache {
    FirstCache()[FinalName(SECOND_REPO) := Directory(CONTENTS, LATE)]
  }

  lemma SecondPublished()
    ensures Published(FirstCache(), SECOND_REPO, CONTENTS, LATE) == BothCached()
  {
    hide FinalName, TmpName;
    Repos();
    assert map[] + CONTENTS == CONTENTS;
  }

  /** The second dataset does not fit next to the first, which is older. */
  lemma FirstEvicted() returns (order: seq<CacheEntry>)
    ensures Evicted(BothCached(), SecondCache(), CAP, order, 1)
  {
    hide FinalName, TmpName, IsTmp, Size;
    Repos();
    ContentsSize();
    var first, second := CacheEntry(FinalName(FIRST_REPO), 1, 0), CacheEntry(FinalName(SECOND_REPO), 1, LATE);
    order := [first, second];
    assert order[0..] == order && order[1..] == [second] && [second][1..] == [] && order[..1] == [first];
    assert Names(order[..1]) == {FinalName(FIRST_REPO)};
    assert Total([second]) == 1 && Total(order) == 2;
    assert SecondCache() == BothCached() - {FinalName(FIRST_REPO)};
  }

  lemma SecondFetch()
    ensures CacheNext(HUB, CAP, Fetch(SECOND_REPO, LATE, LATE), FirstCache(), SecondCache())
  {
    hide FinalName, TmpName, IsTmp, Published, Evicted;
    Repos();
    SecondPublished();
    var order := FirstEvicted();
    assert Fetches(HUB, CAP, FirstCache(), SecondCache(), SECOND_REPO, LATE, LATE, order, 1);
  }

  lemma Repos()
    ensures FinalName(FIRST_REPO) != FinalName(SECOND_REPO)
    ensures !IsTmp(FinalName(FIRST_REPO)) && !IsTmp(FinalName(SECOND_REPO))
    ensures FinalName(FIRST_REPO) != TmpName(SECOND_REPO) && FinalName(SECOND_REPO) != TmpName(SECOND_REPO)
  {
    hide FinalName, TmpName, IsTmp;
    assert IsCleanPair("owner", FIRST_USER) && FIRST_REPO == Join("owner", FIRST_USER) by {
      ShortIsNotTmp(FIRST_USER);
    }
    assert IsCleanPair("owner", SECOND_USER) && SECOND_REPO == Join("owner", SECOND_USER) by {
      ShortIsNotTmp(SECOND_USER);
    }
    assert FIRST_REPO[6] == 'u' && SECOND_REPO[6] == 'v';
    CacheableNames(FIRST_REPO, SECOND_REPO);
    CacheableNames(SECOND_REPO, SECOND_REPO);
  }

  function CacheStates(): seq<Cache> {
    [map[], map[], map[], map[], map[], FirstCache(), FirstCache(), SecondCache()]
  }

  /** A run of two users in which the sweep fails the first job, its container goes on running, and the dataset it
      has mounted is evicted by the fetch for the second. */
  lemma MountedEvicted()
    ensures EnabledRun(Begin(0), TWO_STARTS) && CacheFollows(HUB, CAP, Begin(0), TWO_STARTS, CacheStates())
    ensures var w := Run(Begin(0), TWO_STARTS).world;
      && w.store.jobs != [] && w.store.jobs[0].sourceRef == FIRST_REPO
      && ContainerRuns(w, w.store.jobs[0])
      && FinalName(FIRST_REPO) in CacheStates()[|STARTED|]
      && FinalName(FIRST_REPO) !in CacheStates()[|TWO_STARTS|]
  {
    hide Inv, Run, EnabledRun, CacheMoves, FinalName, RunningLabelled;
    TwoContainers();
    Repos();
    FirstJobAfter();
    forall k | 0 <= k < |TWO_STARTS|
      ensures CacheMoves(HUB, CAP, Run(Begin(0), TWO_STARTS[..k]).world, TWO_STARTS[k], CacheStates()[k],
        CacheStates()[k + 1])
    {
      if k == 4 {
        assert TWO_STARTS[..4] == OPENING;
        FirstMove();
      } else if k == 6 {
        assert TWO_STARTS[..6] == STARTED + [TimeoutSweep(LATE)];
        SecondMove();
      } else {
        NoMove(Run(Begin(0), TWO_STARTS[..k]).world, TWO_STARTS[k], CacheStates()[k]);
      }
    }
  }

  lemma NoMove(w: World, step: Step, cache: Cache)
    requires step.Register? || step.Create? || step.TimeoutSweep?
    ensures CacheMoves(HUB, CAP, w, step, cache, cache)
  {
  }

  lemma FirstMove()
    ensures CacheMoves(HUB, CAP, Run(Begin(0), OPENING).world, Poll(PollAt(0, FIRST_CONTAINER)), map[], FirstCache())
  {
    hide Inv, Run, EnabledRun, ProcessCancellations, NextToStart, CacheNext;
    AfterOpening();
    HeadStarts(Run(Begin(0), OPENING), 0, 0);
    FirstFetch();
  }

  lemma SecondMove()
    ensures CacheMoves(HUB, CAP, Run(Begin(0), STARTED + [TimeoutSweep(LATE)]).world,
                       Poll(PollAt(LATE, SECOND_CONTAINER)), FirstCache(), SecondCache())
  {
    hide Inv, Run, EnabledRun, ProcessCancellations, NextToStart, CacheNext;
    SecondWaits();
    HeadStarts(Run(Begin(0), STARTED + [TimeoutSweep(LATE)]), LATE, 1);
    SecondFetch();
  }
}
