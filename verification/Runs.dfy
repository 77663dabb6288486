/** Runs of the whole service: backend calls, worker ticks, crashes inside a start, restarts and containers,
    interleaved at will. */
module Runs {
  import opened Models
  import opened JobStore
  import opened ControlPlane
  import opened Invariants
  import opened Preservation

  datatype Step =
    | Register(userId: UserId)
    | Create(request: JobRequest, jobId: JobId, checkedAt: Time, createdAt: Time)
    | RequestCancel(requester: UserId, cancelled: JobId, at: Time)
    | TimeoutSweep(at: Time)
    | Poll(poll: PollInputs)
    | CrashDuringPoll(poll: PollInputs, point: CrashPoint)
    | Monitor(monitor: MonitorInputs)
    | Restart
    | ContainerStops(container: ContainerId, code: int)
    | ForeignContainer(container: ContainerId)

  /** The shared state, the clock, and the starts whose charge a crash swallowed so far. */
  datatype Moment = Moment(world: World, clock: Time, lost: seq<Start>)

  /** The premises of a step: one monotone clock, fresh ids from uuid and Docker. */
  predicate Enabled(m: Moment, step: Step) {
    match step
    case Register(u) => u !in m.world.users
    case Create(_, id, checkedAt, createdAt) =>
      m.clock <= checkedAt <= createdAt && IndexOf(m.world.store.jobs, id) == |m.world.store.jobs|
        && id !in m.world.dirs
    case RequestCancel(_, _, at) => m.clock <= at
    case TimeoutSweep(at) => m.clock <= at
    case Poll(inp) => PollEnabled(m, inp)
    case CrashDuringPoll(inp, _) => PollEnabled(m, inp)
    case Monitor(inp) => m.clock <= inp.readAt <= inp.trainingAt <= inp.heartbeatAt <= inp.closingAt <= inp.finishedAt
    case Restart => true
    case ContainerStops(c, _) => c in m.world.containers && m.world.containers[c].state.Running?
    case ForeignContainer(c) => c !in m.world.containers
  }

  predicate PollEnabled(m: Moment, inp: PollInputs) {
    && m.clock <= inp.cancelAt <= inp.startAt <= inp.failAt
    && (inp.run.Launched? ==> inp.run.containerId !in m.world.containers)
  }

  function Next(m: Moment, step: Step): Moment {
    var w := m.world;
    match step
    case Register(u) => m.(world := w.(users := w.users[u := User(u, 0, None)]))
    case Create(request, id, checkedAt, createdAt) =>
      m.(world := CreateJob(w, request, id, checkedAt, createdAt).world, clock := createdAt)
    case RequestCancel(userId, jobId, at) => m.(world := CancelJob(w, userId, jobId, at).world, clock := at)
    case TimeoutSweep(at) => m.(world := Sweep(w, at), clock := at)
    case Poll(inp) => m.(world := PollTick(w, inp).world, clock := inp.failAt)
    case CrashDuringPoll(inp, point) =>
      Moment(CrashedPoll(w, inp, point), inp.failAt, m.lost + LostCharge(w, inp, point))
    case Monitor(inp) => m.(world := MonitorTick(w, inp).world, clock := inp.finishedAt)
    case Restart => m.(world := Reconcile(w))
    case ContainerStops(c, code) =>
      if c in w.containers then
        m.(world := w.(containers := w.containers[c := w.containers[c].(state := Exited(code))]))
      else m
    case ForeignContainer(c) => m.(world := w.(containers := w.containers[c := Container(None, Running)]))
  }

  function Run(m: Moment, steps: seq<Step>): Moment {
    if steps == [] then m else Next(Run(m, steps[..|steps| - 1]), steps[|steps| - 1])
  }

  predicate EnabledRun(m: Moment, steps: seq<Step>) {
    steps == [] || (EnabledRun(m, steps[..|steps| - 1]) && Enabled(Run(m, steps[..|steps| - 1]), steps[|steps| - 1]))
  }

  predicate CrashFree(steps: seq<Step>) {
    forall step :: step in steps ==> !step.CrashDuringPoll?
  }

  function Begin(now: Time): Moment {
    Moment(EMPTY_WORLD, now, [])
  }

  ghost predicate Sound(m: Moment) {
    Inv(m.world, m.clock, m.lost)
  }

  lemma StepKeeps(m: Moment, step: Step)
    requires Sound(m) && Enabled(m, step)
    ensures Sound(Next(m, step))
    ensures m.clock <= Next(m, step).clock
  {
    var w, v := m.world, Next(m, step).world;
    hide Inv;
    match step
    case Register(u) => RegisterKeeps(w, u, m.clock, m.lost);
    case Create(request, id, checkedAt, createdAt) =>
      CreateKeeps(w, request, id, checkedAt, createdAt, m.clock, m.lost);
    case RequestCancel(userId, jobId, at) =>
      Later(w, m.clock, at, m.lost);
      CancelKeeps(w, userId, jobId, at, m.lost);
    case TimeoutSweep(at) =>
      Later(w, m.clock, at, m.lost);
      SweepKeeps(w, at, m.lost);
    case Poll(inp) =>
      PollKeeps(w, inp, m.clock, m.lost);
      Later(v, inp.startAt, inp.failAt, m.lost);
    case CrashDuringPoll(inp, point) =>
      var lost := CrashedPollKeeps(w, inp, point, m.clock, m.lost);
      Later(v, inp.startAt, inp.failAt, lost);
    case Monitor(inp) =>
      Later(w, m.clock, inp.finishedAt, m.lost);
      var _ := MonitorKeeps(w, inp, inp.finishedAt, m.lost);
    case _ => DockerKeeps(w, v.containers, m.clock, m.lost);
  }

  lemma {:induction false} RunKeeps(m: Moment, steps: seq<Step>)
    requires Sound(m) && EnabledRun(m, steps)
    ensures Sound(Run(m, steps)) && m.clock <= Run(m, steps).clock
  {
    if steps != [] {
      RunKeeps(m, steps[..|steps| - 1]);
      StepKeeps(Run(m, steps[..|steps| - 1]), steps[|steps| - 1]);
    }
  }

  /** Every moment of every run from the empty service satisfies the invariant. */
  lemma ReachableIsSound(now: Time, steps: seq<Step>)
    requires EnabledRun(Begin(now), steps)
    ensures Sound(Run(Begin(now), steps))
  {
    EmptyInv(now);
    RunKeeps(Begin(now), steps);
  }

  /** No poll of any run ever raises `UserMissingError`: creating a job checks the user, and users stay. */
  lemma NeverRaises(now: Time, steps: seq<Step>, inp: PollInputs)
    requires EnabledRun(Begin(now), steps + [Poll(inp)])
    ensures PollTick(Run(Begin(now), steps).world, inp).result.Ok?
  {
    assert (steps + [Poll(inp)])[..|steps|] == steps;
    ReachableIsSound(now, steps);
    var m := Run(Begin(now), steps);
    PollKeeps(m.world, inp, m.clock, m.lost);
  }
}
