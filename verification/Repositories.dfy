/** The mutable things backend and worker share, as objects: repositories, Docker host, object storage, job
    directories. */
module Repositories {
  import opened Models
  import opened JobStore
  import opened ControlPlane

  /** An insertion-ordered dictionary of jobs. The ghost fields record what its writes did. */
  class JobRepository {
    var jobs: seq<Job>
    ghost var traces: seq<seq<JobStatus>>
    ghost var starts: seq<Start>

    ghost predicate Valid()
      reads this
    {
      |traces| == |jobs| && Consistent(Contents(jobs, traces, starts))
    }

    ghost function State(): Store
      requires Valid()
      reads this
    {
      Contents(jobs, traces, starts)
    }

    constructor ()
      ensures Valid() && State() == Contents([], [], [])
    {
      jobs, traces, starts := [], [], [];
    }

    function Get(id: JobId): Option<Job>
      reads this
    {
      JobStore.Get(jobs, id)
    }

    function ListForUser(userId: UserId): seq<Job>
      reads this
    {
      JobStore.ListForUser(jobs, userId)
    }

    function ListByStatuses(statuses: set<JobStatus>): seq<Job>
      reads this
    {
      JobStore.ListByStatuses(jobs, statuses)
    }

    method Create(job: Job)
      requires Valid()
      modifies this
      ensures Valid() && State() == Put(old(State()), job)
    {
      var i := IndexOf(jobs, job.id);
      if i < |jobs| {
        starts := starts + if job.status == Initializing && jobs[i].status != Initializing then [StartOf(job)] else [];
        jobs := jobs[i := job];
        traces := traces[i := Extend(traces[i], job.status)];
      } else {
        jobs := jobs + [job];
        traces := traces + [[job.status]];
      }
    }

    method Update(job: Job)
      requires Valid()
      modifies this
      ensures Valid() && State() == Put(old(State()), job)
    {
      Create(job);
    }
  }

  class UserRepository {
    var users: map<UserId, User>

    ghost predicate Valid()
      reads this
    {
      forall u :: u in users ==> users[u].id == u
    }

    constructor ()
      ensures Valid() && users == map[]
    {
      users := map[];
    }

    function Get(id: UserId): Option<User>
      reads this
    {
      if id in users then Some(users[id]) else None
    }

    method Update(user: User)
      requires Valid()
      modifies this
      ensures Valid() && users == old(users)[user.id := user]
    {
      users := users[user.id := user];
    }
  }

  /** The Docker port: `run` either starts a labelled container or leaves nothing behind. */
  class DockerHost {
    var containers: Containers

    constructor ()
      ensures containers == map[]
    {
      containers := map[];
    }

    method Run(jobId: JobId, outcome: RunOutcome) returns (r: Result<ContainerId, string>)
      modifies this
      ensures outcome.Launched? ==>
        r == Ok(outcome.containerId)
          && containers == old(containers)[outcome.containerId := Container(Some(jobId), Running)]
      ensures outcome.LaunchFailed? ==> r == Err(outcome.launchError) && containers == old(containers)
    {
      match outcome
      case Launched(id) =>
        containers := containers[id := Container(Some(jobId), Running)];
        r := Ok(id);
      case LaunchFailed(detail) =>
        r := Err(detail);
    }

    method Kill(id: ContainerId)
      modifies this
      ensures containers == Killed(old(containers), {id})
    {
      if id in containers && containers[id].state.Running? {
        containers := containers[id := containers[id].(state := Exited(SIGKILL_EXIT_CODE))];
      }
    }

    function GetExitCode(id: ContainerId): Option<int>
      reads this
    {
      if id in containers && containers[id].state.Exited? then Some(containers[id].state.code) else None
    }

    function ListRunningContainerIds(): set<ContainerId>
      reads this
    {
      RunningLabelled(containers)
    }
  }

  class ObjectStorage {
    var objects: set<string>

    constructor ()
      ensures objects == {}
    {
      objects := {};
    }

    method UploadFile(path: string, succeeds: bool) returns (ok: bool)
      modifies this
      ensures ok == succeeds && objects == if succeeds then old(objects) + {path} else old(objects)
    {
      ok := succeeds;
      if succeeds {
        objects := objects + {path};
      }
    }
  }

  class JobDirectories {
    var dirs: set<JobId>

    constructor ()
      ensures dirs == {}
    {
      dirs := {};
    }

    method Make(id: JobId)
      modifies this
      ensures dirs == old(dirs) + {id}
    {
      dirs := dirs + {id};
    }

    method Remove(id: JobId)
      modifies this
      ensures dirs == old(dirs) - {id}
    {
      dirs := dirs - {id};
    }
  }

  /** Everything a service is wired to. */
  class Dependencies {
    const jobs: JobRepository
    const users: UserRepository
    const docker: DockerHost
    const storage: ObjectStorage
    const directories: JobDirectories

    constructor (jobs: JobRepository, users: UserRepository, docker: DockerHost, storage: ObjectStorage,
        directories: JobDirectories)
      ensures this.jobs == jobs && this.users == users && this.docker == docker && this.storage == storage
        && this.directories == directories
    {
      this.jobs, this.users, this.docker, this.storage, this.directories := jobs, users, docker, storage, directories;
    }

    ghost function Parts(): set<object> {
      {jobs, users, docker, storage, directories}
    }

    ghost predicate Valid()
      reads jobs, users
    {
      jobs.Valid() && users.Valid()
    }

    /** The shared state the services' specifications speak about. */
    ghost function View(): World
      requires Valid()
      reads jobs, users, docker, storage, directories
    {
      World(jobs.State(), users.users, docker.containers, storage.objects, directories.dirs)
    }
  }

  // ---- batches, one document at a time ------------------------------------------------------

  ghost function Visited(b: Batch, visited: seq<Job>, job: Job): Job {
    if job in visited then Applied(b, job) else job
  }

  /** The store after the batch has visited some of the documents. */
  ghost function Partial(s: Store, b: Batch, visited: seq<Job>): Store {
    Contents(seq(|s.jobs|, i requires 0 <= i < |s.jobs| => Visited(b, visited, s.jobs[i])),
             seq(|s.jobs|, i requires 0 <= i < |s.jobs| => Extend(s.traces[i], Visited(b, visited, s.jobs[i]).status)),
             s.starts)
  }

  lemma PartialStart(s: Store, b: Batch)
    requires Consistent(s)
    ensures Partial(s, b, []) == s
  {
  }

  lemma PartialStep(s: Store, b: Batch, visited: seq<Job>, job: Job)
    requires Consistent(s) && job in s.jobs
    ensures Partial(s, b, visited + [job]) == Put(Partial(s, b, visited), Applied(b, job))
    ensures Applied(b, job) == job ==> Partial(s, b, visited + [job]) == Partial(s, b, visited)
  {
    hide Put, Extend, Applied;
    var i :| 0 <= i < |s.jobs| && s.jobs[i] == job;
    var p, q := Partial(s, b, visited), Partial(s, b, visited + [job]);
    forall k | 0 <= k < |s.jobs|
      ensures p.jobs[k].id == s.jobs[k].id
      ensures q.jobs[k] == if k == i then Applied(b, job) else p.jobs[k]
      ensures k != i ==> q.traces[k] == p.traces[k]
    {
      assert k != i ==> s.jobs[k] != job;
      BatchKeepsId(b, s.jobs[k]);
    }
    BatchKeepsId(b, job);
    BatchStartsNothing(b, job);
    VisitTwice(s, i, b, visited);
    PutReplaces(p, i, Applied(b, job));
    assert q.jobs == p.jobs[i := Applied(b, job)];
    assert q.traces == p.traces[i := Extend(p.traces[i], Applied(b, job).status)];
    assert Visited(b, visited, job) == p.jobs[i];
  }

  lemma BatchKeepsId(b: Batch, job: Job)
    ensures Applied(b, job).id == job.id
  {
  }

  lemma BatchStartsNothing(b: Batch, job: Job)
    ensures Applied(b, job).status == Initializing ==> job.status == Initializing && Applied(b, job) == job
  {
  }

  lemma VisitTwice(s: Store, i: nat, b: Batch, visited: seq<Job>)
    requires Consistent(s) && i < |s.jobs|
    ensures Extend(Partial(s, b, visited).traces[i], Applied(b, s.jobs[i]).status) ==
      Extend(s.traces[i], Applied(b, s.jobs[i]).status)
  {
  }

  lemma PartialEnd(s: Store, b: Batch, visited: seq<Job>)
    requires Consistent(s)
    requires forall job :: job in s.jobs && job !in visited ==> Applied(b, job) == job
    ensures Partial(s, b, visited) == Rewrite(s, b)
  {
  }

  /** Writing the same document again, or writing twice without a status change in between, is one write. */
  lemma PutSame(s: Store, job: Job)
    requires Consistent(s) && job in s.jobs
    ensures Put(s, job) == s
  {
    var i :| 0 <= i < |s.jobs| && s.jobs[i] == job;
    PutReplaces(s, i, job);
  }

  lemma PutTwice(s: Store, i: nat, a: Job, b: Job)
    requires Consistent(s) && i < |s.jobs| && a.id == s.jobs[i].id && b.id == a.id && a.status == b.status
      && a.status != Initializing
    ensures Put(Put(s, a), b) == Put(s, b)
  {
    PutReplaces(s, i, a);
    PutReplaces(s, i, b);
    PutReplaces(Put(s, a), i, b);
  }
}
