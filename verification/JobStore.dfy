/** The job repository's contents: an insertion-ordered dictionary of whole documents,
    with the history that every write leaves behind. */
module JobStore {
  import opened Models
  import opened Sorting

  /** One entry of a job into `initializing`, the moment that consumes daily quota. */
  datatype Start = Start(userId: UserId, jobId: JobId, date: Date)

  /** `jobs` is the dictionary in insertion order; `traces[i]` is the status history of `jobs[i]`;
      `starts` lists every write that moved a job into `initializing`. */
  datatype StoreRecord = Contents(jobs: seq<Job>, traces: seq<seq<JobStatus>>, starts: seq<Start>)

  type Store = s: StoreRecord | |s.traces| == |s.jobs| witness Contents([], [], [])

  ghost predicate DistinctIds(jobs: seq<Job>) {
    forall i, j :: 0 <= i < j < |jobs| ==> jobs[i].id != jobs[j].id
  }

  /** The position of a document, or |jobs| when there is none. */
  function IndexOf(jobs: seq<Job>, id: JobId): (i: nat)
    ensures i <= |jobs|
    ensures i < |jobs| ==> jobs[i].id == id
    ensures forall k :: 0 <= k < i ==> jobs[k].id != id
  {
    if jobs == [] || jobs[0].id == id then 0 else 1 + IndexOf(jobs[1..], id)
  }

  function Get(jobs: seq<Job>, id: JobId): Option<Job> {
    var i := IndexOf(jobs, id);
    if i < |jobs| then Some(jobs[i]) else None
  }

  function Extend(trace: seq<JobStatus>, status: JobStatus): seq<JobStatus> {
    if trace != [] && trace[|trace| - 1] == status then trace else trace + [status]
  }

  function StartOf(job: Job): Start {
    Start(job.userId, job.id, DateOf(job.updatedAt))
  }

  /** Writing a whole document, as `create` and `update` both do. */
  function Put(s: Store, job: Job): Store {
    var i := IndexOf(s.jobs, job.id);
    if i < |s.jobs| then
      Contents(s.jobs[i := job],
            s.traces[i := Extend(s.traces[i], job.status)],
            s.starts + if job.status == Initializing && s.jobs[i].status != Initializing then [StartOf(job)] else [])
    else
      Contents(s.jobs + [job], s.traces + [[job.status]], s.starts)
  }

  /** The store a repository can hold: ids are distinct and every trace ends in its document's status. */
  ghost predicate Consistent(s: Store) {
    && DistinctIds(s.jobs)
    && forall i :: 0 <= i < |s.jobs| ==> s.traces[i] != [] && s.traces[i][|s.traces[i]| - 1] == s.jobs[i].status
  }

  /** The documents with one of the statuses, in insertion order. */
  function Select(jobs: seq<Job>, statuses: set<JobStatus>): seq<Job> {
    if jobs == [] then []
    else
      var last := jobs[|jobs| - 1];
      Select(jobs[..|jobs| - 1], statuses) + if last.status in statuses then [last] else []
  }

  function ByCreation(job: Job): int {
    job.createdAt
  }

  function ListByStatuses(jobs: seq<Job>, statuses: set<JobStatus>): seq<Job> {
    StableSort(Select(jobs, statuses), ByCreation)
  }

  function ListForUser(jobs: seq<Job>, userId: UserId): seq<Job> {
    if jobs == [] then []
    else
      var last := jobs[|jobs| - 1];
      ListForUser(jobs[..|jobs| - 1], userId) + if last.userId == userId then [last] else []
  }

  // ---- lookups and writes -------------------------------------------------------------------

  lemma IndexOfDistinct(jobs: seq<Job>, i: nat)
    requires DistinctIds(jobs) && i < |jobs|
    ensures IndexOf(jobs, jobs[i].id) == i
  {
  }

  /** Writing back a stored document replaces it in place and touches no other. */
  lemma PutReplaces(s: Store, i: nat, job: Job)
    requires DistinctIds(s.jobs) && i < |s.jobs| && s.jobs[i].id == job.id
    ensures Put(s, job).jobs == s.jobs[i := job]
    ensures Put(s, job).traces == s.traces[i := Extend(s.traces[i], job.status)]
    ensures Put(s, job).starts ==
      s.starts + if job.status == Initializing && s.jobs[i].status != Initializing then [StartOf(job)] else []
    ensures DistinctIds(Put(s, job).jobs)
  {
    IndexOfDistinct(s.jobs, i);
  }

  lemma PutAppends(s: Store, job: Job)
    requires DistinctIds(s.jobs) && IndexOf(s.jobs, job.id) == |s.jobs|
    ensures Put(s, job) == Contents(s.jobs + [job], s.traces + [[job.status]], s.starts)
    ensures DistinctIds(Put(s, job).jobs)
  {
  }

  // ---- listings -----------------------------------------------------------------------------

  lemma {:induction false} InSelect(jobs: seq<Job>, statuses: set<JobStatus>, job: Job)
    ensures job in Select(jobs, statuses) <==> job in jobs && job.status in statuses
  {
    if jobs != [] {
      InSelect(jobs[..|jobs| - 1], statuses, job);
      assert jobs == jobs[..|jobs| - 1] + [jobs[|jobs| - 1]];
    }
  }

  lemma InListing(jobs: seq<Job>, statuses: set<JobStatus>, job: Job)
    ensures job in ListByStatuses(jobs, statuses) <==> job in jobs && job.status in statuses
  {
    InSelect(jobs, statuses, job);
    var listed := ListByStatuses(jobs, statuses);
    assert job in listed <==> job in multiset(listed);
    assert job in Select(jobs, statuses) <==> job in multiset(Select(jobs, statuses));
  }

  lemma {:induction false} SelectAscending(jobs: seq<Job>, statuses: set<JobStatus>)
    requires Ascending(jobs, ByCreation)
    ensures Ascending(Select(jobs, statuses), ByCreation)
  {
    if jobs != [] {
      var init := jobs[..|jobs| - 1];
      SelectAscending(init, statuses);
      forall i | 0 <= i < |Select(init, statuses)|
        ensures ByCreation(Select(init, statuses)[i]) <= ByCreation(jobs[|jobs| - 1])
      {
        InSelect(init, statuses, Select(init, statuses)[i]);
      }
    }
  }

  /** While documents were created under a monotone clock, "oldest first" is insertion order. */
  lemma ListingIsInsertionOrder(jobs: seq<Job>, statuses: set<JobStatus>)
    requires Ascending(jobs, ByCreation)
    ensures ListByStatuses(jobs, statuses) == Select(jobs, statuses)
  {
    SelectAscending(jobs, statuses);
    SortOfAscending(Select(jobs, statuses), ByCreation);
  }

  lemma {:induction false} SelectConcat(a: seq<Job>, b: seq<Job>, statuses: set<JobStatus>)
    ensures Select(a + b, statuses) == Select(a, statuses) + Select(b, statuses)
  {
    if b == [] {
      assert a + b == a;
    } else {
      SelectConcat(a, b[..|b| - 1], statuses);
      assert (a + b)[..|a + b| - 1] == a + b[..|b| - 1];
    }
  }

  lemma SelectOne(job: Job, statuses: set<JobStatus>)
    ensures Select([job], statuses) == if job.status in statuses then [job] else []
  {
  }

  lemma SelectAt(jobs: seq<Job>, statuses: set<JobStatus>, i: nat)
    requires i < |jobs|
    ensures Select(jobs, statuses) ==
      Select(jobs[..i], statuses) + (if jobs[i].status in statuses then [jobs[i]] else [])
        + Select(jobs[i + 1..], statuses)
  {
    var before, at, after := jobs[..i], [jobs[i]], jobs[i + 1..];
    calc {
      Select(jobs, statuses);
      { assert jobs == (before + at) + after; }
      Select((before + at) + after, statuses);
      { SelectConcat(before + at, after, statuses); }
      Select(before + at, statuses) + Select(after, statuses);
      { SelectConcat(before, at, statuses); }
      Select(before, statuses) + Select(at, statuses) + Select(after, statuses);
      { SelectOne(jobs[i], statuses); }
      Select(before, statuses) + (if jobs[i].status in statuses then at else []) + Select(after, statuses);
    }
  }

  /** The head of a listing is the first document with such a status. */
  lemma {:induction false} FirstSelected(jobs: seq<Job>, statuses: set<JobStatus>) returns (i: nat)
    requires Select(jobs, statuses) != []
    ensures i < |jobs| && jobs[i] == Select(jobs, statuses)[0] && jobs[i].status in statuses
    ensures Select(jobs[..i], statuses) == []
  {
    var init := jobs[..|jobs| - 1];
    if Select(init, statuses) != [] {
      i := FirstSelected(init, statuses);
      assert init[..i] == jobs[..i];
    } else {
      i := |jobs| - 1;
    }
  }

  lemma NoneSelected(jobs: seq<Job>, statuses: set<JobStatus>)
    ensures Select(jobs, statuses) == [] <==> forall i :: 0 <= i < |jobs| ==> jobs[i].status !in statuses
  {
  }

  lemma {:induction false} InListForUser(jobs: seq<Job>, userId: UserId, job: Job)
    ensures job in ListForUser(jobs, userId) <==> job in jobs && job.userId == userId
  {
    if jobs != [] {
      InListForUser(jobs[..|jobs| - 1], userId, job);
      assert jobs == jobs[..|jobs| - 1] + [jobs[|jobs| - 1]];
    }
  }

  /** A user's jobs are listed in insertion order, each once: `where[k]` is the place of the k-th. */
  lemma {:induction false} UserJobsInOrder(jobs: seq<Job>, userId: UserId) returns (where: seq<nat>)
    ensures |where| == |ListForUser(jobs, userId)|
    ensures forall k :: 0 <= k < |where| ==> where[k] < |jobs| && ListForUser(jobs, userId)[k] == jobs[where[k]]
    ensures forall j, k :: 0 <= j < k < |where| ==> where[j] < where[k]
    ensures forall i :: 0 <= i < |jobs| ==> (jobs[i].userId == userId <==> i in where)
  {
    where := [];
    if jobs != [] {
      where := UserJobsInOrder(jobs[..|jobs| - 1], userId);
      if jobs[|jobs| - 1].userId == userId {
        ghost var before := where;
        where := where + [|jobs| - 1];
        assert where[|before|] == |jobs| - 1;
      }
    }
  }
}
