/** The job status graph. */
module JobStateMachine {
  import opened Models

  datatype TransitionError = InvalidTransition(from: JobStatus, to: JobStatus)

  datatype CancelError = CancelNotAllowed(status: JobStatus)

  function AllowedFrom(from: JobStatus): set<JobStatus> {
    match from
    case Queued => {Initializing, Cancelled}
    case Initializing => {Training, Failed, Cancelled}
    case Training => {Completed, Failed, Cancelled}
    case Completed => {}
    case Failed => {}
    case Cancelled => {}
  }

  predicate CanTransition(from: JobStatus, to: JobStatus) {
    to in AllowedFrom(from)
  }

  function Transition(job: Job, to: JobStatus, now: Time): (r: Result<Job, TransitionError>)
    ensures r.Ok? <==> CanTransition(job.status, to)
    ensures r.Ok? ==> r.value.status == to && r.value == job.(status := to, updatedAt := now)
  {
    if CanTransition(job.status, to) then Ok(job.(status := to, updatedAt := now))
    else Err(InvalidTransition(job.status, to))
  }

  function RequestCancel(job: Job, now: Time): Result<Job, CancelError> {
    if job.status in ACTIVE then Ok(job.(cancelRequested := true, updatedAt := now))
    else Err(CancelNotAllowed(job.status))
  }

  /** How many status changes a job can still make. */
  function Rank(s: JobStatus): nat {
    match s
    case Queued => 3
    case Initializing => 2
    case Training => 1
    case _ => 0
  }

  /** A status history: it starts queued and every change is an edge of the graph. */
  ghost predicate LegalTrace(trace: seq<JobStatus>) {
    && |trace| > 0
    && trace[0] == Queued
    && forall j, k :: 0 <= j && k == j + 1 < |trace| ==> CanTransition(trace[j], trace[k])
  }

  /** The rank falls with every change. */
  lemma {:induction false} RankFalls(trace: seq<JobStatus>, j: nat, k: nat)
    requires LegalTrace(trace) && j <= k < |trace|
    ensures Rank(trace[k]) + (k - j) <= Rank(trace[j])
    decreases k
  {
    if j < k {
      RankFalls(trace, j, k - 1);
      assert CanTransition(trace[k - 1], trace[k]);
    }
  }

  /** Whatever happens to a job, it changes status at most three times, a terminal status is never left,
      and it occupies the GPU for the first time only as its first change. */
  lemma TraceBounded(trace: seq<JobStatus>)
    requires LegalTrace(trace)
    ensures |trace| <= 4
    ensures forall k :: 0 <= k < |trace| && trace[k] !in ACTIVE ==> k == |trace| - 1
    ensures Initializing in trace <==> |trace| > 1 && trace[1] == Initializing
  {
    RankFalls(trace, 0, |trace| - 1);
    forall k | 0 <= k < |trace| - 1
      ensures trace[k] in ACTIVE
    {
      assert CanTransition(trace[k], trace[k + 1]);
    }
    if Initializing in trace {
      var k :| 0 <= k < |trace| && trace[k] == Initializing;
      assert CanTransition(trace[k - 1], trace[k]);
      assert k == 1 || CanTransition(trace[k - 2], trace[k - 1]);
    }
  }

  /** All the histories there are. */
  const HISTORIES: set<seq<JobStatus>> := {
    [Queued],
    [Queued, Cancelled],
    [Queued, Initializing],
    [Queued, Initializing, Failed],
    [Queued, Initializing, Cancelled],
    [Queued, Initializing, Training],
    [Queued, Initializing, Training, Completed],
    [Queued, Initializing, Training, Failed],
    [Queued, Initializing, Training, Cancelled]
  }

  lemma HistoriesExact(trace: seq<JobStatus>)
    ensures LegalTrace(trace) <==> trace in HISTORIES
  {
    if LegalTrace(trace) {
      TraceBounded(trace);
      assert |trace| > 1 ==> CanTransition(trace[0], trace[1]);
      assert |trace| > 2 ==> CanTransition(trace[1], trace[2]);
      assert |trace| > 3 ==> CanTransition(trace[2], trace[3]);
      if |trace| == 1 {
        assert trace == [trace[0]];
      } else if |trace| == 2 {
        assert trace == [trace[0], trace[1]];
      } else if |trace| == 3 {
        assert trace == [trace[0], trace[1], trace[2]];
      } else {
        assert trace == [trace[0], trace[1], trace[2], trace[3]];
      }
    }
  }
}
