# LeRobot training service: a verified model

The service trains robot policies for its users on one GPU host. A backend accepts jobs and cancellations, a
scheduled sweep fails jobs without a heartbeat, and a worker on the host starts one training container at a time,
follows its progress, uploads the checkpoint and tidies up. They share a job store, a user store and a Docker
host, and coordinate only through a few fields of the job documents and each user's quota counter. None of them
alone establishes what the service promises as a whole; this project proves those promises of all of them together.

`dafny verify dfyconfig.toml` checks everything.

## How the model is built

**Shared state.** `ControlPlane.World` holds the job store (documents in insertion order), the users, the Docker
host, the objects in storage and the job directories. The store also carries two histories no code reads: the
sequence of statuses of every job, and every start with its user and UTC date.

**Two layers.** The services are written as the source writes them: classes and loops that update the
repositories, the Docker host and the directories statement by statement (`Repositories`, `WorkerServices`,
`BackendServices`, `TrainingLoop.RunTrainingLoop`, `DiskManager.Disk`, `DatasetFetcher`). Each such method is proved
equal to a function on `World` (or on the cache), and everything else is proved about those functions. Where the
source calls `transition`, the methods take the successful result outright, so that each such call is proved legal.

**Runs.** `Runs.Step` is one registration, job creation, cancellation request, sweep, poll, crash inside a poll,
monitor read, restart, stopping container or foreign container. `EnabledRun` is any interleaving of them whatsoever
under the premises below. Exit codes, progress, logs, fetch, launch, packaging and upload outcomes are arbitrary
inputs of the steps. "Crash" means a crash inside a start: after the status write, after the charge, after the
fetch, or after the launch. `CrashFree` runs have none; statements without it hold in all runs. `Scenarios` holds
concrete runs from the empty service that reach what the guarantees exclude, so that no premise is there in vain.

| files | what they are about |
|---|---|
| `Models`, `JobStateMachine`, `Quota`, `Heartbeat`, `Sorting`, `JobStore` | records, status graph, quota and heartbeat rules, the ordered job store |
| `ControlPlane` | every call and tick as a function of the shared state |
| `Repositories`, `WorkerServices`, `BackendServices` | the same operations as imperative code, proved equal to them |
| `Invariants`, `Preservation`, `Runs`, `History` | the inductive invariant, its preservation by every step, runs |
| `FifoQueue`, `FifoRefinement`, `Fairness` | an abstract first-come-first-served server, and that the service refines it |
| `QuotaGuarantees`, `Cancellation`, `Settlement`, `ContainerExclusion`, `Drain`, `BusyGpu` | the guarantees over whole runs |
| `StepEffects` | what each call leaves of every document, container, user, object and directory |
| `Crashes`, `Premises`, `Scenarios` | what fails without the premises, exactly when, and in which runs |
| `Recovery` | crashes inside a monitor read or a cancellation, and that the next tick completes them |
| `TrainingLoop`, `HeartbeatTiming` | write cadence of the container, and its composition with monitor and sweep |
| `TimeoutBound`, `FalseTimeout` | the exact step, read and save times under which no sweep fails a healthy training |
| `PathEncoding`, `DiskManager`, `DatasetFetcher` | the dataset cache: names, LRU eviction, crashes |
| `MountedDataset` | the cache next to the running service |

## Premises

- Each backend call and each worker tick is atomic. Repositories write back whole documents
  (`src/backend/adapters/firestore/job_repository.py:90-91`). `Premises` gives the exact conditions for three places
  where a slow caller breaks this. A cancellation request written back late leaves a legal status history exactly when
  the status has not changed meanwhile (`StaleWriteIsLegalIff`) and loses nothing exactly when the document has not
  changed apart from flag and stamp (`StaleWriteIsHarmlessIff`). Attaching a container after a slow fetch is legal
  exactly when no sweep meanwhile found the start more than five minutes old, and loses nothing exactly when besides
  its owner has not asked to cancel (`LateAttachIsLegalIff`). Writing the end of a job after slow packaging and upload
  is legal exactly when no sweep meanwhile found the heartbeat more than two minutes old, or the end is a failure, too
  (`LateFinishIsLegalIff`).
- In runs the worker crashes only inside a start. A crash inside a monitor read or inside the cancellations is no step
  of a run; `Recovery` says what it leaves: the next tick completes it, and what can differ is at most an uploaded
  object, the directory of a job whose end was already written, and time stamps.
- There is one UTC clock that never goes back, and one worker process.
- Job ids (uuid) and container ids (Docker) are fresh, and a new job's directory does not exist yet.
- Ports keep their contracts: `kill` stops a running container, a raising `run` or `upload_file` has no effect,
  removing a directory succeeds.
- Users are never deleted, objects and containers are not removed behind the service's back.
- A progress write carries the moment that the loop read for its decision.
- A download either completes, or is cut short leaving some of the repository's files, or finds no repository and
  writes nothing; the hub's contents do not change.

## Where code and documentation disagree

- "The host only ever runs one training container at a time" (`src/worker/job_poller.py:6-7`) and "guarantees at
  most one training container" (`src/worker/orphan_reconciler.py:14`): the sweep marks a job failed without killing
  its container (`src/backend/services/timeout_service.py:27-32`), so the next poll starts a second one next to it.
  `ContainerExclusion.SweepExclusiveIff` gives the exact condition, `TimeoutLeavesTwoRunning` the failing family,
  `Scenarios.TwoContainers` a run, and `ReconcileRestores` what a restart repairs.
- The heartbeat of an `initializing` job is said to move while its container process is alive
  (`src/common/domain/heartbeat.py:3-5`, `src/worker/heartbeat_updater.py:19-20`): it moves at every read that leaves
  the job `initializing` (`src/worker/job_completion.py:67`, `:74-75`), and then its container runs exactly when it has
  one (`Crashes.BeatsWhileRunningIff`), which crash-free runs guarantee (`Settlement.ContainersAndDirectories`). After
  a crash in the middle of a start it has none. The job then stays stalled exactly as long as its owner does not cancel
  it, it writes no progress and no sweep finds its heartbeat more than five minutes old (`Crashes.StalledIff`), nothing
  else is started meanwhile (`Crashes.StalledForever`), and while the worker keeps reading no sweep does
  (`Scenarios.StandsStillFor`).
- A forced write every 60 s is said to keep a slow step from ever tripping the timeout
  (`docker/act/train_entrypoint.py:51-55`): the decision is only taken between steps, so the gap between writes can
  reach 60 s plus one step, and after the last step nothing is written while the checkpoint is saved.
  `FalseTimeout.NoFalseTimeoutIff` gives the exact condition for steps of at most s, reads at most p apart and a save
  of at most c: with s of 0.61 s or more and p of at most five minutes, some healthy training is failed exactly when
  60 s + s + p exceeds 120 s by more than two ticks of the clock, or c exceeds 120 s (`TimeoutBound.TooSlowInNumbers`).
  So steps of 56 s with reads every 5 s are already too slow.
- "A crash mid-download never leaves a half-written cache entry that looks valid" (`src/worker/disk_manager.py:4-6`)
  holds (`DatasetFetcher.EveryEntryIsComplete`), but a crash inside the removal of an evicted entry does leave one
  (`DatasetFetcher.TornKeepsIff`), and two repository ids can share one directory (`PathEncoding.CollidingIds`).
- Quota is said to be charged exactly once per start (`src/common/domain/quota.py:56-58`): a crash between the two
  writes of a start gives it away (`Crashes.CrashStartsForFree`), and the resulting bound on starts is reached
  (`Scenarios.BoundIsReached`).

## Model

| member | source | states |
|---|---|---|
| JobStateMachine.RankFalls | src/common/domain/job_state_machine.py:17-46 | along any status history that follows the allowed transitions a rank falls with every change |
| JobStateMachine.TraceBounded | src/common/domain/job_state_machine.py:17-46 | a job changes status at most three times, terminal statuses are absorbing, and `initializing` can only be the first change |
| JobStateMachine.HistoriesExact | src/common/domain/job_state_machine.py:17-46 | the legal status histories of a job are exactly nine, listed one by one |
| Quota.NoneActive | src/common/domain/quota.py:23-24 | the count of active jobs is zero exactly when no job of the list is queued, initializing or training |
| Models.DateExact | src/worker/job_poller.py:86 | the date of a moment is the day whose 86,400 seconds contain it |
| Sorting.SortIsStable | src/backend/adapters/memory.py:73 | sorting by key gives an ascending list in which elements of equal key keep their order |
| JobStore.ListingIsInsertionOrder | src/backend/adapters/memory.py:72-74 | under a monotone clock "oldest first" is insertion order |
| JobStore.PutReplaces | src/backend/adapters/memory.py:66-67 | writing back a stored document changes that document only and records its status change and start |
| JobStore.UserJobsInOrder | src/backend/adapters/memory.py:69-70 | a user's jobs are listed in insertion order, all of them and each once |
| Repositories.JobRepository.Update | src/backend/adapters/memory.py:66-67 | the dictionary write is the store's whole-document write |
| Repositories.JobRepository.Create | src/backend/adapters/memory.py:63-64 | creating appends a document, or overwrites the one with the same id |
| Repositories.UserRepository.Update | src/backend/adapters/memory.py:51-52 | overwrites exactly the user's own record |
| Repositories.DockerHost.Run | src/common/ports/docker_client.py:33-36 | either starts one running container labelled with the job, or fails and leaves the host as it was |
| Repositories.DockerHost.Kill | src/common/ports/docker_client.py:38-39 | stops exactly that container if it runs |
| Repositories.ObjectStorage.UploadFile | src/backend/adapters/memory.py:113-115 | stores the object, or fails without effect |
| BackendServices.JobService.CreateJob | src/backend/services/job_service.py:79-114 | equals the specification of job creation, with every refusal in order |
| BackendServices.JobService.RequestCancel | src/backend/services/job_service.py:134-141 | equals the specification of a cancellation request, with every refusal in order |
| BackendServices.JobService.ListJobsForUser | src/backend/services/job_service.py:122-132 | one view per job of the user, in order, each queued one with its position among all queued jobs |
| BackendServices.IndexIsFound | src/backend/services/job_service.py:124-130 | the `.index` lookup of a queued job always succeeds |
| BackendServices.ShownExactly | src/backend/services/job_service.py:51-65 | a view carries its job; each status is shown as what it is, both statuses on the GPU as running; exactly queued jobs have a position |
| BackendServices.JobService.GetDownloadUrl | src/backend/services/job_service.py:143-149 | answers with the signed link to the stored checkpoint, for seven days, exactly for the owner of a completed job that has one; each refusal exactly in its case |
| WorkerServices.ProcessCancellationRequests | src/worker/cancel_watcher.py:28-47 | the loop equals cancelling at once every active job whose owner asked, killing exactly their containers and removing exactly their directories; returns exactly the cancelled jobs |
| WorkerServices.CheckAndFailTimedOutJobs | src/backend/services/timeout_service.py:22-34 | the loop equals failing at once every job whose heartbeat is too old; returns exactly those |
| WorkerServices.HeartbeatUpdater.MarkContainerAlive | src/worker/heartbeat_updater.py:18-23 | moves the heartbeat and nothing else |
| WorkerServices.HeartbeatUpdater.RecordProgress | src/worker/heartbeat_updater.py:25-32 | stores progress and moves the heartbeat exactly when step or loss changed, writes nothing otherwise |
| WorkerServices.JobPoller.Tick | src/worker/job_poller.py:61-69 | equals the specification of a poll: cancellations first, then at most one start, only on a free GPU |
| WorkerServices.JobPoller.StartNextQueuedJob | src/worker/job_poller.py:71-103 | starts the oldest queued job in the order status, charge, fetch, launch, attach; raises exactly when its user is missing |
| WorkerServices.JobPoller.FailDuringStart | src/worker/job_poller.py:105-109 | fails the started job with the given reason |
| WorkerServices.JobCompletionMonitor.Tick | src/worker/job_completion.py:60-80 | equals the specification of a monitor read |
| WorkerServices.JobCompletionMonitor.Observe | src/worker/job_completion.py:69-75 | the writes for first progress and heartbeat amount to one write of the observed document |
| WorkerServices.JobCompletionMonitor.Finalize | src/worker/job_completion.py:82-111 | equals the specification of how an exited container's job ends |
| WorkerServices.JobCompletionMonitor.UploadWithRetries | src/worker/job_completion.py:113-121 | succeeds with the first successful attempt, if there is one among 1 + retries; stores the object exactly then |
| WorkerServices.JobCompletionMonitor.MarkCompleted | src/worker/job_completion.py:123-128 | completed with its checkpoint path, directory removed |
| WorkerServices.JobCompletionMonitor.MarkFailed | src/worker/job_completion.py:130-136 | failed with its reason, directory removed exactly on request |
| WorkerServices.Reconcile | src/worker/orphan_reconciler.py:36-47 | kills exactly the running labelled containers no job on the GPU tracks, reports, in their order, exactly the jobs whose container runs |
| WorkerServices.WorkerTick | src/worker/main.py:68-81 | one worker tick is a poll followed, unless it raised, by a monitor read |
| Preservation.PollKeeps | src/worker/job_poller.py:61-103 | a poll keeps the invariant and never raises |
| Preservation.MonitorKeeps | src/worker/job_completion.py:60-136 | a monitor read keeps the invariant and touches only the one job on the GPU |
| Preservation.CancellationsKeep | src/worker/cancel_watcher.py:35-45 | cancelling keeps the invariant |
| Preservation.CreateKeeps | src/backend/services/job_service.py:91-114 | creating a job keeps the invariant: its owner has no other active job and has quota left at its creation date |
| Preservation.CancelKeeps | src/backend/services/job_service.py:134-141 | a cancellation request keeps the invariant and sets one flag of one document |
| Preservation.SweepKeeps | src/backend/services/timeout_service.py:22-34 | a sweep keeps the invariant |
| Preservation.ChargeSettles | src/common/domain/quota.py:56-60 | the charge settles exactly the start just recorded, also across a change of date |
| Runs.ReachableIsSound | src/worker/main.py:47-81 | every moment of every run from the empty service satisfies the invariant |
| Runs.NeverRaises | src/worker/job_poller.py:79-81 | in no run does a poll raise `UserMissingError` |
| History.RunGrows | src/common/domain/job_state_machine.py:17-46 | over any run documents keep their identity, histories only grow, finished jobs are never written again |
| FifoQueue.BoundedWaiting | src/backend/services/job_service.py:122-132 | in the abstract queue a waiting id moves up by at least the number served |
| FifoQueue.NoOvertaking | src/worker/job_poller.py:8 | in the abstract queue nobody is served while somebody who came earlier waits |
| FifoQueue.ServedInTurn | src/worker/job_poller.py:8 | in the abstract queue whoever is served p-th had at most p before them in line |
| FifoRefinement.BatchSimulates | src/worker/cancel_watcher.py:35-45 | a batch of cancellations or timeouts is withdrawing waiting jobs and possibly finishing the one served |
| FifoRefinement.StepSimulates | src/worker/job_poller.py:61-103 | every step of the service is a legal sequence of operations of a single-server first-come-first-served queue, and serves exactly the jobs it starts |
| Fairness.RunRefinesQueue | src/worker/job_poller.py:61-103 | every run refines the queue, and serves exactly the recorded starts in their order |
| Fairness.ReportedPosition | src/backend/services/job_service.py:124-130 | the reported position is the place in the abstract queue |
| Fairness.PositionNeverRises | src/backend/services/job_service.py:122-132 | a queued job's reported position never rises along a run and falls by at least one per start |
| Fairness.StartsInTurn | src/worker/job_poller.py:71-76 | a job at position k that starts is preceded by at most k - 1 other starts |
| Fairness.NobodyOvertakes | src/worker/job_poller.py:71-76 | while a job waits, none behind it is started |
| QuotaGuarantees.DailyLimit | src/common/domain/quota.py:4-8 | in crash-free runs at most ten jobs of a user enter `initializing` on any UTC day |
| QuotaGuarantees.DailyLimitUpToCrashes | src/worker/job_poller.py:83-86 | in all runs the excess is at most the number of crashes between the two writes of that user's starts that day |
| QuotaGuarantees.QuotaConserved | src/common/domain/quota.py:31-60 | the counter plus the swallowed charges is the number of starts on the reset date; no later day has a charged start |
| QuotaGuarantees.StartsAreJobs | src/common/domain/quota.py:5-8 | each job is counted once if it ever entered `initializing` and never otherwise |
| QuotaGuarantees.AdmissionExact | src/backend/services/job_service.py:87-99 | a request is admitted exactly when the step count is in range, the user exists, has no active job and has quota left; a refusal changes nothing |
| QuotaGuarantees.AnswersExact | src/backend/services/job_service.py:87-114 | each of the four refusals exactly in its case and in the order of the checks; an admitted job carries user, policy, source and steps of the request and is the last document; a refusal changes nothing |
| Cancellation.RequestExact | src/backend/services/job_service.py:134-141 | a request is granted exactly to the owner of an active job and sets the flag of that job only; refused as not the owner's or as finished exactly in these cases, and then nothing changes |
| Cancellation.RequestForUnknown | src/backend/services/job_service.py:116-120 | the answer is that there is no such job exactly when no document has the id, and then nothing changes |
| Cancellation.PollCancels | src/worker/job_poller.py:64-69 | after any poll every job that was active with a cancellation request is cancelled, without checkpoint |
| Cancellation.CancelledNeverStarts | src/worker/cancel_watcher.py:3-6 | a job whose cancellation was requested while queued never starts, in any run, crashes included |
| Settlement.WholeRunLegality | src/common/domain/job_state_machine.py:17-46 | in every run at most one job is on the GPU, no user has two active jobs, and every status history is a path of the graph with at most three changes |
| Settlement.FinishedIsFrozen | src/common/domain/job_state_machine.py:21-23 | a finished document never changes again in any run |
| Settlement.FieldsCohere | src/worker/job_completion.py:105-136 | completed exactly with the checkpoint path `checkpoints/<id>.zip` and its object uploaded, failed exactly with an error, cancelled only on request, on the GPU only with a heartbeat not in the future, training only with progress |
| Settlement.CheckpointsApart | src/worker/job_completion.py:105 | in no run do two jobs have the same checkpoint path |
| Settlement.ContainersAndDirectories | src/worker/job_completion.py:109-136 | in crash-free runs a job on the GPU has its own container and directory, a queued, completed or cancelled job has no directory, one that failed only for want of an upload keeps it |
| Settlement.StartOutcome | src/worker/job_poller.py:83-109 | a start is charged in every case, leaves the job on the GPU with its own running container exactly when fetch and launch both succeed, and failed with the reason otherwise |
| Settlement.SweepIsExact | src/backend/services/timeout_service.py:22-34 | a sweep fails exactly the jobs on the GPU whose heartbeat exceeds their threshold; all others on the GPU are within it |
| ContainerExclusion.ReconcileRestores | src/worker/orphan_reconciler.py:36-47 | in every run, right after a restart exactly the tracked ones of the running containers still run, at most one, and unlabelled containers are untouched |
| ContainerExclusion.SweepExclusiveIff | src/backend/services/timeout_service.py:27-32 | a sweep keeps the running containers exclusive exactly when it fails no job whose container still runs |
| ContainerExclusion.TimeoutLeavesTwoRunning | src/backend/services/timeout_service.py:27-32 | otherwise the next successful start leaves two containers running |
| ContainerExclusion.CrashExclusiveIff | src/worker/job_poller.py:85-102 | a crash in a start keeps containers exclusive exactly when it comes before the launch; in any case at most one runs |
| ContainerExclusion.RunExcludes | src/worker/job_poller.py:66-67 | in every run in which a crashed worker is restarted before it goes on and no such sweep comes while it is up, at most one container of the service runs, crashes included; while the worker is up it is that of the job on the GPU |
| BusyGpu.BusyUntouched | src/worker/job_poller.py:66-67 | while a job is on the GPU nothing is started, and only its owner, the monitor and a sweep touch its document |
| BusyGpu.ExitDecides | src/worker/job_completion.py:82-121 | an exited job is completed exactly for exit code 0, a packaged checkpoint and a successful upload within 1 + retries attempts; otherwise failed with the first reason that applies |
| BusyGpu.ReadDecides | src/worker/job_completion.py:69-78 | without an exit only the first progress changes the status; a training heartbeat moves exactly when step or loss changed, an initializing one with every read |
| StepEffects.PollDocuments | src/worker/job_poller.py:61-109 | every document after a poll: cancelled exactly if active with a request, started exactly if it is the first queued one without a request while nothing else is on the GPU, otherwise as before; a started one field by field for each outcome of fetch and launch |
| StepEffects.PollAnswers | src/worker/job_poller.py:61-109 | a poll answers with the document of the job it started, or with none |
| StepEffects.PollContainers | src/worker/job_poller.py:61-103 | every container after a poll: killed, with exit code 137, exactly if it runs for a job on the GPU whose owner asked to cancel, otherwise as before; a new one exactly if a start launches it |
| StepEffects.PollRest | src/worker/job_poller.py:61-91 | exactly the owner of the started job is charged, by one or to one on a new date; no object is touched; exactly the directories of the killed jobs go and exactly that of the started one comes |
| StepEffects.CrashDocuments | src/worker/job_poller.py:83-86 | every document after a poll that crashes inside a start: as after a whole poll, the started one marked and nothing else |
| StepEffects.CrashContainers | src/worker/job_poller.py:85-103 | a poll that crashes treats the containers that were there before like one that does not, and leaves a new one exactly if it crashed after a launch |
| StepEffects.CrashRest | src/worker/job_poller.py:85-97 | after such a crash: the charge is made exactly unless the crash came before it, no object is touched, the job's directory is there from the fetch of an upload, or else from the launch |
| StepEffects.ReadDocument | src/worker/job_completion.py:60-136 | the whole document after a read, which is also its answer, with and without an exit: progress and heartbeat are recorded together exactly when step or loss are new, also when the container has exited; then the end with its path or its reason |
| StepEffects.ReadRest | src/worker/job_completion.py:82-148 | a read touches no user and no container; the checkpoint is stored exactly when the job completes, the directory goes with every end but a failed upload |
| StepEffects.FinishCrashLeaves | src/worker/job_completion.py:82-136 | what a crash inside the finishing leaves: the reading recorded, then the object, then the whole end; the directory in any case |
| StepEffects.IdleRead | src/worker/job_completion.py:61-63 | with nothing on the GPU a read does nothing |
| StepEffects.EndShowsLastStep | src/worker/job_completion.py:66-80 | the read that finds a finished training exited ends its job with the last step as its progress |
| StepEffects.SweepDocuments | src/backend/services/timeout_service.py:22-34 | a sweep touches documents only: failed exactly those `initializing` with a heartbeat older than 300 s or `training` with one older than 120 s, all others as before |
| StepEffects.RestartContainers | src/worker/orphan_reconciler.py:36-47 | a restart touches containers only: killed exactly the running labelled ones no job on the GPU has attached |
| StepEffects.BusyContainerStays | src/worker/job_poller.py:66-67 | no step but its own stopping changes the container of a job on the GPU that nobody asked to cancel |
| StepEffects.BusyContainerRuns | src/worker/job_poller.py:66-67 | in any run, as long as such a job stays on the GPU without a request, its container stops only by itself |
| Drain.RoundDrains | src/worker/main.py:68-81 | a poll, anything but new jobs, then a read that sees an exit code: at least one active job fewer |
| Drain.Drains | src/worker/main.py:68-81 | with N active jobs, N such rounds leave every job in a terminal status |
| Crashes.CrashStartsForFree | src/worker/job_poller.py:85-86 | a crash between the two writes records a start and leaves the counter alone |
| Crashes.CrashStalls | src/worker/job_poller.py:85-102 | every crash before the container id is stored leaves an `initializing` job without container |
| Crashes.MonitorStalls | src/worker/job_completion.py:67-75 | the monitor moves the heartbeat of such a job although there is no container |
| Crashes.StepStallsIff | src/worker/job_completion.py:67-75 | in one step such a job stays stalled exactly when its owner does not cancel it, it writes no progress and no sweep finds its heartbeat more than five minutes old |
| Crashes.StalledIff | src/worker/job_completion.py:67-75 | over a whole run it is stalled at the end exactly when none of the three ways out was taken; once out it never stalls again |
| Crashes.StalledForever | src/worker/job_completion.py:67-75 | as long as none of the three ways out is taken the job does not end and nothing else starts |
| Crashes.BeatsWhileRunningIff | src/common/domain/heartbeat.py:3-5 | a read that leaves a job `initializing` moves its heartbeat, and its container runs exactly when it has one |
| Recovery.FinishIsRetried | src/worker/job_completion.py:82-121 | after a crash before the final write of a finish, the next read ends as one uninterrupted read would have, an object uploaded before excepted |
| Recovery.FinishIsOver | src/worker/job_completion.py:123-136 | after a crash between the final write and the removal of the directory, the next read does nothing and only the directory differs |
| Recovery.CancellationsAreRetried | src/worker/cancel_watcher.py:35-45 | however far the cancellations of a tick got before a crash, those of the next tick complete them; only time stamps differ |
| Scenarios.TwoContainers | src/backend/services/timeout_service.py:27-32 | a run of two users, two jobs and one sweep that ends with two training containers running |
| Scenarios.ElevenStarts | src/worker/job_poller.py:85-86 | a run with one crash in which one user gets eleven starts on one day |
| Scenarios.BoundIsReached | src/worker/job_poller.py:83-86 | for every n that fits into the day, a run with exactly n swallowed charges and 10 + n starts of one user on one day |
| Scenarios.FreeStarts | src/worker/job_poller.py:85-86 | runs with any number of uncharged starts that fits into the day |
| Scenarios.StandsStillFor | src/worker/job_completion.py:67-75 | runs of any length in which sweeps, polls, restarts and reads go on and the one crashed start keeps everybody waiting |
| Scenarios.CompletedJobRevived | src/backend/services/job_service.py:135-140 | a run in which a late cancellation request makes a completed job active again |
| Scenarios.FailedJobCompleted | src/worker/job_completion.py:98-107 | a run in which a sweep fails a job during its upload and the worker then writes it as completed |
| Scenarios.TwoActiveJobs | src/worker/job_poller.py:101-102 | a run in which a sweep during a slow fetch and the late attach give one user two active jobs |
| Premises.StaleWriteIsHarmlessIff | src/backend/services/job_service.py:135-140 | such a request has the effect of an atomic one exactly when the document has not changed meanwhile apart from flag and stamp; it always puts heartbeat, progress and container back to what was read |
| Premises.LateAttachIsLegalIff | src/worker/job_poller.py:83-103 | attaching after a slow fetch keeps the status history legal exactly when no sweep meanwhile found the start more than 300 s old, and equals an atomic attach exactly when besides the owner has not asked to cancel |
| Premises.LateFinishIsLegalIff | src/worker/job_completion.py:82-136 | writing the end of a job after a slow upload keeps the status history legal exactly when no sweep meanwhile found the heartbeat more than 120 s old or the end is a failure, too; the document is still the one read exactly when neither a sweep nor a first cancellation request came |
| Premises.StaleWriteIsLegalIff | src/backend/services/job_service.py:135-140 | a request that writes back a document read earlier keeps the status history legal exactly when the status has not changed meanwhile; it makes a finished job active again |
| TrainingLoop.RunTrainingLoop | docker/act/train_entrypoint.py:148-175 | the loop's writes are exactly those due by percentage, last step or a minute passed; the file ends with the last step |
| TrainingLoop.IntervalExact | docker/act/train_entrypoint.py:148 | the reporting interval is the number of steps divided by 200, rounded down and at least one: one below 400 steps |
| TrainingLoop.WrittenIff | docker/act/train_entrypoint.py:168-175 | a step is written exactly when its number is a multiple of the interval, it is the last, or 60 s have passed since the last write |
| TrainingLoop.ShortTrainingWritesAll | docker/act/train_entrypoint.py:148-175 | with fewer than 400 steps every step is written |
| TrainingLoop.WritesReportSteps | docker/act/train_entrypoint.py:151-175 | every write reports a finished step with its loss and moment, and steps strictly increase |
| TrainingLoop.WritesEndWithTotal | docker/act/train_entrypoint.py:170-171 | the last write is the last step |
| TrainingLoop.WriteGaps | docker/act/train_entrypoint.py:168-175 | two writes, and start and first write, lie less than 60 s plus one step apart |
| TrainingLoop.CadenceCount | docker/act/train_entrypoint.py:148-171 | the exact number of writes due to percentage or last step |
| TrainingLoop.WriteBudget | docker/act/train_entrypoint.py:148-175 | at most 399 such writes for any number of steps, and at most 399 plus one per elapsed minute in all |
| TrainingLoop.EnoughWrites | docker/act/train_entrypoint.py:148-175 | at least 200 writes for any training of at least 200 steps |
| TrainingLoop.CadenceGaps | docker/act/train_entrypoint.py:148-171 | consecutive writes are at most one reporting interval of steps apart |
| TrainingLoop.FirstWrite | docker/act/train_entrypoint.py:148-171 | the first write reports a full interval, the last step, or comes after a minute |
| HeartbeatTiming.ReadKeepsUpToDate | src/worker/job_completion.py:66-75 | a change-only heartbeat is never older than the latest write the last read saw |
| HeartbeatTiming.PolledIsWatched | src/worker/job_poller.py:83-103 | a job is in that state from the poll that starts it |
| HeartbeatTiming.StaysWatched | src/common/domain/heartbeat.py:30-48 | a healthy training stays on the GPU through any run, whatever else the service does |
| HeartbeatTiming.NoFalseTimeout | docker/act/train_entrypoint.py:147-175 | for any number of steps: steps of at most s and sweeps at most p after the last read with 60 s + s + p <= 120 s and two ticks, a save of at most 120 s, and no sweep until the checkpoint is saved fails the job |
| TimeoutBound.AdmittedLoopIsTimely | docker/act/train_entrypoint.py:147-175 | for admitted step counts, within the exact bound no such sweep sees a write more than two minutes old |
| TimeoutBound.SlowFile | docker/act/train_entrypoint.py:147-175 | at the bound a session of admitted length whose file shows its first write for as long as any gap between writes can last |
| TimeoutBound.TooSlowInNumbers | docker/act/train_entrypoint.py:51-55 | for steps of 0.61 s or more and reads within five minutes the bound is 60 s + s + p <= 120 s and two ticks, and a save of at most 120 s |
| FalseTimeout.NoFalseTimeoutIff | src/common/domain/heartbeat.py:30-40 | sweeps fail no healthy training of admitted length in any run, its save included, exactly when step, read and save times are within the bound |
| FalseTimeout.FalselyFailed | src/common/domain/heartbeat.py:30-40 | for all step, read and save times beyond the bound, a run from the empty service, its reads spaced as allowed, that fails a healthy training |
| HeartbeatTiming.StaysStuck | src/common/domain/heartbeat.py:43-48 | while step and loss do not change, reads do not move the heartbeat beyond the first one after the change |
| HeartbeatTiming.StuckJobFails | src/backend/services/timeout_service.py:22-34 | a training whose step and loss stop changing at x has failed after any sweep later than x + p + 120 s |
| HeartbeatTiming.StuckJobFailsInTime | src/backend/services/timeout_service.py:22-34 | with sweeps at most 300 s apart, a sweep no later than x + p + 420 s has failed it |
| PathEncoding.UniqueIffClean | src/worker/disk_manager.py:88-95 | no other owner/name id has the same directory exactly when neither part contains or forms a double underscore |
| PathEncoding.ApartIffClean | src/worker/disk_manager.py:88-95 | among ids not ending in `.tmp`, an id's final and temporary directories are apart from those of all others exactly under that condition |
| PathEncoding.DecodesClean | src/worker/disk_manager.py:93-95 | the explicit inverse gives back every such id |
| PathEncoding.FinalIsTmpIff | src/worker/disk_manager.py:21-22 | a finished entry looks temporary exactly when the repository name itself ends in `.tmp` |
| PathEncoding.CacheableNames | src/worker/disk_manager.py:88-95 | on such ids final and temporary names are injective and never clash |
| PathEncoding.CollidingIds | src/worker/disk_manager.py:93-95 | `a/b__c` and `a__b/c` share a directory |
| DiskManager.DirectorySizeBytes | src/worker/disk_manager.py:31-38 | the sum of the file sizes, whatever the order of the walk |
| DiskManager.ListCacheEntries | src/worker/disk_manager.py:41-49 | lists every finished directory exactly once and no temporary one |
| DiskManager.Disk.EvictLruUntilUnderCap | src/worker/disk_manager.py:52-66 | removes, in order of modification time, the shortest prefix of the entries after which the rest fits the cap, and returns their names in that order |
| DiskManager.EvictionIsLru | src/worker/disk_manager.py:52-66 | the rest is at most the cap, one removal fewer would exceed it, nothing kept is older than anything removed, temporary directories stay |
| DiskManager.EvictionFits | src/worker/disk_manager.py:52-66 | after an eviction the sizes of all finished directories on disk add up to at most the cap; with one removal fewer they would not; nothing goes if they did before |
| DiskManager.PrefixIsUnique | src/worker/disk_manager.py:56-64 | the number removed is determined by the order and the cap |
| DiskManager.SurvivesIff | src/worker/disk_manager.py:52-66 | an entry survives exactly when it fits the cap together with all that follow it in the order |
| DiskManager.LastSurvivesIff | src/worker/disk_manager.py:52-66 | the most recently used entry survives exactly when it fits the cap alone |
| DiskManager.Disk.CleanupStaleTmpDirs | src/worker/disk_manager.py:69-85 | removes and returns exactly the directories whose name ends in `.tmp` and whose age exceeds the threshold; all others stay |
| DatasetFetcher.DatasetFetcher.FetchHfDataset | src/worker/dataset_fetcher.py:60-75 | a hit only touches the entry; a missing repository changes nothing; otherwise the download is published and the cache evicted |
| DatasetFetcher.HitIsExact | src/worker/dataset_fetcher.py:62-64 | a hit moves the modification time of its entry to now, keeps the files and leaves all other entries alone |
| DatasetFetcher.HitGoesLast | src/worker/dataset_fetcher.py:63 | an entry hit after all others were used is the last in every eviction order: an eviction removes it only after all others |
| DatasetFetcher.MissIsExact | src/worker/dataset_fetcher.py:66-75 | a miss adds the complete repository with its modification time to the candidates, changes no other entry but by evicting it, and leaves no temporary directory of its own |
| DatasetFetcher.RunIsFaithful | src/worker/disk_manager.py:98-101 | in every run of fetches of ids apart from it, clean-ups, and crashes that do not tear its entry, an id's finished entry is its complete repository and its temporary one holds nothing foreign |
| DatasetFetcher.FetchIsDirectDownload | src/worker/dataset_fetcher.py:60-75 | what a fetch leaves for its caller is what a direct download gives, present exactly when it was there before or fits the cap with everything that follows it in the order |
| DatasetFetcher.FreshestSurvivesIff | src/worker/dataset_fetcher.py:73-75 | a dataset newer than all entries survives its own fetch exactly when it fits the cap alone |
| DatasetFetcher.EveryEntryIsComplete | src/worker/disk_manager.py:3-9 | with clean ids every finished entry is at all times the complete repository its name stands for, after a crash at any point of download, rename and eviction outside one removal |
| DatasetFetcher.TornKeepsIff | src/worker/disk_manager.py:62 | a removal cut short keeps an id's entry right exactly when it spared that entry's files |
| DatasetFetcher.NeverMixedIff | src/worker/disk_manager.py:88-95 | an id's entry is safe from all runs of fetches of the ids in use exactly when none of them shares a directory with it |
| MountedDataset.NothingStartsMeanwhile | src/worker/job_poller.py:66-69 | from the moment a job is on the GPU until it leaves it no other job is started, in any run |
| MountedDataset.MountedStays | src/worker/dataset_fetcher.py:60-75 | so no finished cache entry, its own included, is evicted or changed meanwhile |
| MountedDataset.MountedEvicted | src/backend/services/timeout_service.py:27-32 | a run in which a sweep fails a job, its container goes on running, and the fetch for the next start evicts the dataset it has mounted |

## Left out

- Settlement.ContainersAndDirectories: says nothing of directories after a failed start or a timeout, because the code does not remove them there.
- DatasetFetcher.FetchIsDirectDownload: the cache is followed at the grain of whole removals and renames; a crash inside one removal is the separate step of TornKeepsIff.
- DiskManager.ListCacheEntries: plain files in the cache directory and a missing cache directory (both skipped by the code) are not represented; every child is a directory.
- WorkerServices.Reconcile: returns the killed containers as a set, not as the sorted list.
- MountedDataset.MountedStays: says nothing once a sweep has failed the job while its container still runs; MountedEvicted shows that the entry can then go.
- WorkerServices.ProcessCancellationRequests: a Docker error when killing a container that has already exited or disappeared is not modelled; killing it has no effect.
- BackendServices.JobService.GetDownloadUrl: signing is an arbitrary function of path and expiry.
- TrainingLoop.RunTrainingLoop: tensors, optimizer and checkpoint are replaced by the moment and loss of each step; `docker/smolvla` has the same loop.
- HeartbeatTiming.ReadKeepsUpToDate: loss is a real number, so a NaN loss, which the code would report as a change on every read, is not covered.
- Interleavings finer than one call or tick (see Premises); the worker lock and the forever loop around the tick.
- Extraction of an uploaded zip and the deletion of the upload object: one fetch outcome, and the directory it creates.
- Error texts, log collection and log truncation: one constructor per message, logs an opaque string.
- Container specification (image, command, volumes, GPU flag): only the job label of a container is kept.
- User profile fields and password changes: they write back whole user records and would need the same atomicity.
- Dataset and policy validation, upload confirmation, routers, authentication, captcha, settings, Firestore, GCS, hub and Docker adapters, frontend: plumbing without an invariant of its own.
