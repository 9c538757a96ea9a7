# Rhythm's job scheduler, modelled and proved in Dafny

Rhythm runs cron-like jobs on Mesos. This project models the part of it that decides what runs when:

- **The scheduler** (`JobModel`, `Resources`, `TtlSet`, `SchedulerSpec`, `Scheduler`). It caches jobs and
  their queue, picks jobs for a resource offer, books them, builds their tasks, follows task state updates,
  counts retries, and merges periodic snapshots of storage. `SchedulerSpec.dfy` says what each operation does
  as a function on the caches and on storage; `Scheduler.dfy` holds the object whose methods update the caches
  in place, each proved against its function.
- **Its rules and runs** (`Selection`, `Due`, `Finder`, `Roles`, `Offer`, `SchedulerRuns`, `OfferRun`, `OneTask`,
  `OneTaskLimits`, `Restart`, `TaskIDs`, `QueueLedger`, `Attempts`, `Course`, `Start`). Scheduler, storage, API and Mesos form one state machine; the main results
  hold in every state of every run, and `Start` shows that a new scheduler is a state runs can begin with.
- **Leader election** (`Election`, `ElectionForks`, `Coordinator`): coordinators race for the smallest ephemeral sequence node
  over stale child lists, lost connections and expiring sessions.
- **Storage** (`ZkTree`, `StorageSpec`, `Storage`, `TaskCleanup`): a tree of nodes, saves, deletion, the queue,
  and the removal of old task records, over a connection that can fail at any call.
- **Reconciliation** (`Reconciliation`, `Reconciler`): a round that asks Mesos about outstanding tasks, and the
  goroutine that runs the rounds.
- **Offers tuning** (`OffersTuner`): when offers are suppressed and revived.

`dafny verify dfyconfig.toml` checks everything.

## What is assumed

- Each of these is one step: a selection for an offer (it holds both mutexes), the closure that builds the task
  of one selected job, a task state update, each half of a sync, a booking cleanup, an API call. Closures of an
  offer run in any order. Their shared `append` at mesos/jobsscheduler/jobsscheduler.go:351 is not synchronised
  in the program; taking a closure as one step assumes that no append is lost.
- A clock never goes backwards. Instants and durations are integers of nanoseconds; `Sub` clamps as Go's does.
  A map is iterated in any order. Resource amounts and the jobs' CPUs, memory and disk are reals.
- The Mesos library's Find returns nothing, or a list held within the pool that equals what was wanted once
  roles are ignored (`FindsWithin`); its lists are canonical, one positive entry per name and role. Where a result
  needs that a job that fits is found (`FindsFitting`), that what the wanted role holds is taken from there
  (`PrefersRole`), or that nothing is taken from another role (`KeepsToRole`), it says so. `Finder.dfy` and
  `Roles.dfy` hold Finds that meet these contracts, the first three also at once. The cron
  library's Next returns the least schedule point after an instant (`IsSchedule`). Both are parameters.
- Offers carry resources with a name, a role and an amount. The fatal exit when Find returns nothing is a
  `halted` selection, after which there are no steps.
- Results about bookings ask that no job is looked at for an offer while its own task has been waiting to be built
  for longer than a booking lasts (`Timely`). Offers handled one after the other, as the event loop does, meet it.
- UUIDs are new and have no `:`. The API creates only jobs its schema accepts (`Acceptable`).
- ZooKeeper's calls are atomic, and a lost connection may or may not have carried its call out. A connection or
  job store called `reliable` loses no call, and a context called `lasting` is cancelled by nobody else: what must
  happen when nothing goes wrong is said of these. Paths are lists
  of components in which the fixed names of the program are set apart from names it computes. Encoded values
  are records, so they always decode.
- In the election, a client handles a disconnection before its session expires on the server and sees no version
  of the directory older than its session or its own ticket; a successful check and the storing of `cancel` are
  one step. That this step comes while the connection of the check still stands (`Prompt`) and after any earlier
  leadership is cancelled (`Sole`) are conditions of the mutual exclusion theorem and not of the model.
- Mesos reports only the task states the program handles; any other makes it panic.

## What the proofs found

- There is one task per job as long as no offer is looked at while a job that is due or queued is active or has
  been deleted, no job is deleted while it has a task, storage knows the tasks when a scheduler restarts,
  and Mesos reports in order (`OneTaskRun`). Which offers, deletions and restarts break this is exactly known (`PassKeepsOneTaskIff`,
  `OffersKeepOneTaskIff`, `DeleteKeepsOneTaskIff`, `RestartKeepsOneTaskIff`).
- A job that is queued while it is active gets a second live task (`SecondTask`, for any job). It takes no request
  for an active job: one for an idle job that is due outlasts the job's launch when the scheduler has not seen it
  by then, as dequeuing looks only at the cache (`IdleJobQueuedRunsTwice`).
- A job deleted from storage can still be launched from the cache, and the next sync forgets its live task
  (`DeletedJobLosesItsTask`).
- When the save of a launched task's runtime fails, a restart makes the job rest although its task is live
  (`LostSaveForgetsTask`). A job recreated under a name that is still cached takes over the old runtime. Exactly
  which saves can be lost, and which jobs created, is known (`BuildKeepsAgreementIff`, `UpdateKeepsAgreementIff`,
  `CreateKeepsAgreementIff`).
- Updating the conf of a job that was just deleted leaves a conf without runtime, and `GetJobs` fails for all
  jobs from then on (`SaveConfEffect`, `GetJobs`).
- If a coordinator checks a child list only after its session has expired, two coordinators can lead at once
  (`LateCheckMakesTwoLeaders`).
- The server asks for leadership again whenever its controller ends, also while the earlier leadership lasts
  (command/server.go:69-79, mesos/controller.go:41-56). The cancel function of the earlier one is overwritten, so
  that leadership outlasts its session and another coordinator's election (`SecondLeadershipMakesTwoLeaders`). A
  disconnection ends every leadership exactly when that has not happened (`DisconnectionEndsLeadershipIff`), and
  wherever it happens two leaders can follow (`SecondLeadershipForks`). The
  coordinator of the task cleanup (storage/zk/zk.go:86-113) asks again only once its context is done.
- A job that fits in an offer only when its resources are taken from several roles makes the program exit if Find
  keeps to the wanted role: exactly then (`VisitHaltsIff`), and never while the role has enough (`SelectStaysInRole`).
- The key of a task record is its end in seconds and its task ID (`SameKeyIff`). Attempts that could not be built
  have no task ID, so of two such attempts of one job in the same second only the first is recorded (`AddTaskEffect`).
- The tuner's package comment promises SUPPRESS only when nothing is to run in the nearest future. The two
  clock readings of a round leave a gap: a job that becomes due in it is missed (`SuppressedInVain`), and
  nothing else is (`SuppressedInVainIff`).

## Model

| member | source | states |
|---|---|---|
| JobModel.JobIDRoundTrip | model/model.go:182-205 | a printed job ID parses back to itself exactly when no part holds the separator |
| JobModel.ParsedJobID | model/model.go:192-205 | whatever parses was printed from the ID it parses to, which is well formed |
| JobModel.JobIDInjective | model/model.go:100-103 | well-formed IDs never share their printed form, the key of every map |
| JobModel.TaskIDRoundTrip | mesos/jobsscheduler/jobsscheduler.go:461-485 | a task ID parses back to its job exactly when the job's ID is well formed, for any UUID |
| JobModel.TaskIDInjective | mesos/jobsscheduler/jobsscheduler.go:461-485 | task IDs are equal exactly when their jobs and their UUIDs are |
| Text.SplitJoin | model/model.go:192-205 | splitting what was joined gives the parts back when none holds the separator |
| Text.ParseFormatInt | storage/zk/zk.go:343-344 | a printed 64-bit integer parses back to itself |
| TtlSets.TtlSet.Exists | mesos/jobsscheduler/ttlmap.go:34-42 | true exactly for an entry no older than the TTL at the instant read |
| TtlSets.TtlSet.Cleanup | mesos/jobsscheduler/ttlmap.go:19-29 | removes only expired entries, and all that had expired when the pass began |
| TtlSets.CleanupInvisible | mesos/jobsscheduler/ttlmap.go:16-54 | for every trace, the answers of Exists are those of the trace without its cleanups |
| Resources.SubtractExact | mesos/jobsscheduler/jobsscheduler.go:310 | subtracting a list held within another takes exactly its amounts, per name and role |
| Schedulers.Scheduler.constructor | mesos/jobsscheduler/jobsscheduler.go:87-116 | a new scheduler's caches are what storage holds, with nothing booked |
| Schedulers.Scheduler.DequeueJob | mesos/jobsscheduler/jobsscheduler.go:64-78 | leaves the queue cache even when the removal from storage fails; storage is asked exactly for queued jobs, and then dequeues unless a write fails |
| Schedulers.Scheduler.SyncQueuedJobsCache | mesos/jobsscheduler/jobsscheduler.go:118-138 | the queue cache becomes the stored queue, nothing else changes |
| Schedulers.Scheduler.TakeSnapshot | mesos/jobsscheduler/jobsscheduler.go:153-165 | first loop of the sync: confs replaced in place, new jobs added, others untouched |
| Schedulers.Scheduler.EvictAllBut | mesos/jobsscheduler/jobsscheduler.go:166-173 | second loop: exactly the jobs outside the snapshot go, deleting during iteration |
| Schedulers.Scheduler.SyncJobsCache | mesos/jobsscheduler/jobsscheduler.go:140-176 | the in-place merge: keys and confs of the snapshot, runtime of the cache where there is one |
| Schedulers.Scheduler.HandleTaskStateUpdate | mesos/jobsscheduler/jobsscheduler.go:178-246 | the new caches, storage and history for every update, with the cases that change nothing; a record is added exactly for a run that ends with the update; when writes do not fail, runtime and record are saved. Which state is left is said by the next two rows |
| CourseProofs.UpdateLeaves | mesos/jobsscheduler/jobsscheduler.go:195-236 | for every runtime and report: idle after TASK_FINISHED, failed after the other terminal reports, staging, starting or running after those three; what becomes of task, agent, last start and count; ignored exactly for a reconciliation's TASK_LOST while idle or failed |
| Schedulers.EndRecordAgrees | mesos/jobsscheduler/jobsscheduler.go:202-236 | a record is due exactly when the update ends a cached job's run; it has the job's last start, and says failed just when the update leaves the job failed rather than idle |
| CourseProofs.AccountRun | mesos/jobsscheduler/jobsscheduler.go:178-364 | in every run, the cached state and last start of a job that stays are what its builds and reports, taken one by one, say; the scheduler may restart while storage has both |
| CourseProofs.AccountAcrossRestarts | mesos/jobsscheduler/jobsscheduler.go:87-176 | with saves that succeed the same holds across restarts at any point |
| CourseProofs.DueByAccount | model/model.go:135-158 | in every run, a job may be run exactly when its last attempt failed, may be repeated and lies in the past, or it is at rest and its schedule has a point since the last attempt |
| CourseProofs.PicksAreCalledFor | mesos/jobsscheduler/jobsscheduler.go:287-302 | in every run, each pick was requested, or is a retry, or has a schedule point since the last attempt; it is a retry exactly when that attempt failed and may be repeated, and then the event at which it failed is there, with nothing launched or finished since |
| CourseProofs.CreatedJob | api/api.go:314-343 | the next sync caches a created job idle, without a task, and due once its schedule has had a point since the zero time |
| CourseProofs.UpdatedJob | mesos/jobsscheduler/jobsscheduler.go:152-165 | a new conf reaches the cache with the next sync, and nothing else changes by it |
| CourseProofs.DeletedJob | mesos/jobsscheduler/jobsscheduler.go:166-173 | a deleted job leaves the cache with the next sync, and no other does by it |
| CourseProofs.QueuedJob | mesos/jobsscheduler/jobsscheduler.go:118-138 | a queued job is in the queue cache from the next sync of the queue, and no other is by it |
| Schedulers.Scheduler.VisitCachedJob | mesos/jobsscheduler/jobsscheduler.go:287-313 | one iteration of the selection loop, for any readings of the clock; what makes a job due and for which role resources are asked is said by the rows of DueRules and RoleProofs |
| Schedulers.Scheduler.FindJobsForResources | mesos/jobsscheduler/jobsscheduler.go:280-317 | a pass over all cached jobs in any order gives the selection the specification gives |
| Schedulers.Scheduler.BuildTask | mesos/jobsscheduler/jobsscheduler.go:324-360 | runtime, save, dequeuing and booking after one closure, the task it adds, and the record of a task that could not be built; all are written when writes do not fail |
| Schedulers.Scheduler.BuildTasksForOffer | mesos/jobsscheduler/jobsscheduler.go:319-364 | each closure runs exactly once, in any order, one after the other; the tasks carry the bundles of their jobs; all is written when writes do not fail |
| Schedulers.Scheduler.FindTasksForOffer | mesos/jobsscheduler/jobsscheduler.go:263-271 | the whole reaction to an offer: a full pass, then one build per selected job after it; all is written when writes do not fail; the scheduler is ready for the next offer |
| SelectionProofs.SelectPicks | mesos/jobsscheduler/jobsscheduler.go:285-315 | every picked job was unbooked and due or queued when visited, is picked once, has its attempt counted and is booked; all other jobs are untouched |
| SelectionProofs.SelectConserves | mesos/jobsscheduler/jobsscheduler.go:287-313 | for every order, bundles and leftover add up to the offer per resource and role, and each bundle is its job's CPUs, memory and disk |
| SelectionProofs.NoOversubscription | mesos/jobsscheduler/jobsscheduler.go:303-311 | no role gives more than the offer holds there, to one task or to all |
| SelectionProofs.JobResourcesTotals | model/model.go:109-118 | a job's resource list amounts to its CPUs, memory and disk and nothing else |
| SelectionProofs.SelectMaximal | mesos/jobsscheduler/jobsscheduler.go:287-313 | no unbooked job that was due or queued and was passed over fits in the final leftover |
| SelectionProofs.SelectNeverHalts | mesos/jobsscheduler/jobsscheduler.go:303-306 | the fatal exit is never reached when Find succeeds for every job that fits |
| DueRules.RunnableIffDue | model/model.go:135-158 | a job is runnable exactly when it is idle or failed and, if it failed and may be repeated, its last start has passed, else a point of its schedule lies between its last start and now |
| DueRules.PickedWereDue | mesos/jobsscheduler/jobsscheduler.go:287-302 | what a pass picks was queued or due by that rule, not booked within the minute before, and is counted as a retry exactly when its last attempt failed and may be repeated |
| DueRules.DueIsPicked | mesos/jobsscheduler/jobsscheduler.go:287-313 | a job that is queued or due by that rule, not booked within the minute, and fits in the final leftover is picked |
| RoleProofs.AskedForRole | mesos/jobsscheduler/jobsscheduler.go:248-261 | what is found is what Find gives for the job's CPUs, memory and disk, all of the first accepted role |
| RoleProofs.VisitHaltsIff | mesos/jobsscheduler/jobsscheduler.go:287-306 | with a Find that keeps to roles, the fatal exit is reached exactly for a job that is to be picked and fits in all roles together but not in the scheduler's own |
| RoleProofs.SelectKeepsToRole | mesos/jobsscheduler/jobsscheduler.go:248-311 | with a Find that keeps to roles, every picked job gets what it needs out of the scheduler's role |
| RoleProofs.SelectStaysInRole | mesos/jobsscheduler/jobsscheduler.go:248-311 | while the role holds what all visited jobs need, no pass reaches the fatal exit and every picked job gets what it needs out of that role, also with a Find that may turn to other roles |
| RoleProofs.FindInRoleIsFind | mesos/jobsscheduler/jobsscheduler.go:248-261 | a Find that keeps to roles exists |
| RoleProofs.FindInRoleFirstFits | mesos/jobsscheduler/jobsscheduler.go:248-261 | a Find that meets the contract, prefers its role and succeeds for every job that fits exists |
| Finders.FindInAnyRoleIsFind | mesos/jobsscheduler/jobsscheduler.go:248-261 | the contract asked of Find can be met: taking from any role does |
| RoleProofs.FindInAnyRoleFits | mesos/jobsscheduler/jobsscheduler.go:295-306 | that same Find succeeds for every job that fits, whatever the roles |
| OfferProofs.BuildAllEffect | mesos/jobsscheduler/jobsscheduler.go:319-364 | in any order, each closure leaves its own job as built, unbooked and unqueued, and touches no other |
| OfferProofs.TasksWithinOffer | mesos/jobsscheduler/jobsscheduler.go:263-364 | the tasks an offer is answered with take no more than it holds, per resource and role, for every order of visits and closures |
| OfferProofs.TaskRunsItsJob | mesos/jobsscheduler/jobsscheduler.go:263-364 | each of those tasks is on the offer's agent and is the current task of the cached job its ID names, with that job's CPUs, memory and disk |
| OfferProofs.OneTaskEach | mesos/jobsscheduler/jobsscheduler.go:263-364 | no two of those tasks name the same job |
| OfferProofs.EveryPickIsBuilt | mesos/jobsscheduler/jobsscheduler.go:322-360 | every picked job is launched and active, or failed and retryable while it has retries left; its count and conf are those of the pick |
| OfferProofs.OthersUntouched | mesos/jobsscheduler/jobsscheduler.go:263-364 | jobs that were not picked, their bookings and queue entries stay as they were |
| OfferRuns.AnswerOffer | mesos/handlers.go:80-81 | what the scheduler does with an offer is a valid answer, to which the results above apply |
| OfferRuns.AnswerIsRun | mesos/jobsscheduler/jobsscheduler.go:263-364 | every valid answer is a run of the state machine: an offer event, then one build event per selected job, with nothing left to build and exactly the returned tasks gone live |
| SchedulerRuns.KeyedStep | mesos/jobsscheduler/jobsscheduler.go:80-84 | every step keeps each job under its own well-formed FQID |
| SchedulerRuns.SyncRepairs | mesos/jobsscheduler/jobsscheduler.go:152-174 | a stale conf, or an evicted job, put back by setJob leaves no trace after the next sync |
| SchedulerRuns.BookedRun | mesos/jobsscheduler/jobsscheduler.go:43-46 | in every timely run, jobs waiting to be built differ and stay booked until built or for the TTL |
| OneTaskProofs.OneTaskStep | mesos/jobsscheduler/jobsscheduler.go:178-364 | every kind of step that is careful keeps the invariant below |
| OneTaskProofs.OneTaskRun | mesos/jobsscheduler/jobsscheduler.go:43-46 | in every state of every careful run each live task is its job's current task, and a job is active exactly when it has one; what is careful is said of the state and the visits before each step |
| OneTaskProofs.AtMostOneLiveTask | mesos/jobsscheduler/jobsscheduler.go:43-46 | hence no job has two live tasks |
| OneTaskLimits.PassKeepsOneTaskIff | mesos/jobsscheduler/jobsscheduler.go:287-293 | a pass at given times keeps the invariant for every offer if and only if each job it finds unbooked, and due or queued, is inactive and still stored |
| OneTaskLimits.OffersKeepOneTaskIff | mesos/jobsscheduler/jobsscheduler.go:280-317 | in any state, the next offer keeps the invariant whatever it holds and whenever it comes if and only if every cached job is still stored and no active one is queued, or no timely offer can come |
| OneTaskLimits.DeleteKeepsOneTaskIff | storage/zk/zk.go:470-500 | deleting a job keeps the invariant if and only if the job has no task, live or about to be built |
| OneTaskLimits.RestartKeepsOneTaskIff | mesos/jobsscheduler/jobsscheduler.go:87-101 | a restart keeps the invariant if and only if storage has the tasks and activity the cache has |
| OneTaskLimits.ActivePickWasQueued | mesos/jobsscheduler/jobsscheduler.go:291 | an active job is picked only when it is queued |
| OneTaskLimits.QueuedActiveJobRunsTwice | mesos/jobsscheduler/jobsscheduler.go:291 | whenever a picked active job is launched it has two live tasks |
| OneTaskLimits.SecondTask | mesos/jobsscheduler/jobsscheduler.go:291 | a two-step run, for any acceptable job that is active and queued, that ends with two live tasks |
| OneTaskLimits.IdleJobQueuedRunsTwice | mesos/jobsscheduler/jobsscheduler.go:64-78 | a six-step run, for any acceptable job, from a new scheduler: only an idle job is queued, all saves and dequeuing succeed, and it ends with two live tasks |
| OneTaskLimits.DeletedJobLosesItsTask | mesos/jobsscheduler/jobsscheduler.go:166-173 | a job launched after its deletion leaves a live task no cached job has |
| RestartProofs.RestartIsSyncIff | mesos/jobsscheduler/jobsscheduler.go:87-101 | with no job waiting to be built, a new scheduler is what a sync of the old one gives if and only if storage agrees with the caches |
| RestartProofs.RestartInvisible | mesos/jobsscheduler/jobsscheduler.go:87-176 | along every run whose saves succeed, restarts included, with no job waiting to be built nothing is booked and a restart gives what a sync gives |
| RestartProofs.CreateKeepsAgreementIff | mesos/jobsscheduler/jobsscheduler.go:157-164 | creating a job keeps the agreement if and only if no other runtime is cached under its name |
| RestartProofs.BuildKeepsAgreementIff | mesos/jobsscheduler/jobsscheduler.go:353-357 | a build keeps the agreement if and only if it is saved, or storage has no such job or has that runtime already |
| RestartProofs.UpdateKeepsAgreementIff | mesos/jobsscheduler/jobsscheduler.go:241-245 | a task state update keeps the agreement if and only if it is saved, changes no stored job, or gives the runtime storage has already |
| RestartProofs.OneTaskAcrossRestarts | mesos/jobsscheduler/jobsscheduler.go:87-176 | with saves that succeed, one task per job survives restarts at any point |
| RestartProofs.LostSaveForgetsTask | mesos/jobsscheduler/jobsscheduler.go:353-356 | a failed save followed by a restart makes a job rest while its task is live |
| TaskIDProofs.TaskIDsParseBack | mesos/jobsscheduler/jobsscheduler.go:347 | in every run each current task ID, cached, stored or about to be built, parses back to its job |
| TaskIDProofs.NoSharedTask | mesos/jobsscheduler/jobsscheduler.go:461-485 | hence two jobs never share a current task ID |
| TaskIDProofs.AgentsAreKept | mesos/jobsscheduler/jobsscheduler.go:346-349 | in every run, wherever a job is held, its task and agent are those of one launch of the run, or both none, or as at the start |
| QueueLedgerProofs.QueueLedger | mesos/jobsscheduler/jobsscheduler.go:64-78 | nodes created are nodes removed plus nodes queued, the queue cache is within the stored queue, and attempts made only because of the queue never outnumber requests |
| AttemptProofs.RetriesBounded | model/model.go:150-153 | the count of retries is the number of retry attempts since the last other attempt, and at most the largest MaxRetries the job has had; the scheduler may restart while storage has the count |
| AttemptProofs.RetriesAcrossRestarts | model/model.go:150-153 | with saves that succeed the same holds across restarts that do not fall between a job's selection and its build |
| AttemptProofs.RetriesNeverExceed | mesos/jobsscheduler/jobsscheduler.go:298-302 | in every run, with failed saves, deletions and restarts, no count of retries exceeds the largest MaxRetries the job has had |
| AttemptProofs.ScheduledAttemptsBounded | model/model.go:135-158 | attempts that were due and no retries never outnumber the schedule points since the first known start; the last start never goes back; the scheduler may restart while storage has the last start |
| AttemptProofs.ScheduledAttemptsAcrossRestarts | mesos/jobsscheduler/jobsscheduler.go:326-357 | with saves that succeed the same holds across restarts at any point |
| Starts.StartOK | mesos/jobsscheduler/jobsscheduler.go:87-101 | a new scheduler on storage in which no job has a task meets every invariant asked of the first state of a run |
| Starts.EmptyStart | mesos/jobsscheduler/jobsscheduler.go:87-101 | a new scheduler on empty storage is such a start |
| Starts.Reachable | mesos/jobsscheduler/jobsscheduler.go:87-116 | from such a start, in every state whatever happens: keys, owners of task IDs and the bound on retries |
| Starts.ReachableWithCare | mesos/jobsscheduler/jobsscheduler.go:43-46 | from such a start, in every state reached with care: one task per job |
| Elections.TicketOrder | coordinator/zk/zk.go:83-87 | on ten-digit tickets, string order is the order of the numbers |
| Elections.FirstIsSmallest | coordinator/zk/zk.go:82-88 | sorting first among the tickets means having the smallest number |
| Elections.FirstLeads | coordinator/zk/zk.go:65-97 | a ticket first in a list read since it was created is the smallest there is now, however stale the list |
| Elections.CheckKeepsInvIff | coordinator/zk/zk.go:30-49 | a check keeps the invariant of leadership if and only if it fails, or comes over the standing connection with no earlier leadership left |
| Elections.Step | coordinator/zk/zk.go:29-97 | every step keeps the invariant of leadership, checks under that condition |
| Elections.MutualExclusion | coordinator/zk/zk.go:29-51 | in every state of every run whose checks meet that condition at most one coordinator holds an uncancelled leadership |
| Elections.DisconnectionEndsLeadershipIff | coordinator/zk/zk.go:149-170 | in every run, a disconnection ends every leadership of a coordinator if and only if each of its successful checks came after the earlier leadership was cancelled |
| Elections.LateCheckMakesTwoLeaders | coordinator/zk/zk.go:149-170 | a run with one late check ends with two leaders |
| Elections.SecondLeadershipMakesTwoLeaders | command/server.go:69-79 | a run with prompt checks, but leadership asked for again while it lasts, ends with two leaders |
| ElectionForks.SecondLeadershipForks | command/server.go:69-79 | from any state that keeps the invariant, a check won while an earlier leadership lasts can be followed, by prompt and sole checks alone, by two leaders |
| ElectionForks.PromptCheckIsSafeIff | coordinator/zk/zk.go:29-51 | whatever prompt and sole checks follow, a prompt check never leads to two leaders if and only if it fails or no earlier leadership of its coordinator is left |
| ElectionForks.HousedRun | coordinator/zk/zk.go:127-171 | in every run each live session is some coordinator's, as the two results above ask |
| Coordinators.Coordinator.StoreTicket | coordinator/zk/zk.go:53-63 | the ticket is the last component of the created path |
| Coordinators.Coordinator.IsLeader | coordinator/zk/zk.go:79-97 | an error exactly when the ticket is not listed; true exactly when it sorts first |
| Coordinators.Coordinator.Lead | coordinator/zk/zk.go:29-51 | a context that is not cancelled is handed out, and its cancel function stored, exactly when the ticket sorts first; an earlier context stays as it was and its cancel function is lost |
| Coordinators.Coordinator.HandleEvent | coordinator/zk/zk.go:149-170 | a disconnection cancels the context whose cancel function is stored, an expiry forgets the ticket only |
| ZkTrees.OperationsKeepParents | storage/zk/zk.go:158-181 | no operation leaves a node without its parent |
| Storages.Storage.SaveJobConf | storage/zk/zk.go:387-405 | the tree after Set or else Create, for every failure |
| Storages.Storage.SaveJobRuntime | storage/zk/zk.go:407-425 | the tree after Set or else Create, for every failure |
| Storages.Storage.SaveJob | storage/zk/zk.go:427-437 | conf, then runtime; after a lost connection neither, the conf alone or both are saved |
| Storages.Storage.AddTask | storage/zk/zk.go:365-385 | the record is created, with its directory when that is missing; a failed call touches nothing outside it |
| Storages.Storage.GetJob | storage/zk/zk.go:219-236 | the stored job, or none when conf or runtime is missing |
| Storages.Storage.GetJobs | storage/zk/zk.go:266-294 | exactly the stored jobs, each once; fails only for a lost call or a job without runtime |
| Storages.Storage.DeleteJob | storage/zk/zk.go:470-500 | exactly the job's subtree goes, and on a connection that loses no call it always does; interrupted, nothing outside it goes |
| Storages.Storage.QueueJob | storage/zk/zk.go:460-468 | the node is there afterwards, also when it was before |
| Storages.Storage.DequeueJob | storage/zk/zk.go:450-458 | the node is gone afterwards, also when it was before |
| Storages.Storage.GetQueuedJobsIDs | storage/zk/zk.go:439-448 | exactly the first three parts of each queued name, so each queued job ID |
| StorageSpec.SaveConfEffect | storage/zk/zk.go:387-405 | the stored jobs change as the scheduler's specification says; jobs stay readable if and only if the job existed |
| StorageSpec.SaveRuntimeEffect | storage/zk/zk.go:407-425 | an existing job's runtime is updated, for a missing job the save fails |
| StorageSpec.SaveJobEffect | storage/zk/zk.go:427-437 | the stored jobs gain or replace exactly this job |
| StorageSpec.AddTaskEffect | storage/zk/zk.go:365-385 | succeeds exactly when the job exists and the key is new; no job changes |
| StorageSpec.DeleteEffect | storage/zk/zk.go:470-500 | the stored jobs lose exactly this job, the queue nothing |
| StorageSpec.DeletedStaysDeleted | storage/zk/zk.go:365-425 | after a deletion, saving a runtime or adding a task record fails |
| StorageSpec.SavesCommute | storage/zk/zk.go:427-437 | conf and runtime of an existing job are saved in either order to the same tree, and read back |
| StorageSpec.QueueEffects | storage/zk/zk.go:439-468 | queuing adds the ID to the queue, dequeuing takes it out, no job changes |
| TaskCleanups.StampOfTaskKey | storage/zk/zk.go:343-344 | the timestamp read from a record's key is the second its run ended, for any task ID |
| TaskCleanups.OldByItsEnd | storage/zk/zk.go:343-349 | a record counts as old exactly when the time since the second in which its run ended exceeds the TTL |
| TaskCleanups.SameKeyIff | storage/zk/zk.go:370-372 | two runs share a key exactly when they have the same task ID and ended in the same second |
| TaskCleanups.Cleaner.CleanRecord | storage/zk/zk.go:342-356 | a record is deleted only when older than the TTL, and on a connection that loses no call it then is |
| TaskCleanups.Cleaner.TasksCleanup | storage/zk/zk.go:322-363 | records of runs that ended no longer than the TTL ago stay, unchanged; on a connection that loses no call a pass that is not cancelled succeeds, leaves no record of a run that had ended longer ago than the TTL at its start, and counts what it deleted right |
| Reconciliations.CurrentTasks | mesos/reconciliation/reconciliation.go:53-58 | exactly the current tasks of the jobs, with an agent of such a job |
| Reconciliations.OneEntryPerJob | mesos/reconciliation/reconciliation.go:53-58 | one entry per stored job with a current task |
| Reconciliations.OutstandingIsUnanswered | mesos/reconciliation/reconciliation.go:77-78 | what is outstanding is exactly the initial tasks without those answered for |
| Reconciliations.RequestsShrink | mesos/reconciliation/reconciliation.go:65-66 | the requests of a round form a shrinking chain |
| Reconciliations.Wait | mesos/reconciliation/reconciliation.go:70-83 | the inner loop stops at the first tick, at the end of the context or at the last answer, whichever comes first |
| Reconciliations.Round | mesos/reconciliation/reconciliation.go:59-85 | the first request asks for all tasks, a request follows every tick, each asks for what is outstanding; it finishes exactly when all tasks are answered |
| ReconcilerRuns.InvRun | mesos/reconciliation/reconciliation.go:88-127 | under any interleaving the goroutines that have not cleared the flag number one exactly when it is set |
| ReconcilerRuns.NeverDoubles | mesos/reconciliation/reconciliation.go:95-127 | two goroutines never work at once |
| ReconcilerRuns.NeverStalls | mesos/reconciliation/reconciliation.go:99-121 | while the flag is set its goroutine can move: the timer is armed or has fired, a round is queued, one is running, or it is about to clear the flag |
| ReconcilerRuns.StaysUpRun | mesos/reconciliation/reconciliation.go:103-107 | the flag is cleared only after the context is done |
| ReconcilerRuns.RoundsAreAskedFor | mesos/reconciliation/reconciliation.go:88-121 | under any interleaving, no more rounds are started than Run or the timer asked for, and one that is queued is counted |
| ReconcilerRuns.RequestsAreKept | mesos/reconciliation/reconciliation.go:88-121 | once a round is asked for, one is queued until a round is started |
| Reconcilers.Reconciliation.Run | mesos/reconciliation/reconciliation.go:95-127 | a goroutine is started unless one is there, and a round is queued |
| Reconcilers.Reconciliation.Pass | mesos/reconciliation/reconciliation.go:101-120 | one pass of the goroutine, whichever case its select takes; a round asks for the current tasks of the stored jobs |
| OffersTuners.FindMaxDelay | mesos/offerstuner/offerstuner.go:47-58 | the longest delay of any job, or 0 when none is overdue |
| OffersTuners.FindMinDeadline | mesos/offerstuner/offerstuner.go:60-71 | the shortest time until a job not yet overdue is due, at most a day |
| OffersTuners.Thresholds | mesos/offerstuner/offerstuner.go:99-111 | what the thresholds tested in a round mean for the jobs |
| OffersTuners.ReviveIff | mesos/offerstuner/offerstuner.go:89-110 | REVIVE is chosen exactly when jobs and queue can be read, a token is there, and a job is queued, or a minute overdue, or overdue at all while offers are suppressed |
| OffersTuners.SuppressIff | mesos/offerstuner/offerstuner.go:111-119 | SUPPRESS is chosen exactly when offers flow, no job is queued or overdue, and none is due within 7.5 seconds but in the gap between the two clock readings |
| OffersTuners.Tuner.Round | mesos/offerstuner/offerstuner.go:80-121 | which call a round makes, by those two conditions written out, and the flag it returns, for every error |
| OffersTuners.Tuner.Run | mesos/offerstuner/offerstuner.go:124-156 | over any rounds: the calls made are those of the opening and then of each round in turn, and the flag is set exactly when the last successful call is SUPPRESS |
| OffersTuners.EntriesMean | mesos/offerstuner/offerstuner.go:99-119 | over any rounds: REVIVE is sent only with a token, for a job queued, a minute overdue, or overdue while the last successful call was SUPPRESS; SUPPRESS only while it was REVIVE and nothing is to run soon |
| OffersTuners.ReviveBetween | mesos/offerstuner/offerstuner.go:99-119 | before each SUPPRESS, and after any earlier one that succeeded, comes a successful REVIVE |
| OffersTuners.SuppressedInVain | mesos/offerstuner/offerstuner.go:94-96 | an input on which that happens |

## Left out

- HTTP routing, schema checks, access control, the API client, the command line: the API appears only as steps that create, update, delete and queue jobs in storage.
- LDAP, GitLab, Vault, TLS, configuration loading, logging, metrics, framework registration and the stored framework ID.
- The contents of a task (environment, secrets, container, labels): newTaskInfo either succeeds with a new task ID or fails. Only Cron schedules are modelled, as any other makes the program panic.
- Task records as steps of the scheduler's runs: the scheduler's methods add them and `AddTask` is modelled on storage, where it changes no job. The record of a failed build, which a goroutine of its own adds (mesos/jobsscheduler/jobsscheduler.go:331-344), is added at once; its texts and links are left out.
- Accept calls to Mesos that fail (mesos/handlers.go:82-87): tasks returned for an offer count as launched.
- Rounding of resource amounts, resource ranges and sets, and `Unallocate`.
- Updates that arrive out of order or twice: `OneTaskRun` is about runs in which Mesos sends each task's updates in order.
- Pointers to cached jobs: jobs are values in a map, so a caller that keeps a pointer into the cache is not captured.
- Liveness that depends on timing: how soon jobs run, and the intervals of timers and retries.
- Changes made by others while one multi-call storage method runs: each method is proved for a tree nobody else changes meanwhile.
- Several tuner loops at once, as Run could be called twice; the supply of revive tokens is an input of each round.
- The reconciler's handler of task state updates, which hands a task ID to a waiting round or drops it: a round's signals stand for what it received.
- GetQueuedJobsIDs: asks for names of at least three parts, as the program panics on fewer.
- Schedulers.JobStore.SaveJobRuntime: the scheduler's own view of storage counts a save for a missing job as one without effect; the storage model shows that it fails.
- GetTasks, GetGroupJobs, GetProjectJobs: filters and reads that would add only easy members.
