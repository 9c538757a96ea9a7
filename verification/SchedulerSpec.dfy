/**
 * What each operation of the job scheduler does, as functions on the scheduler's caches and on the
 * stored jobs (mesos/jobsscheduler/jobsscheduler.go). Module Schedulers proves the operations
 * themselves against these functions.
 */
module SchedulerSpec {
  import opened Wrappers
  import opened JobModel
  import opened Resources
  import opened TtlSets

  const BOOKING_TTL: int := MINUTE

  /** Configuration and libraries: accepted roles, Find, and the cron library's Next. */
  datatype Env = Env(roles: seq<string>, find: Finder, next: Cron)

  /** The scheduler's caches, and the jobs and queue in storage. Jobs are keyed by their FQID. */
  datatype Core = Core(
    jobs: map<string, Job>,
    queued: set<string>,
    booked: Entries,
    stored: map<string, Job>,
    queue: set<string>)

  ghost predicate KeyedByFQID(jobs: map<string, Job>) {
    forall k | k in jobs :: jobs[k].FQID() == k && jobs[k].conf.Acceptable()
  }

  // ---- Selecting jobs for an offer ----

  function JobResources(conf: JobConf): Resources {
    Keep([Resource("cpus", "*", conf.cpus), Resource("mem", "*", conf.mem), Resource("disk", "*", conf.disk)])
  }

  function FindTaskResources(env: Env, taskRes: Resources, offerRes: Resources): Resources
    requires |env.roles| > 0
  {
    if env.roles[0] == "*" then env.find(taskRes, offerRes)
    else env.find(PushReservation(taskRes, env.roles[0]), offerRes)
  }

  /** One iteration over a cached job, with the clock readings it makes. */
  datatype Visit = Visit(id: string, checkedAt: int, runnableAt: int, bookedAt: int)

  datatype Picked = Picked(visit: Visit, job: Job, bundle: Resources, retry: bool, runnable: bool)

  datatype Selection = Selection(
    jobs: map<string, Job>, booked: Entries, left: Resources, picked: seq<Picked>, halted: bool)

  /** A retry is counted; any other attempt starts the count again. */
  function CountAttempt(job: Job): Job {
    job.(rt := job.rt.(retries := if job.IsRetryable() then job.rt.retries + 1 else 0))
  }

  /** The job is neither booked nor undue: only the size of the leftover can keep it from being picked. */
  predicate Eligible(env: Env, queued: set<string>, sel: Selection, v: Visit)
    requires v.id in sel.jobs
  {
    && !ExistsAt(sel.booked, BOOKING_TTL, v.id, v.checkedAt)
    && (sel.jobs[v.id].IsRunnable(env.next, v.runnableAt) || v.id in queued)
  }

  function VisitJob(env: Env, queued: set<string>, sel: Selection, v: Visit): (sel': Selection)
    requires |env.roles| > 0 && v.id in sel.jobs
    ensures sel'.jobs.Keys == sel.jobs.Keys
  {
    var job := sel.jobs[v.id];
    var jobRes := JobResources(job.conf);
    if sel.halted || !Eligible(env, queued, sel, v) || !ContainsAll(ToUnreserved(sel.left), jobRes) then sel
    else
      var bundle := FindTaskResources(env, jobRes, sel.left);
      var jobs := sel.jobs[v.id := CountAttempt(job)];
      if bundle == [] then sel.(jobs := jobs, halted := true)
      else
        Selection(
          jobs,
          sel.booked[v.id := v.bookedAt],
          Subtract(sel.left, bundle),
          sel.picked
            + [Picked(v, CountAttempt(job), bundle, job.IsRetryable(), job.IsRunnable(env.next, v.runnableAt))],
          false)
  }

  function VisitAll(env: Env, queued: set<string>, sel: Selection, visits: seq<Visit>): (sel': Selection)
    requires |env.roles| > 0 && forall v | v in visits :: v.id in sel.jobs
    ensures sel'.jobs.Keys == sel.jobs.Keys
  {
    if |visits| == 0 then sel
    else VisitJob(env, queued, VisitAll(env, queued, sel, visits[..|visits| - 1]), visits[|visits| - 1])
  }

  function Select(env: Env, core: Core, offer: Resources, visits: seq<Visit>): Selection
    requires |env.roles| > 0 && forall v | v in visits :: v.id in core.jobs
  {
    VisitAll(env, core.queued, Selection(core.jobs, core.booked, offer, [], false), visits)
  }

  /** The caches after a selection. */
  function Selected(core: Core, sel: Selection): Core { core.(jobs := sel.jobs, booked := sel.booked) }

  /** A pass over the cached jobs in any order, reading a clock that never goes backwards. */
  ghost predicate IsPass(visits: seq<Visit>, jobs: map<string, Job>, from: int, to: int) {
    && from <= to
    && (forall i | 0 <= i < |visits| ::
        visits[i].id in jobs && from <= visits[i].checkedAt <= visits[i].runnableAt <= visits[i].bookedAt <= to)
    && forall i, j | 0 <= i < j < |visits| ::
        visits[i].id != visits[j].id && visits[i].bookedAt <= visits[j].checkedAt
  }

  ghost predicate IsVisited(visits: seq<Visit>, id: string) {
    exists i | 0 <= i < |visits| :: visits[i].id == id
  }

  ghost predicate IsFullPass(visits: seq<Visit>, jobs: map<string, Job>, from: int, to: int) {
    && IsPass(visits, jobs, from, to)
    && forall k | k in jobs :: IsVisited(visits, k)
  }

  /** A pass so far: `rest` are the jobs still to visit, `sel` what the visits have come to. */
  ghost predicate Progress(
    env: Env, core: Core, offer: Resources, visits: seq<Visit>, rest: set<string>, sel: Selection, from: int, to: int)
    requires |env.roles| > 0
  {
    && IsPass(visits, core.jobs, from, to)
    && rest <= core.jobs.Keys
    && (forall k | k in core.jobs :: k in rest <==> !IsVisited(visits, k))
    && Select(env, core, offer, visits) == sel
  }

  lemma PassExtends(visits: seq<Visit>, jobs: map<string, Job>, v: Visit, from: int, mid: int, to: int)
    requires IsPass(visits, jobs, from, mid) && v.id in jobs && !IsVisited(visits, v.id)
    requires mid <= v.checkedAt <= v.runnableAt <= v.bookedAt <= to
    ensures IsPass(visits + [v], jobs, from, to)
  {
    assert forall i | 0 <= i < |visits| :: visits[i].id != v.id && visits[i].bookedAt <= v.checkedAt;
  }

  lemma VisitedExtends(visits: seq<Visit>, v: Visit, id: string)
    ensures IsVisited(visits + [v], id) <==> IsVisited(visits, id) || id == v.id
  {
    var all := visits + [v];
    assert all[|visits|] == v;
    if IsVisited(visits, id) {
      var i :| 0 <= i < |visits| && visits[i].id == id;
      assert all[i].id == id;
    }
  }

  lemma ProgressExtends(
    env: Env, core: Core, offer: Resources, visits: seq<Visit>, rest: set<string>, sel: Selection, v: Visit,
    from: int, mid: int, to: int)
    requires |env.roles| > 0 && v.id in rest && Progress(env, core, offer, visits, rest, sel, from, mid)
    requires mid <= v.checkedAt <= v.runnableAt <= v.bookedAt <= to
    ensures Progress(env, core, offer, visits + [v], rest - {v.id}, VisitJob(env, core.queued, sel, v), from, to)
  {
    PassExtends(visits, core.jobs, v, from, mid, to);
    forall k {
      VisitedExtends(visits, v, k);
    }
    var all := visits + [v];
    assert all[..|all| - 1] == visits;
  }

  lemma VisitKeepsKeys(env: Env, queued: set<string>, sel: Selection, v: Visit)
    requires |env.roles| > 0 && v.id in sel.jobs && KeyedByFQID(sel.jobs)
    ensures KeyedByFQID(VisitJob(env, queued, sel, v).jobs)
  {
    assert CountAttempt(sel.jobs[v.id]).conf == sel.jobs[v.id].conf;
  }

  lemma {:induction false} SelectKeepsKeys(env: Env, core: Core, offer: Resources, visits: seq<Visit>)
    requires |env.roles| > 0 && forall v | v in visits :: v.id in core.jobs
    requires KeyedByFQID(core.jobs)
    ensures KeyedByFQID(Select(env, core, offer, visits).jobs)
  {
    if |visits| > 0 {
      var before := visits[..|visits| - 1];
      SelectKeepsKeys(env, core, offer, before);
      VisitKeepsKeys(env, core.queued, Select(env, core, offer, before), visits[|visits| - 1]);
    }
  }

  // ---- Building the tasks of selected jobs ----

  /** What newTaskInfo came to: a task with a new UUID, or an error. */
  datatype Launch = Launched(uuid: string) | NotBuilt

  /** One closure's work; `saved` and `dequeued` say that its writes, so far as it made any, succeeded. */
  datatype Build = Build(at: int, launch: Launch, agent: string, saved: bool, dequeued: bool)

  function BuiltJob(job: Job, b: Build): Job {
    match b.launch
    case Launched(uuid) =>
      job.(rt := job.rt.(
        lastStart := b.at, state := Staging,
        currentTaskID := TaskIDString(job.conf.jid, uuid), currentAgentID := b.agent))
    case NotBuilt => job.(rt := job.rt.(lastStart := b.at, state := Failed))
  }

  /** Saving the runtime of a job that is not stored fails. */
  function StoreRuntime(stored: map<string, Job>, id: string, rt: JobRuntime): map<string, Job> {
    if id in stored then stored[id := stored[id].(rt := rt)] else stored
  }

  function StoreConf(stored: map<string, Job>, conf: JobConf): map<string, Job> {
    if conf.FQID() in stored then stored[conf.FQID() := stored[conf.FQID()].(conf := conf)] else stored
  }

  function BuildJob(core: Core, job: Job, b: Build): Core {
    var id, built := job.FQID(), BuiltJob(job, b);
    Core(
      core.jobs[id := built],
      core.queued - {id},
      core.booked - {id},
      if b.saved then StoreRuntime(core.stored, id, built.rt) else core.stored,
      if id in core.queued && b.dequeued then core.queue - {id} else core.queue)
  }

  // ---- Task state updates ----

  /** The states the program handles; any other makes it panic. */
  datatype TaskState = TaskStaging | TaskStarting | TaskRunning | TaskFinished
    | TaskLost | TaskFailed | TaskKilled | TaskError

  predicate IsTerminal(st: TaskState) {
    st != TaskStaging && st != TaskStarting && st != TaskRunning
  }

  datatype Status = Status(taskID: string, state: TaskState, reconciliation: bool)

  /** None: a reconciliation's TASK_LOST says nothing about a job that is idle or failed. */
  function UpdatedRuntime(rt: JobRuntime, status: Status): Option<JobRuntime> {
    match status.state
    case TaskStaging => Some(rt.(state := Staging))
    case TaskStarting => Some(rt.(state := Starting))
    case TaskRunning => Some(rt.(state := Running))
    case TaskFinished => Some(rt.(state := Idle, currentTaskID := "", currentAgentID := ""))
    case _ =>
      if status.state == TaskLost && status.reconciliation && (rt.state == Idle || rt.state == Failed) then None
      else Some(rt.(state := Failed, currentTaskID := "", currentAgentID := ""))
  }

  function UpdateTask(core: Core, status: Status, saved: bool): Core {
    match ParseTaskID(status.taskID)
    case Err(_) => core
    case Ok(jid) =>
      var id := jid.String();
      if id !in core.jobs then core
      else
        match UpdatedRuntime(core.jobs[id].rt, status)
        case None => core
        case Some(rt) =>
          core.(
            jobs := core.jobs[id := core.jobs[id].(rt := rt)],
            stored := if saved then StoreRuntime(core.stored, id, rt) else core.stored)
  }

  // ---- Syncs with storage ----

  /**
   * Jobs and confs are the stored ones. A cached runtime wins over the stored one, since saving the
   * latter can fail.
   */
  function Merge(cache: map<string, Job>, stored: map<string, Job>): map<string, Job> {
    map k | k in stored :: MergeJob(cache, stored, k)
  }

  function MergeJob(cache: map<string, Job>, stored: map<string, Job>, k: string): Job
    requires k in stored
  {
    Job(stored[k].conf, if k in cache then cache[k].rt else stored[k].rt)
  }

  function SyncJobs(core: Core): Core { core.(jobs := Merge(core.jobs, core.stored)) }

  function SyncQueue(core: Core): Core { core.(queued := core.queue) }

  /** A new scheduler on the storage that is there. */
  function Fresh(stored: map<string, Job>, queue: set<string>): Core {
    Core(stored, queue, map[], stored, queue)
  }

  // ---- API calls, which reach storage only ----

  function CreateJob(core: Core, conf: JobConf): Core {
    core.(stored := core.stored[conf.FQID() := Job(conf, FRESH_RUNTIME)])
  }

  function UpdateConf(core: Core, conf: JobConf): Core {
    core.(stored := StoreConf(core.stored, conf))
  }

  function DeleteJob(core: Core, id: string): Core { core.(stored := core.stored - {id}) }

  function QueueJob(core: Core, id: string): Core { core.(queue := core.queue + {id}) }
}
