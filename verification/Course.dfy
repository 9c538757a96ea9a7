/** What the events of a run say of a job: the cached state and last start are always what they say. */
module CourseProofs {
  import opened JobModel
  import opened SchedulerSpec
  import opened SelectionProofs
  import opened SchedulerRuns
  import opened OneTaskProofs
  import opened RestartProofs
  import opened DueRules

  // ---- One update ----

  /** The state a report leaves, and when it leaves the job as it was. */
  lemma UpdateLeaves(rt: JobRuntime, status: Status)
    ensures UpdatedRuntime(rt, status).None? <==>
      status.state == TaskLost && status.reconciliation && rt.state in {Idle, Failed}
    ensures UpdatedRuntime(rt, status).Some? ==>
      var rt' := UpdatedRuntime(rt, status).value;
      && (status.state == TaskFinished ==> rt'.state == Idle)
      && (status.state in {TaskLost, TaskFailed, TaskKilled, TaskError} ==> rt'.state == Failed)
      && (status.state == TaskStaging ==> rt'.state == Staging)
      && (status.state == TaskStarting ==> rt'.state == Starting)
      && (status.state == TaskRunning ==> rt'.state == Running)
      && rt'.lastStart == rt.lastStart && rt'.retries == rt.retries
      && (if IsTerminal(status.state) then rt'.currentTaskID == "" && rt'.currentAgentID == ""
          else rt'.currentTaskID == rt.currentTaskID && rt'.currentAgentID == rt.currentAgentID)
  {
  }

  // ---- The account a run gives of a job ----

  /** How the job's last attempt is going, and when it was made. */
  datatype Account = Account(state: State, lastStart: int)

  /** The event is the build of one of the job's tasks. */
  predicate Builds(s: Sys, e: Event, k: string) {
    e.BuildEvent? && e.i < |s.pending| && s.pending[e.i].visit.id == k
  }

  /** The event is a report on one of the job's tasks. */
  ghost predicate Reports(e: Event, k: string) {
    e.UpdateEvent? && Names(e.status.taskID, k)
  }

  /** The attempt is over and has failed; a reconciliation that misses a task says so of active jobs only. */
  ghost predicate Fails(s: Sys, e: Event, k: string, before: State) {
    || (Builds(s, e, k) && e.b.launch.NotBuilt?)
    || (&& Reports(e, k) && e.status.state in {TaskLost, TaskFailed, TaskKilled, TaskError}
        && (e.status.state == TaskLost && e.status.reconciliation ==> IsActive(before)))
  }

  /** The attempt is over and has succeeded. */
  ghost predicate Finishes(e: Event, k: string) {
    Reports(e, k) && e.status.state == TaskFinished
  }

  /** The attempt is under way, in the given state. */
  ghost predicate Proceeds(s: Sys, e: Event, k: string, to: State) {
    || (Builds(s, e, k) && e.b.launch.Launched? && to == Staging)
    || (Reports(e, k) && e.status.state == TaskStaging && to == Staging)
    || (Reports(e, k) && e.status.state == TaskStarting && to == Starting)
    || (Reports(e, k) && e.status.state == TaskRunning && to == Running)
  }

  ghost function AfterEvent(s: Sys, e: Event, k: string, before: Account): Account {
    Account(
      if Fails(s, e, k, before.state) then Failed
      else if Finishes(e, k) then Idle
      else if Proceeds(s, e, k, Staging) then Staging
      else if Proceeds(s, e, k, Starting) then Starting
      else if Proceeds(s, e, k, Running) then Running
      else before.state,
      if Builds(s, e, k) then e.b.at else before.lastStart)
  }

  ghost function AccountOf(run: seq<Sys>, es: seq<Event>, k: string, start: Account): Account
    requires |run| == |es| + 1
  {
    if |es| == 0 then start
    else
      var n := |es| - 1;
      AfterEvent(run[n], es[n], k, AccountOf(run[..|es|], es[..n], k, start))
  }

  ghost predicate Accounted(s: Sys, k: string, account: Account) {
    && k in s.core.jobs && k in s.core.stored
    && s.core.jobs[k].rt.state == account.state && s.core.jobs[k].rt.lastStart == account.lastStart
  }

  /** The job stays in storage, and the scheduler restarts only while storage has its state and last start. */
  ghost predicate Kept(s: Sys, e: Event, k: string) {
    && (e.DeleteEvent? ==> e.id != k)
    && (e.RestartEvent? && k in s.core.jobs && k in s.core.stored ==>
        && s.core.stored[k].rt.state == s.core.jobs[k].rt.state
        && s.core.stored[k].rt.lastStart == s.core.jobs[k].rt.lastStart)
  }

  lemma AccountOffer(env: Env, s: Sys, visits: seq<Visit>, sel: Selection, k: string, account: Account)
    requires Accounted(s, k, account) && Picks(env, s.core, visits, sel) && !sel.halted
    ensures sel.jobs[k].rt.state == account.state && sel.jobs[k].rt.lastStart == account.lastStart
  {
    if k in PickedIDs(sel.picked) {
      var q :| q in sel.picked && q.visit.id == k;
      assert PickedFrom(env, s.core, visits, q);
    }
  }

  lemma AccountUpdate(s: Sys, e: Event, k: string, account: Account)
    requires e.UpdateEvent? && Accounted(s, k, account)
    ensures Accounted(s.(core := UpdateTask(s.core, e.status, e.saved)), k, AfterEvent(s, e, k, account))
  {
    hide ParseTaskID, UpdatedRuntime;
    UpdateLeaves(s.core.jobs[k].rt, e.status);
    var core := UpdateTask(s.core, e.status, e.saved);
    if !Names(e.status.taskID, k) {
      assert k in core.jobs && core.jobs[k] == s.core.jobs[k] && k in core.stored;
    }
  }

  lemma AccountBuild(s: Sys, e: Event, k: string, account: Account)
    requires e.BuildEvent? && e.i < |s.pending| && Keyed(s) && Accounted(s, k, account)
    ensures var core := BuildJob(s.core, s.pending[e.i].job, e.b);
      Accounted(s.(core := core), k, AfterEvent(s, e, k, account))
  {
    hide TaskIDString, KeyedByFQID;
    assert s.pending[e.i] in s.pending;
  }

  lemma AccountOther(env: Env, s: Sys, e: Event, k: string, account: Account)
    requires Enabled(env, s, e) && Kept(s, e, k) && Accounted(s, k, account)
    requires !e.OfferEvent? && !e.BuildEvent? && !e.UpdateEvent?
    ensures Accounted(Apply(env, s, e), k, account)
  {
    hide JobConf.Acceptable;
  }

  lemma AccountStep(env: Env, s: Sys, e: Event, k: string, account: Account)
    requires Enabled(env, s, e) && Kept(s, e, k) && Keyed(s) && Accounted(s, k, account)
    ensures Accounted(Apply(env, s, e), k, AfterEvent(s, e, k, account))
  {
    hide Keyed, Kept, BuildJob, UpdateTask, Names;
    match e
    case OfferEvent(offer, visits, until) =>
      PassDistinct(visits, s.core.jobs, s.now, until);
      SelectPicks(env, s.core, offer, visits);
      AccountOffer(env, s, visits, Select(env, s.core, offer, visits), k, account);
    case BuildEvent(i, b) => AccountBuild(s, e, k, account);
    case UpdateEvent(status, saved) => AccountUpdate(s, e, k, account);
    case _ => AccountOther(env, s, e, k, account);
  }

  /** Along every run the cached state and last start of a job that stays are what the events say. */
  lemma {:induction false} AccountRun(env: Env, run: seq<Sys>, es: seq<Event>, k: string, start: Account)
    requires IsRun(env, run, es) && Keyed(run[0]) && Accounted(run[0], k, start)
    requires forall i | 0 <= i < |es| :: Kept(run[i], es[i], k)
    ensures Keyed(run[|es|]) && Accounted(run[|es|], k, AccountOf(run, es, k, start))
  {
    hide Enabled, Apply, Keyed, Accounted, AfterEvent;
    if |es| > 0 {
      var n := |es| - 1;
      RunPrefix(env, run, es);
      assert run[..|es|][0] == run[0];
      AccountRun(env, run[..|es|], es[..n], k, start);
      assert run[..|es|][n] == run[n] && Kept(run[n], es[n], k);
      KeyedStep(env, run[n], es[n]);
      AccountStep(env, run[n], es[n], k, AccountOf(run[..|es|], es[..n], k, start));
    }
  }

  /** With saves that succeed, across restarts at any point. */
  lemma AccountAcrossRestarts(env: Env, run: seq<Sys>, es: seq<Event>, k: string, start: Account)
    requires IsRun(env, run, es) && Keyed(run[0]) && Agrees(run[0]) && Accounted(run[0], k, start)
    requires forall i | 0 <= i < |es| :: Durable(run[i], es[i]) && (es[i].DeleteEvent? ==> es[i].id != k)
    ensures Accounted(run[|es|], k, AccountOf(run, es, k, start))
  {
    RestartInvisible(env, run, es);
    forall i | 0 <= i < |es| ensures Kept(run[i], es[i], k) {
      if k in run[i].core.jobs && k in run[i].core.stored {
        assert AgreesAt(run[i], k);
      }
    }
    AccountRun(env, run, es, k, start);
  }

  // ---- What attempts answer to ----

  /** The attempt under way at event j failed then, and nothing has been launched or has finished since. */
  ghost predicate FailedAt(run: seq<Sys>, es: seq<Event>, k: string, start: Account, j: nat)
    requires |run| == |es| + 1
  {
    && j < |es|
    && Fails(run[j], es[j], k, AccountOf(run[..j + 1], es[..j], k, start).state)
    && forall i | j < i < |es| ::
        && !Finishes(es[i], k)
        && !Proceeds(run[i], es[i], k, Staging)
        && !Proceeds(run[i], es[i], k, Starting)
        && !Proceeds(run[i], es[i], k, Running)
  }

  lemma {:induction false} FailureBehind(run: seq<Sys>, es: seq<Event>, k: string, start: Account) returns (j: nat)
    requires |run| == |es| + 1 && start.state != Failed && AccountOf(run, es, k, start).state == Failed
    ensures FailedAt(run, es, k, start, j)
  {
    hide Fails, Finishes, Proceeds, Builds;
    var n := |es| - 1;
    if Fails(run[n], es[n], k, AccountOf(run[..|es|], es[..n], k, start).state) {
      j := n;
    } else {
      j := FailureBehind(run[..|es|], es[..n], k, start);
      assert run[..|es|][..j + 1] == run[..j + 1] && es[..n][..j] == es[..j];
      assert forall i | 0 <= i < n :: run[..|es|][i] == run[i] && es[..n][i] == es[i];
    }
  }

  /** When the job may be run next, by what the run says of it. */
  lemma DueByAccount(
    env: Env, points: (string, int) -> bool, run: seq<Sys>, es: seq<Event>, k: string, start: Account, now: int)
    requires IsRun(env, run, es) && Keyed(run[0]) && Accounted(run[0], k, start) && AllSchedules(env.next, points)
    requires forall i | 0 <= i < |es| :: Kept(run[i], es[i], k)
    ensures k in run[|es|].core.jobs
    ensures var account, job := AccountOf(run, es, k, start), run[|es|].core.jobs[k];
      job.IsRunnable(env.next, now) <==>
        if account.state == Failed && job.rt.retries < job.conf.maxRetries then account.lastStart < now
        else account.state in {Idle, Failed} && PointBetween(points, job.conf.cron, account.lastStart, now)
  {
    AccountRun(env, run, es, k, start);
    RunnableIffDue(env.next, points, run[|es|].core.jobs[k], now);
  }

  /**
   * Every attempt is called for: by a request in the queue; as a retry, after an attempt that failed; or by a point
   * of the schedule since the last attempt was made.
   */
  lemma PicksAreCalledFor(
    env: Env, points: (string, int) -> bool, run: seq<Sys>, es: seq<Event>, k: string, start: Account,
    e: Event, q: Picked)
    requires IsRun(env, run, es) && Keyed(run[0]) && Accounted(run[0], k, start) && AllSchedules(env.next, points)
    requires forall i | 0 <= i < |es| :: Kept(run[i], es[i], k)
    requires e.OfferEvent? && Enabled(env, run[|es|], e)
    requires q in Select(env, run[|es|].core, e.offer, e.visits).picked && q.visit.id == k
    ensures var account, s := AccountOf(run, es, k, start), run[|es|];
      && k in s.core.jobs
      && (q.retry <==> account.state == Failed && s.core.jobs[k].rt.retries < s.core.jobs[k].conf.maxRetries)
      && (|| k in s.core.queued
          || (q.retry && account.lastStart < q.visit.runnableAt)
          || (account.state in {Idle, Failed}
              && PointBetween(points, s.core.jobs[k].conf.cron, account.lastStart, q.visit.runnableAt)))
    ensures q.retry && start.state != Failed ==> exists j: nat :: FailedAt(run, es, k, start, j)
  {
    AccountRun(env, run, es, k, start);
    var s := run[|es|];
    PassDistinct(e.visits, s.core.jobs, s.now, e.until);
    PickedWereDue(env, points, s.core, e.offer, e.visits, q);
    if q.retry && start.state != Failed {
      var j := FailureBehind(run, es, k, start);
    }
  }

  /**
   * A job that is created under a name no longer cached has no past: the next sync caches it idle, without a task and
   * not started since the zero time, so that it is due once its schedule has had a point.
   */
  lemma CreatedJob(env: Env, points: (string, int) -> bool, s: Sys, conf: JobConf, now: int)
    requires Enabled(env, s, CreateEvent(conf)) && conf.FQID() !in s.core.jobs && AllSchedules(env.next, points)
    ensures var id, s' := conf.FQID(), Apply(env, Apply(env, s, CreateEvent(conf)), SyncJobsEvent);
      && Accounted(s', id, Account(Idle, -62_135_596_800 * SECOND))
      && s'.core.jobs[id] == s'.core.stored[id] && s'.core.jobs[id].conf == conf
      && s'.core.jobs[id].rt.currentTaskID == "" && s'.core.jobs[id].rt.currentAgentID == ""
      && (s'.core.jobs[id].IsRunnable(env.next, now) <==>
          PointBetween(points, conf.cron, -62_135_596_800 * SECOND, now))
  {
    RunnableIffDue(env.next, points, Job(conf, FRESH_RUNTIME), now);
    hide JobConf.Acceptable;
  }

  // ---- What API calls come to ----

  /** A new conf reaches the cache with the next sync, and nothing else changes by it. */
  lemma UpdatedJob(env: Env, s: Sys, conf: JobConf)
    requires Enabled(env, s, ConfEvent(conf)) && Keyed(s)
    ensures var id, jobs := conf.FQID(), Apply(env, s, SyncJobsEvent).core.jobs;
      && id in jobs
      && Apply(env, Apply(env, s, ConfEvent(conf)), SyncJobsEvent).core.jobs == jobs[id := jobs[id].(conf := conf)]
  {
    hide JobConf.Acceptable, JobConf.FQID;
  }

  /** A deleted job leaves the cache with the next sync, and no other does by it. */
  lemma DeletedJob(env: Env, s: Sys, id: string)
    ensures Apply(env, Apply(env, s, DeleteEvent(id)), SyncJobsEvent).core.jobs
         == Apply(env, s, SyncJobsEvent).core.jobs - {id}
  {
  }

  /** A queued job is in the queue cache from the next sync of the queue, and no other is by it. */
  lemma QueuedJob(env: Env, s: Sys, id: string)
    ensures Apply(env, Apply(env, s, QueueEvent(id)), SyncQueueEvent).core.queued
         == Apply(env, s, SyncQueueEvent).core.queued + {id}
  {
  }
}
