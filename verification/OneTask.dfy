/** At most one live task per job. */
module OneTaskProofs {
  import opened Wrappers
  import opened JobModel
  import opened SchedulerSpec
  import opened SelectionProofs
  import opened SchedulerRuns

  ghost predicate Resting(rt: JobRuntime) {
    !IsActive(rt.state) && rt.currentTaskID == ""
  }

  /** The job's state says it is active exactly when it has a current task, and that task is live. */
  ghost predicate TracksLive(k: string, rt: JobRuntime, live: map<string, string>) {
    && (IsActive(rt.state) <==> rt.currentTaskID != "")
    && (rt.currentTaskID != "" ==> rt.currentTaskID in live && live[rt.currentTaskID] == k)
  }

  ghost predicate CacheTracks(jobs: map<string, Job>, live: map<string, string>) {
    forall k | k in jobs :: TracksLive(k, jobs[k].rt, live)
  }

  /** Every live task is the current task of its job, which is both cached and stored. */
  ghost predicate LiveTracked(live: map<string, string>, jobs: map<string, Job>, stored: map<string, Job>) {
    forall t | t in live ::
      t != "" && live[t] in stored && live[t] in jobs && jobs[live[t]].rt.currentTaskID == t
  }

  /** The job a task ID names. */
  ghost predicate Names(t: string, id: string) {
    ParseTaskID(t).Ok? && ParseTaskID(t).value.String() == id
  }

  ghost predicate LiveNamed(live: map<string, string>) {
    forall t | t in live :: Names(t, live[t])
  }

  /** Jobs selected for an offer have no task yet. */
  ghost predicate PendingRests(pending: seq<Picked>, jobs: map<string, Job>, stored: map<string, Job>) {
    forall p | p in pending ::
      && Resting(p.job.rt)
      && p.visit.id in jobs && Resting(jobs[p.visit.id].rt)
      && p.visit.id in stored
  }

  ghost predicate UncachedRests(stored: map<string, Job>, jobs: map<string, Job>) {
    forall k | k in stored && k !in jobs :: Resting(stored[k].rt)
  }

  /** Every live task is the current task of its job, which is active exactly while it has one. */
  ghost predicate OneTask(s: Sys) {
    && CacheTracks(s.core.jobs, s.live)
    && LiveTracked(s.live, s.core.jobs, s.core.stored)
    && LiveNamed(s.live)
    && PendingRests(s.pending, s.core.jobs, s.core.stored)
    && UncachedRests(s.core.stored, s.core.jobs)
  }

  /** What the invariant is for: a job never has two live tasks. */
  lemma AtMostOneLiveTask(s: Sys, t: string, u: string)
    requires OneTask(s) && t in s.live && u in s.live && s.live[t] == s.live[u]
    ensures t == u && s.core.jobs[s.live[t]].rt.currentTaskID == t && IsActive(s.core.jobs[s.live[t]].rt.state)
  {
    assert TracksLive(s.live[t], s.core.jobs[s.live[t]].rt, s.live);
  }

  /** Mesos reports on live tasks; after a task has ended, only a reconciliation can still call it lost. */
  ghost predicate InOrder(s: Sys, status: Status) {
    || status.taskID in s.live
    || (&& status.state == TaskLost && status.reconciliation
        && (ParseTaskID(status.taskID).Ok? && ParseTaskID(status.taskID).value.String() in s.core.jobs ==>
            var st := s.core.jobs[ParseTaskID(status.taskID).value.String()].rt.state; st == Idle || st == Failed))
  }

  ghost predicate PicksResting(core: Core, sel: Selection) {
    forall q | q in sel.picked && q.visit.id in core.jobs ::
      !IsActive(core.jobs[q.visit.id].rt.state) && q.visit.id in core.stored
  }

  /** Every job the pass finds unbooked, and due or queued, is inactive and still stored. */
  ghost predicate PassRests(env: Env, core: Core, visits: seq<Visit>)
    requires forall v | v in visits :: v.id in core.jobs
  {
    forall v | v in visits && Candidate(env, core, v) ::
      !IsActive(core.jobs[v.id].rt.state) && v.id in core.stored
  }

  lemma RestingPicks(env: Env, core: Core, visits: seq<Visit>, sel: Selection)
    requires (forall v | v in visits :: v.id in core.jobs) && Picks(env, core, visits, sel)
    requires PassRests(env, core, visits)
    ensures PicksResting(core, sel)
  {
    forall q | q in sel.picked ensures Candidate(env, core, q.visit) && q.visit in visits {
      assert PickedFrom(env, core, visits, q);
    }
  }

  /** No live task, and none about to be built, belongs to the job. */
  ghost predicate HasNoTask(s: Sys, id: string) {
    (forall t | t in s.live :: s.live[t] != id) && forall p | p in s.pending :: p.visit.id != id
  }

  /** Storage knows as much about the tasks of cached jobs as the cache. */
  ghost predicate StorageTracks(s: Sys) {
    forall k | k in s.core.jobs && k in s.core.stored ::
      && s.core.stored[k].rt.currentTaskID == s.core.jobs[k].rt.currentTaskID
      && (IsActive(s.core.stored[k].rt.state) <==> IsActive(s.core.jobs[k].rt.state))
  }

  /**
   * No offer is looked at while a job that is due or queued is active or deleted, no job is deleted while it
   * has a task, no scheduler restarts while storage has lost a task, and Mesos reports in order. Of offers,
   * deletions and restarts, exactly the others break the invariant: see module OneTaskLimits.
   */
  ghost predicate Careful(env: Env, s: Sys, e: Event)
    requires Enabled(env, s, e)
  {
    && Timely(s, e)
    && (e.OfferEvent? ==> PassRests(env, s.core, e.visits))
    && (e.DeleteEvent? ==> HasNoTask(s, e.id))
    && (e.RestartEvent? ==> StorageTracks(s))
    && (e.UpdateEvent? ==> InOrder(s, e.status))
  }

  lemma OneTaskOffer(env: Env, s: Sys, visits: seq<Visit>, until: int, sel: Selection)
    requires Keyed(s) && OneTask(s) && PicksAnew(env, s, visits, until, sel) && PicksResting(s.core, sel)
    ensures OneTask(s.(core := Selected(s.core, sel), pending := s.pending + sel.picked, now := until))
  {
    forall q | q in sel.picked
      ensures q.visit.id in s.core.jobs && Resting(q.job.rt) && Resting(sel.jobs[q.visit.id].rt)
      ensures q.visit.id in s.core.stored
    {
      assert PickedFrom(env, s.core, visits, q);
      assert TracksLive(q.visit.id, s.core.jobs[q.visit.id].rt, s.live);
    }
    forall k | k in s.core.jobs
      ensures sel.jobs[k].rt.currentTaskID == s.core.jobs[k].rt.currentTaskID
      ensures sel.jobs[k].rt.state == s.core.jobs[k].rt.state
    {
      if k in PickedIDs(sel.picked) {
        var q :| q in sel.picked && q.visit.id == k;
        assert PickedFrom(env, s.core, visits, q);
      }
    }
  }

  /** `after` differs from `before` at one job only. */
  ghost predicate ChangesOnly(before: map<string, Job>, after: map<string, Job>, id: string) {
    && before.Keys == after.Keys
    && forall k | k in before && k != id :: after[k] == before[k]
  }

  /** A job without a task gets one, or stays without. */
  lemma TaskStarts(jobs: map<string, Job>, stored: map<string, Job>, live: map<string, string>,
                   id: string, job: Job, stored': map<string, Job>, live': map<string, string>)
    requires CacheTracks(jobs, live) && LiveTracked(live, jobs, stored)
    requires id in jobs && id in stored && Resting(jobs[id].rt) && ChangesOnly(stored, stored', id)
    requires
      || (live' == live && Resting(job.rt))
      || (&& IsActive(job.rt.state) && job.rt.currentTaskID != "" && job.rt.currentTaskID !in live
          && live' == live[job.rt.currentTaskID := id])
    ensures CacheTracks(jobs[id := job], live') && LiveTracked(live', jobs[id := job], stored')
  {
    assert forall t | t in live :: live[t] != id;
    forall k | k in jobs && k != id ensures TracksLive(k, jobs[k].rt, live') {
      assert TracksLive(k, jobs[k].rt, live);
    }
  }

  lemma StartIsNamed(live: map<string, string>, jid: JobID, uuid: string)
    requires LiveNamed(live) && jid.WellFormed() && ':' !in uuid
    ensures LiveNamed(live[TaskIDString(jid, uuid) := jid.String()]) && TaskIDString(jid, uuid) != ""
  {
    TaskIDRoundTrip(jid, uuid);
  }

  lemma RestAfterBuild(s: Sys, i: nat, b: Build)
    requires Keyed(s) && Booked(s) && OneTask(s) && i < |s.pending|
    ensures var core := BuildJob(s.core, s.pending[i].job, b);
      && s.pending[i].job.FQID() in s.core.jobs && s.pending[i].job.FQID() in s.core.stored
      && Resting(s.pending[i].job.rt) && Resting(s.core.jobs[s.pending[i].job.FQID()].rt)
      && ChangesOnly(s.core.stored, core.stored, s.pending[i].job.FQID())
      && PendingRests(Without(s.pending, i), core.jobs, core.stored)
      && UncachedRests(core.stored, core.jobs)
  {
    assert s.pending[i] in s.pending && s.pending[i].job.FQID() == s.pending[i].visit.id;
    WithoutDiffers(s.pending, i);
  }

  lemma OneTaskBuild(s: Sys, i: nat, b: Build)
    requires Keyed(s) && Booked(s) && OneTask(s) && i < |s.pending|
    requires b.launch.Launched? ==> ':' !in b.launch.uuid
    requires b.launch.Launched? ==> TaskIDString(s.pending[i].job.conf.jid, b.launch.uuid) !in s.live
    ensures OneTask(Sys(
      BuildJob(s.core, s.pending[i].job, b), Without(s.pending, i),
      if b.launch.Launched? then
        s.live[TaskIDString(s.pending[i].job.conf.jid, b.launch.uuid) := s.pending[i].job.FQID()]
      else s.live,
      b.at))
  {
    hide TaskIDString, CacheTracks, LiveTracked, LiveNamed, PendingRests, UncachedRests, ChangesOnly, KeyedByFQID;
    var job, id := s.pending[i].job, s.pending[i].job.FQID();
    var core, built := BuildJob(s.core, job, b), BuiltJob(job, b);
    RestAfterBuild(s, i, b);
    assert core.jobs == s.core.jobs[id := built];
    var live := s.live;
    if b.launch.Launched? {
      assert s.pending[i] in s.pending && job.conf.Acceptable();
      StartIsNamed(s.live, job.conf.jid, b.launch.uuid);
      live := s.live[TaskIDString(job.conf.jid, b.launch.uuid) := id];
    }
    TaskStarts(s.core.jobs, s.core.stored, s.live, id, built, core.stored, live);
  }

  lemma TaskMoves(jobs: map<string, Job>, stored: map<string, Job>, live: map<string, string>,
                  t: string, rt: JobRuntime, stored': map<string, Job>, live': map<string, string>)
    requires CacheTracks(jobs, live) && LiveTracked(live, jobs, stored)
    requires t in live && ChangesOnly(stored, stored', live[t])
    requires
      || (live' == live && IsActive(rt.state) && rt.currentTaskID == t)
      || (live' == live - {t} && Resting(rt))
    ensures var jobs' := jobs[live[t] := jobs[live[t]].(rt := rt)];
      CacheTracks(jobs', live') && LiveTracked(live', jobs', stored')
  {
    var id := live[t];
    assert TracksLive(id, jobs[id].rt, live);
    assert forall u | u in live && u != t :: live[u] != id;
    forall k | k in jobs && k != id ensures TracksLive(k, jobs[k].rt, live') {
      assert TracksLive(k, jobs[k].rt, live);
    }
  }

  /** While a job is active no update is ignored; a terminal one leaves it without a task. */
  lemma UpdateOfActive(rt: JobRuntime, status: Status)
    requires IsActive(rt.state)
    ensures UpdatedRuntime(rt, status).Some?
    ensures var rt' := UpdatedRuntime(rt, status).value;
      if IsTerminal(status.state) then Resting(rt')
      else IsActive(rt'.state) && rt'.currentTaskID == rt.currentTaskID
  {
  }

  lemma UpdateOfLive(core: Core, status: Status, saved: bool, id: string, rt: JobRuntime)
    requires Names(status.taskID, id) && id in core.jobs && UpdatedRuntime(core.jobs[id].rt, status) == Some(rt)
    ensures var core' := UpdateTask(core, status, saved);
      && core'.jobs == core.jobs[id := core.jobs[id].(rt := rt)]
      && ChangesOnly(core.stored, core'.stored, id)
  {
  }

  /** After the task's end, an update in order changes nothing. */
  lemma LateUpdate(s: Sys, status: Status, saved: bool)
    requires InOrder(s, status) && status.taskID !in s.live
    ensures UpdateTask(s.core, status, saved) == s.core && s.live - {status.taskID} == s.live
  {
  }

  lemma OneTaskUpdate(s: Sys, status: Status, saved: bool)
    requires Keyed(s) && OneTask(s) && InOrder(s, status)
    ensures OneTask(s.(
      core := UpdateTask(s.core, status, saved),
      live := if IsTerminal(status.state) then s.live - {status.taskID} else s.live))
  {
    hide ParseTaskID, KeyedByFQID;
    var t := status.taskID;
    if t !in s.live {
      LateUpdate(s, status, saved);
      return;
    }
    var id := s.live[t];
    var rt, live' := s.core.jobs[id].rt, if IsTerminal(status.state) then s.live - {t} else s.live;
    assert TracksLive(id, rt, s.live) && Names(t, id);
    UpdateOfActive(rt, status);
    var rt' := UpdatedRuntime(rt, status).value;
    UpdateOfLive(s.core, status, saved, id, rt');
    assert forall p | p in s.pending :: p.visit.id != id;
    TaskMoves(s.core.jobs, s.core.stored, s.live, t, rt', UpdateTask(s.core, status, saved).stored, live');
  }

  lemma OneTaskSync(s: Sys)
    requires OneTask(s)
    ensures OneTask(s.(core := SyncJobs(s.core)))
  {
    var core := SyncJobs(s.core);
    forall k | k in core.jobs ensures TracksLive(k, core.jobs[k].rt, s.live) {
      if k in s.core.jobs {
        assert TracksLive(k, s.core.jobs[k].rt, s.live);
      }
    }
  }

  /** API calls: a job may be added, have its conf changed, or go while it has no task. */
  lemma OneTaskStored(s: Sys, stored': map<string, Job>)
    requires OneTask(s)
    requires forall t | t in s.live :: s.live[t] in stored'
    requires forall p | p in s.pending :: p.visit.id in stored'
    requires forall k | k in stored' ::
      Resting(stored'[k].rt) || (k in s.core.stored && stored'[k].rt == s.core.stored[k].rt)
    ensures OneTask(s.(core := s.core.(stored := stored')))
  {
  }

  lemma OneTaskRestart(s: Sys)
    requires OneTask(s) && StorageTracks(s)
    ensures OneTask(s.(core := Fresh(s.core.stored, s.core.queue), pending := []))
  {
    forall k | k in s.core.stored ensures TracksLive(k, s.core.stored[k].rt, s.live) {
      if k in s.core.jobs {
        assert TracksLive(k, s.core.jobs[k].rt, s.live);
      }
    }
  }

  lemma OneTaskStep(env: Env, s: Sys, e: Event)
    requires Enabled(env, s, e) && Careful(env, s, e)
    requires Keyed(s) && Booked(s) && OneTask(s)
    ensures OneTask(Apply(env, s, e))
  {
    hide ParseTaskID, KeyedByFQID, TracksLive;
    match e
    case OfferEvent(offer, visits, until) =>
      OfferPicksAnew(env, s, e);
      RestingPicks(env, s.core, visits, Select(env, s.core, offer, visits));
      OneTaskOffer(env, s, visits, until, Select(env, s.core, offer, visits));
    case BuildEvent(i, b) => OneTaskBuild(s, i, b);
    case UpdateEvent(status, saved) => OneTaskUpdate(s, status, saved);
    case SyncJobsEvent => OneTaskSync(s);
    case CreateEvent(conf) => OneTaskStored(s, CreateJob(s.core, conf).stored);
    case ConfEvent(conf) => OneTaskStored(s, UpdateConf(s.core, conf).stored);
    case DeleteEvent(id) => OneTaskStored(s, DeleteJob(s.core, id).stored);
    case RestartEvent => OneTaskRestart(s);
    case _ =>
  }

  /** Whatever saves fail, and however events interleave, a careful run keeps one task per job. */
  lemma {:induction false} OneTaskRun(env: Env, run: seq<Sys>, es: seq<Event>)
    requires IsRun(env, run, es) && Keyed(run[0]) && Booked(run[0]) && OneTask(run[0])
    requires forall i | 0 <= i < |es| :: Careful(env, run[i], es[i])
    ensures forall i | 0 <= i < |run| :: Keyed(run[i]) && Booked(run[i]) && OneTask(run[i])
  {
    if |es| > 0 {
      var n := |es| - 1;
      RunPrefix(env, run, es);
      OneTaskRun(env, run[..|es|], es[..n]);
      assert run[..|es|][n] == run[n] && OneTask(run[n]);
      KeyedStep(env, run[n], es[n]);
      BookedStep(env, run[n], es[n]);
      OneTaskStep(env, run[n], es[n]);
      assert forall i | 0 <= i < |run| - 1 :: run[..|es|][i] == run[i];
    }
  }
}
