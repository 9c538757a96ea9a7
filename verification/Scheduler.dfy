/**
 * The job scheduler itself: its fields and the methods that update them, each proved against the
 * function of module SchedulerSpec that says what it does (mesos/jobsscheduler/jobsscheduler.go).
 */
module Schedulers {
  import opened Wrappers
  import opened JobModel
  import opened Resources
  import opened Clocks
  import opened TtlSets
  import opened SchedulerSpec

  /** Each job of the list is stored under its FQID, and every stored job is listed. */
  ghost predicate Lists(jobs: seq<Job>, stored: map<string, Job>) {
    && (forall job | job in jobs :: job.FQID() in stored && stored[job.FQID()] == job)
    && forall k | k in stored :: stored[k] in jobs
  }

  /** The record of a run that has ended: the end, and whether it failed. */
  datatype Record = Record(job: string, taskID: string, start: int, end: int, failed: bool)

  /** What an update leaves in the job's history: a run that ended with it, unless the update is ignored. */
  function EndRecord(core: Core, status: Status, at: int): Option<Record> {
    match ParseTaskID(status.taskID)
    case Err(_) => None
    case Ok(jid) =>
      var id := jid.String();
      if id in core.jobs && IsTerminal(status.state) && UpdatedRuntime(core.jobs[id].rt, status).Some? then
        Some(Record(id, status.taskID, core.jobs[id].rt.lastStart, at, status.state != TaskFinished))
      else None
  }

  /** A run is recorded as failed just when the update that ends it leaves the job failed. */
  lemma EndRecordAgrees(core: Core, status: Status, saved: bool, at: int)
    ensures EndRecord(core, status, at).None? <==>
      || ParseTaskID(status.taskID).Err?
      || ParseTaskID(status.taskID).value.String() !in core.jobs
      || status.state in {TaskStaging, TaskStarting, TaskRunning}
      || (&& status.state == TaskLost && status.reconciliation
          && core.jobs[ParseTaskID(status.taskID).value.String()].rt.state in {Idle, Failed})
    ensures EndRecord(core, status, at).Some? ==>
      var record, jobs := EndRecord(core, status, at).value, UpdateTask(core, status, saved).jobs;
      && record.job == ParseTaskID(status.taskID).value.String() && record.taskID == status.taskID
      && record.start == core.jobs[record.job].rt.lastStart && record.end == at
      && jobs[record.job].rt.state == if record.failed then Failed else Idle
  {
    hide ParseTaskID;
  }

  /** Storage as the scheduler sees it. A write may fail; reads are repeated until they succeed. */
  class JobStore {
    var stored: map<string, Job>
    var queue: set<string>
    var history: seq<Record>
    /** No write fails. */
    const reliable: bool

    constructor (reliable: bool)
      ensures stored == map[] && queue == {} && history == [] && this.reliable == reliable
    {
      stored, queue, history, this.reliable := map[], {}, [], reliable;
    }

    method AddTask(record: Record) returns (added: bool)
      modifies this`history
      ensures history == if added then old(history) + [record] else old(history)
      ensures reliable ==> added
    {
      added := *;
      added := added || reliable;
      if added {
        history := history + [record];
      }
    }

    method GetJobs() returns (jobs: seq<Job>)
      requires forall k | k in stored :: stored[k].FQID() == k
      ensures Lists(jobs, stored)
    {
      jobs := [];
      var rest := stored.Keys;
      while rest != {}
        invariant rest <= stored.Keys
        invariant forall job | job in jobs :: job.FQID() in stored && stored[job.FQID()] == job
        invariant forall k | k in stored && k !in rest :: stored[k] in jobs
      {
        var k :| k in rest;
        rest := rest - {k};
        jobs := jobs + [stored[k]];
      }
    }

    method GetQueuedJobsIDs() returns (ids: seq<JobID>)
      requires forall k | k in queue :: ParseJobID(k).Ok?
      ensures forall jid | jid in ids :: jid.String() in queue
      ensures forall k | k in queue :: exists jid | jid in ids :: jid.String() == k
    {
      ids := [];
      var rest := queue;
      while rest != {}
        invariant rest <= queue
        invariant forall jid | jid in ids :: jid.String() in queue
        invariant forall k | k in queue && k !in rest :: exists jid | jid in ids :: jid.String() == k
      {
        var k :| k in rest;
        ghost var before := ids;
        var jid := ParseJobID(k).value;
        ParsedJobID(k);
        rest := rest - {k};
        ids := ids + [jid];
        assert ids[|before|] == jid;
        forall k' | k' in queue && k' !in rest ensures exists j | j in ids :: j.String() == k' {
          if k' != k {
            var j :| j in before && j.String() == k';
            assert j in ids;
          }
        }
      }
    }

    method SaveJobRuntime(id: string, rt: JobRuntime) returns (saved: bool)
      modifies this`stored
      ensures stored == if saved then StoreRuntime(old(stored), id, rt) else old(stored)
      ensures reliable ==> saved
    {
      saved := *;
      saved := saved || reliable;
      if saved && id in stored {
        stored := stored[id := stored[id].(rt := rt)];
      }
    }

    method DequeueJob(id: string) returns (dequeued: bool)
      modifies this`queue
      ensures queue == if dequeued then old(queue) - {id} else old(queue)
      ensures reliable ==> dequeued
    {
      dequeued := *;
      dequeued := dequeued || reliable;
      if dequeued {
        queue := queue - {id};
      }
    }
  }

  datatype TaskInfo = TaskInfo(taskID: string, agent: string, resources: Resources)

  function TaskOf(job: Job, bundle: Resources, b: Build): seq<TaskInfo> {
    match b.launch
    case Launched(uuid) => [TaskInfo(TaskIDString(job.conf.jid, uuid), b.agent, bundle)]
    case NotBuilt => []
  }

  /** The closures of one offer, run in the given order. */
  function BuildAll(core: Core, jobs: seq<Job>, order: seq<nat>, builds: seq<Build>): Core
    requires |order| == |builds| && forall i | 0 <= i < |order| :: order[i] < |jobs|
  {
    if |order| == 0 then core
    else
      var n := |order| - 1;
      BuildJob(BuildAll(core, jobs, order[..n], builds[..n]), jobs[order[n]], builds[n])
  }

  function TasksOf(chosen: Chosen, order: seq<nat>, builds: seq<Build>): seq<TaskInfo>
    requires |order| == |builds| && |chosen.jobs| == |chosen.bundles|
    requires forall i | 0 <= i < |order| :: order[i] < |chosen.jobs|
    decreases order
  {
    if |order| == 0 then []
    else
      var n := |order| - 1;
      TasksOf(chosen, order[..n], builds[..n]) + TaskOf(chosen.jobs[order[n]], chosen.bundles[order[n]], builds[n])
  }

  lemma RuntimesKeepKeys(jobs: map<string, Job>, id: string, rt: JobRuntime)
    requires KeyedByFQID(jobs)
    ensures KeyedByFQID(StoreRuntime(jobs, id, rt))
    ensures id in jobs ==> jobs[id].FQID() == id
  {
    assert id in jobs ==> jobs[id].(rt := rt).FQID() == jobs[id].FQID();
  }

  lemma PutKeepsKeys(jobs: map<string, Job>, job: Job)
    requires KeyedByFQID(jobs) && job.conf.Acceptable()
    ensures KeyedByFQID(jobs[job.FQID() := job])
  {
  }

  lemma BuildAllNothing(core: Core, chosen: Chosen)
    requires |chosen.jobs| == |chosen.bundles|
    ensures BuildAll(core, chosen.jobs, [], []) == core && TasksOf(chosen, [], []) == []
  {
  }

  lemma BuildAllExtends(core: Core, chosen: Chosen, order: seq<nat>, builds: seq<Build>, i: nat, b: Build)
    requires |order| == |builds| && |chosen.jobs| == |chosen.bundles| && i < |chosen.jobs|
    requires forall j | 0 <= j < |order| :: order[j] < |chosen.jobs|
    ensures BuildAll(core, chosen.jobs, order + [i], builds + [b])
         == BuildJob(BuildAll(core, chosen.jobs, order, builds), chosen.jobs[i], b)
    ensures TasksOf(chosen, order + [i], builds + [b])
         == TasksOf(chosen, order, builds) + TaskOf(chosen.jobs[i], chosen.bundles[i], b)
  {
    assert (order + [i])[..|order|] == order && (builds + [b])[..|order|] == builds;
  }

  /** Each of the n closures has run exactly once. */
  ghost predicate IsOrder(order: seq<nat>, n: nat) {
    && (forall i | 0 <= i < n :: i in order)
    && (forall i | 0 <= i < |order| :: order[i] < n)
    && forall i, j | 0 <= i < j < |order| :: order[i] != order[j]
  }

  /** The builds follow one another within the given time. */
  ghost predicate Follow(builds: seq<Build>, from: int, to: int) {
    && from <= to
    && (forall b | b in builds :: from <= b.at <= to)
    && forall i, j | 0 <= i < j < |builds| :: builds[i].at <= builds[j].at
  }

  /** Each build's runtime was saved, and its job dequeued if it was queued. */
  ghost predicate AllWritten(builds: seq<Build>) {
    forall b | b in builds :: b.saved && b.dequeued
  }

  /** Each build is of the launch its closure was given, for the agent. */
  ghost predicate Carry(builds: seq<Build>, order: seq<nat>, launches: seq<Launch>, agent: string) {
    && |builds| == |order|
    && forall i | 0 <= i < |order| ::
        order[i] < |launches| && builds[i].launch == launches[order[i]] && builds[i].agent == agent
  }

  /** Of n closures, those in the order have run and those in the rest have not. */
  ghost predicate OrderSoFar(order: seq<nat>, rest: set<nat>, n: nat) {
    && (forall i | 0 <= i < |order| :: order[i] < n && order[i] !in rest)
    && (forall i: nat | i < n :: i in order || i in rest)
    && forall i, j | 0 <= i < j < |order| :: order[i] != order[j]
  }

  lemma OrderNothing(n: nat, launches: seq<Launch>, agent: string, now: int)
    ensures OrderSoFar([], Indices(n), n) && Carry([], [], launches, agent)
    ensures Follow([], now, now) && AllWritten([])
  {
  }

  lemma OrderExtends(order: seq<nat>, rest: set<nat>, n: nat, i: nat)
    requires OrderSoFar(order, rest, n) && i in rest && i < n
    ensures OrderSoFar(order + [i], rest - {i}, n)
  {
    assert forall j | j in order :: j in order + [i];
    assert (order + [i])[|order|] == i;
  }

  lemma OrderDone(order: seq<nat>, n: nat)
    requires OrderSoFar(order, {}, n)
    ensures IsOrder(order, n)
  {
  }

  lemma BuildsExtend(builds: seq<Build>, order: seq<nat>, launches: seq<Launch>, agent: string, i: nat, b: Build,
    from: int, mid: int, to: int)
    requires Carry(builds, order, launches, agent) && i < |launches| && b.launch == launches[i] && b.agent == agent
    requires Follow(builds, from, mid) && mid <= b.at <= to
    ensures Carry(builds + [b], order + [i], launches, agent) && Follow(builds + [b], from, to)
    ensures AllWritten(builds) && b.saved && b.dequeued ==> AllWritten(builds + [b])
  {
    assert forall j | 0 <= j < |builds| :: builds[j] in builds;
  }

  /** The two slices findJobsForResources returns: jobs to run, and the resources for each. */
  datatype Chosen = Chosen(jobs: seq<Job>, bundles: seq<Resources>)

  function PickedJobs(picked: seq<Picked>): (jobs: seq<Job>)
    ensures |jobs| == |picked| && forall i | 0 <= i < |picked| :: jobs[i] == picked[i].job
  {
    seq(|picked|, i requires 0 <= i < |picked| => picked[i].job)
  }

  function PickedBundles(picked: seq<Picked>): (bundles: seq<Resources>)
    ensures |bundles| == |picked| && forall i | 0 <= i < |picked| :: bundles[i] == picked[i].bundle
  {
    seq(|picked|, i requires 0 <= i < |picked| => picked[i].bundle)
  }

  lemma MatchesPicked(chosen: Chosen, picked: seq<Picked>)
    requires Matches(chosen, picked)
    ensures chosen == Chosen(PickedJobs(picked), PickedBundles(picked))
  {
    assert chosen.jobs == PickedJobs(picked) && chosen.bundles == PickedBundles(picked);
  }

  lemma {:induction false} PickedAcceptable(env: Env, core: Core, offer: Resources, visits: seq<Visit>)
    requires |env.roles| > 0 && forall v | v in visits :: v.id in core.jobs
    requires KeyedByFQID(core.jobs)
    ensures forall p | p in Select(env, core, offer, visits).picked :: p.job.conf.Acceptable()
  {
    if |visits| > 0 {
      var before := visits[..|visits| - 1];
      PickedAcceptable(env, core, offer, before);
      SelectKeepsKeys(env, core, offer, before);
    }
  }

  lemma NoProgressYet(env: Env, core: Core, offer: Resources, now: int)
    requires |env.roles| > 0
    ensures var sel := Selection(core.jobs, core.booked, offer, [], false);
      Progress(env, core, offer, [], core.jobs.Keys, sel, now, now)
  {
  }

  ghost predicate Matches(chosen: Chosen, picked: seq<Picked>) {
    && |chosen.jobs| == |chosen.bundles| == |picked|
    && forall i | 0 <= i < |picked| :: chosen.jobs[i] == picked[i].job && chosen.bundles[i] == picked[i].bundle
  }

  class Scheduler {
    const env: Env
    const store: JobStore
    const clock: Clock
    const bookedJobs: TtlSet
    var jobs: map<string, Job>
    var queuedJobs: set<string>

    ghost predicate Valid()
      reads this, store, bookedJobs
    {
      && |env.roles| > 0
      && bookedJobs.ttl == BOOKING_TTL && bookedJobs.clock == clock
      && KeyedByFQID(jobs) && KeyedByFQID(store.stored)
      && forall k | k in store.queue :: ParseJobID(k).Ok?
    }

    ghost function View(): Core
      reads this, store, bookedJobs
    {
      Core(jobs, queuedJobs, bookedJobs.m, store.stored, store.queue)
    }

    constructor (env: Env, store: JobStore, clock: Clock)
      requires |env.roles| > 0 && KeyedByFQID(store.stored)
      requires forall k | k in store.queue :: ParseJobID(k).Ok?
      ensures Valid() && this.env == env && this.store == store && this.clock == clock
      ensures fresh(bookedJobs)
      ensures View() == Fresh(store.stored, store.queue)
    {
      this.env, this.store, this.clock := env, store, clock;
      this.bookedJobs := new TtlSet(BOOKING_TTL, clock);
      this.jobs, this.queuedJobs := map[], {};
      new;
      SyncJobsCache();
      SyncQueuedJobsCache();
      assert jobs == store.stored;
    }

    method GetJob(jid: string) returns (job: Option<Job>)
      ensures job == if jid in jobs then Some(jobs[jid]) else None
    {
      if jid in jobs {
        job := Some(jobs[jid]);
      } else {
        job := None;
      }
    }

    method SetJob(job: Job)
      modifies this`jobs
      ensures jobs == old(jobs)[job.FQID() := job]
    {
      jobs := jobs[job.FQID() := job];
    }

    /** The job leaves the queue cache even when taking it out of storage fails. */
    method DequeueJob(job: Job) returns (ghost dequeued: bool)
      modifies this`queuedJobs, store`queue
      ensures queuedJobs == old(queuedJobs) - {job.FQID()}
      ensures store.queue == if job.FQID() in old(queuedJobs) && dequeued then old(store.queue) - {job.FQID()}
                             else old(store.queue)
      ensures store.reliable ==> dequeued
    {
      dequeued := true;
      if job.FQID() in queuedJobs {
        dequeued := store.DequeueJob(job.FQID());
        queuedJobs := queuedJobs - {job.FQID()};
      }
    }

    method SyncQueuedJobsCache()
      requires Valid()
      modifies this`queuedJobs
      ensures Valid() && View() == SyncQueue(old(View()))
    {
      var jids := store.GetQueuedJobsIDs();
      var queued := {};
      for i := 0 to |jids|
        invariant queued == set jid | jid in jids[..i] :: jid.String()
      {
        assert jids[..i + 1] == jids[..i] + [jids[i]];
        queued := queued + {jids[i].String()};
      }
      assert jids[..|jids|] == jids;
      queuedJobs := queued;
      assert queuedJobs == store.queue;
    }

    /** First loop of the sync: confs are replaced in place, new jobs added. */
    method TakeSnapshot(newJobs: seq<Job>) returns (ids: set<string>)
      requires Lists(newJobs, store.stored) && forall k | k in store.stored :: store.stored[k].FQID() == k
      modifies this`jobs
      ensures ids == store.stored.Keys && jobs.Keys == old(jobs).Keys + ids
      ensures forall k | k in ids :: jobs[k] == MergeJob(old(jobs), store.stored, k)
      ensures forall k | k in old(jobs) && k !in ids :: jobs[k] == old(jobs)[k]
    {
      hide JobConf.FQID;
      ids := {};
      for i := 0 to |newJobs|
        invariant forall j | 0 <= j < i :: newJobs[j].FQID() in ids
        invariant jobs.Keys == old(jobs).Keys + ids && ids <= store.stored.Keys
        invariant forall k | k in ids :: jobs[k] == MergeJob(old(jobs), store.stored, k)
        invariant forall k | k in old(jobs) && k !in ids :: jobs[k] == old(jobs)[k]
      {
        var job := newJobs[i];
        var id := job.FQID();
        assert job in newJobs;
        ids := ids + {id};
        if id in jobs {
          jobs := jobs[id := jobs[id].(conf := job.conf)];
        } else {
          jobs := jobs[id := job];
        }
      }
      forall k | k in store.stored ensures k in ids {
        var i :| 0 <= i < |newJobs| && newJobs[i] == store.stored[k];
        assert newJobs[i].FQID() in ids;
      }
    }

    /** Second loop of the sync: jobs missing from the snapshot go. */
    method EvictAllBut(ids: set<string>)
      requires forall k | k in jobs :: jobs[k].FQID() == k
      modifies this`jobs
      ensures jobs == map k | k in old(jobs) && k in ids :: old(jobs)[k]
    {
      var rest := jobs.Keys;
      while rest != {}
        invariant rest <= jobs.Keys <= old(jobs).Keys
        invariant forall k | k in jobs :: jobs[k] == old(jobs)[k]
        invariant forall k | k in old(jobs) && k !in jobs :: k !in ids
        invariant forall k | k in jobs && k !in rest :: k in ids
        decreases rest
      {
        var k :| k in rest;
        rest := rest - {k};
        var id := jobs[k].FQID();
        if id !in ids {
          jobs := jobs - {id};
        }
      }
    }

    /** The in-place merge of a snapshot. */
    method SyncJobsCache()
      requires Valid()
      modifies this`jobs
      ensures Valid() && View() == SyncJobs(old(View()))
    {
      var newJobs := store.GetJobs();
      var ids := TakeSnapshot(newJobs);
      ghost var merged := Merge(old(jobs), store.stored);
      assert forall k | k in jobs && k in ids :: jobs[k] == merged[k];
      assert forall k | k in jobs && k !in ids :: jobs[k] == old(jobs)[k];
      EvictAllBut(ids);
      assert jobs == merged;
    }

    /** Adds the record of a run that ended now. */
    method AddTaskHistory(status: Status, start: int, jid: JobID) returns (ghost added: bool, ghost at: int)
      modifies store`history, clock
      ensures old(clock.now) <= at <= clock.now
      ensures store.history == old(store.history)
        + if added then [Record(jid.String(), status.taskID, start, at, status.state != TaskFinished)] else []
      ensures store.reliable ==> added
    {
      var now := clock.Now();
      at := now;
      added := store.AddTask(Record(jid.String(), status.taskID, start, now, status.state != TaskFinished));
    }

    method HandleTaskStateUpdate(status: Status) returns (ghost saved: bool, ghost added: bool, ghost at: int)
      requires Valid()
      modifies this`jobs, store`stored, store`history, clock
      ensures Valid() && View() == UpdateTask(old(View()), status, saved)
      ensures old(clock.now) <= at <= clock.now
      ensures var record := EndRecord(old(View()), status, at);
        store.history == old(store.history) + if record.Some? && added then [record.value] else []
      ensures store.reliable ==> View() == UpdateTask(old(View()), status, true)
      ensures store.reliable && EndRecord(old(View()), status, at).Some? ==> added
    {
      hide ParseTaskID, KeyedByFQID, UpdatedRuntime, JobID.String;
      saved, added, at := false, false, clock.now;
      var parsed := ParseTaskID(status.taskID);
      if parsed.Ok? {
        var found := GetJob(parsed.value.String());
        if found.Some? {
          saved, added, at := UpdateJob(status, parsed.value, found.value);
        }
      }
    }

    /** The switch over task states, for a cached job. */
    method UpdateJob(status: Status, jid: JobID, cached: Job)
      returns (ghost saved: bool, ghost added: bool, ghost at: int)
      requires Valid() && jid.String() in jobs && jobs[jid.String()] == cached
      modifies this`jobs, store`stored, store`history, clock
      ensures Valid() && old(clock.now) <= at <= clock.now
      ensures UpdatedRuntime(cached.rt, status).None? ==>
        jobs == old(jobs) && store.stored == old(store.stored) && store.history == old(store.history)
      ensures UpdatedRuntime(cached.rt, status).Some? ==>
        var id, rt := jid.String(), UpdatedRuntime(cached.rt, status).value;
        && jobs == old(jobs)[id := cached.(rt := rt)]
        && store.stored == (if saved then StoreRuntime(old(store.stored), id, rt) else old(store.stored))
        && store.history == old(store.history)
          + (if IsTerminal(status.state) && added then
               [Record(id, status.taskID, cached.rt.lastStart, at, status.state != TaskFinished)]
             else [])
      ensures store.reliable && UpdatedRuntime(cached.rt, status).Some? ==>
        saved && (IsTerminal(status.state) ==> added)
    {
      hide KeyedByFQID, JobID.String;
      saved, added, at := false, false, clock.now;
      var job := cached;
      match status.state {
        case TaskStaging => job := job.(rt := job.rt.(state := Staging));
        case TaskStarting => job := job.(rt := job.rt.(state := Starting));
        case TaskRunning => job := job.(rt := job.rt.(state := Running));
        case TaskFinished =>
          added, at := AddTaskHistory(status, job.rt.lastStart, jid);
          job := job.(rt := job.rt.(state := Idle, currentTaskID := "", currentAgentID := ""));
        case _ =>
          if status.state == TaskLost && status.reconciliation && (job.rt.state == Idle || job.rt.state == Failed) {
            return;
          }
          added, at := AddTaskHistory(status, job.rt.lastStart, jid);
          job := job.(rt := job.rt.(state := Failed, currentTaskID := "", currentAgentID := ""));
      }
      RuntimesKeepKeys(jobs, jid.String(), job.rt);
      RuntimesKeepKeys(store.stored, jid.String(), job.rt);
      SetJob(job);
      saved := store.SaveJobRuntime(jid.String(), job.rt);
    }

    method FindTaskResources(taskRes: Resources, offerRes: Resources) returns (found: Resources)
      requires |env.roles| > 0
      ensures found == SchedulerSpec.FindTaskResources(env, taskRes, offerRes)
    {
      var role := env.roles[0];
      if role == "*" {
        found := env.find(taskRes, offerRes);
      } else {
        found := env.find(PushReservation(taskRes, role), offerRes);
      }
    }

    /** One iteration of the selection loop. */
    method VisitCachedJob(id: string, chosen: Chosen, res: Resources, ghost picked: seq<Picked>)
      returns (chosen': Chosen, left: Resources, halted: bool, ghost v: Visit, ghost picked': seq<Picked>)
      requires |env.roles| > 0 && bookedJobs.ttl == BOOKING_TTL && bookedJobs.clock == clock
      requires id in jobs && Matches(chosen, picked)
      modifies this`jobs, bookedJobs, clock
      ensures Matches(chosen', picked')
      ensures v.id == id && old(clock.now) <= v.checkedAt <= v.runnableAt <= v.bookedAt <= clock.now
      ensures VisitJob(env, queuedJobs, Selection(old(jobs), old(bookedJobs.m), res, picked, false), v)
           == Selection(jobs, bookedJobs.m, left, picked', halted)
    {
      hide JobResources, ContainsAll, ToUnreserved, Subtract, PushReservation, ExistsAt;
      chosen', left, halted, picked' := chosen, res, false, picked;
      var job := jobs[id];
      var booked, at := bookedJobs.Exists(id);
      var now := clock.Now();
      v := Visit(id, at, now, now);
      if booked {
        return;
      }
      if !job.IsRunnable(env.next, now) && id !in queuedJobs {
        return;
      }
      if !ContainsAll(ToUnreserved(res), JobResources(job.conf)) {
        return;
      }
      if job.IsRetryable() {
        job := job.(rt := job.rt.(retries := job.rt.retries + 1));
      } else {
        job := job.(rt := job.rt.(retries := 0));
      }
      jobs := jobs[id := job];
      var taskRes := FindTaskResources(JobResources(job.conf), res);
      if |taskRes| == 0 {
        halted := true;
        return;
      }
      chosen' := Chosen(chosen.jobs + [job], chosen.bundles + [taskRes]);
      left := Subtract(res, taskRes);
      ghost var was := old(jobs[id]);
      var bookedAt := bookedJobs.Set(id);
      v := Visit(id, at, now, bookedAt);
      picked' := picked + [Picked(v, job, taskRes, was.IsRetryable(), was.IsRunnable(env.next, now))];
    }

    /** The selection loop; it stops early at a fatal exit. */
    method VisitCachedJobs(offer: Resources)
      returns (chosen: Chosen, rest: set<string>, halted: bool, ghost visits: seq<Visit>, ghost sel: Selection)
      requires |env.roles| > 0 && bookedJobs.ttl == BOOKING_TTL && bookedJobs.clock == clock
      modifies this`jobs, bookedJobs, clock
      ensures Progress(env, old(View()), offer, visits, rest, sel, old(clock.now), clock.now)
      ensures halted || rest == {}
      ensures jobs == sel.jobs && bookedJobs.m == sel.booked && halted == sel.halted && Matches(chosen, sel.picked)
    {
      hide VisitJob, IsPass, Select;
      NoProgressYet(env, View(), offer, clock.now);
      chosen, rest, halted, visits := Chosen([], []), jobs.Keys, false, [];
      sel := Selection(jobs, bookedJobs.m, offer, [], false);
      var res := offer;
      ghost var core := View();
      while rest != {} && !halted
        invariant Matches(chosen, sel.picked)
        invariant sel == Selection(jobs, bookedJobs.m, res, sel.picked, halted)
        invariant jobs.Keys == core.jobs.Keys
        invariant Progress(env, core, offer, visits, rest, sel, old(clock.now), clock.now)
        decreases rest
      {
        var id :| id in rest;
        ghost var v, picked;
        ghost var before, mid := sel, clock.now;
        chosen, res, halted, v, picked := VisitCachedJob(id, chosen, res, sel.picked);
        sel := Selection(jobs, bookedJobs.m, res, picked, halted);
        ProgressExtends(env, core, offer, visits, rest, before, v, old(clock.now), mid, clock.now);
        rest, visits := rest - {id}, visits + [v];
      }
    }

    /** Finds jobs to run on the offered resources; `halted` is the fatal exit when none are found for a job. */
    method FindJobsForResources(offer: Resources)
      returns (chosen: Chosen, halted: bool, ghost visits: seq<Visit>, ghost sel: Selection)
      requires Valid()
      modifies this`jobs, bookedJobs, clock
      ensures Valid() && Matches(chosen, sel.picked)
      ensures IsPass(visits, old(jobs), old(clock.now), clock.now)
      ensures !halted ==> IsFullPass(visits, old(jobs), old(clock.now), clock.now)
      ensures sel == Select(env, old(View()), offer, visits)
      ensures View() == old(View()).(jobs := sel.jobs, booked := sel.booked) && halted == sel.halted
    {
      var rest;
      chosen, rest, halted, visits, sel := VisitCachedJobs(offer);
      SelectKeepsKeys(env, old(View()), offer, visits);
    }

    /**
     * The closure run for one selected job; `launch` is what newTaskInfo comes to. The record of a task that
     * could not be built, which a goroutine of its own adds, is added here at once.
     */
    method BuildTask(selected: Job, bundle: Resources, agent: string, launch: Launch)
      returns (tasks: seq<TaskInfo>, ghost b: Build, ghost added: bool, ghost failedAt: int)
      requires Valid() && selected.conf.Acceptable()
      modifies this`jobs, this`queuedJobs, bookedJobs, store, clock
      ensures Valid() && View() == BuildJob(old(View()), selected, b)
      ensures tasks == TaskOf(selected, bundle, b)
      ensures b.launch == launch && b.agent == agent && old(clock.now) <= b.at <= failedAt <= clock.now
      ensures store.history == old(store.history)
        + if launch.NotBuilt? && added then [Record(selected.FQID(), "", failedAt, failedAt, true)] else []
      ensures store.reliable ==> b.saved && b.dequeued && (launch.NotBuilt? ==> added)
    {
      hide KeyedByFQID, JobID.String, TaskIDString;
      var now := clock.Now();
      added, failedAt := false, now;
      var job := selected.(rt := selected.rt.(lastStart := now));
      match launch {
        case NotBuilt =>
          job := job.(rt := job.rt.(state := Failed));
          var at := clock.Now();
          failedAt := at;
          added := store.AddTask(Record(job.FQID(), "", at, at, true));
          tasks := [];
        case Launched(uuid) =>
          var tid := TaskIDString(job.conf.jid, uuid);
          job := job.(rt := job.rt.(state := Staging, currentTaskID := tid, currentAgentID := agent));
          tasks := [TaskInfo(tid, agent, bundle)];
      }
      RuntimesKeepKeys(store.stored, job.FQID(), job.rt);
      PutKeepsKeys(jobs, job);
      ghost var saved := store.SaveJobRuntime(job.FQID(), job.rt);
      SetJob(job);
      ghost var dequeued := DequeueJob(job);
      bookedJobs.Del(job.FQID());
      b := Build(now, launch, agent, saved, dequeued);
    }

    /** All closures of an offer, in any order. */
    method BuildTasksForOffer(chosen: Chosen, agent: string, launches: seq<Launch>)
      returns (tasks: seq<TaskInfo>, ghost order: seq<nat>, ghost builds: seq<Build>)
      requires Valid() && |chosen.jobs| == |chosen.bundles| == |launches|
      requires forall job | job in chosen.jobs :: job.conf.Acceptable()
      modifies this`jobs, this`queuedJobs, bookedJobs, store, clock
      ensures Valid() && IsOrder(order, |chosen.jobs|) && |builds| == |order| && clock.now >= old(clock.now)
      ensures Carry(builds, order, launches, agent)
      ensures Follow(builds, old(clock.now), clock.now)
      ensures store.reliable ==> AllWritten(builds)
      ensures View() == BuildAll(old(View()), chosen.jobs, order, builds)
      ensures tasks == TasksOf(chosen, order, builds)
    {
      hide BuildAll, TasksOf, BuildJob, KeyedByFQID, OrderSoFar, Carry, Follow, AllWritten;
      BuildAllNothing(View(), chosen);
      OrderNothing(|chosen.jobs|, launches, agent, clock.now);
      tasks, order, builds := [], [], [];
      var rest := Indices(|chosen.jobs|);
      while rest != {}
        invariant Valid() && clock.now >= old(clock.now) && rest <= Indices(|chosen.jobs|)
        invariant |builds| == |order| && forall i | 0 <= i < |order| :: order[i] < |chosen.jobs|
        invariant OrderSoFar(order, rest, |chosen.jobs|)
        invariant Carry(builds, order, launches, agent)
        invariant Follow(builds, old(clock.now), clock.now)
        invariant store.reliable ==> AllWritten(builds)
        invariant View() == BuildAll(old(View()), chosen.jobs, order, builds)
        invariant tasks == TasksOf(chosen, order, builds)
        decreases rest
      {
        var i :| i in rest;
        ghost var mid := clock.now;
        var built;
        ghost var b, added, failedAt;
        built, b, added, failedAt := BuildTask(chosen.jobs[i], chosen.bundles[i], agent, launches[i]);
        BuildAllExtends(old(View()), chosen, order, builds, i, b);
        OrderExtends(order, rest, |chosen.jobs|, i);
        BuildsExtend(builds, order, launches, agent, i, b, old(clock.now), mid, clock.now);
        tasks, rest := tasks + built, rest - {i};
        order, builds := order + [i], builds + [b];
      }
      OrderDone(order, |chosen.jobs|);
    }

    /** The reaction to an offer; `outcomes` says what newTaskInfo comes to for each selected job. */
    method FindTasksForOffer(offer: Resources, agent: string, outcomes: nat -> Launch)
      returns (tasks: seq<TaskInfo>, halted: bool,
               ghost visits: seq<Visit>, ghost until: int, ghost sel: Selection,
               ghost order: seq<nat>, ghost builds: seq<Build>)
      requires Valid()
      modifies this, bookedJobs, store, clock
      ensures Valid() && IsPass(visits, old(jobs), old(clock.now), until) && until <= clock.now
      ensures sel == Select(env, old(View()), offer, visits) && halted == sel.halted
      ensures !halted ==>
        && IsFullPass(visits, old(jobs), old(clock.now), until)
        && IsOrder(order, |sel.picked|) && |builds| == |order| && Follow(builds, until, clock.now)
        && (store.reliable ==> AllWritten(builds))
        && (forall i | 0 <= i < |order| :: builds[i].launch == outcomes(order[i]) && builds[i].agent == agent)
        && View() == BuildAll(Selected(old(View()), sel), PickedJobs(sel.picked), order, builds)
        && tasks == TasksOf(Chosen(PickedJobs(sel.picked), PickedBundles(sel.picked)), order, builds)
    {
      hide VisitAll, BuildAll, TasksOf, KeyedByFQID;
      tasks, order, builds := [], [], [];
      var chosen;
      ghost var core := View();
      chosen, halted, visits, sel := FindJobsForResources(offer);
      until := clock.now;
      if halted {
        return;
      }
      MatchesPicked(chosen, sel.picked);
      PickedAcceptable(env, core, offer, visits);
      assert View() == Selected(core, sel);
      var launches := seq(|chosen.jobs|, i requires 0 <= i => outcomes(i));
      tasks, order, builds := BuildTasksForOffer(chosen, agent, launches);
    }
  }
}
