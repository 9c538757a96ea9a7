/** Exactly when the program keeps one task per job, and runs in which it does not. */
module OneTaskLimits {
  import opened JobModel
  import opened Resources
  import opened Finders
  import opened RoleProofs
  import opened SchedulerSpec
  import opened SelectionProofs
  import opened SchedulerRuns
  import opened OneTaskProofs

  // ---- Offers ----

  /** An active job is picked only because it was queued. */
  lemma ActivePickWasQueued(env: Env, core: Core, visits: seq<Visit>, sel: Selection, q: Picked)
    requires Picks(env, core, visits, sel) && q in sel.picked && IsActive(core.jobs[q.visit.id].rt.state)
    ensures q.visit.id in core.queued
  {
    assert PickedFrom(env, core, visits, q);
  }

  /** A selection keeps the invariant exactly when every picked job is inactive and still stored. */
  lemma SelectionKeepsOneTaskIff(env: Env, s: Sys, e: Event)
    requires e.OfferEvent? && Enabled(env, s, e) && Timely(s, e)
    requires Keyed(s) && Booked(s) && OneTask(s)
    ensures OneTask(Apply(env, s, e)) <==> PicksResting(s.core, Select(env, s.core, e.offer, e.visits))
  {
    OfferPicksAnew(env, s, e);
    var sel := Select(env, s.core, e.offer, e.visits);
    if PicksResting(s.core, sel) {
      OneTaskOffer(env, s, e.visits, e.until, sel);
    } else {
      var q :| q in sel.picked && q.visit.id in s.core.jobs
        && (IsActive(s.core.jobs[q.visit.id].rt.state) || q.visit.id !in s.core.stored);
      assert PickedFrom(env, s.core, e.visits, q);
      assert q in s.pending + sel.picked;
    }
  }

  lemma PickBreaksOneTask(env: Env, s: Sys, e: Event, v: Visit)
    requires e.OfferEvent? && Enabled(env, s, e) && Timely(s, e)
    requires Keyed(s) && Booked(s) && OneTask(s)
    requires v.id in PickedIDs(Select(env, s.core, e.offer, e.visits).picked) && v.id in s.core.jobs
    requires IsActive(s.core.jobs[v.id].rt.state) || v.id !in s.core.stored
    ensures !OneTask(Apply(env, s, e))
  {
    var sel := Select(env, s.core, e.offer, e.visits);
    var q :| q in sel.picked && q.visit.id == v.id;
    SelectionKeepsOneTaskIff(env, s, e);
  }

  /** Whatever is offered in this pass, the invariant survives. */
  ghost predicate PassKeepsOneTask(env: Env, s: Sys, visits: seq<Visit>, until: int) {
    forall offer | Enabled(env, s, OfferEvent(offer, visits, until)) ::
      OneTask(Apply(env, s, OfferEvent(offer, visits, until)))
  }

  /**
   * A pass at given times keeps the invariant for every offer if and only if each job it finds unbooked, and
   * due or queued, is inactive and still stored.
   */
  lemma PassKeepsOneTaskIff(env: Env, s: Sys, visits: seq<Visit>, until: int)
    requires |env.roles| > 0 && FindsWithin(env.find) && FindsFitting(env)
    requires Keyed(s) && Booked(s) && OneTask(s)
    requires IsFullPass(visits, s.core.jobs, s.now, until) && Timely(s, OfferEvent([], visits, until))
    ensures PassKeepsOneTask(env, s, visits, until) <==> PassRests(env, s.core, visits)
  {
    PassDistinct(visits, s.core.jobs, s.now, until);
    if PassRests(env, s.core, visits) {
      forall offer | Enabled(env, s, OfferEvent(offer, visits, until))
        ensures OneTask(Apply(env, s, OfferEvent(offer, visits, until)))
      {
        SelectPicks(env, s.core, offer, visits);
        RestingPicks(env, s.core, visits, Select(env, s.core, offer, visits));
        SelectionKeepsOneTaskIff(env, s, OfferEvent(offer, visits, until));
      }
    } else {
      var v :| v in visits && Candidate(env, s.core, v)
        && (IsActive(s.core.jobs[v.id].rt.state) || v.id !in s.core.stored);
      LargeOfferBreaks(env, s, visits, until, v);
    }
  }

  lemma LargeOfferBreaks(env: Env, s: Sys, visits: seq<Visit>, until: int, v: Visit)
    requires |env.roles| > 0 && FindsWithin(env.find) && FindsFitting(env)
    requires Keyed(s) && Booked(s) && OneTask(s)
    requires IsFullPass(visits, s.core.jobs, s.now, until) && Timely(s, OfferEvent([], visits, until))
    requires v in visits && v.id in s.core.jobs && Candidate(env, s.core, v)
    requires IsActive(s.core.jobs[v.id].rt.state) || v.id !in s.core.stored
    ensures !PassKeepsOneTask(env, s, visits, until)
  {
    PassDistinct(visits, s.core.jobs, s.now, until);
    CandidateIsPicked(env, s.core, visits, v);
    var e := OfferEvent(LargeOffer(s.core.jobs, visits, s.core.jobs[v.id].conf), visits, until);
    assert Enabled(env, s, e);
    PickBreaksOneTask(env, s, e, v);
  }

  /** No offer that can come next, at any time, breaks the invariant. */
  ghost predicate OffersKeepOneTask(env: Env, s: Sys) {
    forall visits, until, offer |
      Enabled(env, s, OfferEvent(offer, visits, until)) && Timely(s, OfferEvent(offer, visits, until)) ::
      OneTask(Apply(env, s, OfferEvent(offer, visits, until)))
  }

  /** Every cached job is still stored, and none that is active is queued. */
  ghost predicate Quiet(core: Core) {
    forall k | k in core.jobs :: k in core.stored && (IsActive(core.jobs[k].rt.state) ==> k !in core.queued)
  }

  /** A timely offer can come: no task has been waiting to be built for longer than a booking lasts. */
  ghost predicate CanOffer(s: Sys) {
    forall p | p in s.pending :: Sub(s.now, p.visit.bookedAt) <= BOOKING_TTL
  }

  lemma QuietPassRests(env: Env, core: Core, visits: seq<Visit>)
    requires Quiet(core) && forall v | v in visits :: v.id in core.jobs
    ensures PassRests(env, core, visits)
  {
  }

  lemma {:induction false} Listed(ks: set<string>) returns (ids: seq<string>)
    ensures forall k :: k in ids <==> k in ks
    ensures Distinct(ids)
  {
    if ks == {} {
      ids := [];
    } else {
      var k :| k in ks;
      var rest := Listed(ks - {k});
      ids := [k] + rest;
    }
  }

  /** All clock readings of a visit come at one instant. */
  function VisitsAt(ids: seq<string>, at: int): (visits: seq<Visit>)
    ensures |visits| == |ids| && forall i | 0 <= i < |ids| :: visits[i] == Visit(ids[i], at, at, at)
  {
    seq(|ids|, i requires 0 <= i < |ids| => Visit(ids[i], at, at, at))
  }

  ghost function PendingJobs(pending: seq<Picked>): set<string> {
    set p | p in pending :: p.visit.id
  }

  /** Two lists of jobs, visited one after the other. */
  function Passing(early: seq<string>, rest: seq<string>, now: int, late: int): (visits: seq<Visit>)
    ensures |visits| == |early| + |rest|
    ensures forall i | 0 <= i < |early| :: visits[i] == Visit(early[i], now, now, now)
    ensures forall i | 0 <= i < |rest| :: visits[|early| + i] == Visit(rest[i], late, late, late)
  {
    VisitsAt(early, now) + VisitsAt(rest, late)
  }

  ghost predicate Distinct(ids: seq<string>) {
    forall i, j | 0 <= i < j < |ids| :: ids[i] != ids[j]
  }

  lemma PassingIsPass(early: seq<string>, rest: seq<string>, jobs: map<string, Job>, now: int, late: int)
    requires now <= late && Distinct(early) && Distinct(rest)
    requires forall k | k in early || k in rest :: k in jobs && !(k in early && k in rest)
    ensures IsPass(Passing(early, rest, now, late), jobs, now, late)
  {
    hide Passing;
    var visits := Passing(early, rest, now, late);
    forall i | 0 <= i < |visits|
      ensures visits[i] == if i < |early| then Visit(early[i], now, now, now)
                           else Visit(rest[i - |early|], late, late, late)
      ensures visits[i].id in jobs && (visits[i].id in early <==> i < |early|)
    {
      if i >= |early| {
        assert visits[|early| + (i - |early|)] == Visit(rest[i - |early|], late, late, late);
      }
    }
  }

  lemma PassingVisits(early: seq<string>, rest: seq<string>, now: int, late: int, k: string)
    ensures k in early ==> IsVisited(Passing(early, rest, now, late), k)
    ensures k in rest ==>
      IsVisited(Passing(early, rest, now, late), k) && Visit(k, late, late, late) in Passing(early, rest, now, late)
  {
    hide Passing;
    var visits := Passing(early, rest, now, late);
    if k in early {
      var i :| 0 <= i < |early| && early[i] == k;
      assert visits[i].id == k;
    }
    if k in rest {
      var i :| 0 <= i < |rest| && rest[i] == k;
      assert visits[|early| + i].id == k;
    }
  }

  lemma PassingEarly(early: seq<string>, rest: seq<string>, now: int, late: int, v: Visit)
    requires v in Passing(early, rest, now, late) && v.id !in rest
    ensures v.checkedAt == now
  {
    hide Passing;
    var visits := Passing(early, rest, now, late);
    forall j | |early| <= j < |visits| ensures visits[j].id in rest {
      assert visits[|early| + (j - |early|)] == Visit(rest[j - |early|], late, late, late);
    }
  }

  /** A timely pass that comes to job k as late as wanted. */
  lemma LatePass(s: Sys, k: string, late: int) returns (visits: seq<Visit>)
    requires CanOffer(s) && s.now <= late && k in s.core.jobs && k !in PendingJobs(s.pending)
    ensures IsFullPass(visits, s.core.jobs, s.now, late) && Timely(s, OfferEvent([], visits, late))
    ensures Visit(k, late, late, late) in visits
  {
    var early := Listed(s.core.jobs.Keys * PendingJobs(s.pending));
    var rest := Listed(s.core.jobs.Keys - PendingJobs(s.pending));
    visits := Passing(early, rest, s.now, late);
    hide Passing;
    PassingIsPass(early, rest, s.core.jobs, s.now, late);
    forall j | j in s.core.jobs ensures IsVisited(visits, j) {
      PassingVisits(early, rest, s.now, late, j);
      assert j in early || j in rest;
    }
    PassingVisits(early, rest, s.now, late, k);
    forall p, v | p in s.pending && v in visits && v.id == p.visit.id
      ensures Sub(v.checkedAt, p.visit.bookedAt) <= BOOKING_TTL
    {
      assert p.visit.id in PendingJobs(s.pending);
      PassingEarly(early, rest, s.now, late, v);
    }
  }

  lemma TooLateToOffer(env: Env, s: Sys, e: Event)
    requires OneTask(s) && !CanOffer(s) && e.OfferEvent? && Enabled(env, s, e)
    ensures !Timely(s, e)
  {
    hide Select, CacheTracks, LiveTracked, LiveNamed, UncachedRests;
    var p :| p in s.pending && Sub(s.now, p.visit.bookedAt) > BOOKING_TTL;
    assert IsVisited(e.visits, p.visit.id);
    var i :| 0 <= i < |e.visits| && e.visits[i].id == p.visit.id;
    assert e.visits[i] in e.visits;
  }

  /** By then the job is unbooked, and due if it rests. */
  function LateFor(env: Env, s: Sys, k: string): (late: int)
    requires k in s.core.jobs
    ensures late >= s.now && late > s.core.jobs[k].NextRun(env.next)
    ensures k in s.core.booked ==> late - s.core.booked[k] > BOOKING_TTL
  {
    var due := s.core.jobs[k].NextRun(env.next) + 1;
    var freed := if k in s.core.booked then s.core.booked[k] + BOOKING_TTL + 1 else s.now;
    var late := if due > freed then due else freed;
    if late > s.now then late else s.now
  }

  /** A job that disturbs the quiet has no task to be built, and is a candidate in time. */
  lemma DisturberIsCandidate(env: Env, s: Sys, k: string)
    requires OneTask(s) && k in s.core.jobs
    requires k !in s.core.stored || (IsActive(s.core.jobs[k].rt.state) && k in s.core.queued)
    ensures k !in PendingJobs(s.pending)
    ensures var late := LateFor(env, s, k); Candidate(env, s.core, Visit(k, late, late, late))
  {
    assert TracksLive(k, s.core.jobs[k].rt, s.live);
  }

  /**
   * In any state, the next offer keeps the invariant, whatever it holds and whenever it comes, if and only if
   * every cached job is still stored and no active one is queued (or no timely offer can come at all).
   */
  lemma OffersKeepOneTaskIff(env: Env, s: Sys)
    requires |env.roles| > 0 && FindsWithin(env.find) && FindsFitting(env)
    requires Keyed(s) && Booked(s) && OneTask(s)
    ensures OffersKeepOneTask(env, s) <==> Quiet(s.core) || !CanOffer(s)
  {
    hide OneTask, Booked, Keyed, Select, FindsWithin, FindsFitting;
    if !CanOffer(s) {
      forall visits, until, offer | Enabled(env, s, OfferEvent(offer, visits, until)) {
        TooLateToOffer(env, s, OfferEvent(offer, visits, until));
      }
    } else if Quiet(s.core) {
      forall visits, until, offer |
        Enabled(env, s, OfferEvent(offer, visits, until)) && Timely(s, OfferEvent(offer, visits, until))
        ensures OneTask(Apply(env, s, OfferEvent(offer, visits, until)))
      {
        QuietKeeps(env, s, OfferEvent(offer, visits, until));
      }
    } else {
      var k :| k in s.core.jobs
        && (k !in s.core.stored || (IsActive(s.core.jobs[k].rt.state) && k in s.core.queued));
      DisturberIsCandidate(env, s, k);
      var late := LateFor(env, s, k);
      var visits := LatePass(s, k, late);
      LargeOfferBreaks(env, s, visits, late, Visit(k, late, late, late));
    }
  }

  lemma QuietKeeps(env: Env, s: Sys, e: Event)
    requires e.OfferEvent? && Enabled(env, s, e) && Timely(s, e)
    requires Keyed(s) && Booked(s) && OneTask(s) && Quiet(s.core)
    ensures OneTask(Apply(env, s, e))
  {
    PassDistinct(e.visits, s.core.jobs, s.now, e.until);
    QuietPassRests(env, s.core, e.visits);
    SelectPicks(env, s.core, e.offer, e.visits);
    RestingPicks(env, s.core, e.visits, Select(env, s.core, e.offer, e.visits));
    hide Select, OneTask, Quiet, Keyed, Picks, PassRests, IsFullPass;
    SelectionKeepsOneTaskIff(env, s, e);
  }

  // ---- Deletions and restarts ----

  /** Deleting a job keeps the invariant exactly when the job has no task, live or about to be built. */
  lemma DeleteKeepsOneTaskIff(env: Env, s: Sys, id: string)
    requires OneTask(s)
    ensures OneTask(Apply(env, s, DeleteEvent(id))) <==> HasNoTask(s, id)
  {
    if HasNoTask(s, id) {
      OneTaskStored(s, DeleteJob(s.core, id).stored);
    }
  }

  /** A restart keeps the invariant exactly when storage has the tasks and activity the cache has. */
  lemma RestartKeepsOneTaskIff(env: Env, s: Sys)
    requires OneTask(s)
    ensures OneTask(Apply(env, s, RestartEvent)) <==> StorageTracks(s)
  {
    if StorageTracks(s) {
      OneTaskRestart(s);
    }
    if OneTask(Apply(env, s, RestartEvent)) {
      TracksAfterRestart(s);
    }
  }

  lemma TracksAfterRestart(s: Sys)
    requires OneTask(s) && OneTask(s.(core := Fresh(s.core.stored, s.core.queue), pending := []))
    ensures StorageTracks(s)
  {
    forall k | k in s.core.jobs && k in s.core.stored
      ensures s.core.stored[k].rt.currentTaskID == s.core.jobs[k].rt.currentTaskID
      ensures IsActive(s.core.stored[k].rt.state) <==> IsActive(s.core.jobs[k].rt.state)
    {
      assert TracksLive(k, s.core.jobs[k].rt, s.live) && TracksLive(k, s.core.stored[k].rt, s.live);
    }
  }

  // ---- What a broken invariant comes to ----

  /** Launching a picked job that was active gives it a second live task. */
  lemma LaunchedTwice(s: Sys, k: string, u: string)
    requires OneTask(s) && k in s.core.jobs && IsActive(s.core.jobs[k].rt.state) && u !in s.live
    ensures exists t | t in s.live :: t != u && s.live[u := k][t] == k
  {
    assert TracksLive(k, s.core.jobs[k].rt, s.live);
  }

  /** An active job that is queued and picked gets a second live task when its new task is launched. */
  lemma QueuedActiveJobRunsTwice(env: Env, s: Sys, e: Event, q: Picked, i: nat, b: Build)
    requires e.OfferEvent? && Enabled(env, s, e) && Keyed(s) && OneTask(s)
    requires q in Select(env, s.core, e.offer, e.visits).picked && q.job.FQID() == q.visit.id
    requires q.visit.id in s.core.jobs && IsActive(s.core.jobs[q.visit.id].rt.state)
    requires var s' := Apply(env, s, e); Enabled(env, s', BuildEvent(i, b)) && s'.pending[i] == q && b.launch.Launched?
    ensures var s'' := Apply(env, Apply(env, s, e), BuildEvent(i, b));
      exists t, u | t in s''.live && u in s''.live :: t != u && s''.live[t] == s''.live[u]
  {
    var u := TaskIDString(q.job.conf.jid, b.launch.uuid);
    var live := Apply(env, Apply(env, s, e), BuildEvent(i, b)).live;
    assert live == s.live[u := q.visit.id];
    LaunchedTwice(s, q.visit.id, u);
    var t :| t in s.live && t != u && live[t] == q.visit.id;
    assert t in live && u in live && live[t] == live[u];
  }

  /** A job deleted from storage can still be launched from the cache; the next sync forgets its live task. */
  lemma DeletedJobLosesItsTask(env: Env, s: Sys, i: nat, b: Build)
    requires Keyed(s) && Enabled(env, s, BuildEvent(i, b)) && b.launch.Launched?
    requires s.pending[i].visit.id !in s.core.stored
    ensures var s' := Apply(env, Apply(env, s, BuildEvent(i, b)), SyncJobsEvent);
      exists t | t in s'.live :: s'.live[t] == s.pending[i].visit.id && s'.live[t] !in s'.core.jobs
  {
    var p := s.pending[i];
    assert p in s.pending;
    var s' := Apply(env, Apply(env, s, BuildEvent(i, b)), SyncJobsEvent);
    var t := TaskIDString(p.job.conf.jid, b.launch.uuid);
    assert t in s'.live && s'.live[t] == p.visit.id && s'.live[t] !in s'.core.jobs;
  }

  // ---- Two tasks for any job ----

  lemma JobResourcesList(conf: JobConf)
    requires conf.Acceptable()
    ensures JobResources(conf) != [] && Canonical(JobResources(conf))
    ensures forall r | r in JobResources(conf) :: r.role == "*" && r.amount > 0.0
  {
    JobWants(conf);
  }

  lemma JobFitsItsNeeds(conf: JobConf)
    requires conf.Acceptable()
    ensures Fits(JobResources(conf), conf)
  {
    var rs := JobResources(conf);
    JobResourcesList(conf);
    SameWithoutRoles(rs);
    forall i | 0 <= i < |rs| ensures Amount(rs, rs[i].name, rs[i].role) >= rs[i].amount {
      AmountOfEntry(rs, i);
    }
  }

  lemma {:induction false} SameWithoutRoles(rs: Resources)
    requires forall r | r in rs :: r.role == "*"
    ensures ToUnreserved(rs) == rs
  {
    if rs != [] {
      assert forall r | r in rs[1..] :: r in rs;
      SameWithoutRoles(rs[1..]);
      assert rs[0] in rs;
    }
  }

  const EXAMPLE_ENV := Env(["*"], FindInAnyRole, (cron, t) => t + 1)

  /** The only cached job, found unbooked and due or queued, is picked from an offer of what it needs. */
  lemma OnlyJobIsPicked(core: Core, job: Job, v: Visit)
    requires job.conf.Acceptable() && core.jobs == map[v.id := job] && CountAttempt(job) == job
    requires Candidate(EXAMPLE_ENV, core, v)
    ensures var sel := Select(EXAMPLE_ENV, core, JobResources(job.conf), [v]);
      && !sel.halted && |sel.picked| == 1 && sel.picked[0].visit == v && sel.picked[0].job == job
      && sel.jobs == core.jobs && sel.booked == core.booked[v.id := v.bookedAt]
  {
    JobResourcesList(job.conf);
    JobFitsItsNeeds(job.conf);
    FindInAnyRoleFits(EXAMPLE_ENV);
    assert FindTaskResources(EXAMPLE_ENV, JobResources(job.conf), JobResources(job.conf)) != [];
    var sel := Selection(core.jobs, core.booked, JobResources(job.conf), [], false);
    hide FindTaskResources, JobResources, ContainsAll, ToUnreserved, Subtract, FindsFitting, FindsWithin;
    hide CountAttempt, Job.IsRunnable;
    assert ContainsAll(ToUnreserved(sel.left), sel.left);
    assert [v][..0] == [] && VisitAll(EXAMPLE_ENV, core.queued, sel, []) == sel;
    assert Select(EXAMPLE_ENV, core, sel.left, [v]) == VisitJob(EXAMPLE_ENV, core.queued, sel, v);
  }

  function OnlyVisit(conf: JobConf): Visit { Visit(conf.FQID(), 0, 0, 0) }

  function LaunchAs(uuid: string): Event { BuildEvent(0, Build(0, Launched(uuid), "", true, true)) }

  function OfferForJob(conf: JobConf): Event { OfferEvent(JobResources(conf), [OnlyVisit(conf)], 0) }

  /** An offer picks the only job, and its task is launched. */
  lemma OfferAndLaunch(s: Sys, job: Job, uuid: string) returns (run: seq<Sys>)
    requires job.conf.Acceptable() && CountAttempt(job) == job && ':' !in uuid
    requires s.core.jobs == map[job.FQID() := job] && s.pending == [] && s.now == 0
    requires Candidate(EXAMPLE_ENV, s.core, OnlyVisit(job.conf))
    requires TaskIDString(job.conf.jid, uuid) !in s.live
    ensures IsRun(EXAMPLE_ENV, run, [OfferForJob(job.conf), LaunchAs(uuid)]) && |run| == 3 && run[0] == s
    ensures run[2].pending == [] && run[2].now == 0
    ensures run[2].live == s.live[TaskIDString(job.conf.jid, uuid) := job.FQID()]
    ensures var core := s.core.(booked := s.core.booked[job.FQID() := 0]);
      run[2].core == BuildJob(core, job, Build(0, Launched(uuid), "", true, true))
  {
    OnlyJobIsPicked(s.core, job, OnlyVisit(job.conf));
    hide Select, JobResources, TaskIDString, BuildJob, Candidate, CountAttempt;
    assert IsVisited(OfferForJob(job.conf).visits, job.FQID());
    var s1 := Apply(EXAMPLE_ENV, s, OfferForJob(job.conf));
    var s2 := Apply(EXAMPLE_ENV, s1, LaunchAs(uuid));
    OneStep(EXAMPLE_ENV, s, OfferForJob(job.conf));
    OneStep(EXAMPLE_ENV, s1, LaunchAs(uuid));
    RunsJoin(EXAMPLE_ENV, [s, s1], [OfferForJob(job.conf)], [s1, s2], [LaunchAs(uuid)]);
    run := [s, s1] + [s1, s2][1..];
  }

  /** One job that has just been launched as task a, and is queued. */
  function ActiveAndQueued(conf: JobConf, a: string): Sys {
    var k, t := conf.FQID(), TaskIDString(conf.jid, a);
    var jobs := map[k := Job(conf, JobRuntime(Staging, 0, t, "", 0))];
    Sys(Core(jobs, {k}, map[], jobs, {k}), [], map[t := k], 0)
  }

  /** A new scheduler with one job, which has never run. */
  function NewJob(conf: JobConf): Sys {
    Sys(Fresh(map[conf.FQID() := Job(conf, FRESH_RUNTIME)], {}), [], map[], 0)
  }

  lemma LaunchSynced(conf: JobConf, a: string, s: Sys)
    requires s.pending == [] && s.now == 0 && s.live == map[TaskIDString(conf.jid, a) := conf.FQID()]
    requires var k, jobs := conf.FQID(), map[conf.FQID() := Job(conf, FRESH_RUNTIME)];
      s.core == BuildJob(Core(jobs, {}, map[k := 0], jobs, {k}), jobs[k], Build(0, Launched(a), "", true, true))
    ensures Apply(EXAMPLE_ENV, s, SyncQueueEvent) == ActiveAndQueued(conf, a)
  {
    hide TaskIDString;
    var launched := Job(conf, JobRuntime(Staging, 0, TaskIDString(conf.jid, a), "", 0));
    assert s.core.jobs == map[conf.FQID() := launched] && s.core.stored == map[conf.FQID() := launched];
    assert s.core.booked == map[];
  }

  /** A request for a job that is due, and not yet seen by the scheduler, outlasts the job's launch. */
  lemma RequestOutlastsLaunch(conf: JobConf, a: string) returns (run: seq<Sys>)
    requires conf.Acceptable() && ':' !in a
    ensures var es := [QueueEvent(conf.FQID()), OfferForJob(conf), LaunchAs(a), SyncQueueEvent];
      IsRun(EXAMPLE_ENV, run, es) && |run| == 5 && run[0] == NewJob(conf) && run[4] == ActiveAndQueued(conf, a)
  {
    var request := QueueEvent(conf.FQID());
    var s0 := NewJob(conf);
    var s1 := Apply(EXAMPLE_ENV, s0, request);
    assert s1.core.queue == {conf.FQID()};
    var middle := OfferAndLaunch(s1, Job(conf, FRESH_RUNTIME), a);
    var s3, s4 := middle[2], Apply(EXAMPLE_ENV, middle[2], SyncQueueEvent);
    LaunchSynced(conf, a, s3);
    OneStep(EXAMPLE_ENV, s0, request);
    OneStep(EXAMPLE_ENV, s3, SyncQueueEvent);
    hide IsRun, ActiveAndQueued, NewJob, OfferForJob, LaunchAs, Apply, Enabled, BuildJob, TaskIDString;
    RunsJoin(EXAMPLE_ENV, [s0, s1], [request], middle, [OfferForJob(conf), LaunchAs(a)]);
    var all := [s0, s1] + middle[1..];
    assert [request] + [OfferForJob(conf), LaunchAs(a)] == [request, OfferForJob(conf), LaunchAs(a)];
    RunsJoin(EXAMPLE_ENV, all, [request, OfferForJob(conf), LaunchAs(a)], [s3, s4], [SyncQueueEvent]);
    assert [request, OfferForJob(conf), LaunchAs(a)] + [SyncQueueEvent]
        == [request, OfferForJob(conf), LaunchAs(a), SyncQueueEvent];
    run := all + [s3, s4][1..];
  }

  lemma OneStep(env: Env, s: Sys, e: Event)
    requires Enabled(env, s, e)
    ensures IsRun(env, [s, Apply(env, s, e)], [e])
  {
    hide Enabled, Apply;
  }

  lemma RunsJoin(env: Env, run: seq<Sys>, es: seq<Event>, run': seq<Sys>, es': seq<Event>)
    requires IsRun(env, run, es) && IsRun(env, run', es') && run[|es|] == run'[0]
    ensures IsRun(env, run + run'[1..], es + es')
  {
    hide Enabled, Apply;
    var r, f := run + run'[1..], es + es';
    assert forall i | |es| <= i < |r| :: r[i] == run'[i - |es|];
    forall i | 0 <= i < |f| ensures Enabled(env, r[i], f[i]) && r[i + 1] == Apply(env, r[i], f[i]) {
      if i < |es| {
        assert Enabled(env, run[i], es[i]) && f[i] == es[i];
      } else {
        assert Enabled(env, run'[i - |es|], es'[i - |es|]) && f[i] == es'[i - |es|];
      }
    }
  }

  lemma ActiveIsFine(conf: JobConf, a: string)
    requires conf.Acceptable() && ':' !in a
    ensures var s := ActiveAndQueued(conf, a); Keyed(s) && Booked(s) && OneTask(s)
  {
    TaskIDRoundTrip(conf.jid, a);
  }

  /** A queued active job, any job, gets a second live task from the next offer that holds it. */
  lemma SecondTask(conf: JobConf, a: string, b: string) returns (run: seq<Sys>)
    requires conf.Acceptable() && ':' !in a && ':' !in b && a != b
    ensures IsRun(EXAMPLE_ENV, run, [OfferForJob(conf), LaunchAs(b)]) && |run| == 3
    ensures run[0] == ActiveAndQueued(conf, a) && OneTask(run[0]) && HasTwoTasks(run[2], conf, a, b)
  {
    ActiveIsFine(conf, a);
    DifferentTasks(conf.jid, a, b);
    hide IsRun, OneTask, TaskIDString, ParseTaskID, BuildJob, OfferForJob, LaunchAs;
    var s := ActiveAndQueued(conf, a);
    run := OfferAndLaunch(s, s.core.jobs[conf.FQID()], b);
  }

  ghost predicate HasTwoTasks(s: Sys, conf: JobConf, a: string, b: string) {
    var t, u := TaskIDString(conf.jid, a), TaskIDString(conf.jid, b);
    t != u && t in s.live && u in s.live && s.live[t] == s.live[u] == conf.FQID()
  }

  /**
   * It takes no request for an active job: an idle job that is due is queued, launched as due, found still
   * queued by the next sync, and launched again, though every save and dequeuing succeeds.
   */
  lemma IdleJobQueuedRunsTwice(conf: JobConf, a: string, b: string) returns (run: seq<Sys>)
    requires conf.Acceptable() && ':' !in a && ':' !in b && a != b
    ensures var es :=
        [QueueEvent(conf.FQID()), OfferForJob(conf), LaunchAs(a), SyncQueueEvent] + [OfferForJob(conf), LaunchAs(b)];
      IsRun(EXAMPLE_ENV, run, es) && |run| == 7 && run[0] == NewJob(conf) && HasTwoTasks(run[6], conf, a, b)
  {
    var run1 := RequestOutlastsLaunch(conf, a);
    var run2 := SecondTask(conf, a, b);
    hide HasTwoTasks, IsRun, OneTask, ActiveAndQueued, NewJob, OfferForJob, LaunchAs;
    RunsJoin(EXAMPLE_ENV, run1, [QueueEvent(conf.FQID()), OfferForJob(conf), LaunchAs(a), SyncQueueEvent],
             run2, [OfferForJob(conf), LaunchAs(b)]);
    run := run1 + run2[1..];
  }

  lemma DifferentTasks(jid: JobID, a: string, b: string)
    requires a != b
    ensures TaskIDString(jid, a) != TaskIDString(jid, b)
  {
    var n := |jid.String()| + 1;
    assert TaskIDString(jid, a)[n..] == a && TaskIDString(jid, b)[n..] == b;
  }
}
