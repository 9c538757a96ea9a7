/** Task IDs lead back to the job they were made for. */
module TaskIDProofs {
  import opened Wrappers
  import opened JobModel
  import opened SchedulerSpec
  import opened SelectionProofs
  import opened SchedulerRuns

  ghost predicate Owns(job: Job) {
    job.rt.currentTaskID != "" ==> ParseTaskID(job.rt.currentTaskID) == Ok(job.conf.jid)
  }

  /** Every current task ID, cached, stored or waiting to be built, parses back to the job that holds it. */
  ghost predicate AllOwn(s: Sys) {
    && (forall k | k in s.core.jobs :: Owns(s.core.jobs[k]))
    && (forall k | k in s.core.stored :: Owns(s.core.stored[k]))
    && forall p | p in s.pending :: Owns(p.job)
  }

  lemma SameName(a: JobConf, b: JobConf)
    requires a.Acceptable() && b.Acceptable() && a.FQID() == b.FQID()
    ensures a.jid == b.jid
  {
    JobIDInjective(a.jid, b.jid);
  }

  lemma OwnBuild(s: Sys, i: nat, b: Build, live: map<string, string>)
    requires Keyed(s) && AllOwn(s) && i < |s.pending| && (b.launch.Launched? ==> ':' !in b.launch.uuid)
    ensures AllOwn(Sys(BuildJob(s.core, s.pending[i].job, b), Without(s.pending, i), live, b.at))
  {
    var job := s.pending[i].job;
    assert s.pending[i] in s.pending;
    if b.launch.Launched? {
      TaskIDRoundTrip(job.conf.jid, b.launch.uuid);
    }
    assert Owns(BuiltJob(job, b));
    if job.FQID() in s.core.stored {
      SameName(job.conf, s.core.stored[job.FQID()].conf);
    }
  }

  lemma UpdateKeepsOwner(job: Job, status: Status)
    requires Owns(job)
    ensures UpdatedRuntime(job.rt, status).Some? ==> Owns(job.(rt := UpdatedRuntime(job.rt, status).value))
  {
  }

  lemma OwnUpdate(s: Sys, status: Status, saved: bool, live: map<string, string>)
    requires Keyed(s) && AllOwn(s)
    ensures AllOwn(s.(core := UpdateTask(s.core, status, saved), live := live))
  {
    var core := UpdateTask(s.core, status, saved);
    if core != s.core {
      var id := ParseTaskID(status.taskID).value.String();
      var job := s.core.jobs[id];
      UpdateKeepsOwner(job, status);
      var job' := job.(rt := UpdatedRuntime(job.rt, status).value);
      assert core.jobs == s.core.jobs[id := job'];
      if id in s.core.stored {
        SameName(job.conf, s.core.stored[id].conf);
        assert Owns(s.core.stored[id].(rt := job'.rt));
      }
    }
  }

  lemma OwnSync(s: Sys)
    requires Keyed(s) && AllOwn(s)
    ensures AllOwn(s.(core := SyncJobs(s.core)))
  {
    forall k | k in s.core.stored ensures Owns(MergeJob(s.core.jobs, s.core.stored, k)) {
      if k in s.core.jobs {
        SameName(s.core.jobs[k].conf, s.core.stored[k].conf);
      }
    }
  }

  lemma OwnStep(env: Env, s: Sys, e: Event)
    requires Enabled(env, s, e) && Keyed(s) && AllOwn(s)
    ensures AllOwn(Apply(env, s, e))
  {
    match e
    case OfferEvent(offer, visits, until) =>
      PassDistinct(visits, s.core.jobs, s.now, until);
      SelectPicks(env, s.core, offer, visits);
      OwnOffer(env, s, visits, until, Select(env, s.core, offer, visits));
    case BuildEvent(i, b) => OwnBuild(s, i, b, Apply(env, s, e).live);
    case UpdateEvent(status, saved) => OwnUpdate(s, status, saved, Apply(env, s, e).live);
    case SyncJobsEvent => OwnSync(s);
    case ConfEvent(conf) => SameName(conf, s.core.stored[conf.FQID()].conf);
    case _ =>
  }

  lemma OwnOffer(env: Env, s: Sys, visits: seq<Visit>, until: int, sel: Selection)
    requires AllOwn(s) && Picks(env, s.core, visits, sel) && !sel.halted
    ensures AllOwn(s.(core := Selected(s.core, sel), pending := s.pending + sel.picked, now := until))
  {
    forall q | q in sel.picked ensures Owns(q.job) {
      assert PickedFrom(env, s.core, visits, q);
    }
    forall k | k in sel.jobs ensures Owns(sel.jobs[k]) {
      if k in PickedIDs(sel.picked) {
        var q :| q in sel.picked && q.visit.id == k;
      }
    }
  }

  /** In every run, whatever is saved, queued, deleted or restarted: current task IDs parse back to their jobs. */
  lemma {:induction false} TaskIDsParseBack(env: Env, run: seq<Sys>, es: seq<Event>)
    requires IsRun(env, run, es) && Keyed(run[0]) && AllOwn(run[0])
    ensures forall i | 0 <= i < |run| :: Keyed(run[i]) && AllOwn(run[i])
  {
    if |es| > 0 {
      var n := |es| - 1;
      RunPrefix(env, run, es);
      TaskIDsParseBack(env, run[..|es|], es[..n]);
      assert run[..|es|][n] == run[n] && AllOwn(run[n]);
      KeyedStep(env, run[n], es[n]);
      OwnStep(env, run[n], es[n]);
      assert forall i | 0 <= i < |run| - 1 :: run[..|es|][i] == run[i];
    }
  }

  /** Hence two jobs never hold the same task. */
  lemma NoSharedTask(jobs: map<string, Job>, j: string, k: string)
    requires KeyedByFQID(jobs) && forall i | i in jobs :: Owns(jobs[i])
    requires j in jobs && k in jobs
    requires jobs[j].rt.currentTaskID == jobs[k].rt.currentTaskID != ""
    ensures j == k
  {
    assert Owns(jobs[j]) && Owns(jobs[k]);
    assert jobs[j].FQID() == j && jobs[k].FQID() == k;
  }

  // ---- Agents ----

  /** The task an event launches, with the agent it is launched on. */
  function LaunchOf(s: Sys, e: Event): set<(string, string)> {
    if e.BuildEvent? && e.i < |s.pending| && e.b.launch.Launched? then
      {(TaskIDString(s.pending[e.i].job.conf.jid, e.b.launch.uuid), e.b.agent)}
    else {}
  }

  function Launches(run: seq<Sys>, es: seq<Event>): set<(string, string)>
    requires |run| == |es| + 1
  {
    if |es| == 0 then {}
    else
      var n := |es| - 1;
      Launches(run[..|es|], es[..n]) + LaunchOf(run[n], es[n])
  }

  ghost predicate HeldAs(job: Job, held: set<(string, string)>) {
    (job.rt.currentTaskID, job.rt.currentAgentID) in held
  }

  /** Every job, cached, stored or waiting to be built, has its task and its agent as in `held`. */
  ghost predicate AllHeldAs(s: Sys, held: set<(string, string)>) {
    && ("", "") in held
    && (forall k | k in s.core.jobs :: HeldAs(s.core.jobs[k], held))
    && (forall k | k in s.core.stored :: HeldAs(s.core.stored[k], held))
    && forall p | p in s.pending :: HeldAs(p.job, held)
  }

  lemma HeldOffer(
    env: Env, s: Sys, visits: seq<Visit>, until: int, sel: Selection, held: set<(string, string)>)
    requires AllHeldAs(s, held) && Picks(env, s.core, visits, sel) && !sel.halted
    ensures AllHeldAs(s.(core := Selected(s.core, sel), pending := s.pending + sel.picked, now := until), held)
  {
    forall q | q in sel.picked ensures HeldAs(q.job, held) {
      assert PickedFrom(env, s.core, visits, q);
      assert HeldAs(s.core.jobs[q.visit.id], held);
    }
    forall k | k in sel.jobs ensures HeldAs(sel.jobs[k], held) {
      if k in PickedIDs(sel.picked) {
        var q :| q in sel.picked && q.visit.id == k;
      }
    }
  }

  lemma HeldUpdate(core: Core, status: Status, saved: bool, held: set<(string, string)>)
    requires ("", "") in held && (forall k | k in core.jobs :: HeldAs(core.jobs[k], held))
    requires forall k | k in core.stored :: HeldAs(core.stored[k], held)
    ensures var core' := UpdateTask(core, status, saved);
      && (forall k | k in core'.jobs :: HeldAs(core'.jobs[k], held))
      && forall k | k in core'.stored :: HeldAs(core'.stored[k], held)
  {
    hide ParseTaskID;
  }

  lemma HeldStep(env: Env, s: Sys, e: Event, held: set<(string, string)>)
    requires Enabled(env, s, e) && AllHeldAs(s, held)
    ensures AllHeldAs(Apply(env, s, e), held + LaunchOf(s, e))
  {
    hide TaskIDString, KeyedByFQID, JobConf.Acceptable;
    match e
    case OfferEvent(offer, visits, until) =>
      PassDistinct(visits, s.core.jobs, s.now, until);
      SelectPicks(env, s.core, offer, visits);
      HeldOffer(env, s, visits, until, Select(env, s.core, offer, visits), held);
    case BuildEvent(i, b) =>
      assert HeldAs(s.pending[i].job, held);
      assert HeldAs(BuiltJob(s.pending[i].job, b), held + LaunchOf(s, e));
    case UpdateEvent(status, saved) => HeldUpdate(s.core, status, saved, held);
    case _ =>
  }

  /** In every run, a job's current task is held with the agent it was launched on, and no task with no agent. */
  lemma {:induction false} AgentsAreKept(env: Env, run: seq<Sys>, es: seq<Event>, held: set<(string, string)>)
    requires IsRun(env, run, es) && AllHeldAs(run[0], held)
    ensures AllHeldAs(run[|es|], held + Launches(run, es))
  {
    if |es| > 0 {
      var n := |es| - 1;
      RunPrefix(env, run, es);
      AgentsAreKept(env, run[..|es|], es[..n], held);
      assert run[..|es|][n] == run[n];
      HeldStep(env, run[n], es[n], held + Launches(run[..|es|], es[..n]));
      assert held + Launches(run, es) == held + Launches(run[..|es|], es[..n]) + LaunchOf(run[n], es[n]);
    } else {
      assert held + {} == held;
    }
  }
}
