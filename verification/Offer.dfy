/**
 * What the answer to an offer comes to as a whole, from the selection of jobs to the tasks launched and the
 * caches left behind (mesos/jobsscheduler/jobsscheduler.go).
 */
module OfferProofs {
  import opened JobModel
  import opened Resources
  import opened SchedulerSpec
  import opened SelectionProofs
  import opened Schedulers

  ghost predicate Injective(order: seq<nat>, n: nat) {
    && (forall i | 0 <= i < |order| :: order[i] < n)
    && forall i, j | 0 <= i < j < |order| :: order[i] != order[j]
  }

  ghost predicate DistinctJobs(jobs: seq<Job>) {
    forall i, j | 0 <= i < j < |jobs| :: jobs[i].FQID() != jobs[j].FQID()
  }

  // ---- The caches ----

  /** No closure builds job k. */
  ghost predicate NoneBuilds(jobs: seq<Job>, order: seq<nat>, k: string)
    requires Injective(order, |jobs|)
  {
    forall i | 0 <= i < |order| :: jobs[order[i]].FQID() != k
  }

  /** Job k is as job says, and neither booked nor queued. */
  ghost predicate Settled(core: Core, k: string, job: Job) {
    k in core.jobs && core.jobs[k] == job && k !in core.booked && k !in core.queued
  }

  /** Job k is in both caches alike. */
  ghost predicate SameAt(before: Core, after: Core, k: string) {
    && (k in after.jobs <==> k in before.jobs) && (k in before.jobs ==> after.jobs[k] == before.jobs[k])
    && (k in after.booked <==> k in before.booked) && (k in before.booked ==> after.booked[k] == before.booked[k])
    && (k in after.queued <==> k in before.queued)
  }

  lemma BuildEffect(core: Core, job: Job, b: Build)
    ensures Settled(BuildJob(core, job, b), job.FQID(), BuiltJob(job, b))
    ensures forall k | k != job.FQID() :: SameAt(core, BuildJob(core, job, b), k)
  {
  }

  lemma SameAtSettled(before: Core, after: Core, k: string, job: Job)
    requires SameAt(before, after, k) && Settled(before, k, job)
    ensures Settled(after, k, job)
  {
  }

  /** Whatever the order of the closures, each leaves its own job as it built it, and touches no other. */
  lemma {:induction false} BuildAllEffect(core: Core, jobs: seq<Job>, order: seq<nat>, builds: seq<Build>)
    requires |order| == |builds| && Injective(order, |jobs|) && DistinctJobs(jobs)
    ensures var after := BuildAll(core, jobs, order, builds);
      && (forall i | 0 <= i < |order| :: Settled(after, jobs[order[i]].FQID(), BuiltJob(jobs[order[i]], builds[i])))
      && (forall k | NoneBuilds(jobs, order, k) :: SameAt(core, after, k))
  {
    hide BuildJob, BuiltJob, Job.FQID, Settled;
    if |order| > 0 {
      var n := |order| - 1;
      var job, mid := jobs[order[n]], BuildAll(core, jobs, order[..n], builds[..n]);
      BuildAllEffect(core, jobs, order[..n], builds[..n]);
      BuildEffect(mid, job, builds[n]);
      forall i | 0 <= i < n
        ensures Settled(BuildJob(mid, job, builds[n]), jobs[order[i]].FQID(), BuiltJob(jobs[order[i]], builds[i]))
      {
        assert order[..n][i] == order[i] && builds[..n][i] == builds[i] && order[i] != order[n];
        SameAtSettled(mid, BuildJob(mid, job, builds[n]), jobs[order[i]].FQID(), BuiltJob(jobs[order[i]], builds[i]));
      }
      forall k | NoneBuilds(jobs, order, k) ensures SameAt(core, BuildJob(mid, job, builds[n]), k) {
        assert NoneBuilds(jobs, order[..n], k) && k != job.FQID();
        assert SameAt(core, mid, k) && SameAt(mid, BuildJob(mid, job, builds[n]), k);
      }
    }
  }

  // ---- The tasks ----

  /** The task comes from closure i of the order. */
  ghost predicate FromBuild(task: TaskInfo, chosen: Chosen, order: seq<nat>, builds: seq<Build>, i: nat)
    requires i < |order| == |builds| && |chosen.jobs| == |chosen.bundles| && order[i] < |chosen.jobs|
  {
    && builds[i].launch.Launched?
    && task.taskID == TaskIDString(chosen.jobs[order[i]].conf.jid, builds[i].launch.uuid)
    && task.agent == builds[i].agent
    && task.resources == chosen.bundles[order[i]]
  }

  lemma {:induction false} TaskComesFrom(chosen: Chosen, order: seq<nat>, builds: seq<Build>, t: nat) returns (i: nat)
    requires |order| == |builds| && |chosen.jobs| == |chosen.bundles| && Injective(order, |chosen.jobs|)
    requires t < |TasksOf(chosen, order, builds)|
    ensures i < |order| && FromBuild(TasksOf(chosen, order, builds)[t], chosen, order, builds, i)
    decreases |order|
  {
    var n := |order| - 1;
    var before := TasksOf(chosen, order[..n], builds[..n]);
    if t < |before| {
      i := TaskComesFrom(chosen, order[..n], builds[..n], t);
    } else {
      i := n;
    }
  }

  lemma {:induction false} TasksInOrder(chosen: Chosen, order: seq<nat>, builds: seq<Build>, t: nat, u: nat)
    returns (i: nat, j: nat)
    requires |order| == |builds| && |chosen.jobs| == |chosen.bundles| && Injective(order, |chosen.jobs|)
    requires t < u < |TasksOf(chosen, order, builds)|
    ensures i < j < |order|
    ensures FromBuild(TasksOf(chosen, order, builds)[t], chosen, order, builds, i)
    ensures FromBuild(TasksOf(chosen, order, builds)[u], chosen, order, builds, j)
    decreases |order|
  {
    var n := |order| - 1;
    var before := TasksOf(chosen, order[..n], builds[..n]);
    if u < |before| {
      i, j := TasksInOrder(chosen, order[..n], builds[..n], t, u);
    } else {
      i := TaskComesFrom(chosen, order[..n], builds[..n], t);
      j := n;
    }
  }

  function TakenByTasks(tasks: seq<TaskInfo>, name: string, role: string): real {
    if |tasks| == 0 then 0.0
    else TakenByTasks(tasks[..|tasks| - 1], name, role) + Amount(tasks[|tasks| - 1].resources, name, role)
  }

  /** What the bundles of the picked jobs at the given places take. */
  function TakenAt(picked: seq<Picked>, order: seq<nat>, name: string, role: string): real
    requires forall i | 0 <= i < |order| :: order[i] < |picked|
  {
    if |order| == 0 then 0.0
    else
      var n := |order| - 1;
      TakenAt(picked, order[..n], name, role) + Amount(picked[order[n]].bundle, name, role)
  }

  lemma {:induction false} TakenWithout(picked: seq<Picked>, order: seq<nat>, p: nat, name: string, role: string)
    requires Injective(order, |picked|) && p < |order|
    ensures TakenAt(picked, order, name, role)
         == TakenAt(picked, order[..p] + order[p + 1..], name, role) + Amount(picked[order[p]].bundle, name, role)
    decreases |order|
  {
    var n := |order| - 1;
    if p == n {
      assert order[..p] + order[p + 1..] == order[..n];
    } else {
      TakenWithout(picked, order[..n], p, name, role);
      var rest := order[..p] + order[p + 1..];
      assert rest[..|rest| - 1] == order[..n][..p] + order[..n][p + 1..];
    }
  }

  lemma {:induction false} TakenAtPrefix(picked: seq<Picked>, order: seq<nat>, m: nat, name: string, role: string)
    requires m <= |picked| && Injective(order, m)
    ensures TakenAt(picked, order, name, role) == TakenAt(picked[..m], order, name, role)
    decreases |order|
  {
    if |order| > 0 {
      TakenAtPrefix(picked, order[..|order| - 1], m, name, role);
    }
  }

  lemma WithoutLast(order: seq<nat>, p: nat, m: nat)
    requires Injective(order, m + 1) && p < |order| && order[p] == m
    ensures Injective(order[..p] + order[p + 1..], m)
  {
    var rest := order[..p] + order[p + 1..];
    assert forall i | 0 <= i < |rest| :: rest[i] == order[if i < p then i else i + 1];
  }

  /** Each place counted at most once, the bundles take no more than all of them do. */
  lemma {:induction false} TakenAtMost(picked: seq<Picked>, order: seq<nat>, name: string, role: string)
    requires Injective(order, |picked|) && forall p | p in picked :: Canonical(p.bundle)
    ensures TakenAt(picked, order, name, role) <= Taken(picked, name, role)
    decreases |picked|
  {
    hide Canonical, Amount;
    if |picked| > 0 {
      var m := |picked| - 1;
      BundleNonNegative(picked, m, name, role);
      if p :| 0 <= p < |order| && order[p] == m {
        TakenWithout(picked, order, p, name, role);
        WithoutLast(order, p, m);
        var rest := order[..p] + order[p + 1..];
        TakenAtPrefix(picked, rest, m, name, role);
        TakenAtMost(picked[..m], rest, name, role);
      } else {
        assert Injective(order, m);
        TakenAtPrefix(picked, order, m, name, role);
        TakenAtMost(picked[..m], order, name, role);
      }
    }
  }

  lemma BundleNonNegative(picked: seq<Picked>, i: nat, name: string, role: string)
    requires i < |picked| && forall p | p in picked :: Canonical(p.bundle)
    ensures Amount(picked[i].bundle, name, role) >= 0.0
  {
    AmountNonNegative(picked[i].bundle, name, role);
  }

  lemma {:induction false} TasksTakeBundles(
    picked: seq<Picked>, order: seq<nat>, builds: seq<Build>, name: string, role: string)
    requires |order| == |builds| && Injective(order, |picked|) && forall p | p in picked :: Canonical(p.bundle)
    ensures TakenByTasks(TasksOf(Chosen(PickedJobs(picked), PickedBundles(picked)), order, builds), name, role)
         <= TakenAt(picked, order, name, role)
    decreases |order|
  {
    if |order| > 0 {
      var n := |order| - 1;
      TasksTakeBundles(picked, order[..n], builds[..n], name, role);
      BundleNonNegative(picked, order[n], name, role);
      var chosen := Chosen(PickedJobs(picked), PickedBundles(picked));
      var before, all := TasksOf(chosen, order[..n], builds[..n]), TasksOf(chosen, order, builds);
      if builds[n].launch.Launched? {
        assert all[..|before|] == before;
      } else {
        assert all == before;
      }
    }
  }

  // ---- The answer to an offer ----

  /** All that goes into the answer: the state, the offer, the visits, and the order and outcome of the builds. */
  datatype Answer = Answer(
    env: Env, core: Core, offer: Resources, agent: string, visits: seq<Visit>, order: seq<nat>, builds: seq<Build>)
  {
    /** As FindTasksForOffer leaves them; it does not go on from a fatal exit. */
    ghost predicate Valid() {
      && |env.roles| > 0 && (forall v | v in visits :: v.id in core.jobs) && DistinctIDs(visits)
      && FindsWithin(env.find) && Canonical(offer) && KeyedByFQID(core.jobs)
      && !Select(env, core, offer, visits).halted
      && |order| == |builds| && IsOrder(order, |Select(env, core, offer, visits).picked|)
      && forall b | b in builds :: b.agent == agent && (b.launch.Launched? ==> ':' !in b.launch.uuid)
    }

    ghost function Sel(): Selection
      requires Valid()
    {
      Select(env, core, offer, visits)
    }

    ghost function Bundles(): Chosen
      requires Valid()
    {
      Chosen(PickedJobs(Sel().picked), PickedBundles(Sel().picked))
    }

    ghost function Tasks(): seq<TaskInfo>
      requires Valid()
    {
      TasksOf(Bundles(), order, builds)
    }

    ghost function After(): Core
      requires Valid()
    {
      BuildAll(Selected(core, Sel()), PickedJobs(Sel().picked), order, builds)
    }
  }

  /** The task runs one cached job: it is that job's current task, on the agent, with what the job needs. */
  ghost predicate Runs(task: TaskInfo, agent: string, core: Core, k: string) {
    && ParseTaskID(task.taskID).Ok? && ParseTaskID(task.taskID).value.String() == k
    && task.agent == agent
    && k in core.jobs && k !in core.booked && k !in core.queued
    && core.jobs[k].rt.state == Staging
    && core.jobs[k].rt.currentTaskID == task.taskID
    && core.jobs[k].rt.currentAgentID == agent
    && Serves(task.resources, core.jobs[k].conf)
  }

  /** What is known of each pick and of the caches after it is built. */
  lemma PickFacts(a: Answer, i: nat)
    requires a.Valid() && i < |a.order|
    ensures var p := a.Sel().picked[a.order[i]];
      && p in a.Sel().picked
      && p.job.FQID() == p.visit.id && p.job.conf.Acceptable() && Serves(p.bundle, p.job.conf)
      && Settled(a.After(), p.visit.id, BuiltJob(p.job, a.builds[i]))
  {
    var sel := a.Sel();
    SelectPicks(a.env, a.core, a.offer, a.visits);
    SelectConserves(a.env, a.core, a.offer, a.visits);
    PickedDiffer(a.env, a.core, a.visits, sel);
    hide Select, BuildAll, Serves, Settled, Picks, FindsWithin, Canonical, BuiltJob, Candidate;
    BuildAllEffect(Selected(a.core, sel), PickedJobs(sel.picked), a.order, a.builds);
    assert Settled(a.After(), PickedJobs(sel.picked)[a.order[i]].FQID(),
                   BuiltJob(PickedJobs(sel.picked)[a.order[i]], a.builds[i]));
  }

  lemma PickedDiffer(env: Env, core: Core, visits: seq<Visit>, sel: Selection)
    requires Picks(env, core, visits, sel) && KeyedByFQID(core.jobs)
    ensures DistinctJobs(PickedJobs(sel.picked))
    ensures forall i | 0 <= i < |sel.picked| ::
      sel.picked[i].job.FQID() == sel.picked[i].visit.id && sel.picked[i].job.conf.Acceptable()
  {
    forall i | 0 <= i < |sel.picked|
      ensures sel.picked[i].job.FQID() == sel.picked[i].visit.id && sel.picked[i].job.conf.Acceptable()
    {
      assert PickedFrom(env, core, visits, sel.picked[i]);
    }
  }

  /** Together the tasks of an offer take no more than it holds, in no role. */
  lemma TasksWithinOffer(a: Answer, name: string, role: string)
    requires a.Valid()
    ensures TakenByTasks(a.Tasks(), name, role) <= Amount(a.offer, name, role)
  {
    SelectConserves(a.env, a.core, a.offer, a.visits);
    var sel := a.Sel();
    TasksTakeBundles(sel.picked, a.order, a.builds, name, role);
    TakenAtMost(sel.picked, a.order, name, role);
    AmountNonNegative(sel.left, name, role);
    hide Select, BuildAll, Serves;
    assert Taken(sel.picked, name, role) + Amount(sel.left, name, role) == Amount(a.offer, name, role);
  }

  /** Each task of an offer runs one job on the offer's agent, as the caches then say. */
  lemma TaskRunsItsJob(a: Answer, t: nat) returns (i: nat)
    requires a.Valid() && t < |a.Tasks()|
    ensures i < |a.order| && Runs(a.Tasks()[t], a.agent, a.After(), a.Sel().picked[a.order[i]].visit.id)
  {
    i := TaskComesFrom(a.Bundles(), a.order, a.builds, t);
    PickFacts(a, i);
    hide Select, BuildAll, Serves, TasksOf, ParseTaskID, TaskIDString, FindsWithin, Canonical, KeyedByFQID;
    assert a.builds[i] in a.builds;
    TaskIDRoundTrip(a.Sel().picked[a.order[i]].job.conf.jid, a.builds[i].launch.uuid);
  }

  lemma BuiltFacts(job: Job, b: Build)
    ensures var built := BuiltJob(job, b);
      && built.conf == job.conf && built.rt.lastStart == b.at && built.rt.retries == job.rt.retries
      && (IsActive(built.rt.state) <==> b.launch.Launched?)
      && (b.launch.NotBuilt? ==> (built.IsRetryable() <==> job.rt.retries < job.conf.maxRetries))
  {
  }

  /** Every picked job is built: launched, or failed and up for another attempt while it has retries left. */
  lemma EveryPickIsBuilt(a: Answer, p: nat) returns (i: nat)
    requires a.Valid() && p < |a.Sel().picked|
    ensures i < |a.order| && a.order[i] == p
    ensures var pick, after := a.Sel().picked[p], a.After();
      && pick.visit.id in after.jobs && pick.visit.id !in after.booked && pick.visit.id !in after.queued
      && var job := after.jobs[pick.visit.id];
      && job.conf == pick.job.conf && job.rt.lastStart == a.builds[i].at && job.rt.retries == pick.job.rt.retries
      && (IsActive(job.rt.state) <==> a.builds[i].launch.Launched?)
      && (a.builds[i].launch.NotBuilt? ==> (job.IsRetryable() <==> pick.job.rt.retries < pick.job.conf.maxRetries))
  {
    assert p in a.order;
    hide Select, BuildAll, BuiltJob, Serves, FindsWithin, Canonical, IsActive, Job.IsRetryable;
    i :| 0 <= i < |a.order| && a.order[i] == p;
    PickFacts(a, i);
    BuiltFacts(a.Sel().picked[p].job, a.builds[i]);
  }

  /** No two tasks of an offer are for the same job. */
  lemma OneTaskEach(a: Answer, t: nat, u: nat)
    requires a.Valid() && t < u < |a.Tasks()|
    ensures ParseTaskID(a.Tasks()[t].taskID) != ParseTaskID(a.Tasks()[u].taskID)
  {
    SelectPicks(a.env, a.core, a.offer, a.visits);
    PickedDiffer(a.env, a.core, a.visits, a.Sel());
    var i, j := TasksInOrder(a.Bundles(), a.order, a.builds, t, u);
    assert a.builds[i] in a.builds && a.builds[j] in a.builds && a.order[i] != a.order[j];
    hide Select, TasksOf, ParseTaskID, TaskIDString, FindsWithin, Canonical, Picks;
    var jobs := PickedJobs(a.Sel().picked);
    var p, q := jobs[a.order[i]], jobs[a.order[j]];
    assert p.FQID() != q.FQID();
    TaskIDRoundTrip(p.conf.jid, a.builds[i].launch.uuid);
    TaskIDRoundTrip(q.conf.jid, a.builds[j].launch.uuid);
  }

  /** Jobs that were not picked are left as they were, and stay booked if they were. */
  lemma OthersUntouched(a: Answer, k: string)
    requires a.Valid() && k !in PickedIDs(a.Sel().picked)
    ensures SameAt(a.core, a.After(), k)
  {
    var sel := a.Sel();
    SelectPicks(a.env, a.core, a.offer, a.visits);
    PickedDiffer(a.env, a.core, a.visits, sel);
    BuildAllEffect(Selected(a.core, sel), PickedJobs(sel.picked), a.order, a.builds);
    hide Select, BuildAll;
    assert NoneBuilds(PickedJobs(sel.picked), a.order, k) by {
      forall i | 0 <= i < |a.order| ensures PickedJobs(sel.picked)[a.order[i]].FQID() != k {
        assert sel.picked[a.order[i]] in sel.picked;
      }
    }
  }
}
