/**
 * The scheduler's reaction to an offer is a run of the state machine: one selection, then one build per selected
 * job (mesos/handlers.go, mesos/jobsscheduler/jobsscheduler.go).
 */
module OfferRuns {
  import opened JobModel
  import opened Resources
  import opened SchedulerSpec
  import opened SelectionProofs
  import opened SchedulerRuns
  import opened Schedulers
  import opened OfferProofs

  function TaskIDs(tasks: seq<TaskInfo>): set<string> {
    set task | task in tasks :: task.taskID
  }

  /** The builds to be done once jobs are picked. */
  datatype Work = Work(core: Core, picked: seq<Picked>, order: seq<nat>, builds: seq<Build>)
  {
    ghost predicate Valid() {
      && |order| == |builds| && IsOrder(order, |picked|)
      && PicksDiffer(picked)
      && (forall p | p in picked :: p.job.FQID() == p.visit.id && p.job.conf.Acceptable())
      && forall b | b in builds && b.launch.Launched? :: ':' !in b.launch.uuid
    }

    ghost function Bundles(): Chosen {
      Chosen(PickedJobs(picked), PickedBundles(picked))
    }

    /** The caches, and the tasks to launch, after n builds. */
    ghost function CoreUpTo(n: nat): Core
      requires Valid() && n <= |order|
    {
      BuildAll(core, PickedJobs(picked), order[..n], builds[..n])
    }

    ghost function TasksUpTo(n: nat): seq<TaskInfo>
      requires Valid() && n <= |order|
    {
      TasksOf(Bundles(), order[..n], builds[..n])
    }

    ghost function Pick(n: nat): Picked
      requires Valid() && n < |order|
    {
      picked[order[n]]
    }
  }

  ghost predicate PicksDiffer(picked: seq<Picked>) {
    forall i, j | 0 <= i < j < |picked| :: picked[i].visit.id != picked[j].visit.id
  }

  /** The picks at places not among the first n of the order. */
  ghost predicate WaitingAre(picked: seq<Picked>, order: seq<nat>, n: nat, pending: seq<Picked>)
    requires n <= |order|
  {
    && PicksDiffer(pending)
    && (forall q | q in pending :: q in picked)
    && forall k | 0 <= k < |picked| :: picked[k] in pending <==> k !in order[..n]
  }

  /** What n builds have come to. */
  ghost predicate BuiltUpTo(w: Work, live: map<string, string>, n: nat, s: Sys)
    requires w.Valid() && n <= |w.order|
  {
    && s.core == w.CoreUpTo(n)
    && s.live.Keys == live.Keys + TaskIDs(w.TasksUpTo(n))
    && WaitingAre(w.picked, w.order, n, s.pending)
  }

  /** The tasks to be launched are none of those that are live. */
  ghost predicate NewTasks(tasks: seq<TaskInfo>, live: map<string, string>) {
    forall task | task in tasks :: task.taskID !in live
  }

  // ---- One more build ----

  lemma UpToNext(w: Work, n: nat)
    requires w.Valid() && n < |w.order|
    ensures w.CoreUpTo(n + 1) == BuildJob(w.CoreUpTo(n), w.Pick(n).job, w.builds[n])
    ensures w.TasksUpTo(n + 1) == w.TasksUpTo(n) + TaskOf(w.Pick(n).job, w.Pick(n).bundle, w.builds[n])
  {
    hide BuildJob;
    assert w.order[..n + 1] == w.order[..n] + [w.order[n]] && w.builds[..n + 1] == w.builds[..n] + [w.builds[n]];
    BuildAllExtends(w.core, w.Bundles(), w.order[..n], w.builds[..n], w.order[n], w.builds[n]);
  }

  lemma WaitingNext(w: Work, n: nat, pending: seq<Picked>, i: nat)
    requires w.Valid() && n < |w.order| && WaitingAre(w.picked, w.order, n, pending)
    requires i < |pending| && pending[i] == w.Pick(n)
    ensures WaitingAre(w.picked, w.order, n + 1, Without(pending, i))
  {
    WithoutDiffers(pending, i);
    WithoutKeepsDistinct(pending, i);
    assert w.order[..n + 1] == w.order[..n] + [w.order[n]];
    forall k | 0 <= k < |w.picked|
      ensures w.picked[k] in Without(pending, i) <==> k !in w.order[..n + 1]
    {
      assert k < w.order[n] ==> w.picked[k].visit.id != w.picked[w.order[n]].visit.id;
      assert k > w.order[n] ==> w.picked[w.order[n]].visit.id != w.picked[k].visit.id;
    }
  }

  /** The next task is none that was launched before it. */
  lemma NextTaskIsNew(w: Work, n: nat)
    requires w.Valid() && n < |w.order| && w.builds[n].launch.Launched?
    ensures ':' !in w.builds[n].launch.uuid
    ensures TaskIDString(w.Pick(n).job.conf.jid, w.builds[n].launch.uuid) !in TaskIDs(w.TasksUpTo(n))
  {
    assert w.builds[n] in w.builds;
    var id, tasks := TaskIDString(w.Pick(n).job.conf.jid, w.builds[n].launch.uuid), w.TasksUpTo(n);
    forall t | 0 <= t < |tasks| ensures tasks[t].taskID != id {
      var i := TaskComesFrom(w.Bundles(), w.order[..n], w.builds[..n], t);
      assert w.builds[i] in w.builds && w.order[i] != w.order[n];
      DifferentOwners(w, i, n);
    }
  }

  lemma DifferentOwners(w: Work, i: nat, n: nat)
    requires w.Valid() && i < n < |w.order| && w.builds[i].launch.Launched? && w.builds[n].launch.Launched?
    ensures TaskIDString(w.Pick(i).job.conf.jid, w.builds[i].launch.uuid)
         != TaskIDString(w.Pick(n).job.conf.jid, w.builds[n].launch.uuid)
  {
    assert w.builds[i] in w.builds && w.builds[n] in w.builds;
    assert w.order[i] != w.order[n] && w.Pick(i) in w.picked && w.Pick(n) in w.picked;
    assert w.Pick(i).visit.id != w.Pick(n).visit.id;
    hide TaskIDString, ParseTaskID, JobID.String;
    TaskIDRoundTrip(w.Pick(i).job.conf.jid, w.builds[i].launch.uuid);
    TaskIDRoundTrip(w.Pick(n).job.conf.jid, w.builds[n].launch.uuid);
  }

  lemma {:induction false} TasksGrow(w: Work, n: nat)
    requires w.Valid() && n <= |w.order|
    ensures w.TasksUpTo(n) <= w.TasksUpTo(|w.order|)
    decreases |w.order| - n
  {
    if n < |w.order| {
      TasksGrow(w, n + 1);
      UpToNext(w, n);
    }
  }

  lemma IDsAppend(tasks: seq<TaskInfo>, more: seq<TaskInfo>)
    ensures TaskIDs(tasks + more) == TaskIDs(tasks) + TaskIDs(more)
    ensures |more| == 1 ==> TaskIDs(more) == {more[0].taskID}
    ensures more == [] ==> TaskIDs(more) == {}
  {
    var all := tasks + more;
    assert forall task | task in tasks || task in more :: task in all;
  }

  /** The next task, if there is one, is new altogether. */
  lemma NextIsNotLive(w: Work, live: map<string, string>, n: nat)
    requires w.Valid() && NewTasks(w.TasksUpTo(|w.order|), live) && n < |w.order| && w.builds[n].launch.Launched?
    ensures ':' !in w.builds[n].launch.uuid
    ensures TaskIDString(w.Pick(n).job.conf.jid, w.builds[n].launch.uuid) !in live.Keys + TaskIDs(w.TasksUpTo(n))
  {
    NextTaskIsNew(w, n);
    UpToNext(w, n);
    TasksGrow(w, n + 1);
    hide Work.TasksUpTo;
    var next, all := w.TasksUpTo(n + 1), w.TasksUpTo(|w.order|);
    assert all[|next| - 1] == next[|next| - 1] && all[|next| - 1] in all;
  }

  lemma PlaceOfPick(w: Work, n: nat, pending: seq<Picked>) returns (i: nat)
    requires w.Valid() && n < |w.order| && WaitingAre(w.picked, w.order, n, pending)
    ensures i < |pending| && pending[i] == w.Pick(n)
  {
    assert w.order[n] !in w.order[..n];
    i :| 0 <= i < |pending| && pending[i] == w.Pick(n);
  }

  /** The next closure is a build of the state machine. */
  lemma BuildNext(env: Env, w: Work, live: map<string, string>, n: nat, s: Sys) returns (i: nat)
    requires w.Valid() && NewTasks(w.TasksUpTo(|w.order|), live) && n < |w.order|
    requires BuiltUpTo(w, live, n, s) && s.now <= w.builds[n].at
    ensures Enabled(env, s, BuildEvent(i, w.builds[n]))
    ensures BuiltUpTo(w, live, n + 1, Apply(env, s, BuildEvent(i, w.builds[n])))
    ensures Apply(env, s, BuildEvent(i, w.builds[n])).now == w.builds[n].at
  {
    hide Select, IsFullPass, UpdateTask, SyncJobs, BuildJob, Work.TasksUpTo, Work.CoreUpTo, TaskIDString, TaskIDs;
    var p := w.Pick(n);
    i := PlaceOfPick(w, n, s.pending);
    if w.builds[n].launch.Launched? {
      NextIsNotLive(w, live, n);
    }
    UpToNext(w, n);
    WaitingNext(w, n, s.pending, i);
    IDsAppend(w.TasksUpTo(n), TaskOf(p.job, p.bundle, w.builds[n]));
    hide WaitingAre, Work.Valid, NewTasks, Without;
    var s' := Apply(env, s, BuildEvent(i, w.builds[n]));
    assert s'.live.Keys == live.Keys + TaskIDs(w.TasksUpTo(n + 1));
  }

  // ---- The whole answer ----

  /** The events are builds, with these outcomes. */
  ghost predicate AreBuilds(es: seq<Event>, builds: seq<Build>) {
    |es| == |builds| && forall i | 0 <= i < |es| :: es[i].BuildEvent? && es[i].b == builds[i]
  }

  lemma {:induction false} BuildsAreRun(env: Env, w: Work, live: map<string, string>, s: Sys, n: nat, to: int)
    returns (run: seq<Sys>, es: seq<Event>)
    requires w.Valid() && NewTasks(w.TasksUpTo(|w.order|), live) && n <= |w.order|
    requires BuiltUpTo(w, live, 0, s) && Follow(w.builds, s.now, to)
    ensures IsRun(env, run, es) && run[0] == s && AreBuilds(es, w.builds[..n])
    ensures BuiltUpTo(w, live, n, run[n]) && s.now <= run[n].now <= to
    ensures n > 0 ==> run[n].now == w.builds[n - 1].at
  {
    hide Work.Valid, Work.TasksUpTo, BuiltUpTo, Apply, Enabled, NewTasks;
    if n == 0 {
      run, es := [s], [];
    } else {
      var before, es' := BuildsAreRun(env, w, live, s, n - 1, to);
      OrderAndBuilds(w);
      assert w.builds[n - 1] in w.builds;
      var i := BuildNext(env, w, live, n - 1, before[n - 1]);
      var e := BuildEvent(i, w.builds[n - 1]);
      RunExtends(env, before, es', e);
      assert w.builds[..n] == w.builds[..n - 1] + [w.builds[n - 1]];
      run, es := before + [Apply(env, before[n - 1], e)], es' + [e];
    }
  }

  lemma OrderAndBuilds(w: Work)
    requires w.Valid()
    ensures |w.order| == |w.builds|
  {
  }

  lemma RunExtends(env: Env, run: seq<Sys>, es: seq<Event>, e: Event)
    requires IsRun(env, run, es) && Enabled(env, run[|es|], e)
    ensures IsRun(env, run + [Apply(env, run[|es|], e)], es + [e])
  {
    hide Enabled, Apply;
  }

  lemma PlaceOf(picked: seq<Picked>, pending: seq<Picked>) returns (k: nat)
    requires pending != [] && forall q | q in pending :: q in picked
    ensures k < |picked| && picked[k] in pending
  {
    assert pending[0] in pending;
    k :| 0 <= k < |picked| && picked[k] == pending[0];
  }

  lemma NobodyWaits(picked: seq<Picked>, order: seq<nat>, pending: seq<Picked>)
    requires IsOrder(order, |picked|) && WaitingAre(picked, order, |order|, pending)
    ensures pending == []
  {
    assert order[..|order|] == order;
    if pending != [] {
      var k := PlaceOf(picked, pending);
      assert false;
    }
  }

  /** All builds, one event each. */
  lemma WorkIsRun(env: Env, w: Work, live: map<string, string>, from: int, to: int)
    returns (run: seq<Sys>, es: seq<Event>)
    requires w.Valid() && NewTasks(w.TasksUpTo(|w.order|), live) && Follow(w.builds, from, to)
    ensures IsRun(env, run, es) && run[0] == Sys(w.core, w.picked, live, from) && AreBuilds(es, w.builds)
    ensures run[|es|].core == w.CoreUpTo(|w.order|) && run[|es|].pending == [] && from <= run[|es|].now <= to
    ensures run[|es|].live.Keys == live.Keys + TaskIDs(w.TasksUpTo(|w.order|))
  {
    var s := Sys(w.core, w.picked, live, from);
    assert BuiltUpTo(w, live, 0, s);
    run, es := BuildsAreRun(env, w, live, s, |w.order|, to);
    NobodyWaits(w.picked, w.order, run[|w.order|].pending);
    assert w.builds[..|w.order|] == w.builds;
  }

  /** The builds an answer consists of. */
  ghost function WorkOf(a: Answer): Work
    requires a.Valid()
  {
    Work(Selected(a.core, a.Sel()), a.Sel().picked, a.order, a.builds)
  }

  lemma WorkFacts(a: Answer)
    requires a.Valid()
    ensures var w := WorkOf(a);
      w.Valid() && w.TasksUpTo(|w.order|) == a.Tasks() && w.CoreUpTo(|w.order|) == a.After()
  {
    SelectPicks(a.env, a.core, a.offer, a.visits);
    PickedDiffer(a.env, a.core, a.visits, a.Sel());
    hide Select;
    assert a.order[..|a.order|] == a.order && a.builds[..|a.builds|] == a.builds;
  }

  /** The selection is an offer event. */
  lemma SelectionIsEvent(a: Answer, live: map<string, string>, from: int, until: int)
    requires a.Valid() && IsFullPass(a.visits, a.core.jobs, from, until)
    ensures var s, e, w := Sys(a.core, [], live, from), OfferEvent(a.offer, a.visits, until), WorkOf(a);
      Enabled(a.env, s, e) && Apply(a.env, s, e) == Sys(w.core, w.picked, live, until)
  {
    hide Select;
    assert [] + a.Sel().picked == a.Sel().picked;
  }

  /** All jobs picked are built, and the tasks returned are those that went live. */
  ghost predicate Answers(a: Answer, live: map<string, string>, s: Sys)
    requires a.Valid()
  {
    s.core == a.After() && s.pending == [] && s.live.Keys == live.Keys + TaskIDs(a.Tasks())
  }

  /**
   * An answer to an offer is a run: an offer event, then one build event for each closure. It ends in the caches
   * and storage the scheduler is left with, with nothing waiting, and the tasks returned are those that went live.
   */
  lemma AnswerIsRun(a: Answer, live: map<string, string>, from: int, until: int, to: int)
    returns (run: seq<Sys>, es: seq<Event>)
    requires a.Valid() && NewTasks(a.Tasks(), live)
    requires IsFullPass(a.visits, a.core.jobs, from, until) && Follow(a.builds, until, to)
    ensures IsRun(a.env, run, es) && run[0] == Sys(a.core, [], live, from)
    ensures |es| > 0 && es[0] == OfferEvent(a.offer, a.visits, until) && AreBuilds(es[1..], a.builds)
    ensures Answers(a, live, run[|es|]) && until <= run[|es|].now <= to
  {
    SelectionIsEvent(a, live, from, until);
    WorkFacts(a);
    hide Select, Answer.Valid, Answer.Tasks, Answer.After, Apply, Enabled, IsFullPass, NewTasks, TaskIDs, Follow;
    hide Work.CoreUpTo, Work.TasksUpTo, Work.Valid;
    var rest, es' := WorkIsRun(a.env, WorkOf(a), live, until, to);
    var s, e := Sys(a.core, [], live, from), OfferEvent(a.offer, a.visits, until);
    RunStarts(a.env, s, e, rest, es');
    run, es := [s] + rest, [e] + es';
    assert es[1..] == es';
  }

  lemma RunStarts(env: Env, s: Sys, e: Event, run: seq<Sys>, es: seq<Event>)
    requires Enabled(env, s, e) && IsRun(env, run, es) && run[0] == Apply(env, s, e)
    ensures IsRun(env, [s] + run, [e] + es)
  {
    hide Enabled, Apply;
    var r, f := [s] + run, [e] + es;
    forall i | 0 <= i < |f| ensures Enabled(env, r[i], f[i]) && r[i + 1] == Apply(env, r[i], f[i]) {
      if i > 0 {
        assert Enabled(env, run[i - 1], es[i - 1]) && f[i] == es[i - 1];
      }
    }
  }

  /** Mesos' offer reaches the scheduler: unless that ends in the fatal exit, what it does is a valid answer. */
  method AnswerOffer(sched: Scheduler, offer: Resources, agent: string, outcomes: nat -> Launch)
    returns (tasks: seq<TaskInfo>, halted: bool, ghost a: Answer, ghost until: int)
    requires sched.Valid() && FindsWithin(sched.env.find) && Canonical(offer)
    requires forall i :: outcomes(i).Launched? ==> ':' !in outcomes(i).uuid
    modifies sched, sched.bookedJobs, sched.store, sched.clock
    ensures sched.Valid()
    ensures !halted ==>
      && a.Valid() && a.env == sched.env && a.core == old(sched.View()) && a.offer == offer && a.agent == agent
      && IsFullPass(a.visits, a.core.jobs, old(sched.clock.now), until)
      && Follow(a.builds, until, sched.clock.now)
      && (forall i | 0 <= i < |a.order| :: a.builds[i].launch == outcomes(a.order[i]))
      && (sched.store.reliable ==> AllWritten(a.builds))
      && sched.View() == a.After() && tasks == a.Tasks()
  {
    ghost var core := sched.View();
    ghost var visits, sel, order, builds;
    hide Select, BuildAll, TasksOf, FindsWithin, Canonical, KeyedByFQID, Follow, AllWritten, IsOrder;
    tasks, halted, visits, until, sel, order, builds := sched.FindTasksForOffer(offer, agent, outcomes);
    a := Answer(sched.env, core, offer, agent, visits, order, builds);
    if !halted {
      PassDistinct(visits, core.jobs, old(sched.clock.now), until);
      assert forall b | b in builds :: exists i | 0 <= i < |order| :: builds[i] == b;
    }
  }
}
