/** How often a job is attempted: retries are bounded, and other attempts are paid for by its schedule. */
module AttemptProofs {
  import opened JobModel
  import opened SchedulerSpec
  import opened SelectionProofs
  import opened SchedulerRuns
  import opened RestartProofs

  /** The job stays in storage. */
  ghost predicate Steady(s: Sys, e: Event, k: string) {
    Timely(s, e) && (e.DeleteEvent? ==> e.id != k)
  }

  /** The scheduler restarts only while storage has the job's count of retries. */
  ghost predicate RestartKeepsCount(s: Sys, e: Event, k: string) {
    e.RestartEvent? && k in s.core.jobs && k in s.core.stored ==>
      s.core.stored[k].rt.retries == s.core.jobs[k].rt.retries
  }

  /** The scheduler restarts only while storage has the job's last start. */
  ghost predicate RestartKeepsStart(s: Sys, e: Event, k: string) {
    e.RestartEvent? && k in s.core.jobs && k in s.core.stored ==>
      s.core.stored[k].rt.lastStart == s.core.jobs[k].rt.lastStart
  }

  /** Where in a selection the job was picked, or -1. */
  function PickOf(picked: seq<Picked>, k: string): (i: int)
    ensures -1 <= i < |picked|
    ensures i >= 0 ==> picked[i].visit.id == k
    ensures i < 0 ==> forall q | q in picked :: q.visit.id != k
  {
    if |picked| == 0 then -1
    else if picked[|picked| - 1].visit.id == k then |picked| - 1
    else PickOf(picked[..|picked| - 1], k)
  }

  // ---- Retries ----

  /** Retry attempts since the last attempt that was not a retry, counted from the selections of the run. */
  ghost function RetriesInARow(env: Env, run: seq<Sys>, es: seq<Event>, k: string, start: int): int
    requires IsRun(env, run, es)
  {
    if |es| == 0 then start
    else
      RunPrefix(env, run, es);
      var n := |es| - 1;
      var before := RetriesInARow(env, run[..|es|], es[..n], k, start);
      RetriesAfter(env, run[n], es[n], k, before)
  }

  function AfterSelection(picked: seq<Picked>, k: string, before: int): int {
    var i := PickOf(picked, k);
    if i < 0 then before else if picked[i].retry then before + 1 else 0
  }

  /** The largest MaxRetries the stored conf of the job has had. */
  function LargestMaxRetries(run: seq<Sys>, k: string): int
    requires |run| > 0
  {
    var last := run[|run| - 1].core.stored;
    var now := if k in last then last[k].conf.maxRetries else 0;
    if |run| == 1 then now
    else
      var before := LargestMaxRetries(run[..|run| - 1], k);
      if now > before then now else before
  }

  /** The cached count is `row`, copies waiting to be built carry it, and no conf in sight allows more than `most`. */
  ghost predicate CountsRetries(s: Sys, k: string, row: int, most: int) {
    && k in s.core.jobs && k in s.core.stored
    && s.core.jobs[k].rt.retries == row <= most
    && s.core.jobs[k].conf.maxRetries <= most
    && s.core.stored[k].conf.maxRetries <= most
    && forall p | p in s.pending && p.visit.id == k :: p.job.rt.retries == row && p.job.conf.maxRetries <= most
  }

  lemma OnlyPick(sel: Selection, i: nat)
    requires Recorded(sel) && i < |sel.picked|
    ensures forall p | p in sel.picked && p.visit.id == sel.picked[i].visit.id :: p == sel.picked[i]
  {
    forall j | 0 <= j < |sel.picked| && sel.picked[j].visit.id == sel.picked[i].visit.id ensures j == i {
    }
  }

  lemma RetriesOffer(env: Env, s: Sys, visits: seq<Visit>, until: int, sel: Selection, k: string, row: int, most: int)
    requires CountsRetries(s, k, row, most) && 0 <= row && PicksAnew(env, s, visits, until, sel)
    ensures 0 <= AfterSelection(sel.picked, k, row)
    ensures CountsRetries(s.(core := Selected(s.core, sel), pending := s.pending + sel.picked, now := until),
                          k, AfterSelection(sel.picked, k, row), most)
  {
    hide JobResources, FindTaskResources, Job.IsRunnable;
    var i := PickOf(sel.picked, k);
    if i < 0 {
      assert k !in PickedIDs(sel.picked);
    } else {
      var q := sel.picked[i];
      assert q in sel.picked && PickedFrom(env, s.core, visits, q);
      assert k in PickedIDs(sel.picked);
      OnlyPick(sel, i);
    }
  }

  lemma RetriesOther(env: Env, s: Sys, e: Event, k: string, row: int, most: int, most': int)
    requires Enabled(env, s, e) && !e.OfferEvent? && Steady(s, e, k) && RestartKeepsCount(s, e, k)
    requires Keyed(s) && Booked(s)
    requires CountsRetries(s, k, row, most) && most <= most'
    requires k in Apply(env, s, e).core.stored ==> Apply(env, s, e).core.stored[k].conf.maxRetries <= most'
    ensures CountsRetries(Apply(env, s, e), k, row, most')
  {
    hide ParseTaskID, Select, KeyedByFQID, IsFullPass;
    match e
    case BuildEvent(i, b) =>
      assert s.pending[i] in s.pending;
      WithoutDiffers(s.pending, i);
    case UpdateEvent(status, saved) =>
    case _ =>
  }

  /** How one event changes the number of retries in a row. */
  ghost function RetriesAfter(env: Env, s: Sys, e: Event, k: string, before: int): int
    requires Enabled(env, s, e)
  {
    if e.OfferEvent? then AfterSelection(Select(env, s.core, e.offer, e.visits).picked, k, before) else before
  }

  lemma RetriesStep(env: Env, s: Sys, e: Event, k: string, row: int, most: int, most': int)
    requires Enabled(env, s, e) && Steady(s, e, k) && RestartKeepsCount(s, e, k) && Keyed(s) && Booked(s)
    requires CountsRetries(s, k, row, most) && 0 <= row && most <= most'
    requires k in Apply(env, s, e).core.stored ==> Apply(env, s, e).core.stored[k].conf.maxRetries <= most'
    ensures 0 <= RetriesAfter(env, s, e, k, row)
    ensures CountsRetries(Apply(env, s, e), k, RetriesAfter(env, s, e, k, row), most')
  {
    if e.OfferEvent? {
      OfferPicksAnew(env, s, e);
      RetriesOffer(env, s, e.visits, e.until, Select(env, s.core, e.offer, e.visits), k, row, most);
    } else {
      RetriesOther(env, s, e, k, row, most, most');
    }
  }

  /**
   * Retries are counted right and bounded: the cached count is the number of retry attempts since the
   * last other attempt, and never exceeds the largest MaxRetries the job's conf has had.
   */
  lemma {:induction false} RetriesBounded(env: Env, run: seq<Sys>, es: seq<Event>, k: string)
    requires IsRun(env, run, es) && Keyed(run[0]) && Booked(run[0])
    requires k in run[0].core.jobs
    requires 0 <= run[0].core.jobs[k].rt.retries
    requires CountsRetries(run[0], k, run[0].core.jobs[k].rt.retries, LargestMaxRetries(run[..1], k))
    requires forall i | 0 <= i < |es| :: Steady(run[i], es[i], k) && RestartKeepsCount(run[i], es[i], k)
    ensures Keyed(run[|es|]) && Booked(run[|es|])
    ensures 0 <= RetriesInARow(env, run, es, k, run[0].core.jobs[k].rt.retries)
    ensures CountsRetries(run[|es|], k, RetriesInARow(env, run, es, k, run[0].core.jobs[k].rt.retries),
                          LargestMaxRetries(run, k))
  {
    hide Enabled, Apply, Booked, Keyed, CountsRetries;
    var start := run[0].core.jobs[k].rt.retries;
    if |es| == 0 {
      assert run == run[..1];
    } else {
      var n := |es| - 1;
      RunPrefix(env, run, es);
      assert run[..|es|][..1] == run[..1];
      RetriesBounded(env, run[..|es|], es[..n], k);
      assert run[..|es|][n] == run[n];
      KeyedStep(env, run[n], es[n]);
      BookedStep(env, run[n], es[n]);
      assert run[..|run| - 1] == run[..|es|];
      var row, most := RetriesInARow(env, run[..|es|], es[..n], k, start), LargestMaxRetries(run[..|es|], k);
      assert Steady(run[n], es[n], k) && RestartKeepsCount(run[n], es[n], k);
      RetriesStep(env, run[n], es[n], k, row, most, LargestMaxRetries(run, k));
    }
  }

  /** When saves succeed, only a restart between a job's selection and its build can lose count. */
  lemma RetriesAcrossRestarts(env: Env, run: seq<Sys>, es: seq<Event>, k: string)
    requires IsRun(env, run, es) && Keyed(run[0]) && Booked(run[0]) && Agrees(run[0])
    requires k in run[0].core.jobs && 0 <= run[0].core.jobs[k].rt.retries
    requires CountsRetries(run[0], k, run[0].core.jobs[k].rt.retries, LargestMaxRetries(run[..1], k))
    requires forall i | 0 <= i < |es| :: Steady(run[i], es[i], k) && Durable(run[i], es[i])
    requires forall i | 0 <= i < |es| && es[i].RestartEvent? :: k !in PendingIDs(run[i].pending)
    ensures CountsRetries(run[|es|], k, RetriesInARow(env, run, es, k, run[0].core.jobs[k].rt.retries),
                          LargestMaxRetries(run, k))
  {
    RestartInvisible(env, run, es);
    forall i | 0 <= i < |es| ensures RestartKeepsCount(run[i], es[i], k) {
      if es[i].RestartEvent? && k in run[i].core.jobs && k in run[i].core.stored {
        assert AgreesAt(run[i], k);
      }
    }
    RetriesBounded(env, run, es, k);
  }

  // ---- The bound on retries in every run ----

  /** Wherever the job is known, its count and its allowance are within the bound. */
  ghost predicate RetriesWithin(s: Sys, k: string, most: int) {
    && (k in s.core.jobs ==> s.core.jobs[k].rt.retries <= most && s.core.jobs[k].conf.maxRetries <= most)
    && (k in s.core.stored ==> s.core.stored[k].rt.retries <= most && s.core.stored[k].conf.maxRetries <= most)
    && forall p | p in s.pending && p.visit.id == k :: p.job.rt.retries <= most && p.job.conf.maxRetries <= most
  }

  lemma WithinOffer(env: Env, s: Sys, visits: seq<Visit>, until: int, sel: Selection, k: string, most: int)
    requires RetriesWithin(s, k, most) && 0 <= most && Picks(env, s.core, visits, sel) && !sel.halted
    ensures RetriesWithin(s.(core := Selected(s.core, sel), pending := s.pending + sel.picked, now := until), k, most)
  {
    hide Candidate, JobResources, Job.IsRunnable;
    forall q | q in sel.picked && q.visit.id == k ensures q.job.rt.retries <= most && q.job.conf.maxRetries <= most {
      assert PickedFrom(env, s.core, visits, q);
    }
    if k in PickedIDs(sel.picked) {
      var q :| q in sel.picked && q.visit.id == k;
    }
  }

  lemma WithinOther(env: Env, s: Sys, e: Event, k: string, most: int, most': int)
    requires Enabled(env, s, e) && !e.OfferEvent? && Keyed(s) && RetriesWithin(s, k, most) && 0 <= most <= most'
    requires k in Apply(env, s, e).core.stored ==> Apply(env, s, e).core.stored[k].conf.maxRetries <= most'
    ensures RetriesWithin(Apply(env, s, e), k, most')
  {
    hide ParseTaskID, KeyedByFQID;
    if e.BuildEvent? {
      assert s.pending[e.i] in s.pending;
      assert forall p | p in Without(s.pending, e.i) :: p in s.pending;
    }
  }

  /**
   * In every run, with saves that fail, deletions and restarts at any point: no count of retries, cached, stored
   * or about to be built, exceeds the largest MaxRetries the job has had.
   */
  lemma {:induction false} RetriesNeverExceed(env: Env, run: seq<Sys>, es: seq<Event>, k: string)
    requires IsRun(env, run, es) && Keyed(run[0]) && RetriesWithin(run[0], k, LargestMaxRetries(run[..1], k))
    ensures Keyed(run[|es|]) && 0 <= LargestMaxRetries(run, k)
    ensures RetriesWithin(run[|es|], k, LargestMaxRetries(run, k))
  {
    if |es| == 0 {
      assert run == run[..1];
    } else {
      var n := |es| - 1;
      RunPrefix(env, run, es);
      assert run[..|es|][..1] == run[..1] && run[..|run| - 1] == run[..|es|];
      RetriesNeverExceed(env, run[..|es|], es[..n], k);
      assert run[..|es|][n] == run[n];
      KeyedStep(env, run[n], es[n]);
      WithinStep(env, run[n], es[n], k, LargestMaxRetries(run[..|es|], k), LargestMaxRetries(run, k));
    }
  }

  lemma WithinStep(env: Env, s: Sys, e: Event, k: string, most: int, most': int)
    requires Enabled(env, s, e) && Keyed(s) && RetriesWithin(s, k, most) && 0 <= most <= most'
    requires k in Apply(env, s, e).core.stored ==> Apply(env, s, e).core.stored[k].conf.maxRetries <= most'
    ensures RetriesWithin(Apply(env, s, e), k, most')
  {
    if e.OfferEvent? {
      PassDistinct(e.visits, s.core.jobs, s.now, e.until);
      SelectPicks(env, s.core, e.offer, e.visits);
      WithinOffer(env, s, e.visits, e.until, Select(env, s.core, e.offer, e.visits), k, most);
    } else {
      WithinOther(env, s, e, k, most, most');
    }
  }

  // ---- Scheduled attempts ----

  /** Schedule points after lo, up to and including hi. */
  function Points(points: (string, int) -> bool, cron: string, lo: int, hi: int): nat
    decreases hi - lo
  {
    if hi <= lo then 0 else Points(points, cron, lo, hi - 1) + if points(cron, hi) then 1 else 0
  }

  lemma {:induction false} PointsAdd(points: (string, int) -> bool, cron: string, lo: int, mid: int, hi: int)
    requires lo <= mid <= hi
    ensures Points(points, cron, lo, hi) == Points(points, cron, lo, mid) + Points(points, cron, mid, hi)
    decreases hi - mid
  {
    if mid < hi {
      PointsAdd(points, cron, lo, mid, hi - 1);
    }
  }

  lemma {:induction false} PointCounts(points: (string, int) -> bool, cron: string, lo: int, at: int, hi: int)
    requires lo < at <= hi && points(cron, at)
    ensures Points(points, cron, lo, hi) >= 1
    decreases hi - at
  {
    if at < hi {
      PointCounts(points, cron, lo, at, hi - 1);
    }
  }

  /** An attempt the job's schedule called for: it was due and not a retry. */
  predicate Scheduled(s: Sys, e: Event, k: string) {
    && e.BuildEvent? && e.i < |s.pending| && s.pending[e.i].visit.id == k
    && s.pending[e.i].runnable && !s.pending[e.i].retry
  }

  /** The scheduled attempts of a run. */
  function ScheduledCount(run: seq<Sys>, es: seq<Event>, k: string): nat
    requires |run| == |es| + 1
  {
    Count((s, e) => Scheduled(s, e, k), run, es)
  }

  ghost predicate KeepsSchedule(e: Event, k: string, cron: string) {
    e.ConfEvent? && e.conf.FQID() == k ==> e.conf.cron == cron
  }

  /** The job last started at `last`, and a scheduled attempt still to be built has a schedule point behind it. */
  ghost predicate OnSchedule(env: Env, s: Sys, k: string, cron: string, last: int) {
    && k in s.core.jobs && k in s.core.stored
    && s.core.jobs[k].rt.lastStart == last <= s.now
    && s.core.jobs[k].conf.cron == cron && s.core.stored[k].conf.cron == cron
    && forall p | p in s.pending && p.visit.id == k ::
        && p.job.rt.lastStart == last && p.job.conf.cron == cron
        && (p.runnable && !p.retry ==> env.next(cron, last) < p.visit.runnableAt)
  }

  lemma ScheduleOffer(
    env: Env, s: Sys, visits: seq<Visit>, until: int, sel: Selection, k: string, cron: string, last: int)
    requires OnSchedule(env, s, k, cron, last) && PicksAnew(env, s, visits, until, sel)
    ensures var s' := s.(core := Selected(s.core, sel), pending := s.pending + sel.picked, now := until);
      OnSchedule(env, s', k, cron, last)
  {
    forall q | q in sel.picked && q.visit.id == k
      ensures q.job.rt.lastStart == last && q.job.conf.cron == cron
      ensures q.runnable && !q.retry ==> env.next(cron, last) < q.visit.runnableAt
    {
      assert PickedFrom(env, s.core, visits, q);
    }
    if k in PickedIDs(sel.picked) {
      var q :| q in sel.picked && q.visit.id == k;
    }
  }

  lemma ScheduleBuild(env: Env, s: Sys, i: nat, b: Build, live: map<string, string>, k: string, cron: string, last: int)
    requires Keyed(s) && Booked(s) && OnSchedule(env, s, k, cron, last) && i < |s.pending| && s.now <= b.at
    ensures OnSchedule(env, Sys(BuildJob(s.core, s.pending[i].job, b), Without(s.pending, i), live, b.at), k, cron,
                       if s.pending[i].visit.id == k then b.at else last)
    ensures s.pending[i].visit.id == k && s.pending[i].runnable && !s.pending[i].retry ==> env.next(cron, last) < b.at
  {
    assert s.pending[i] in s.pending;
    WithoutDiffers(s.pending, i);
  }

  lemma ScheduleOther(env: Env, s: Sys, e: Event, k: string, cron: string, last: int)
    requires Enabled(env, s, e) && !e.OfferEvent? && !e.BuildEvent? && Keyed(s) && RestartKeepsStart(s, e, k)
    requires Steady(s, e, k) && KeepsSchedule(e, k, cron) && OnSchedule(env, s, k, cron, last)
    ensures OnSchedule(env, Apply(env, s, e), k, cron, last)
  {
    hide ParseTaskID, KeyedByFQID, IsFullPass;
  }

  /** One step: a scheduled attempt moves the last start past a new schedule point; no step moves it back. */
  lemma ScheduleStep(
    env: Env, points: (string, int) -> bool, s: Sys, e: Event, k: string, cron: string, first: int, last: int)
    requires Enabled(env, s, e) && Keyed(s) && Booked(s) && IsSchedule(env.next, points, cron)
    requires Steady(s, e, k) && RestartKeepsStart(s, e, k) && KeepsSchedule(e, k, cron)
    requires OnSchedule(env, s, k, cron, last) && first <= last
    ensures var last' := Apply(env, s, e).core.jobs[k].rt.lastStart;
      && OnSchedule(env, Apply(env, s, e), k, cron, last') && last <= last'
      && Points(points, cron, first, last) + (if Scheduled(s, e, k) then 1 else 0) <= Points(points, cron, first, last')
  {
    match e
    case OfferEvent(offer, visits, until) =>
      OfferPicksAnew(env, s, e);
      ScheduleOffer(env, s, visits, until, Select(env, s.core, offer, visits), k, cron, last);
    case BuildEvent(i, b) =>
      ScheduleBuild(env, s, i, b, Apply(env, s, e).live, k, cron, last);
      if s.pending[i].visit.id == k {
        PointsAdd(points, cron, first, last, b.at);
        if Scheduled(s, e, k) {
          PointCounts(points, cron, last, env.next(cron, last), b.at);
        }
      }
    case _ => ScheduleOther(env, s, e, k, cron, last);
  }

  /**
   * Scheduled attempts never outnumber the schedule points since the job's first known start, and its
   * last start never goes back.
   */
  lemma {:induction false} ScheduledAttemptsBounded(
    env: Env, points: (string, int) -> bool, run: seq<Sys>, es: seq<Event>, k: string, cron: string)
    requires IsRun(env, run, es) && Keyed(run[0]) && Booked(run[0]) && IsSchedule(env.next, points, cron)
    requires k in run[0].core.jobs && OnSchedule(env, run[0], k, cron, run[0].core.jobs[k].rt.lastStart)
    requires forall i | 0 <= i < |es| ::
      Steady(run[i], es[i], k) && RestartKeepsStart(run[i], es[i], k) && KeepsSchedule(es[i], k, cron)
    ensures Keyed(run[|es|]) && Booked(run[|es|])
    ensures forall i | 0 <= i < |run| :: k in run[i].core.jobs
    ensures forall i | 0 <= i < |es| :: run[i].core.jobs[k].rt.lastStart <= run[i + 1].core.jobs[k].rt.lastStart
    ensures var first, last := run[0].core.jobs[k].rt.lastStart, run[|es|].core.jobs[k].rt.lastStart;
      && first <= last && OnSchedule(env, run[|es|], k, cron, last)
      && ScheduledCount(run, es, k) <= Points(points, cron, first, last)
      && ScheduledCount(run, es, k) <= Points(points, cron, first, run[|es|].now)
  {
    hide Enabled, Apply, Booked, Keyed, Scheduled;
    var first := run[0].core.jobs[k].rt.lastStart;
    if |es| > 0 {
      var n := |es| - 1;
      RunPrefix(env, run, es);
      ScheduledAttemptsBounded(env, points, run[..|es|], es[..n], k, cron);
      assert run[..|es|][n] == run[n];
      KeyedStep(env, run[n], es[n]);
      BookedStep(env, run[n], es[n]);
      assert Steady(run[n], es[n], k) && RestartKeepsStart(run[n], es[n], k) && KeepsSchedule(es[n], k, cron);
      ScheduleStep(env, points, run[n], es[n], k, cron, first, run[n].core.jobs[k].rt.lastStart);
      assert forall i | 0 <= i < |run| - 1 :: run[..|es|][i] == run[i];
    }
    PointsAdd(points, cron, first, run[|es|].core.jobs[k].rt.lastStart, run[|es|].now);
  }

  /** When saves succeed, the bound holds across restarts at any point. */
  lemma ScheduledAttemptsAcrossRestarts(
    env: Env, points: (string, int) -> bool, run: seq<Sys>, es: seq<Event>, k: string, cron: string)
    requires IsRun(env, run, es) && Keyed(run[0]) && Booked(run[0]) && Agrees(run[0])
    requires IsSchedule(env.next, points, cron)
    requires k in run[0].core.jobs && OnSchedule(env, run[0], k, cron, run[0].core.jobs[k].rt.lastStart)
    requires forall i | 0 <= i < |es| ::
      Steady(run[i], es[i], k) && KeepsSchedule(es[i], k, cron) && Durable(run[i], es[i])
    ensures forall i | 0 <= i < |run| :: k in run[i].core.jobs
    ensures forall i | 0 <= i < |es| :: run[i].core.jobs[k].rt.lastStart <= run[i + 1].core.jobs[k].rt.lastStart
    ensures ScheduledCount(run, es, k)
         <= Points(points, cron, run[0].core.jobs[k].rt.lastStart, run[|es|].now)
  {
    RestartInvisible(env, run, es);
    hide Enabled, Apply, Points, OnSchedule, ScheduledCount, IsSchedule;
    hide Booked, Keyed, Steady, KeepsSchedule, Durable;
    forall i | 0 <= i < |es| ensures RestartKeepsStart(run[i], es[i], k) {
      if es[i].RestartEvent? && k in run[i].core.jobs && k in run[i].core.stored {
        assert AgreesAt(run[i], k);
      }
    }
    ScheduledAttemptsBounded(env, points, run, es, k, cron);
  }
}
