/** When a job is due, in terms of its state, its retries and the points of its schedule. */
module DueRules {
  import opened JobModel
  import opened Resources
  import opened SchedulerSpec
  import opened SelectionProofs

  /** The last attempt failed and may be repeated. */
  predicate MayRetry(job: Job) {
    job.rt.state == Failed && job.rt.retries < job.conf.maxRetries
  }

  /** A point of the schedule lies strictly between the two instants. */
  ghost predicate PointBetween(points: (string, int) -> bool, cron: string, after: int, before: int) {
    exists u :: after < u < before && points(cron, u)
  }

  /** At rest, and either to be retried since its last start or past a point of its schedule. */
  ghost predicate IsDue(job: Job, points: (string, int) -> bool, now: int) {
    && (job.rt.state == Idle || job.rt.state == Failed)
    && if MayRetry(job) then job.rt.lastStart < now
       else PointBetween(points, job.conf.cron, job.rt.lastStart, now)
  }

  lemma NextPoint(next: Cron, points: (string, int) -> bool, cron: string, t: int, now: int)
    requires IsSchedule(next, points, cron)
    ensures next(cron, t) < now <==> PointBetween(points, cron, t, now)
  {
    assert t < next(cron, t) && points(cron, next(cron, t));
  }

  /** The program's test is that rule. */
  lemma RunnableIffDue(next: Cron, points: (string, int) -> bool, job: Job, now: int)
    requires IsSchedule(next, points, job.conf.cron)
    ensures job.IsRunnable(next, now) <==> IsDue(job, points, now)
  {
    NextPoint(next, points, job.conf.cron, job.rt.lastStart, now);
  }

  ghost predicate AllSchedules(next: Cron, points: (string, int) -> bool) {
    forall cron :: IsSchedule(next, points, cron)
  }

  /**
   * What a pass picks was due or queued, and not booked within the minute before; it is counted as a retry exactly
   * when its last attempt may be repeated.
   */
  lemma PickedWereDue(
    env: Env, points: (string, int) -> bool, core: Core, offer: Resources, visits: seq<Visit>, q: Picked)
    requires |env.roles| > 0 && (forall v | v in visits :: v.id in core.jobs) && DistinctIDs(visits)
    requires AllSchedules(env.next, points) && q in Select(env, core, offer, visits).picked
    ensures q.visit in visits
    ensures var job := core.jobs[q.visit.id];
      && (IsDue(job, points, q.visit.runnableAt) || q.visit.id in core.queued)
      && (q.visit.id in core.booked ==> Sub(q.visit.checkedAt, core.booked[q.visit.id]) > 60 * SECOND)
      && (q.retry <==> MayRetry(job))
      && q.job.conf == job.conf
      && q.job.rt == job.rt.(retries := if MayRetry(job) then job.rt.retries + 1 else 0)
  {
    SelectPicks(env, core, offer, visits);
    hide Select;
    assert PickedFrom(env, core, visits, q);
    RunnableIffDue(env.next, points, core.jobs[q.visit.id], q.visit.runnableAt);
  }

  /** And whatever is due or queued, not booked within the minute, and fits in what is left at the end, is picked. */
  lemma DueIsPicked(
    env: Env, points: (string, int) -> bool, core: Core, offer: Resources, visits: seq<Visit>, v: Visit)
    requires |env.roles| > 0 && (forall u | u in visits :: u.id in core.jobs) && DistinctIDs(visits)
    requires AllSchedules(env.next, points) && FindsWithin(env.find) && Canonical(offer) && KeyedByFQID(core.jobs)
    requires !Select(env, core, offer, visits).halted
    requires v in visits && (v.id in core.booked ==> Sub(v.checkedAt, core.booked[v.id]) > 60 * SECOND)
    requires IsDue(core.jobs[v.id], points, v.runnableAt) || v.id in core.queued
    requires Fits(Select(env, core, offer, visits).left, core.jobs[v.id].conf)
    ensures v.id in PickedIDs(Select(env, core, offer, visits).picked)
  {
    SelectMaximal(env, core, offer, visits);
    RunnableIffDue(env.next, points, core.jobs[v.id], v.runnableAt);
    hide Select, Canonical, FindsWithin, KeyedByFQID;
    assert Candidate(env, core, v);
  }
}
