/**
 * Runs of the scheduler together with storage, the API and Mesos: every interleaving of offers, task
 * builds, task state updates, syncs, booking cleanups, API calls and restarts.
 */
module SchedulerRuns {
  import opened JobModel
  import opened Resources
  import opened TtlSets
  import opened SchedulerSpec
  import opened SelectionProofs

  /**
   * `pending` are the jobs selected for an offer whose task is not built yet; `live` maps the tasks
   * that were launched and have not ended to the FQIDs of their jobs.
   */
  datatype Sys = Sys(core: Core, pending: seq<Picked>, live: map<string, string>, now: int)

  datatype Event =
    | OfferEvent(offer: Resources, visits: seq<Visit>, until: int)
    | BuildEvent(i: nat, b: Build)
    | UpdateEvent(status: Status, saved: bool)
    | SyncJobsEvent
    | SyncQueueEvent
    | CleanupEvent(removed: set<string>, at: int)
    | CreateEvent(conf: JobConf)
    | ConfEvent(conf: JobConf)
    | DeleteEvent(id: string)
    | QueueEvent(id: string)
    | RestartEvent

  function Without(pending: seq<Picked>, i: nat): seq<Picked>
    requires i < |pending|
  {
    pending[..i] + pending[i + 1..]
  }

  /** What can happen in a state. A UUID is new, and the API accepts only well-formed jobs. */
  ghost predicate Enabled(env: Env, s: Sys, e: Event) {
    match e
    case OfferEvent(offer, visits, until) =>
      && |env.roles| > 0
      && IsFullPass(visits, s.core.jobs, s.now, until)
      && !Select(env, s.core, offer, visits).halted
    case BuildEvent(i, b) =>
      && i < |s.pending|
      && s.now <= b.at
      && (b.launch.Launched? ==>
          && ':' !in b.launch.uuid
          && TaskIDString(s.pending[i].job.conf.jid, b.launch.uuid) !in s.live)
    case UpdateEvent(_, _) => true
    case SyncJobsEvent => true
    case SyncQueueEvent => true
    case CleanupEvent(removed, at) =>
      s.now <= at && forall k | k in removed :: k in s.core.booked && Expired(s.core.booked, BOOKING_TTL, k, at)
    case CreateEvent(conf) => conf.Acceptable() && conf.FQID() !in s.core.stored
    case ConfEvent(conf) => conf.Acceptable() && conf.FQID() in s.core.stored
    case DeleteEvent(_) => true
    case QueueEvent(_) => true
    case RestartEvent => true
  }

  function Apply(env: Env, s: Sys, e: Event): Sys
    requires Enabled(env, s, e)
  {
    match e
    case OfferEvent(offer, visits, until) =>
      var sel := Select(env, s.core, offer, visits);
      s.(core := Selected(s.core, sel), pending := s.pending + sel.picked, now := until)
    case BuildEvent(i, b) =>
      var job := s.pending[i].job;
      Sys(
        BuildJob(s.core, job, b),
        Without(s.pending, i),
        if b.launch.Launched? then s.live[TaskIDString(job.conf.jid, b.launch.uuid) := job.FQID()] else s.live,
        b.at)
    case UpdateEvent(status, saved) =>
      s.(core := UpdateTask(s.core, status, saved),
         live := if IsTerminal(status.state) then s.live - {status.taskID} else s.live)
    case SyncJobsEvent => s.(core := SyncJobs(s.core))
    case SyncQueueEvent => s.(core := SyncQueue(s.core))
    case CleanupEvent(removed, at) => s.(core := s.core.(booked := s.core.booked - removed), now := at)
    case CreateEvent(conf) => s.(core := CreateJob(s.core, conf))
    case ConfEvent(conf) => s.(core := UpdateConf(s.core, conf))
    case DeleteEvent(id) => s.(core := DeleteJob(s.core, id))
    case QueueEvent(id) => s.(core := QueueJob(s.core, id))
    case RestartEvent => s.(core := Fresh(s.core.stored, s.core.queue), pending := [])
  }

  ghost predicate IsRun(env: Env, run: seq<Sys>, es: seq<Event>) {
    && |run| == |es| + 1
    && forall i | 0 <= i < |es| :: Enabled(env, run[i], es[i]) && run[i + 1] == Apply(env, run[i], es[i])
  }

  lemma RunPrefix(env: Env, run: seq<Sys>, es: seq<Event>)
    requires IsRun(env, run, es) && |es| > 0
    ensures IsRun(env, run[..|es|], es[..|es| - 1])
    ensures Enabled(env, run[|es| - 1], es[|es| - 1]) && run[|es|] == Apply(env, run[|es| - 1], es[|es| - 1])
  {
    var n := |es| - 1;
    forall i | 0 <= i < n
      ensures Enabled(env, run[..|es|][i], es[..n][i]) && run[..|es|][i + 1] == Apply(env, run[..|es|][i], es[..n][i])
    {
      assert Enabled(env, run[i], es[i]) && run[i + 1] == Apply(env, run[i], es[i]);
    }
    assert Enabled(env, run[n], es[n]);
  }

  // ---- Keys ----

  /** Every job is kept under its own, well-formed FQID. */
  ghost predicate Keyed(s: Sys) {
    && KeyedByFQID(s.core.jobs) && KeyedByFQID(s.core.stored)
    && forall p | p in s.pending :: p.job.FQID() == p.visit.id && p.job.conf.Acceptable()
  }

  lemma KeyedOffer(env: Env, s: Sys, visits: seq<Visit>, until: int, sel: Selection)
    requires Keyed(s) && KeyedByFQID(sel.jobs) && Picks(env, s.core, visits, sel)
    ensures Keyed(s.(core := Selected(s.core, sel), pending := s.pending + sel.picked, now := until))
  {
    forall q | q in sel.picked ensures q.job.FQID() == q.visit.id && q.job.conf.Acceptable() {
      assert PickedFrom(env, s.core, visits, q);
    }
  }

  lemma KeyedBuild(s: Sys, i: nat, b: Build, live: map<string, string>)
    requires Keyed(s) && i < |s.pending|
    ensures Keyed(Sys(BuildJob(s.core, s.pending[i].job, b), Without(s.pending, i), live, b.at))
  {
    assert s.pending[i] in s.pending;
    assert BuiltJob(s.pending[i].job, b).conf == s.pending[i].job.conf;
  }

  lemma KeyedStep(env: Env, s: Sys, e: Event)
    requires Keyed(s) && Enabled(env, s, e)
    ensures Keyed(Apply(env, s, e))
  {
    match e
    case OfferEvent(offer, visits, until) =>
      SelectKeepsKeys(env, s.core, offer, visits);
      PassDistinct(visits, s.core.jobs, s.now, until);
      SelectPicks(env, s.core, offer, visits);
      KeyedOffer(env, s, visits, until, Select(env, s.core, offer, visits));
    case BuildEvent(i, b) =>
      KeyedBuild(s, i, b, Apply(env, s, e).live);
    case _ =>
  }

  lemma PassDistinct(visits: seq<Visit>, jobs: map<string, Job>, from: int, to: int)
    requires IsPass(visits, jobs, from, to)
    ensures DistinctIDs(visits)
    ensures forall v | v in visits :: v.id in jobs && from <= v.checkedAt <= v.runnableAt <= v.bookedAt <= to
  {
  }

  /**
   * A job selected before its conf changed is put back with the old conf; one evicted meanwhile is put back
   * all the same. The next sync repairs both: the old conf leaves no trace, nor does an evicted job.
   */
  lemma SyncRepairs(core: Core, job: Job, conf: JobConf, b: Build)
    requires job.conf.Acceptable() && conf.Acceptable() && conf.FQID() == job.FQID()
    ensures SyncJobs(BuildJob(core, job, b)) == SyncJobs(BuildJob(core, job.(conf := conf), b))
    ensures SyncJobs(BuildJob(core, job, b)).jobs.Keys == core.stored.Keys
    ensures forall k | k in core.stored :: SyncJobs(BuildJob(core, job, b)).jobs[k].conf == core.stored[k].conf
  {
    JobIDInjective(job.conf.jid, conf.jid);
    var one, other := BuildJob(core, job, b), BuildJob(core, job.(conf := conf), b);
    assert BuiltJob(job, b).rt == BuiltJob(job.(conf := conf), b).rt;
    assert one.stored == other.stored && one.stored.Keys == core.stored.Keys;
    forall k | k in one.stored ensures MergeJob(one.jobs, one.stored, k) == MergeJob(other.jobs, other.stored, k) {
    }
    assert Merge(one.jobs, one.stored) == Merge(other.jobs, other.stored);
  }

  // ---- Bookings ----

  /** Selected jobs differ, and each is booked since its selection unless that is too long ago. */
  ghost predicate Booked(s: Sys) {
    && (forall i, j | 0 <= i < j < |s.pending| :: s.pending[i].visit.id != s.pending[j].visit.id)
    && forall p | p in s.pending ::
        && p.visit.runnableAt <= p.visit.bookedAt <= s.now
        && ((p.visit.id in s.core.booked && s.core.booked[p.visit.id] == p.visit.bookedAt)
            || Sub(s.now, p.visit.bookedAt) > BOOKING_TTL)
  }

  /**
   * No job is looked at for an offer when its own task has been waiting to be built for longer than a
   * booking lasts. Handling offers one after the other, as the event loop does, leaves none waiting.
   */
  ghost predicate Timely(s: Sys, e: Event) {
    e.OfferEvent? ==>
      forall p, v | p in s.pending && v in e.visits && v.id == p.visit.id ::
        Sub(v.checkedAt, p.visit.bookedAt) <= BOOKING_TTL
  }

  /** What a timely offer picks: jobs other than those waiting to be built. */
  ghost predicate PicksAnew(env: Env, s: Sys, visits: seq<Visit>, until: int, sel: Selection) {
    && s.now <= until && !sel.halted
    && Picks(env, s.core, visits, sel)
    && (forall q | q in sel.picked ::
        s.now <= q.visit.checkedAt <= q.visit.runnableAt <= q.visit.bookedAt <= until && IsVisited(visits, q.visit.id))
    && forall p | p in s.pending :: p.visit.id !in PickedIDs(sel.picked)
  }

  lemma PickedAnew(env: Env, s: Sys, visits: seq<Visit>, sel: Selection, p: Picked, q: Picked)
    requires p in s.pending && Booked(s)
    requires q.visit in visits && q.visit.checkedAt >= s.now && PickedFrom(env, s.core, visits, q)
    requires forall v | v in visits && v.id == p.visit.id :: Sub(v.checkedAt, p.visit.bookedAt) <= BOOKING_TTL
    ensures p.visit.id != q.visit.id
  {
  }

  lemma OfferPicksAnew(env: Env, s: Sys, e: Event)
    requires e.OfferEvent? && Enabled(env, s, e) && Booked(s) && Timely(s, e)
    ensures PicksAnew(env, s, e.visits, e.until, Select(env, s.core, e.offer, e.visits))
  {
    PassDistinct(e.visits, s.core.jobs, s.now, e.until);
    SelectPicks(env, s.core, e.offer, e.visits);
    var sel := Select(env, s.core, e.offer, e.visits);
    forall q | q in sel.picked
      ensures s.now <= q.visit.checkedAt <= q.visit.runnableAt <= q.visit.bookedAt <= e.until
      ensures IsVisited(e.visits, q.visit.id)
    {
      assert PickedFrom(env, s.core, e.visits, q);
    }
    forall p, q | p in s.pending && q in sel.picked ensures p.visit.id != q.visit.id {
      assert PickedFrom(env, s.core, e.visits, q);
      PickedAnew(env, s, e.visits, sel, p, q);
    }
  }

  lemma BookedOffer(env: Env, s: Sys, visits: seq<Visit>, until: int, sel: Selection)
    requires Booked(s) && PicksAnew(env, s, visits, until, sel)
    ensures Booked(s.(core := Selected(s.core, sel), pending := s.pending + sel.picked, now := until))
  {
    var pending := s.pending + sel.picked;
    forall i, j | 0 <= i < j < |pending| ensures pending[i].visit.id != pending[j].visit.id {
      if i < |s.pending| && |s.pending| <= j {
        assert s.pending[i] in s.pending && sel.picked[j - |s.pending|] in sel.picked;
      }
    }
  }

  lemma WithoutAt(pending: seq<Picked>, i: nat, j: nat)
    requires i < |pending| && j < |pending| - 1
    ensures Without(pending, i)[j] == pending[if j < i then j else j + 1]
  {
  }

  lemma WithoutDiffers(pending: seq<Picked>, i: nat)
    requires i < |pending|
    requires forall j, k | 0 <= j < k < |pending| :: pending[j].visit.id != pending[k].visit.id
    ensures forall q | q in Without(pending, i) :: q in pending && q.visit.id != pending[i].visit.id
    ensures forall q | q in pending && q.visit.id != pending[i].visit.id :: q in Without(pending, i)
  {
    forall q | q in Without(pending, i) ensures q in pending && q.visit.id != pending[i].visit.id {
      var j :| 0 <= j < |pending| - 1 && Without(pending, i)[j] == q;
      WithoutAt(pending, i, j);
    }
    forall j | 0 <= j < |pending| && j != i ensures pending[j] in Without(pending, i) {
      WithoutAt(pending, i, if j < i then j else j - 1);
    }
  }

  lemma WithoutKeepsDistinct(pending: seq<Picked>, i: nat)
    requires i < |pending|
    requires forall j, k | 0 <= j < k < |pending| :: pending[j].visit.id != pending[k].visit.id
    ensures forall j, k | 0 <= j < k < |Without(pending, i)| ::
      Without(pending, i)[j].visit.id != Without(pending, i)[k].visit.id
  {
    forall j, k | 0 <= j < k < |Without(pending, i)|
      ensures Without(pending, i)[j].visit.id != Without(pending, i)[k].visit.id
    {
      WithoutAt(pending, i, j);
      WithoutAt(pending, i, k);
    }
  }

  lemma BookedBuild(s: Sys, i: nat, b: Build, live: map<string, string>)
    requires Keyed(s) && Booked(s) && i < |s.pending| && s.now <= b.at
    ensures Booked(Sys(BuildJob(s.core, s.pending[i].job, b), Without(s.pending, i), live, b.at))
  {
    hide BuiltJob, StoreRuntime, KeyedByFQID, JobConf.Acceptable;
    assert s.pending[i] in s.pending;
    WithoutDiffers(s.pending, i);
    WithoutKeepsDistinct(s.pending, i);
    hide Without;
  }

  lemma BookedStep(env: Env, s: Sys, e: Event)
    requires Enabled(env, s, e) && Keyed(s) && Booked(s) && Timely(s, e)
    ensures Booked(Apply(env, s, e))
  {
    match e
    case OfferEvent(offer, visits, until) =>
      OfferPicksAnew(env, s, e);
      BookedOffer(env, s, visits, until, Select(env, s.core, offer, visits));
    case BuildEvent(i, b) =>
      BookedBuild(s, i, b, Apply(env, s, e).live);
    case _ =>
  }

  /** Along a timely run, selected jobs always differ and stay booked. */
  lemma {:induction false} BookedRun(env: Env, run: seq<Sys>, es: seq<Event>)
    requires IsRun(env, run, es) && Keyed(run[0]) && Booked(run[0])
    requires forall i | 0 <= i < |es| :: Timely(run[i], es[i])
    ensures forall i | 0 <= i < |run| :: Keyed(run[i]) && Booked(run[i])
  {
    if |es| > 0 {
      var n := |es| - 1;
      RunPrefix(env, run, es);
      BookedRun(env, run[..|es|], es[..n]);
      assert run[..|es|][n] == run[n] && Keyed(run[n]) && Booked(run[n]);
      KeyedStep(env, run[n], es[n]);
      BookedStep(env, run[n], es[n]);
      assert forall i | 0 <= i < |run| - 1 :: run[..|es|][i] == run[i];
    }
  }

  // ---- Counting the events of a run ----

  function Count(counts: (Sys, Event) -> bool, run: seq<Sys>, es: seq<Event>): nat
    requires |run| == |es| + 1
  {
    if |es| == 0 then 0
    else
      var n := |es| - 1;
      Count(counts, run[..|es|], es[..n]) + if counts(run[n], es[n]) then 1 else 0
  }
}
