/** What selecting jobs for an offer guarantees, for every order in which the cached jobs are visited. */
module SelectionProofs {
  import opened JobModel
  import opened Resources
  import opened TtlSets
  import opened SchedulerSpec

  /** p was picked at one of the visits, for a reason that held in `core`. */
  ghost predicate PickedFrom(env: Env, core: Core, visits: seq<Visit>, p: Picked) {
    && p.visit in visits
    && p.visit.id in core.jobs
    && var job := core.jobs[p.visit.id];
    && p.job == CountAttempt(job)
    && p.retry == job.IsRetryable()
    && p.runnable == job.IsRunnable(env.next, p.visit.runnableAt)
    && (p.runnable || p.visit.id in core.queued)
    && !ExistsAt(core.booked, BOOKING_TTL, p.visit.id, p.visit.checkedAt)
  }

  /** Picked jobs carry their attempt in the cache and are booked. */
  ghost predicate Recorded(sel: Selection) {
    && (forall p | p in sel.picked ::
        && p.visit.id in sel.jobs && sel.jobs[p.visit.id] == p.job
        && p.visit.id in sel.booked && sel.booked[p.visit.id] == p.visit.bookedAt)
    && forall i, j | 0 <= i < j < |sel.picked| :: sel.picked[i].visit.id != sel.picked[j].visit.id
  }

  /** Nothing else has changed. */
  ghost predicate Untouched(core: Core, sel: Selection) {
    && sel.jobs.Keys == core.jobs.Keys
    && (forall k | k !in PickedIDs(sel.picked) ::
        && (k in sel.booked <==> k in core.booked)
        && (k in sel.booked ==> sel.booked[k] == core.booked[k]))
    && (!sel.halted ==> forall k | k in core.jobs && k !in PickedIDs(sel.picked) :: sel.jobs[k] == core.jobs[k])
  }

  ghost predicate Picks(env: Env, core: Core, visits: seq<Visit>, sel: Selection) {
    && (forall p | p in sel.picked :: PickedFrom(env, core, visits, p))
    && Recorded(sel)
    && Untouched(core, sel)
  }

  ghost function PickedIDs(picked: seq<Picked>): set<string> {
    set p | p in picked :: p.visit.id
  }

  ghost predicate DistinctIDs(visits: seq<Visit>) {
    forall i, j | 0 <= i < j < |visits| :: visits[i].id != visits[j].id
  }

  lemma PickedIDsAppend(picked: seq<Picked>, p: Picked)
    ensures PickedIDs(picked + [p]) == PickedIDs(picked) + {p.visit.id}
  {
    var more := picked + [p];
    assert more[|picked|] == p;
    forall id | id in PickedIDs(picked) ensures id in PickedIDs(more) {
      var q :| q in picked && q.visit.id == id;
      assert q in more;
    }
  }

  lemma VisitRecords(env: Env, queued: set<string>, sel: Selection, v: Visit)
    requires |env.roles| > 0 && v.id in sel.jobs && v.id !in PickedIDs(sel.picked)
    requires Recorded(sel)
    ensures Recorded(VisitJob(env, queued, sel, v))
  {
    var sel' := VisitJob(env, queued, sel, v);
    assert forall p | p in sel.picked :: p.visit.id in PickedIDs(sel.picked);
    if sel'.picked != sel.picked {
      var p := sel'.picked[|sel.picked|];
      assert sel'.picked == sel.picked + [p];
      assert forall i | 0 <= i < |sel.picked| :: sel.picked[i] in sel.picked;
    }
  }

  lemma VisitTouchesPickedOnly(env: Env, core: Core, sel: Selection, v: Visit)
    requires |env.roles| > 0 && v.id in core.jobs
    requires Untouched(core, sel)
    ensures Untouched(core, VisitJob(env, core.queued, sel, v))
  {
    var sel' := VisitJob(env, core.queued, sel, v);
    if sel'.picked != sel.picked {
      var p := sel'.picked[|sel.picked|];
      assert sel'.picked == sel.picked + [p];
      PickedIDsAppend(sel.picked, p);
    }
  }

  lemma VisitPicks(env: Env, core: Core, visits: seq<Visit>, sel: Selection, v: Visit)
    requires |env.roles| > 0 && v.id in core.jobs && v.id !in PickedIDs(sel.picked)
    requires Picks(env, core, visits, sel)
    ensures Picks(env, core, visits + [v], VisitJob(env, core.queued, sel, v))
  {
    VisitRecords(env, core.queued, sel, v);
    VisitTouchesPickedOnly(env, core, sel, v);
    var sel' := VisitJob(env, core.queued, sel, v);
    assert (visits + [v])[|visits|] == v;
    forall p | p in sel'.picked ensures PickedFrom(env, core, visits + [v], p) {
      if p in sel.picked {
        assert PickedFrom(env, core, visits, p);
      } else {
        assert sel.jobs[v.id] == core.jobs[v.id];
      }
    }
  }

  lemma {:induction false} SelectPicks(env: Env, core: Core, offer: Resources, visits: seq<Visit>)
    requires |env.roles| > 0 && forall v | v in visits :: v.id in core.jobs
    requires DistinctIDs(visits)
    ensures Picks(env, core, visits, Select(env, core, offer, visits))
  {
    if |visits| > 0 {
      var before, v := visits[..|visits| - 1], visits[|visits| - 1];
      SelectPicks(env, core, offer, before);
      var sel := Select(env, core, offer, before);
      LastIsNew(visits);
      VisitPicks(env, core, before, sel, v);
      assert visits == before + [v];
    }
  }

  // ---- Conservation ----

  /** What the picked bundles take from one role. */
  function Taken(picked: seq<Picked>, name: string, role: string): real {
    if |picked| == 0 then 0.0
    else Taken(picked[..|picked| - 1], name, role) + Amount(picked[|picked| - 1].bundle, name, role)
  }

  /** The bundle is the job's CPUs, memory and disk, once roles are ignored. */
  ghost predicate Serves(bundle: Resources, conf: JobConf) {
    && Canonical(bundle)
    && Total(bundle, "cpus") == conf.cpus
    && Total(bundle, "mem") == conf.mem
    && Total(bundle, "disk") == conf.disk
    && forall name | name != "cpus" && name != "mem" && name != "disk" :: Total(bundle, name) == 0.0
  }

  ghost predicate Conserves(offer: Resources, sel: Selection) {
    && Canonical(sel.left)
    && (forall name, role :: Taken(sel.picked, name, role) + Amount(sel.left, name, role) == Amount(offer, name, role))
    && forall p | p in sel.picked :: Serves(p.bundle, p.job.conf)
  }

  /** How much of a resource the job needs. */
  function Need(conf: JobConf, name: string): real {
    if name == "cpus" then conf.cpus else if name == "mem" then conf.mem else if name == "disk" then conf.disk else 0.0
  }

  lemma JobResourcesTotals(conf: JobConf, name: string)
    requires conf.Acceptable()
    ensures Total(JobResources(conf), name) == Need(conf, name)
  {
    var all := [Resource("cpus", "*", conf.cpus), Resource("mem", "*", conf.mem), Resource("disk", "*", conf.disk)];
    KeepTotal(all, name);
    var tail := [Resource("mem", "*", conf.mem), Resource("disk", "*", conf.disk)];
    assert all[1..] == tail && tail[1..] == [Resource("disk", "*", conf.disk)];
    assert Total(tail[1..], name) == if name == "disk" then conf.disk else 0.0;
    assert Total(tail, name) == (if name == "mem" then conf.mem else 0.0) + Total(tail[1..], name);
  }

  /** A found bundle comes out of the leftover and serves the job. */
  lemma FoundBundle(env: Env, left: Resources, conf: JobConf)
    requires |env.roles| > 0 && FindsWithin(env.find) && Canonical(left) && conf.Acceptable()
    requires FindTaskResources(env, JobResources(conf), left) != []
    ensures var bundle := FindTaskResources(env, JobResources(conf), left);
      && Within(bundle, left) && Serves(bundle, conf)
  {
    forall name
      ensures Total(FindTaskResources(env, JobResources(conf), left), name) == Total(JobResources(conf), name)
    {
    }
    forall name { JobResourcesTotals(conf, name); }
  }

  lemma VisitConserves(env: Env, queued: set<string>, offer: Resources, sel: Selection, v: Visit)
    requires |env.roles| > 0 && v.id in sel.jobs && sel.jobs[v.id].conf.Acceptable()
    requires FindsWithin(env.find) && Conserves(offer, sel)
    ensures Conserves(offer, VisitJob(env, queued, sel, v))
  {
    hide Serves, FindTaskResources, Canonical, ContainsAll, FindsWithin;
    var sel' := VisitJob(env, queued, sel, v);
    if sel'.picked != sel.picked {
      var p := sel'.picked[|sel.picked|];
      assert sel'.picked == sel.picked + [p] && sel'.picked[..|sel.picked|] == sel.picked;
      FoundBundle(env, sel.left, sel.jobs[v.id].conf);
      SubtractExact(sel.left, p.bundle);
      forall name, role
        ensures Taken(sel'.picked, name, role) + Amount(sel'.left, name, role) == Amount(offer, name, role)
      {
        assert Taken(sel'.picked, name, role) == Taken(sel.picked, name, role) + Amount(p.bundle, name, role);
        assert Taken(sel.picked, name, role) + Amount(sel.left, name, role) == Amount(offer, name, role);
      }
    }
  }

  /**
   * Resource conservation: for every order of the visits, the picked bundles and the leftover add up
   * to the offer, per resource and role, and each bundle is what its job needs.
   */
  lemma {:induction false} SelectConserves(env: Env, core: Core, offer: Resources, visits: seq<Visit>)
    requires |env.roles| > 0 && forall v | v in visits :: v.id in core.jobs
    requires FindsWithin(env.find) && Canonical(offer) && KeyedByFQID(core.jobs)
    ensures Conserves(offer, Select(env, core, offer, visits))
  {
    if |visits| > 0 {
      var before, v := visits[..|visits| - 1], visits[|visits| - 1];
      SelectConserves(env, core, offer, before);
      SelectKeepsKeys(env, core, offer, before);
      VisitConserves(env, core.queued, offer, Select(env, core, offer, before), v);
    }
  }

  /** No role gives more than it holds in the offer, to one task or to all of them. */
  lemma {:induction false} NoOversubscription(offer: Resources, sel: Selection, name: string, role: string)
    requires Conserves(offer, sel)
    ensures 0.0 <= Taken(sel.picked, name, role) <= Amount(offer, name, role)
    ensures forall p | p in sel.picked :: 0.0 <= Amount(p.bundle, name, role) <= Taken(sel.picked, name, role)
  {
    AmountNonNegative(sel.left, name, role);
    TakenBounds(sel.picked, name, role);
  }

  lemma {:induction false} TakenBounds(picked: seq<Picked>, name: string, role: string)
    requires forall p | p in picked :: Canonical(p.bundle)
    ensures 0.0 <= Taken(picked, name, role)
    ensures forall p | p in picked :: 0.0 <= Amount(p.bundle, name, role) <= Taken(picked, name, role)
  {
    if |picked| > 0 {
      var before, last := picked[..|picked| - 1], picked[|picked| - 1];
      assert picked == before + [last] && last in picked;
      TakenBounds(before, name, role);
      AmountNonNegative(last.bundle, name, role);
      assert forall p | p in picked :: p in before || p == last;
    }
  }

  // ---- Greedy maximality ----

  predicate Fits(left: Resources, conf: JobConf) {
    ContainsAll(ToUnreserved(left), JobResources(conf))
  }

  lemma FitsByTotals(left: Resources, conf: JobConf)
    ensures Fits(left, conf) <==> forall r | r in JobResources(conf) :: Total(left, r.name) >= r.amount
  {
    forall r | r in JobResources(conf)
      ensures r.role == "*" && Amount(ToUnreserved(left), r.name, r.role) == Total(left, r.name)
    {
      UnreservedAmount(left, r.name);
    }
  }

  /** What does not fit in a leftover does not fit in what later picks leave of it. */
  lemma FitsShrinks(left: Resources, bundle: Resources, conf: JobConf)
    requires Canonical(left) && Canonical(bundle) && Within(bundle, left)
    requires Fits(Subtract(left, bundle), conf)
    ensures Fits(left, conf)
  {
    SubtractExact(left, bundle);
    FitsByTotals(left, conf);
    FitsByTotals(Subtract(left, bundle), conf);
    forall r | r in JobResources(conf) ensures Total(left, r.name) >= r.amount {
      TotalNonNegative(bundle, r.name);
      assert Total(Subtract(left, bundle), r.name) + Total(bundle, r.name) == Total(left, r.name);
    }
  }

  /** The job is unbooked, and due or queued, when visited: only its size can keep it from being picked. */
  ghost predicate Candidate(env: Env, core: Core, v: Visit)
    requires v.id in core.jobs
  {
    && !ExistsAt(core.booked, BOOKING_TTL, v.id, v.checkedAt)
    && (core.jobs[v.id].IsRunnable(env.next, v.runnableAt) || v.id in core.queued)
  }

  ghost predicate PassedOver(env: Env, core: Core, sel: Selection, v: Visit)
    requires v.id in core.jobs
  {
    v.id !in PickedIDs(sel.picked) && Candidate(env, core, v)
  }

  ghost predicate Maximal(env: Env, core: Core, visits: seq<Visit>, sel: Selection)
    requires forall v | v in visits :: v.id in core.jobs
  {
    forall v | v in visits && PassedOver(env, core, sel, v) :: !Fits(sel.left, core.jobs[v.id].conf)
  }

  lemma VisitMaximal(env: Env, core: Core, offer: Resources, visits: seq<Visit>, sel: Selection, v: Visit)
    requires |env.roles| > 0 && v.id in core.jobs && forall u | u in visits :: u.id in core.jobs && u.id != v.id
    requires FindsWithin(env.find) && KeyedByFQID(core.jobs)
    requires Conserves(offer, sel) && Picks(env, core, visits, sel) && Maximal(env, core, visits, sel)
    requires v.id !in PickedIDs(sel.picked) && !VisitJob(env, core.queued, sel, v).halted
    ensures Maximal(env, core, visits + [v], VisitJob(env, core.queued, sel, v))
  {
    var sel' := VisitJob(env, core.queued, sel, v);
    assert sel.jobs[v.id] == core.jobs[v.id];
    if sel'.picked != sel.picked {
      PickedIDsAppend(sel.picked, sel'.picked[|sel.picked|]);
      assert sel'.picked == sel.picked + [sel'.picked[|sel.picked|]];
      FoundBundle(env, sel.left, sel.jobs[v.id].conf);
      forall u | u in visits && PassedOver(env, core, sel', u) ensures !Fits(sel'.left, core.jobs[u.id].conf) {
        if Fits(sel'.left, core.jobs[u.id].conf) {
          FitsShrinks(sel.left, sel'.picked[|sel.picked|].bundle, core.jobs[u.id].conf);
        }
      }
    }
  }

  /** Greedy maximality: no job that was passed over fits in the final leftover. */
  lemma {:induction false} SelectMaximal(env: Env, core: Core, offer: Resources, visits: seq<Visit>)
    requires |env.roles| > 0 && forall v | v in visits :: v.id in core.jobs
    requires DistinctIDs(visits)
    requires FindsWithin(env.find) && Canonical(offer) && KeyedByFQID(core.jobs)
    requires !Select(env, core, offer, visits).halted
    ensures Maximal(env, core, visits, Select(env, core, offer, visits))
  {
    hide Conserves, Canonical, FindsWithin, PassedOver, Fits;
    if |visits| > 0 {
      var before, last := visits[..|visits| - 1], visits[|visits| - 1];
      SelectMaximal(env, core, offer, before);
      SelectPicks(env, core, offer, before);
      SelectConserves(env, core, offer, before);
      LastIsNew(visits);
      VisitMaximal(env, core, offer, before, Select(env, core, offer, before), last);
      assert visits == before + [last];
    }
  }

  lemma LastIsNew(visits: seq<Visit>)
    requires |visits| > 0 && DistinctIDs(visits)
    ensures forall v | v in visits[..|visits| - 1] :: v.id != visits[|visits| - 1].id
  {
    forall v | v in visits[..|visits| - 1] ensures v.id != visits[|visits| - 1].id {
      var i :| 0 <= i < |visits| - 1 && visits[i] == v;
    }
  }

  // ---- When a large offer leaves nobody out ----

  /** Find succeeds whenever the job fits, as the program counts on: if it does not, the program exits. */
  ghost predicate FindsFitting(env: Env)
    requires |env.roles| > 0
  {
    forall conf: JobConf, pool {:trigger FindTaskResources(env, JobResources(conf), pool)} ::
      conf.Acceptable() && Canonical(pool) && Fits(pool, conf) ==>
        FindTaskResources(env, JobResources(conf), pool) != []
  }

  /** Then no selection runs into the fatal exit. */
  lemma {:induction false} SelectNeverHalts(env: Env, core: Core, offer: Resources, visits: seq<Visit>)
    requires |env.roles| > 0 && forall v | v in visits :: v.id in core.jobs
    requires FindsWithin(env.find) && FindsFitting(env) && Canonical(offer) && KeyedByFQID(core.jobs)
    ensures !Select(env, core, offer, visits).halted
  {
    if |visits| > 0 {
      var before, v := visits[..|visits| - 1], visits[|visits| - 1];
      SelectNeverHalts(env, core, offer, before);
      SelectConserves(env, core, offer, before);
      SelectKeepsKeys(env, core, offer, before);
      VisitNeverHalts(env, core.queued, Select(env, core, offer, before), v);
    }
  }

  lemma VisitNeverHalts(env: Env, queued: set<string>, sel: Selection, v: Visit)
    requires |env.roles| > 0 && v.id in sel.jobs && sel.jobs[v.id].conf.Acceptable()
    requires FindsFitting(env) && Canonical(sel.left) && !sel.halted
    ensures !VisitJob(env, queued, sel, v).halted
  {
    hide Canonical, FindTaskResources, JobResources, Eligible, Subtract;
    var conf := sel.jobs[v.id].conf;
    assert ContainsAll(ToUnreserved(sel.left), JobResources(conf)) ==> Fits(sel.left, conf);
  }

  /** What the visited jobs need in all. */
  function Needs(jobs: map<string, Job>, visits: seq<Visit>, name: string): real
    requires forall v | v in visits :: v.id in jobs
  {
    if |visits| == 0 then 0.0
    else
      var last := |visits| - 1;
      Needs(jobs, visits[..last], name) + Total(JobResources(jobs[visits[last].id].conf), name)
  }

  lemma VisitLeaves(env: Env, queued: set<string>, sel: Selection, v: Visit, name: string)
    requires |env.roles| > 0 && v.id in sel.jobs && sel.jobs[v.id].conf.Acceptable()
    requires FindsWithin(env.find) && Canonical(sel.left)
    ensures Total(VisitJob(env, queued, sel, v).left, name)
         >= Total(sel.left, name) - Total(JobResources(sel.jobs[v.id].conf), name)
  {
    var conf := sel.jobs[v.id].conf;
    TotalNonNegative(JobResources(conf), name);
    var bundle := FindTaskResources(env, JobResources(conf), sel.left);
    if bundle != [] {
      FoundBundle(env, sel.left, conf);
      SubtractExact(sel.left, bundle);
      FoundTotal(env, sel.left, conf, name);
    }
  }

  lemma FoundTotal(env: Env, left: Resources, conf: JobConf, name: string)
    requires |env.roles| > 0 && FindsWithin(env.find) && Canonical(left)
    requires FindTaskResources(env, JobResources(conf), left) != []
    ensures Total(FindTaskResources(env, JobResources(conf), left), name) == Total(JobResources(conf), name)
  {
  }

  lemma {:induction false} SelectLeaves(env: Env, core: Core, offer: Resources, visits: seq<Visit>, name: string)
    requires |env.roles| > 0 && forall v | v in visits :: v.id in core.jobs
    requires FindsWithin(env.find) && Canonical(offer) && KeyedByFQID(core.jobs)
    ensures Total(Select(env, core, offer, visits).left, name) >= Total(offer, name) - Needs(core.jobs, visits, name)
    ensures forall k | k in core.jobs :: Select(env, core, offer, visits).jobs[k].conf == core.jobs[k].conf
  {
    if |visits| > 0 {
      var before, v := visits[..|visits| - 1], visits[|visits| - 1];
      SelectLeaves(env, core, offer, before, name);
      SelectConserves(env, core, offer, before);
      var sel := Select(env, core, offer, before);
      VisitLeaves(env, core.queued, sel, v, name);
      VisitKeepsConfs(env, core.queued, sel, v);
    }
  }

  lemma VisitKeepsConfs(env: Env, queued: set<string>, sel: Selection, v: Visit)
    requires |env.roles| > 0 && v.id in sel.jobs
    ensures forall k | k in sel.jobs :: VisitJob(env, queued, sel, v).jobs[k].conf == sel.jobs[k].conf
  {
  }

  /** An offer that holds what all visited jobs need, and the given job once more. */
  function LargeOffer(jobs: map<string, Job>, visits: seq<Visit>, conf: JobConf): Resources
    requires forall v | v in visits :: v.id in jobs
  {
    [Resource("cpus", "*", Needs(jobs, visits, "cpus") + conf.cpus + 1.0),
     Resource("mem", "*", Needs(jobs, visits, "mem") + conf.mem + 1.0),
     Resource("disk", "*", Needs(jobs, visits, "disk") + conf.disk + 1.0)]
  }

  lemma {:induction false} NeedsNonNegative(jobs: map<string, Job>, visits: seq<Visit>, name: string)
    requires forall v | v in visits :: v.id in jobs
    ensures Needs(jobs, visits, name) >= 0.0
  {
    if |visits| > 0 {
      var last := |visits| - 1;
      NeedsNonNegative(jobs, visits[..last], name);
      TotalNonNegative(JobResources(jobs[visits[last].id].conf), name);
    }
  }

  lemma LargeOfferTotals(jobs: map<string, Job>, visits: seq<Visit>, conf: JobConf)
    requires (forall v | v in visits :: v.id in jobs) && conf.Acceptable()
    ensures Canonical(LargeOffer(jobs, visits, conf))
    ensures Total(LargeOffer(jobs, visits, conf), "cpus") >= Needs(jobs, visits, "cpus") + conf.cpus
    ensures Total(LargeOffer(jobs, visits, conf), "mem") >= Needs(jobs, visits, "mem") + conf.mem
    ensures Total(LargeOffer(jobs, visits, conf), "disk") >= Needs(jobs, visits, "disk") + conf.disk
  {
    hide Needs;
    NeedsNonNegative(jobs, visits, "cpus");
    NeedsNonNegative(jobs, visits, "mem");
    NeedsNonNegative(jobs, visits, "disk");
    var rs := LargeOffer(jobs, visits, conf);
    ThreeTotals(rs[0], rs[1], rs[2], "cpus");
    ThreeTotals(rs[0], rs[1], rs[2], "mem");
    ThreeTotals(rs[0], rs[1], rs[2], "disk");
  }

  lemma ThreeTotals(a: Resource, b: Resource, c: Resource, name: string)
    ensures Total([a, b, c], name)
         == (if a.name == name then a.amount else 0.0) + (if b.name == name then b.amount else 0.0)
            + (if c.name == name then c.amount else 0.0)
  {
    var rs := [a, b, c];
    assert rs[1..] == [b, c] && [b, c][1..] == [c] && [c][1..] == [];
    assert Total([c], name) == if c.name == name then c.amount else 0.0;
    assert Total([b, c], name) == (if b.name == name then b.amount else 0.0) + Total([c], name);
  }

  lemma LargeOfferLeavesRoom(env: Env, core: Core, visits: seq<Visit>, conf: JobConf)
    requires |env.roles| > 0 && (forall u | u in visits :: u.id in core.jobs)
    requires FindsWithin(env.find) && KeyedByFQID(core.jobs) && conf.Acceptable()
    ensures Fits(Select(env, core, LargeOffer(core.jobs, visits, conf), visits).left, conf)
  {
    var offer := LargeOffer(core.jobs, visits, conf);
    LargeOfferTotals(core.jobs, visits, conf);
    SelectLeaves(env, core, offer, visits, "cpus");
    SelectLeaves(env, core, offer, visits, "mem");
    SelectLeaves(env, core, offer, visits, "disk");
    hide Select, Needs, LargeOffer, Canonical, FindsWithin, Total;
    FitsByTotals(Select(env, core, offer, visits).left, conf);
  }

  /** Out of that offer, every candidate visited is picked. */
  lemma CandidateIsPicked(env: Env, core: Core, visits: seq<Visit>, v: Visit)
    requires |env.roles| > 0 && (forall u | u in visits :: u.id in core.jobs) && DistinctIDs(visits)
    requires FindsWithin(env.find) && FindsFitting(env) && KeyedByFQID(core.jobs)
    requires v in visits && Candidate(env, core, v)
    ensures var offer := LargeOffer(core.jobs, visits, core.jobs[v.id].conf);
      && !Select(env, core, offer, visits).halted
      && v.id in PickedIDs(Select(env, core, offer, visits).picked)
  {
    var conf := core.jobs[v.id].conf;
    var offer := LargeOffer(core.jobs, visits, conf);
    hide Select, LargeOffer, Needs, Canonical, FindsWithin, FindsFitting, Total, Fits;
    hide Candidate, ExistsAt, Job.IsRunnable;
    LargeOfferTotals(core.jobs, visits, conf);
    SelectNeverHalts(env, core, offer, visits);
    SelectMaximal(env, core, offer, visits);
    LargeOfferLeavesRoom(env, core, visits, conf);
    assert !PassedOver(env, core, Select(env, core, offer, visits), v);
  }
}
