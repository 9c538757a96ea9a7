/** For which role a job's resources are asked, and what that makes of a selection. */
module RoleProofs {
  import opened JobModel
  import opened Resources
  import opened SchedulerSpec
  import opened SelectionProofs
  import opened Finders

  /** The job's CPUs, memory and disk, as far as it needs any, for one role. */
  function WantsFor(conf: JobConf, role: string): Resources {
    var cpusAndMem := [Resource("cpus", role, conf.cpus), Resource("mem", role, conf.mem)];
    if conf.disk > 0.0 then cpusAndMem + [Resource("disk", role, conf.disk)] else cpusAndMem
  }

  /** Find is asked for the job's resources, all of the first role the scheduler accepts. */
  lemma AskedForRole(env: Env, conf: JobConf, pool: Resources)
    requires |env.roles| > 0 && conf.Acceptable()
    ensures FindTaskResources(env, JobResources(conf), pool) == env.find(WantsFor(conf, env.roles[0]), pool)
  {
    JobWants(conf);
    PushedWants(conf, env.roles[0]);
  }

  lemma JobWants(conf: JobConf)
    requires conf.Acceptable()
    ensures JobResources(conf) == WantsFor(conf, "*")
  {
    var cpus, mem, disk :=
      Resource("cpus", "*", conf.cpus), Resource("mem", "*", conf.mem), Resource("disk", "*", conf.disk);
    assert [cpus, mem, disk][1..] == [mem, disk] && [mem, disk][1..] == [disk];
    assert Keep([disk]) == if conf.disk > 0.0 then [disk] else [];
    assert Keep([mem, disk]) == [mem] + Keep([disk]);
  }

  lemma PushedWants(conf: JobConf, role: string)
    ensures PushReservation(WantsFor(conf, "*"), role) == WantsFor(conf, role)
  {
    var wants := WantsFor(conf, "*");
    assert wants[1..][0] == wants[1];
    if conf.disk > 0.0 {
      assert wants[1..][1..] == [wants[2]];
      assert PushReservation(wants[1..][1..], role) == [wants[2].(role := role)];
    } else {
      assert wants[1..][1..] == [];
    }
    assert PushReservation(wants[1..], role) == [wants[1].(role := role)] + PushReservation(wants[1..][1..], role);
  }

  lemma WantedAmounts(conf: JobConf, role: string, name: string, r: string)
    requires conf.Acceptable()
    ensures Amount(WantsFor(conf, role), name, r) == if r == role then Need(conf, name) else 0.0
  {
    var wants := WantsFor(conf, role);
    if conf.disk > 0.0 {
      assert wants[1..][1..] == [wants[2]];
      assert Amount([wants[2]], name, r) == if name == "disk" && r == role then conf.disk else 0.0;
    } else {
      assert wants[1..][1..] == [];
    }
    assert Amount(wants[1..], name, r)
        == (if name == "mem" && r == role then conf.mem else 0.0) + Amount(wants[1..][1..], name, r);
  }

  /** The role holds what the job needs. */
  predicate InRole(pool: Resources, conf: JobConf, role: string) {
    && Amount(pool, "cpus", role) >= conf.cpus
    && Amount(pool, "mem", role) >= conf.mem
    && Amount(pool, "disk", role) >= conf.disk
  }

  /** The bundle is what the job needs, out of that role alone. */
  ghost predicate OfRole(bundle: Resources, conf: JobConf, role: string) {
    forall name, r :: Amount(bundle, name, r) == if r == role then Need(conf, name) else 0.0
  }

  // ---- What Find may be asked about roles ----

  /** What is there under the roles it is wanted for is taken from these roles. */
  ghost predicate PrefersRole(find: Finder) {
    forall wants, pool {:trigger find(wants, pool)} |
      Canonical(pool) && Canonical(wants) && wants != [] && ContainsAll(pool, wants) ::
      && find(wants, pool) != []
      && forall name, r :: Amount(find(wants, pool), name, r) == Amount(wants, name, r)
  }

  /** Nothing is ever taken from another role. */
  ghost predicate KeepsToRole(find: Finder) {
    forall wants, pool {:trigger find(wants, pool)} | Canonical(pool) && find(wants, pool) != [] ::
      forall name, r :: Amount(find(wants, pool), name, r) == Amount(wants, name, r)
  }

  lemma InRoleIff(pool: Resources, conf: JobConf, role: string)
    requires Canonical(pool) && conf.Acceptable()
    ensures Canonical(WantsFor(conf, role))
    ensures ContainsAll(pool, WantsFor(conf, role)) <==> InRole(pool, conf, role)
  {
    var wants := WantsFor(conf, role);
    AmountNonNegative(pool, "disk", role);
    assert wants[0] in wants && wants[1] in wants;
    assert conf.disk > 0.0 ==> wants[2] in wants;
  }

  /** What is found when the role has enough is of that role. */
  lemma FoundInRole(env: Env, conf: JobConf, pool: Resources)
    requires |env.roles| > 0 && conf.Acceptable() && Canonical(pool) && PrefersRole(env.find)
    requires InRole(pool, conf, env.roles[0])
    ensures FindTaskResources(env, JobResources(conf), pool) != []
    ensures OfRole(FindTaskResources(env, JobResources(conf), pool), conf, env.roles[0])
  {
    AskedForRole(env, conf, pool);
    InRoleIff(pool, conf, env.roles[0]);
    forall name, r {
      WantedAmounts(conf, env.roles[0], name, r);
    }
  }

  /** A Find that keeps to roles finds a bundle of the role, and only when the role has enough. */
  lemma FoundKeepsToRole(env: Env, conf: JobConf, pool: Resources)
    requires |env.roles| > 0 && conf.Acceptable() && Canonical(pool) && FindsWithin(env.find) && KeepsToRole(env.find)
    requires FindTaskResources(env, JobResources(conf), pool) != []
    ensures OfRole(FindTaskResources(env, JobResources(conf), pool), conf, env.roles[0])
    ensures InRole(pool, conf, env.roles[0])
  {
    var found := FindTaskResources(env, JobResources(conf), pool);
    AskedForRole(env, conf, pool);
    forall name, r ensures Amount(found, name, r) == if r == env.roles[0] then Need(conf, name) else 0.0 {
      WantedAmounts(conf, env.roles[0], name, r);
    }
    assert Within(found, pool);
    assert Amount(found, "cpus", env.roles[0]) <= Amount(pool, "cpus", env.roles[0]);
    assert Amount(found, "mem", env.roles[0]) <= Amount(pool, "mem", env.roles[0]);
    assert Amount(found, "disk", env.roles[0]) <= Amount(pool, "disk", env.roles[0]);
  }

  // ---- Selections ----

  ghost predicate AllOfRole(picked: seq<Picked>, role: string) {
    forall p | p in picked :: OfRole(p.bundle, p.job.conf, role)
  }

  /**
   * With a Find that keeps to roles and takes what is there, the program exits exactly when a job is to be picked
   * that fits in all roles together but not in its own.
   */
  lemma VisitHaltsIff(env: Env, queued: set<string>, sel: Selection, v: Visit)
    requires |env.roles| > 0 && v.id in sel.jobs && sel.jobs[v.id].conf.Acceptable()
    requires FindsWithin(env.find) && KeepsToRole(env.find) && PrefersRole(env.find)
    requires Canonical(sel.left) && !sel.halted
    ensures VisitJob(env, queued, sel, v).halted <==>
      && Eligible(env, queued, sel, v)
      && Fits(sel.left, sel.jobs[v.id].conf)
      && !InRole(sel.left, sel.jobs[v.id].conf, env.roles[0])
  {
    var conf := sel.jobs[v.id].conf;
    hide InRole, OfRole, FindTaskResources, JobResources, ContainsAll, ToUnreserved, Eligible, Canonical;
    hide FindsWithin, KeepsToRole, PrefersRole, Subtract, CountAttempt;
    if FindTaskResources(env, JobResources(conf), sel.left) != [] {
      FoundKeepsToRole(env, conf, sel.left);
    } else if InRole(sel.left, conf, env.roles[0]) {
      FoundInRole(env, conf, sel.left);
    }
  }

  lemma VisitKeepsToRole(env: Env, queued: set<string>, sel: Selection, v: Visit)
    requires |env.roles| > 0 && v.id in sel.jobs && sel.jobs[v.id].conf.Acceptable() && Canonical(sel.left)
    requires FindsWithin(env.find) && KeepsToRole(env.find) && AllOfRole(sel.picked, env.roles[0])
    ensures AllOfRole(VisitJob(env, queued, sel, v).picked, env.roles[0])
  {
    hide OfRole, FindTaskResources, JobResources, ContainsAll, ToUnreserved, Eligible, Canonical;
    hide FindsWithin, KeepsToRole, Subtract;
    if FindTaskResources(env, JobResources(sel.jobs[v.id].conf), sel.left) != [] {
      FoundKeepsToRole(env, sel.jobs[v.id].conf, sel.left);
    }
  }

  /** With a Find that keeps to roles, every job gets what it needs out of the scheduler's role. */
  lemma {:induction false} SelectKeepsToRole(env: Env, core: Core, offer: Resources, visits: seq<Visit>)
    requires |env.roles| > 0 && forall v | v in visits :: v.id in core.jobs
    requires FindsWithin(env.find) && KeepsToRole(env.find) && Canonical(offer) && KeyedByFQID(core.jobs)
    ensures AllOfRole(Select(env, core, offer, visits).picked, env.roles[0])
  {
    if |visits| > 0 {
      var before, v := visits[..|visits| - 1], visits[|visits| - 1];
      SelectKeepsToRole(env, core, offer, before);
      SelectConserves(env, core, offer, before);
      SelectKeepsKeys(env, core, offer, before);
      VisitKeepsToRole(env, core.queued, Select(env, core, offer, before), v);
    }
  }

  /** The role holds what all visited jobs need. */
  predicate HasEnough(offer: Resources, role: string, jobs: map<string, Job>, visits: seq<Visit>)
    requires forall v | v in visits :: v.id in jobs
  {
    && Amount(offer, "cpus", role) >= Needs(jobs, visits, "cpus")
    && Amount(offer, "mem", role) >= Needs(jobs, visits, "mem")
    && Amount(offer, "disk", role) >= Needs(jobs, visits, "disk")
  }

  /** Out of what is left in the role, the job takes what it needs at most, and all of it from there. */
  lemma VisitStaysInRole(env: Env, queued: set<string>, sel: Selection, v: Visit, name: string)
    requires |env.roles| > 0 && v.id in sel.jobs && sel.jobs[v.id].conf.Acceptable()
    requires FindsWithin(env.find) && PrefersRole(env.find) && Canonical(sel.left) && !sel.halted
    requires AllOfRole(sel.picked, env.roles[0]) && InRole(sel.left, sel.jobs[v.id].conf, env.roles[0])
    ensures var sel' := VisitJob(env, queued, sel, v);
      && !sel'.halted && AllOfRole(sel'.picked, env.roles[0])
      && Amount(sel'.left, name, env.roles[0])
         >= Amount(sel.left, name, env.roles[0]) - Need(sel.jobs[v.id].conf, name)
  {
    var conf := sel.jobs[v.id].conf;
    var bundle := FindTaskResources(env, JobResources(conf), sel.left);
    FoundInRole(env, conf, sel.left);
    FoundBundle(env, sel.left, conf);
    SubtractExact(sel.left, bundle);
    hide InRole, FindTaskResources, JobResources, ContainsAll, ToUnreserved, Eligible, Canonical, Within, Serves;
    hide FindsWithin, PrefersRole, Subtract;
    assert Amount(bundle, name, env.roles[0]) == Need(conf, name);
    assert Amount(Subtract(sel.left, bundle), name, env.roles[0]) + Amount(bundle, name, env.roles[0])
        == Amount(sel.left, name, env.roles[0]);
  }

  /** The role has left what the visited jobs do not need, at least. */
  predicate Leaves(left: Resources, offer: Resources, role: string, jobs: map<string, Job>, visits: seq<Visit>)
    requires forall v | v in visits :: v.id in jobs
  {
    && Amount(left, "cpus", role) >= Amount(offer, "cpus", role) - Needs(jobs, visits, "cpus")
    && Amount(left, "mem", role) >= Amount(offer, "mem", role) - Needs(jobs, visits, "mem")
    && Amount(left, "disk", role) >= Amount(offer, "disk", role) - Needs(jobs, visits, "disk")
  }

  /** What holds for all visits holds before the last one, and then the last job fits in the role. */
  lemma EnoughBefore(offer: Resources, role: string, jobs: map<string, Job>, visits: seq<Visit>, left: Resources)
    requires |visits| > 0 && (forall v | v in visits :: v.id in jobs) && HasEnough(offer, role, jobs, visits)
    requires jobs[visits[|visits| - 1].id].conf.Acceptable()
    ensures HasEnough(offer, role, jobs, visits[..|visits| - 1])
    ensures Leaves(left, offer, role, jobs, visits[..|visits| - 1]) ==>
      InRole(left, jobs[visits[|visits| - 1].id].conf, role)
  {
    var conf := jobs[visits[|visits| - 1].id].conf;
    JobResourcesTotals(conf, "cpus");
    JobResourcesTotals(conf, "mem");
    JobResourcesTotals(conf, "disk");
    hide JobResources;
  }

  lemma LeavesAfter(left: Resources, offer: Resources, role: string, jobs: map<string, Job>, visits: seq<Visit>,
                    left': Resources)
    requires |visits| > 0 && (forall v | v in visits :: v.id in jobs)
    requires jobs[visits[|visits| - 1].id].conf.Acceptable() && Leaves(left, offer, role, jobs, visits[..|visits| - 1])
    requires forall name | name in {"cpus", "mem", "disk"} ::
      Amount(left', name, role) >= Amount(left, name, role) - Need(jobs[visits[|visits| - 1].id].conf, name)
    ensures Leaves(left', offer, role, jobs, visits)
  {
    var conf := jobs[visits[|visits| - 1].id].conf;
    JobResourcesTotals(conf, "cpus");
    JobResourcesTotals(conf, "mem");
    JobResourcesTotals(conf, "disk");
    hide JobResources, Need;
  }

  /**
   * As long as its role has enough for all visited jobs, no selection runs into the fatal exit, and every job gets
   * what it needs out of that role, also with a Find that turns to other roles when one has too little.
   */
  lemma {:induction false} SelectStaysInRole(env: Env, core: Core, offer: Resources, visits: seq<Visit>)
    requires |env.roles| > 0 && forall v | v in visits :: v.id in core.jobs
    requires FindsWithin(env.find) && PrefersRole(env.find) && Canonical(offer) && KeyedByFQID(core.jobs)
    requires HasEnough(offer, env.roles[0], core.jobs, visits)
    ensures var sel := Select(env, core, offer, visits);
      && !sel.halted && AllOfRole(sel.picked, env.roles[0])
      && Leaves(sel.left, offer, env.roles[0], core.jobs, visits)
  {
    if |visits| > 0 {
      var before, v := visits[..|visits| - 1], visits[|visits| - 1];
      var sel := Select(env, core, offer, before);
      EnoughBefore(offer, env.roles[0], core.jobs, visits, sel.left);
      hide HasEnough, Leaves, AllOfRole, InRole, Canonical, FindsWithin, PrefersRole, Need, Needs, Amount;
      SelectStaysInRole(env, core, offer, before);
      SelectConserves(env, core, offer, before);
      SelectKeepsKeys(env, core, offer, before);
      SelectLeaves(env, core, offer, before, "cpus");
      var left := Select(env, core, offer, visits).left;
      forall name | name in {"cpus", "mem", "disk"}
        ensures Amount(left, name, env.roles[0])
             >= Amount(sel.left, name, env.roles[0]) - Need(core.jobs[v.id].conf, name)
      {
        VisitStaysInRole(env, core.queued, sel, v, name);
      }
      VisitStaysInRole(env, core.queued, sel, v, "cpus");
      LeavesAfter(sel.left, offer, env.roles[0], core.jobs, visits, left);
    }
  }

  // ---- Such Finds exist ----

  /** Finds only in the roles resources are wanted for. */
  function FindInRole(wants: Resources, pool: Resources): Resources {
    if Canonical(wants) && ContainsAll(pool, wants) then wants else []
  }

  /** Finds in the roles resources are wanted for if these have enough, and else in any. */
  function FindInRoleFirst(wants: Resources, pool: Resources): Resources {
    if FindInRole(wants, pool) != [] then wants else FindInAnyRole(wants, pool)
  }

  lemma WantsAreWithin(wants: Resources, pool: Resources, name: string, role: string)
    requires Canonical(wants) && Canonical(pool) && ContainsAll(pool, wants)
    ensures Amount(wants, name, role) <= Amount(pool, name, role)
  {
    AmountNonNegative(pool, name, role);
    AmountNonNegative(wants, name, role);
    if i: nat :| i < |wants| && wants[i].name == name && wants[i].role == role {
      AmountOfEntry(wants, i);
    }
  }

  lemma FindInRoleIsFind()
    ensures FindsWithin(FindInRole) && KeepsToRole(FindInRole) && PrefersRole(FindInRole)
  {
    forall wants, pool, name, role | Canonical(pool) && FindInRole(wants, pool) != []
      ensures Amount(FindInRole(wants, pool), name, role) <= Amount(pool, name, role)
    {
      WantsAreWithin(wants, pool, name, role);
    }
  }

  lemma FindInRoleFirstIsFind()
    ensures FindsWithin(FindInRoleFirst) && PrefersRole(FindInRoleFirst)
  {
    FindInAnyRoleIsFind();
    FindInRoleIsFind();
    forall wants, pool | Canonical(pool) && FindInRoleFirst(wants, pool) != []
      ensures var found := FindInRoleFirst(wants, pool);
        Canonical(found) && Within(found, pool) && forall name :: Total(found, name) == Total(wants, name)
    {
      if FindInRole(wants, pool) == [] {
        assert FindInRoleFirst(wants, pool) == FindInAnyRole(wants, pool);
      }
    }
  }

  /** What fits is available, whatever role it is wanted for. */
  lemma WhatFitsIsAvailable(pool: Resources, conf: JobConf, role: string)
    requires conf.Acceptable() && Canonical(pool) && Fits(pool, conf)
    ensures Available(pool, WantsFor(conf, role))
  {
    FitsByTotals(pool, conf);
    JobWants(conf);
    var wants, unreserved := WantsFor(conf, role), WantsFor(conf, "*");
    forall i | 0 <= i < |wants| ensures 0.0 < wants[i].amount <= Total(pool, wants[i].name) {
      assert wants[i].name == unreserved[i].name && wants[i].amount == unreserved[i].amount;
      assert unreserved[i] in unreserved;
    }
  }

  /** The resources a job needs can be found in any role that has them. */
  lemma FindInAnyRoleFits(env: Env)
    requires |env.roles| > 0 && env.find == FindInAnyRole
    ensures FindsWithin(env.find) && FindsFitting(env)
  {
    FindInAnyRoleIsFind();
    forall conf: JobConf, pool | conf.Acceptable() && Canonical(pool) && Fits(pool, conf)
      ensures FindTaskResources(env, JobResources(conf), pool) != []
    {
      AskedForRole(env, conf, pool);
      WhatFitsIsAvailable(pool, conf, env.roles[0]);
      FindsWhatIsAvailable(WantsFor(conf, env.roles[0]), pool);
    }
  }

  /** All that is asked of Find anywhere can be met at once. */
  lemma FindInRoleFirstFits(env: Env)
    requires |env.roles| > 0 && env.find == FindInRoleFirst
    ensures FindsWithin(env.find) && PrefersRole(env.find) && FindsFitting(env)
  {
    FindInRoleFirstIsFind();
    forall conf: JobConf, pool | conf.Acceptable() && Canonical(pool) && Fits(pool, conf)
      ensures FindTaskResources(env, JobResources(conf), pool) != []
    {
      AskedForRole(env, conf, pool);
      WhatFitsIsAvailable(pool, conf, env.roles[0]);
      FindsWhatIsAvailable(WantsFor(conf, env.roles[0]), pool);
    }
  }
}
