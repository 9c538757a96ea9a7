/** A restart of the scheduler is invisible as long as its saves succeed. */
module RestartProofs {
  import opened Wrappers
  import opened JobModel
  import opened SchedulerSpec
  import opened SelectionProofs
  import opened SchedulerRuns
  import opened OneTaskProofs

  ghost function PendingIDs(pending: seq<Picked>): set<string> {
    set p | p in pending :: p.visit.id
  }

  /** The stored runtime is the cached one; between selection and build it may lack the new attempt. */
  ghost predicate AgreesAt(s: Sys, k: string)
    requires k in s.core.jobs && k in s.core.stored
  {
    var cached, stored := s.core.jobs[k].rt, s.core.stored[k].rt;
    cached == stored || (k in PendingIDs(s.pending) && cached == stored.(retries := cached.retries))
  }

  /** Storage knows what the caches know, and only jobs still to be built are booked. */
  ghost predicate Agrees(s: Sys) {
    && (forall k | k in s.core.jobs && k in s.core.stored :: AgreesAt(s, k))
    && s.core.booked.Keys <= PendingIDs(s.pending)
  }

  /** Saves succeed, and no job is created anew while an older one of that name is cached. */
  ghost predicate Durable(s: Sys, e: Event) {
    && (e.BuildEvent? ==> e.b.saved)
    && (e.UpdateEvent? ==> e.saved)
    && (e.CreateEvent? ==> e.conf.FQID() !in s.core.jobs)
  }

  /**
   * With no job waiting to be built, a restart gives what a sync of the running scheduler gives if and only
   * if storage agrees with the caches.
   */
  lemma RestartIsSyncIff(s: Sys)
    requires s.pending == []
    ensures SyncQueue(SyncJobs(s.core)) == Fresh(s.core.stored, s.core.queue) <==> Agrees(s)
  {
    var merged := Merge(s.core.jobs, s.core.stored);
    forall k | k in s.core.stored
      ensures merged[k] == s.core.stored[k] <==> (k in s.core.jobs ==> s.core.jobs[k].rt == s.core.stored[k].rt)
    {
    }
    forall k | k in s.core.jobs && k in s.core.stored
      ensures AgreesAt(s, k) <==> s.core.jobs[k].rt == s.core.stored[k].rt
    {
    }
    assert merged == s.core.stored <==> forall k | k in s.core.stored :: merged[k] == s.core.stored[k];
  }

  lemma PendingIDsAppend(pending: seq<Picked>, more: seq<Picked>)
    ensures PendingIDs(pending + more) == PendingIDs(pending) + PickedIDs(more)
  {
    var all := pending + more;
    assert forall i | 0 <= i < |pending| :: all[i] == pending[i];
    assert forall i | 0 <= i < |more| :: all[|pending| + i] == more[i];
    forall id | id in PendingIDs(pending) + PickedIDs(more) ensures id in PendingIDs(all) {
      if id in PendingIDs(pending) {
        var p :| p in pending && p.visit.id == id;
        assert p in all;
      } else {
        var p :| p in more && p.visit.id == id;
        assert p in all;
      }
    }
  }

  lemma AgreesOffer(env: Env, s: Sys, visits: seq<Visit>, until: int, sel: Selection)
    requires Agrees(s) && Picks(env, s.core, visits, sel) && !sel.halted
    ensures Agrees(s.(core := Selected(s.core, sel), pending := s.pending + sel.picked, now := until))
  {
    var s' := s.(core := Selected(s.core, sel), pending := s.pending + sel.picked, now := until);
    PendingIDsAppend(s.pending, sel.picked);
    forall k | k in s'.core.jobs && k in s'.core.stored ensures AgreesAt(s', k) {
      assert AgreesAt(s, k);
      if k in PickedIDs(sel.picked) {
        var q :| q in sel.picked && q.visit.id == k;
        assert PickedFrom(env, s.core, visits, q);
      }
    }
  }

  lemma OthersStayPending(pending: seq<Picked>, i: nat, k: string)
    requires i < |pending| && k in PendingIDs(pending) && k != pending[i].visit.id
    ensures k in PendingIDs(Without(pending, i))
  {
    var j :| 0 <= j < |pending| && pending[j].visit.id == k;
    WithoutAt(pending, i, if j < i then j else j - 1);
    assert pending[j] in Without(pending, i);
  }

  lemma AgreesBuild(s: Sys, i: nat, b: Build, live: map<string, string>)
    requires Keyed(s) && Agrees(s) && i < |s.pending| && b.saved
    ensures Agrees(Sys(BuildJob(s.core, s.pending[i].job, b), Without(s.pending, i), live, b.at))
  {
    var s' := Sys(BuildJob(s.core, s.pending[i].job, b), Without(s.pending, i), live, b.at);
    var id := s.pending[i].visit.id;
    assert s.pending[i] in s.pending;
    forall k | k in PendingIDs(s.pending) && k != id ensures k in PendingIDs(s'.pending) {
      OthersStayPending(s.pending, i, k);
    }
    forall k | k in s'.core.jobs && k in s'.core.stored ensures AgreesAt(s', k) {
      if k != id {
        assert AgreesAt(s, k);
      }
    }
  }

  lemma AgreesUpdate(s: Sys, status: Status, live: map<string, string>)
    requires Keyed(s) && Agrees(s)
    ensures Agrees(s.(core := UpdateTask(s.core, status, true), live := live))
  {
    var s' := s.(core := UpdateTask(s.core, status, true), live := live);
    forall k | k in s'.core.jobs && k in s'.core.stored ensures AgreesAt(s', k) {
      assert AgreesAt(s, k);
    }
  }

  lemma AgreesStep(env: Env, s: Sys, e: Event)
    requires Enabled(env, s, e) && Durable(s, e) && Keyed(s) && Agrees(s)
    ensures Agrees(Apply(env, s, e))
  {
    var s' := Apply(env, s, e);
    match e
    case OfferEvent(offer, visits, until) =>
      PassDistinct(visits, s.core.jobs, s.now, until);
      SelectPicks(env, s.core, offer, visits);
      AgreesOffer(env, s, visits, until, Select(env, s.core, offer, visits));
    case BuildEvent(i, b) => AgreesBuild(s, i, b, s'.live);
    case UpdateEvent(status, saved) => AgreesUpdate(s, status, s'.live);
    case RestartEvent =>
    case _ =>
      forall k | k in s'.core.jobs && k in s'.core.stored ensures AgreesAt(s', k) {
        if k in s.core.jobs && k in s.core.stored {
          assert AgreesAt(s, k);
        }
      }
  }

  /**
   * Restarts are invisible: along any durable run, restarts included, whenever no job is waiting to be
   * built nothing is booked, and a restart would give what a sync gives.
   */
  lemma {:induction false} RestartInvisible(env: Env, run: seq<Sys>, es: seq<Event>)
    requires IsRun(env, run, es) && Keyed(run[0]) && Agrees(run[0])
    requires forall i | 0 <= i < |es| :: Durable(run[i], es[i])
    ensures forall i | 0 <= i < |run| :: Keyed(run[i]) && Agrees(run[i])
    ensures forall i | 0 <= i < |run| && run[i].pending == [] ::
      && run[i].core.booked == map[]
      && SyncQueue(SyncJobs(run[i].core)) == Fresh(run[i].core.stored, run[i].core.queue)
  {
    if |es| > 0 {
      var n := |es| - 1;
      RunPrefix(env, run, es);
      RestartInvisible(env, run[..|es|], es[..n]);
      assert run[..|es|][n] == run[n] && Agrees(run[n]);
      KeyedStep(env, run[n], es[n]);
      AgreesStep(env, run[n], es[n]);
      assert forall i | 0 <= i < |run| - 1 :: run[..|es|][i] == run[i];
    }
    forall i | 0 <= i < |run| && run[i].pending == []
      ensures run[i].core.booked == map[]
      ensures SyncQueue(SyncJobs(run[i].core)) == Fresh(run[i].core.stored, run[i].core.queue)
    {
      RestartIsSyncIff(run[i]);
    }
  }

  /**
   * Creating a job keeps the agreement exactly when no other runtime is cached under its name (but for the
   * count of an attempt about to be built).
   */
  lemma CreateKeepsAgreementIff(env: Env, s: Sys, conf: JobConf)
    requires Enabled(env, s, CreateEvent(conf)) && Keyed(s) && Agrees(s)
    ensures Agrees(Apply(env, s, CreateEvent(conf))) <==>
      (conf.FQID() in s.core.jobs ==>
        var rt := s.core.jobs[conf.FQID()].rt;
        rt == FRESH_RUNTIME || (conf.FQID() in PendingIDs(s.pending) && rt == FRESH_RUNTIME.(retries := rt.retries)))
  {
    var s' := Apply(env, s, CreateEvent(conf));
    var id := conf.FQID();
    forall k | k in s'.core.jobs && k in s'.core.stored && k != id ensures AgreesAt(s', k) {
      assert AgreesAt(s, k);
    }
    if id in s.core.jobs {
      var rt := s.core.jobs[id].rt;
      assert AgreesAt(s', id) <==>
        rt == FRESH_RUNTIME || (id in PendingIDs(s.pending) && rt == FRESH_RUNTIME.(retries := rt.retries));
    }
  }

  // ---- Saves that fail ----

  /** A build keeps the agreement exactly when it is saved, or storage has no such job or the same runtime. */
  lemma BuildKeepsAgreementIff(env: Env, s: Sys, i: nat, b: Build)
    requires Enabled(env, s, BuildEvent(i, b)) && Keyed(s) && Booked(s) && Agrees(s)
    ensures var id := s.pending[i].visit.id;
      Agrees(Apply(env, s, BuildEvent(i, b))) <==>
      b.saved || id !in s.core.stored || s.core.stored[id].rt == BuiltJob(s.pending[i].job, b).rt
  {
    var id, s' := s.pending[i].visit.id, Apply(env, s, BuildEvent(i, b));
    assert s.pending[i] in s.pending;
    WithoutDiffers(s.pending, i);
    assert id !in PendingIDs(s'.pending);
    if id in s.core.stored {
      assert AgreesAt(s', id) <==> s'.core.jobs[id].rt == s'.core.stored[id].rt;
    }
    forall k | k in s'.core.jobs && k in s'.core.stored && k != id ensures AgreesAt(s', k) {
      assert AgreesAt(s, k);
      if k in PendingIDs(s.pending) {
        OthersStayPending(s.pending, i, k);
      }
    }
    forall k | k in s'.core.booked ensures k in PendingIDs(s'.pending) {
      OthersStayPending(s.pending, i, k);
    }
  }

  /** The runtime an update gives a cached job, if it changes any. */
  function NewRuntime(core: Core, status: Status): Option<(string, JobRuntime)> {
    match ParseTaskID(status.taskID)
    case Err(_) => None
    case Ok(jid) =>
      if jid.String() !in core.jobs then None
      else
        match UpdatedRuntime(core.jobs[jid.String()].rt, status)
        case None => None
        case Some(rt) => Some((jid.String(), rt))
  }

  /**
   * A task state update keeps the agreement exactly when it is saved, changes no job that is stored, or gives
   * the runtime storage already has (but for the count of an attempt about to be built).
   */
  lemma UpdateKeepsAgreementIff(env: Env, s: Sys, status: Status, saved: bool)
    requires Keyed(s) && Agrees(s)
    ensures Agrees(Apply(env, s, UpdateEvent(status, saved))) <==>
      || saved
      || NewRuntime(s.core, status).None?
      || NewRuntime(s.core, status).value.0 !in s.core.stored
      || (var (id, rt) := NewRuntime(s.core, status).value; rt == s.core.stored[id].rt.(retries := rt.retries))
  {
    hide ParseTaskID;
    var s' := Apply(env, s, UpdateEvent(status, saved));
    if NewRuntime(s.core, status).Some? {
      var (id, rt) := NewRuntime(s.core, status).value;
      assert s'.core.jobs == s.core.jobs[id := s.core.jobs[id].(rt := rt)] && rt.retries == s.core.jobs[id].rt.retries;
      forall k | k in s'.core.jobs && k in s'.core.stored && k != id ensures AgreesAt(s', k) {
        assert AgreesAt(s, k);
      }
      if id in s.core.stored {
        assert AgreesAt(s, id);
        assert AgreesAt(s', id) <==> saved || rt == s.core.stored[id].rt.(retries := rt.retries);
      }
    } else {
      assert s'.core == s.core && s'.pending == s.pending;
      forall k | k in s'.core.jobs && k in s'.core.stored ensures AgreesAt(s', k) {
        assert AgreesAt(s, k);
      }
    }
  }

  // ---- One task per job across restarts ----

  lemma AgreementTracks(s: Sys)
    requires Agrees(s)
    ensures StorageTracks(s)
  {
    forall k | k in s.core.jobs && k in s.core.stored
      ensures s.core.stored[k].rt.currentTaskID == s.core.jobs[k].rt.currentTaskID
      ensures IsActive(s.core.stored[k].rt.state) <==> IsActive(s.core.jobs[k].rt.state)
    {
      assert AgreesAt(s, k);
    }
  }

  /** With saves that succeed, one task per job survives restarts at any point. */
  lemma {:induction false} OneTaskAcrossRestarts(env: Env, run: seq<Sys>, es: seq<Event>)
    requires IsRun(env, run, es) && Keyed(run[0]) && Booked(run[0]) && OneTask(run[0]) && Agrees(run[0])
    requires forall i | 0 <= i < |es| :: Durable(run[i], es[i]) && (es[i].RestartEvent? || Careful(env, run[i], es[i]))
    ensures forall i | 0 <= i < |run| :: Keyed(run[i]) && Booked(run[i]) && OneTask(run[i]) && Agrees(run[i])
  {
    RestartInvisible(env, run, es);
    forall i | 0 <= i < |es| ensures Careful(env, run[i], es[i]) {
      AgreementTracks(run[i]);
    }
    OneTaskRun(env, run, es);
  }

  /** A lost save is seen after a restart: the job rests in the cache while its task is live. */
  lemma LostSaveForgetsTask(env: Env, s: Sys, i: nat, b: Build)
    requires Enabled(env, s, BuildEvent(i, b)) && b.launch.Launched? && !b.saved
    requires Keyed(s) && s.pending[i].visit.id in s.core.stored && Resting(s.core.stored[s.pending[i].visit.id].rt)
    ensures var s' := Apply(env, Apply(env, s, BuildEvent(i, b)), RestartEvent);
      exists t | t in s'.live :: s'.live[t] in s'.core.jobs && Resting(s'.core.jobs[s'.live[t]].rt)
  {
    var p := s.pending[i];
    assert p in s.pending;
    var s' := Apply(env, Apply(env, s, BuildEvent(i, b)), RestartEvent);
    var t := TaskIDString(p.job.conf.jid, b.launch.uuid);
    assert t in s'.live && s'.live[t] == p.visit.id && Resting(s'.core.jobs[p.visit.id].rt);
  }
}
