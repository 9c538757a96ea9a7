/** Where runs start: a new scheduler meets every invariant the results about runs ask of the first state. */
module Starts {
  import opened SchedulerSpec
  import opened SchedulerRuns
  import opened OneTaskProofs
  import opened RestartProofs
  import opened TaskIDProofs
  import opened QueueLedgerProofs
  import opened AttemptProofs

  /** A new scheduler on storage in which no job has a task. */
  ghost predicate IsStart(s: Sys) {
    && s.core == Fresh(s.core.stored, s.core.queue) && s.pending == [] && s.live == map[]
    && KeyedByFQID(s.core.stored)
    && forall k | k in s.core.stored :: Resting(s.core.stored[k].rt)
  }

  lemma StartOK(s: Sys)
    requires IsStart(s)
    ensures Keyed(s) && Booked(s) && OneTask(s) && Agrees(s) && AllOwn(s) && QueueCached(s)
  {
  }

  /** The first start of all, on empty storage. */
  lemma EmptyStart(now: int)
    ensures IsStart(Sys(Fresh(map[], {}), [], map[], now))
  {
  }

  /** What holds in every state that can be reached, whatever the events are. */
  lemma Reachable(env: Env, run: seq<Sys>, es: seq<Event>, k: string)
    requires IsRun(env, run, es) && IsStart(run[0])
    requires k in run[0].core.stored ==> run[0].core.stored[k].rt.retries <= run[0].core.stored[k].conf.maxRetries
    ensures forall i | 0 <= i < |run| :: Keyed(run[i]) && AllOwn(run[i])
    ensures RetriesWithin(run[|es|], k, LargestMaxRetries(run, k))
  {
    StartOK(run[0]);
    TaskIDsParseBack(env, run, es);
    assert run[..1] == [run[0]];
    RetriesNeverExceed(env, run, es, k);
  }

  /** And in every state reached with care. */
  lemma ReachableWithCare(env: Env, run: seq<Sys>, es: seq<Event>)
    requires IsRun(env, run, es) && IsStart(run[0])
    requires forall i | 0 <= i < |es| :: Careful(env, run[i], es[i])
    ensures forall i | 0 <= i < |run| :: Keyed(run[i]) && Booked(run[i]) && OneTask(run[i])
  {
    StartOK(run[0]);
    OneTaskRun(env, run, es);
  }
}
