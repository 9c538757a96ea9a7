/** Every queued request is accounted for. */
module QueueLedgerProofs {
  import opened SchedulerSpec
  import opened SelectionProofs
  import opened SchedulerRuns

  /** A request that creates a queue node; one for a job already queued is a no-op. */
  predicate Creates(s: Sys, e: Event) {
    e.QueueEvent? && e.id !in s.core.queue
  }

  /** A build that takes a node out of the stored queue. */
  predicate Removes(s: Sys, e: Event) {
    && e.BuildEvent? && e.i < |s.pending| && e.b.dequeued
    && s.pending[e.i].job.FQID() in s.core.queued
    && s.pending[e.i].job.FQID() in s.core.queue
  }

  /** An attempt at a job that was not due: only the queue made it. */
  predicate QueueOnly(s: Sys, e: Event) {
    e.BuildEvent? && e.i < |s.pending| && !s.pending[e.i].runnable
  }

  /** The queue cache never holds a request storage does not, nor misses one a selected job rests on. */
  ghost predicate QueueCached(s: Sys) {
    && s.core.queued <= s.core.queue
    && forall p | p in s.pending && !p.runnable :: p.visit.id in s.core.queued
  }

  ghost predicate Dequeues(s: Sys, e: Event) {
    Timely(s, e) && (e.BuildEvent? ==> e.b.dequeued)
  }

  lemma QueueOffer(env: Env, s: Sys, visits: seq<Visit>, until: int, sel: Selection)
    requires QueueCached(s) && Picks(env, s.core, visits, sel)
    ensures QueueCached(s.(core := Selected(s.core, sel), pending := s.pending + sel.picked, now := until))
  {
    forall q | q in sel.picked && !q.runnable ensures q.visit.id in s.core.queued {
      assert PickedFrom(env, s.core, visits, q);
    }
  }

  lemma QueueStep(env: Env, s: Sys, e: Event)
    requires Enabled(env, s, e) && Dequeues(s, e) && Keyed(s) && Booked(s) && QueueCached(s)
    ensures QueueCached(Apply(env, s, e))
    ensures var s' := Apply(env, s, e);
      |s'.core.queue| + (if Removes(s, e) then 1 else 0) == |s.core.queue| + (if Creates(s, e) then 1 else 0)
    ensures QueueOnly(s, e) ==> Removes(s, e)
  {
    match e
    case OfferEvent(offer, visits, until) =>
      OfferPicksAnew(env, s, e);
      QueueOffer(env, s, visits, until, Select(env, s.core, offer, visits));
    case BuildEvent(i, b) =>
      assert s.pending[i] in s.pending;
      WithoutDiffers(s.pending, i);
    case QueueEvent(id) =>
      assert id in s.core.queue ==> s.core.queue + {id} == s.core.queue;
    case _ =>
      assert Apply(env, s, e).core.queue == s.core.queue;
  }

  /**
   * The queue ledger: nodes created are nodes removed plus nodes still queued, and attempts made only
   * because a job was queued never outnumber the requests there were.
   */
  lemma {:induction false} QueueLedger(env: Env, run: seq<Sys>, es: seq<Event>)
    requires IsRun(env, run, es) && Keyed(run[0]) && Booked(run[0]) && QueueCached(run[0])
    requires forall i | 0 <= i < |es| :: Dequeues(run[i], es[i])
    ensures Keyed(run[|es|]) && Booked(run[|es|]) && QueueCached(run[|es|])
    ensures |run[0].core.queue| + Count(Creates, run, es) == Count(Removes, run, es) + |run[|es|].core.queue|
    ensures Count(QueueOnly, run, es) <= Count(Removes, run, es)
    ensures Count(QueueOnly, run, es) <= |run[0].core.queue| + Count(Creates, run, es)
  {
    if |es| > 0 {
      var n := |es| - 1;
      RunPrefix(env, run, es);
      QueueLedger(env, run[..|es|], es[..n]);
      assert run[..|es|][n] == run[n];
      KeyedStep(env, run[n], es[n]);
      BookedStep(env, run[n], es[n]);
      QueueStep(env, run[n], es[n]);
    }
  }
}
