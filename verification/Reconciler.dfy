/**
 * The reconciler's goroutine and its one-slot queue of rounds (mesos/reconciliation/reconciliation.go):
 * at most one goroutine works, and while it does, it never waits in vain.
 */
module ReconcilerRuns {
  /**
   * Where a goroutine is: at its select statement, with the timer still to fire or not; about to queue a round
   * as the timer fired; in a round; about to clear the flag as the context is done; returned.
   */
  datatype Loop = Selecting(armed: bool) | Queueing | InRound | Leaving | Gone

  /** `owing` counts the Run calls that have released the lock but not queued their round yet. */
  datatype State = State(running: bool, token: bool, done: bool, owing: nat, loops: seq<Loop>)

  const START := State(false, false, false, 0, [])

  datatype Event =
    | RunLocks
    | RunQueues
    | TimerFires(i: nat)
    | QueuesRound(i: nat)
    | TakesToken(i: nat)
    | RoundEnds(i: nat)
    | SeesDone(i: nat)
    | ClearsFlag(i: nat)
    | Cancel

  predicate At(s: State, i: nat, loop: Loop) {
    i < |s.loops| && s.loops[i] == loop
  }

  predicate Enabled(s: State, e: Event) {
    match e
    case RunLocks => true
    case RunQueues => s.owing > 0
    case TimerFires(i) => At(s, i, Selecting(true))
    case QueuesRound(i) => At(s, i, Queueing)
    case TakesToken(i) => i < |s.loops| && s.loops[i].Selecting? && s.token
    case RoundEnds(i) => At(s, i, InRound)
    case SeesDone(i) => i < |s.loops| && s.loops[i].Selecting? && s.done
    case ClearsFlag(i) => At(s, i, Leaving)
    case Cancel => true
  }

  function Apply(s: State, e: Event): State
    requires Enabled(s, e)
  {
    match e
    case RunLocks =>
      s.(running := true, owing := s.owing + 1,
         loops := if s.running then s.loops else s.loops + [Selecting(true)])
    case RunQueues => s.(token := true, owing := s.owing - 1)
    case TimerFires(i) => s.(loops := s.loops[i := Queueing])
    case QueuesRound(i) => s.(token := true, loops := s.loops[i := Selecting(false)])
    case TakesToken(i) => s.(token := false, loops := s.loops[i := InRound])
    case RoundEnds(i) => s.(loops := s.loops[i := Selecting(true)])
    case SeesDone(i) => s.(loops := s.loops[i := Leaving])
    case ClearsFlag(i) => s.(running := false, loops := s.loops[i := Gone])
    case Cancel => s.(done := true)
  }

  ghost predicate IsRun(run: seq<State>, es: seq<Event>) {
    && |run| == |es| + 1
    && run[0] == START
    && forall i | 0 <= i < |es| :: Enabled(run[i], es[i]) && run[i + 1] == Apply(run[i], es[i])
  }

  /** The goroutines that have not cleared the flag. */
  function Live(loops: seq<Loop>): nat {
    if loops == [] then 0 else (if loops[0] == Gone then 0 else 1) + Live(loops[1..])
  }

  lemma {:induction false} LiveAppend(loops: seq<Loop>, loop: Loop)
    ensures Live(loops + [loop]) == Live(loops) + if loop == Gone then 0 else 1
  {
    if loops != [] {
      LiveAppend(loops[1..], loop);
      assert (loops + [loop])[1..] == loops[1..] + [loop];
    }
  }

  lemma {:induction false} LiveUpdate(loops: seq<Loop>, i: nat, loop: Loop)
    requires i < |loops|
    ensures Live(loops[i := loop])
         == Live(loops) - (if loops[i] == Gone then 0 else 1) + if loop == Gone then 0 else 1
  {
    if i > 0 {
      LiveUpdate(loops[1..], i - 1, loop);
      assert loops[i := loop][1..] == loops[1..][i - 1 := loop];
    } else {
      assert loops[0 := loop][1..] == loops[1..];
    }
  }

  lemma {:induction false} LiveIsPositive(loops: seq<Loop>, i: nat)
    requires i < |loops| && loops[i] != Gone
    ensures Live(loops) >= 1
    ensures Live(loops) == 1 ==> forall j | 0 <= j < |loops| && j != i :: loops[j] == Gone
  {
    if i > 0 {
      LiveIsPositive(loops[1..], i - 1);
      forall j | 0 <= j < |loops| && j != i && Live(loops) == 1 ensures loops[j] == Gone {
        if j > 0 {
          assert loops[j] == loops[1..][j - 1];
        }
      }
    } else {
      AllGone(loops[1..]);
      assert forall j | 0 < j < |loops| :: loops[j] == loops[1..][j - 1];
    }
  }

  lemma {:induction false} AllGone(loops: seq<Loop>)
    ensures Live(loops) == 0 <==> forall j | 0 <= j < |loops| :: loops[j] == Gone
  {
    if loops != [] {
      AllGone(loops[1..]);
      assert forall j | 0 < j < |loops| :: loops[j] == loops[1..][j - 1];
    }
  }

  /**
   * As many goroutines are live as the flag says, and one whose timer has fired without a round since finds
   * a round queued.
   */
  ghost predicate Inv(s: State) {
    && Live(s.loops) == (if s.running then 1 else 0)
    && forall i | 0 <= i < |s.loops| :: s.loops[i] == Selecting(false) ==> s.token
  }

  lemma InvStep(s: State, e: Event)
    requires Inv(s) && Enabled(s, e)
    ensures Inv(Apply(s, e))
  {
    match e
    case RunLocks => LiveAppend(s.loops, Selecting(true));
    case RunQueues =>
    case Cancel =>
    case TimerFires(i) => LiveUpdate(s.loops, i, Queueing);
    case QueuesRound(i) => LiveUpdate(s.loops, i, Selecting(false));
    case TakesToken(i) =>
      LiveUpdate(s.loops, i, InRound);
      LiveIsPositive(s.loops, i);
    case RoundEnds(i) => LiveUpdate(s.loops, i, Selecting(true));
    case SeesDone(i) => LiveUpdate(s.loops, i, Leaving);
    case ClearsFlag(i) =>
      LiveUpdate(s.loops, i, Gone);
      LiveIsPositive(s.loops, i);
  }

  /** Under any interleaving of Run calls, timers, rounds and cancellation. */
  lemma {:induction false} InvRun(run: seq<State>, es: seq<Event>)
    requires IsRun(run, es)
    ensures forall i | 0 <= i < |run| :: Inv(run[i])
  {
    if |es| > 0 {
      var n := |es| - 1;
      InvRun(run[..|es|], es[..n]);
      assert Inv(run[..|es|][n]);
      InvStep(run[n], es[n]);
      assert forall i | 0 <= i < |es| :: run[..|es|][i] == run[i];
    }
  }

  /** Never doubled: two goroutines never work at once, whatever is in flight. */
  lemma NeverDoubles(run: seq<State>, es: seq<Event>, n: nat, i: nat, j: nat)
    requires IsRun(run, es) && n < |run|
    requires i < |run[n].loops| && j < |run[n].loops| && run[n].loops[i] != Gone && run[n].loops[j] != Gone
    ensures i == j && run[n].running
  {
    InvRun(run, es);
    assert Inv(run[n]);
    LiveIsPositive(run[n].loops, i);
  }

  /** Something other than the end of the context moves goroutine i on. */
  ghost predicate CanMove(s: State, i: nat) {
    || Enabled(s, TimerFires(i))
    || Enabled(s, QueuesRound(i))
    || Enabled(s, TakesToken(i))
    || Enabled(s, RoundEnds(i))
    || Enabled(s, ClearsFlag(i))
  }

  /** Never stalled: while the flag is set, one goroutine is there and can move without a new Run call. */
  lemma NeverStalls(run: seq<State>, es: seq<Event>, n: nat) returns (i: nat)
    requires IsRun(run, es) && n < |run| && run[n].running
    ensures i < |run[n].loops| && run[n].loops[i] != Gone && CanMove(run[n], i)
  {
    InvRun(run, es);
    assert Inv(run[n]);
    AllGone(run[n].loops);
    i :| i < |run[n].loops| && run[n].loops[i] != Gone;
  }

  /** Unless the context is done, the flag stays set once it is. */
  ghost predicate StaysUp(s: State) {
    !s.done ==> forall i | 0 <= i < |s.loops| :: s.loops[i] != Leaving && s.loops[i] != Gone
  }

  lemma {:induction false} StaysUpRun(run: seq<State>, es: seq<Event>)
    requires IsRun(run, es)
    ensures forall i | 0 <= i < |run| :: StaysUp(run[i])
    ensures forall i | 0 <= i < |es| && run[i].running && !run[i + 1].running :: run[i].done
  {
    if |es| > 0 {
      var n := |es| - 1;
      StaysUpRun(run[..|es|], es[..n]);
      assert StaysUp(run[..|es|][n]);
      assert forall i | 0 <= i < |es| :: run[..|es|][i] == run[i];
      assert forall i | 0 <= i < n :: es[..n][i] == es[i];
    }
  }

  // ---- Rounds answer to requests ----

  /** A round is asked for, by a call of Run or by the timer. */
  predicate Asks(e: Event) {
    e.RunQueues? || e.QueuesRound?
  }

  function Asked(es: seq<Event>): nat {
    if es == [] then 0 else Asked(es[..|es| - 1]) + if Asks(es[|es| - 1]) then 1 else 0
  }

  function Started(es: seq<Event>): nat {
    if es == [] then 0 else Started(es[..|es| - 1]) + if es[|es| - 1].TakesToken? then 1 else 0
  }

  /** No round is started that was not asked for. */
  lemma {:induction false} RoundsAreAskedFor(run: seq<State>, es: seq<Event>)
    requires IsRun(run, es)
    ensures Started(es) + (if run[|es|].token then 1 else 0) <= Asked(es)
  {
    if |es| > 0 {
      var n := |es| - 1;
      RoundsAreAskedFor(run[..|es|], es[..n]);
      assert run[..|es|][n] == run[n] && run[n + 1] == Apply(run[n], es[n]);
    }
  }

  /** And none asked for is forgotten: until one is started, a round is queued. */
  lemma {:induction false} RequestsAreKept(run: seq<State>, es: seq<Event>, i: nat, n: nat)
    requires IsRun(run, es) && i < n < |run| && Asks(es[i])
    requires forall j | i < j < n :: !es[j].TakesToken?
    ensures run[n].token
    decreases n
  {
    assert run[n] == Apply(run[n - 1], es[n - 1]);
    if n > i + 1 {
      RequestsAreKept(run, es, i, n - 1);
    }
  }
}

/** The reconciler itself, whose fields the events above change. */
module Reconcilers {
  import opened Wrappers
  import opened JobModel
  import opened Reconciliations
  import R = ReconcilerRuns

  class Reconciliation {
    var running: bool
    var roundQ: bool
    ghost var loops: seq<R.Loop>
    ghost var done: bool

    /** The state between two calls of Run. */
    ghost function View(): R.State
      reads this
    {
      R.State(running, roundQ, done, 0, loops)
    }

    constructor ()
      ensures View() == R.START
    {
      running, roundQ, loops, done := false, false, [], false;
    }

    method QueueRound()
      modifies this`roundQ
      ensures roundQ
    {
      if !roundQ {
        roundQ := true;
      }
    }

    /** Starts a goroutine unless one is running, and queues a round. */
    method Run()
      modifies this
      ensures View() == R.Apply(R.Apply(old(View()), R.RunLocks), R.RunQueues)
    {
      if !running {
        loops := loops + [R.Selecting(true)];
        running := true;
      }
      QueueRound();
    }

    /**
     * One pass of goroutine i through its loop; `choice` is the case the select statement picks. A round whose
     * signals run out is still going on.
     */
    method Pass(
      ghost i: nat, choice: R.Event, jobs: Result<seq<Job>, string>, signals: seq<Signal>, callOK: nat -> bool)
      returns (end: Option<End>, sent: seq<TaskMap>)
      requires R.Enabled(View(), choice)
      requires choice in {R.SeesDone(i), R.TimerFires(i), R.TakesToken(i)}
      modifies this
      ensures choice == R.SeesDone(i) ==> View() == R.Apply(R.Apply(old(View()), choice), R.ClearsFlag(i))
      ensures choice == R.TimerFires(i) ==> View() == R.Apply(R.Apply(old(View()), choice), R.QueuesRound(i))
      ensures choice == R.TakesToken(i) && end != Some(StillWaiting) ==>
        View() == R.Apply(R.Apply(old(View()), choice), R.RoundEnds(i))
      ensures choice == R.TakesToken(i) && end == Some(StillWaiting) ==> View() == R.Apply(old(View()), choice)
      ensures end.Some? <==> choice == R.TakesToken(i) && jobs.Ok?
      ensures end.None? ==> sent == []
      ensures end.Some? && sent != [] ==> HoldsCurrent(jobs.value, sent[0])
    {
      end, sent := None, [];
      match choice {
        case SeesDone(_) =>
          running := false;
          loops := loops[i := R.Gone];
        case TimerFires(_) =>
          QueueRound();
          loops := loops[i := R.Selecting(false)];
        case TakesToken(_) =>
          roundQ := false;
          loops := loops[i := R.InRound];
          if jobs.Ok? {
            var tasks := CurrentTasks(jobs.value);
            var e, read;
            ghost var at;
            e, sent, read, at := Round(tasks, signals, callOK);
            end := Some(e);
          }
          if end != Some(StillWaiting) {
            loops := loops[i := R.Selecting(true)];
          }
        case _ =>
          assert false;
      }
    }
  }
}
