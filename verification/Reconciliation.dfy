/** Explicit reconciliation of task states with Mesos (mesos/reconciliation/reconciliation.go). */
module Reconciliations {
  import opened JobModel
  import opened SchedulerSpec
  import opened TaskIDProofs

  type TaskMap = map<string, string>

  // ---- The tasks to reconcile ----

  /** The tasks are the jobs' current tasks, each with the agent of a job that has it. */
  ghost predicate HoldsCurrent(jobs: seq<Job>, tasks: TaskMap) {
    && (forall t :: t in tasks <==> t != "" && exists i | 0 <= i < |jobs| :: jobs[i].rt.currentTaskID == t)
    && forall t | t in tasks :: exists i | 0 <= i < |jobs| ::
        jobs[i].rt.currentTaskID == t && tasks[t] == jobs[i].rt.currentAgentID
  }

  /** The current tasks of the jobs and their agents. */
  method CurrentTasks(jobs: seq<Job>) returns (tasks: TaskMap)
    ensures HoldsCurrent(jobs, tasks)
  {
    tasks := map[];
    for i := 0 to |jobs|
      invariant forall t :: t in tasks <==> t != "" && exists j | 0 <= j < i :: jobs[j].rt.currentTaskID == t
      invariant forall t | t in tasks :: exists j | 0 <= j < i ::
        jobs[j].rt.currentTaskID == t && tasks[t] == jobs[j].rt.currentAgentID
    {
      if jobs[i].rt.currentTaskID != "" {
        tasks := tasks[jobs[i].rt.currentTaskID := jobs[i].rt.currentAgentID];
      }
    }
  }

  ghost function Busy(stored: map<string, Job>): set<string> {
    set k | k in stored && stored[k].rt.currentTaskID != ""
  }

  /** As task IDs lead back to their jobs, there is exactly one entry per stored job with a current task. */
  lemma OneEntryPerJob(stored: map<string, Job>, tasks: TaskMap)
    requires KeyedByFQID(stored) && forall k | k in stored :: Owns(stored[k])
    requires forall t :: t in tasks <==> t != "" && exists k | k in stored :: stored[k].rt.currentTaskID == t
    ensures |tasks| == |Busy(stored)|
  {
    SameSize(Busy(stored), stored, tasks.Keys);
  }

  lemma {:induction false} SameSize(ks: set<string>, stored: map<string, Job>, ts: set<string>)
    requires KeyedByFQID(stored) && forall k | k in stored :: Owns(stored[k])
    requires forall k | k in ks :: k in stored && stored[k].rt.currentTaskID != "" && stored[k].rt.currentTaskID in ts
    requires forall t | t in ts :: exists k | k in ks && k in stored :: stored[k].rt.currentTaskID == t
    ensures |ks| == |ts|
  {
    if ks == {} {
      assert ts == {};
    } else {
      var k :| k in ks;
      var t := stored[k].rt.currentTaskID;
      forall j | j in ks && stored[j].rt.currentTaskID == t ensures j == k {
        NoSharedTask(stored, j, k);
      }
      SameSize(ks - {k}, stored, ts - {t});
    }
  }

  // ---- A round ----

  /** What a round can receive while it waits: the context is done, the back-off ticks, a task is answered for. */
  datatype Signal = Done | Tick | Answer(taskID: string)

  /** Why waiting stopped: every task answered for, a tick, a done context, a failed request, or nothing to receive. */
  datatype End = Finished | Ticked | Cancelled | CallFailed | StillWaiting

  /** The task has been answered for among the first n signals. */
  ghost predicate Answered(signals: seq<Signal>, n: nat, taskID: string)
    requires n <= |signals|
  {
    exists i | 0 <= i < n :: signals[i] == Answer(taskID)
  }

  /** What is left of the tasks once a signal is received. */
  function Receive(tasks: TaskMap, signal: Signal): TaskMap {
    if signal.Answer? then tasks - {signal.taskID} else tasks
  }

  /** What is left of the tasks after the first n signals. */
  function Outstanding(tasks: TaskMap, signals: seq<Signal>, n: nat): TaskMap
    requires n <= |signals|
  {
    if n == 0 then tasks
    else Receive(Outstanding(tasks, signals, n - 1), signals[n - 1])
  }

  /** Exactly the initial tasks, with their agents, but those answered for. */
  lemma {:induction false} OutstandingIsUnanswered(tasks: TaskMap, signals: seq<Signal>, n: nat)
    requires n <= |signals|
    ensures forall t :: t in Outstanding(tasks, signals, n) <==> t in tasks && !Answered(signals, n, t)
    ensures forall t | t in Outstanding(tasks, signals, n) :: Outstanding(tasks, signals, n)[t] == tasks[t]
  {
    if n > 0 {
      OutstandingIsUnanswered(tasks, signals, n - 1);
      forall t | t in tasks
        ensures Answered(signals, n, t) <==> Answered(signals, n - 1, t) || signals[n - 1] == Answer(t)
      {
      }
    }
  }

  lemma {:induction false} OutstandingShrinks(tasks: TaskMap, signals: seq<Signal>, n: nat, m: nat)
    requires n <= m <= |signals|
    ensures Outstanding(tasks, signals, m).Keys <= Outstanding(tasks, signals, n).Keys
    decreases m
  {
    if n < m {
      OutstandingShrinks(tasks, signals, n, m - 1);
    }
  }

  /** Each request asks for what is outstanding by then; all but the first follow a tick. */
  ghost predicate Asks(tasks: TaskMap, signals: seq<Signal>, sent: seq<TaskMap>, at: seq<nat>) {
    && |at| == |sent|
    && (forall i | 0 <= i < |sent| ::
        at[i] <= |signals| && sent[i] == Outstanding(tasks, signals, at[i]) && sent[i] != map[])
    && (|sent| > 0 ==> at[0] == 0)
    && (forall i, j | 0 <= i < j < |sent| :: at[i] < at[j])
    && forall i | 0 < i < |sent| :: at[i] > 0 && signals[at[i] - 1] == Tick
  }

  /** Every tick before position n is answered by a request. */
  ghost predicate TicksAsk(signals: seq<Signal>, n: int, at: seq<nat>) {
    forall j | 0 <= j < n && j < |signals| && signals[j] == Tick :: j + 1 in at
  }

  ghost predicate UpTo(at: seq<nat>, n: nat) {
    forall i | 0 <= i < |at| :: at[i] <= n
  }

  /** The first n requests succeed. */
  ghost predicate Granted(callOK: nat -> bool, n: int) {
    forall i | 0 <= i < n :: callOK(i)
  }

  ghost predicate NoneDone(signals: seq<Signal>, n: int) {
    forall i | 0 <= i < n && i < |signals| :: signals[i] != Done
  }

  lemma AnswersOnly(signals: seq<Signal>, start: nat, n: nat, at: seq<nat>)
    requires start <= n <= |signals|
    requires forall i | start <= i < n - 1 :: signals[i].Answer?
    requires TicksAsk(signals, start, at) && NoneDone(signals, start)
    ensures TicksAsk(signals, n - 1, at) && NoneDone(signals, n - 1)
    ensures start == n || signals[n - 1] != Tick ==> TicksAsk(signals, n, at)
    ensures start == n || signals[n - 1] != Done ==> NoneDone(signals, n)
  {
  }

  /** The requests form a shrinking chain. */
  lemma {:induction false} RequestsShrink(
    tasks: TaskMap, signals: seq<Signal>, sent: seq<TaskMap>, at: seq<nat>, i: nat, j: nat)
    requires Asks(tasks, signals, sent, at) && i <= j < |sent|
    ensures sent[j].Keys <= sent[i].Keys && at[i] <= at[j]
    decreases j
  {
    if i < j {
      RequestsShrink(tasks, signals, sent, at, i, j - 1);
      OutstandingShrinks(tasks, signals, at[j - 1], at[j]);
    }
  }

  /** A further request, sent at position n. */
  lemma AskAgain(initial: TaskMap, signals: seq<Signal>, sent: seq<TaskMap>, at: seq<nat>, n: nat)
    requires Asks(initial, signals, sent, at) && n <= |signals|
    requires Outstanding(initial, signals, n) != map[]
    requires sent == [] ==> n == 0
    requires sent != [] ==> n > at[|at| - 1] && signals[n - 1] == Tick
    ensures Asks(initial, signals, sent + [Outstanding(initial, signals, n)], at + [n])
  {
    hide Outstanding;
  }

  /** The inner loop: receives from position `from` on until a tick, the end of the context or the last answer. */
  method Wait(ghost initial: TaskMap, outstanding: TaskMap, signals: seq<Signal>, from: nat)
    returns (end: End, tasks: TaskMap, read: nat)
    requires from <= |signals| && outstanding != map[]
    requires outstanding == Outstanding(initial, signals, from)
    ensures from <= read <= |signals|
    ensures tasks == Outstanding(initial, signals, read)
    ensures forall i | from <= i < read - 1 :: signals[i].Answer?
    ensures end == Ticked <==> read > from && signals[read - 1] == Tick
    ensures end == Cancelled <==> read > from && signals[read - 1] == Done
    ensures end == Finished <==> tasks == map[]
    ensures end == Finished ==> read > from && Outstanding(initial, signals, read - 1) != map[]
    ensures end == StillWaiting ==> read == |signals|
    ensures end != CallFailed
  {
    end, tasks, read := StillWaiting, outstanding, from;
    while end == StillWaiting && read < |signals|
      invariant from <= read <= |signals|
      invariant tasks == Outstanding(initial, signals, read)
      invariant end == Finished <==> tasks == map[]
      invariant forall i | from <= i < read - 1 :: signals[i].Answer?
      invariant end == StillWaiting ==> read == from || signals[read - 1].Answer?
      invariant end == Ticked ==> read > from && signals[read - 1] == Tick
      invariant end == Cancelled ==> read > from && signals[read - 1] == Done
      invariant end == Finished ==>
        read > from && signals[read - 1].Answer? && Outstanding(initial, signals, read - 1) != map[]
      invariant end != CallFailed
      decreases |signals| - read
    {
      read := read + 1;
      match signals[read - 1] {
        case Done => end := Cancelled;
        case Tick => end := Ticked;
        case Answer(taskID) =>
          tasks := tasks - {taskID};
          if tasks == map[] {
            end := Finished;
          }
      }
    }
  }

  /**
   * One round on the given tasks; `signals` is what it receives after the ticker's first tick, `callOK` says
   * which requests succeed. It has read the first `read` signals when it ends.
   */
  method Round(initial: TaskMap, signals: seq<Signal>, callOK: nat -> bool)
    returns (end: End, sent: seq<TaskMap>, read: nat, ghost at: seq<nat>)
    ensures end != Ticked && read <= |signals|
    ensures Asks(initial, signals, sent, at)
    ensures TicksAsk(signals, read, at)
    ensures UpTo(at, read)
    ensures initial != map[] ==> sent != [] && sent[0] == initial
    ensures Granted(callOK, if end == CallFailed then |sent| - 1 else |sent|)
    ensures end == CallFailed ==> sent != [] && !callOK(|sent| - 1)
    ensures end == Finished <==> Outstanding(initial, signals, read) == map[]
    ensures end == Finished && read > 0 ==> Outstanding(initial, signals, read - 1) != map[]
    ensures end == Cancelled ==> read > 0 && signals[read - 1] == Done
    ensures NoneDone(signals, if end == Cancelled then read - 1 else read)
    ensures end == StillWaiting ==> read == |signals|
  {
    hide Outstanding, Asks, TicksAsk;
    NothingAsked(initial, signals);
    var tasks := initial;
    end, sent, read, at := if initial == map[] then Finished else Ticked, [], 0, [];
    while end == Ticked
      invariant read <= |signals|
      invariant Asks(initial, signals, sent, at)
      invariant |at| == |sent| && UpTo(at, read)
      invariant TicksAsk(signals, read - if end == Ticked && sent != [] then 1 else 0, at)
      invariant NoneDone(signals, if end == Cancelled then read - 1 else read)
      invariant tasks == Outstanding(initial, signals, read)
      invariant end == Finished <==> tasks == map[]
      invariant end == Finished && read > 0 ==> Outstanding(initial, signals, read - 1) != map[]
      invariant end == Ticked && sent != [] ==> read > at[|at| - 1] && signals[read - 1] == Tick
      invariant end == Cancelled ==> read > 0 && signals[read - 1] == Done
      invariant end == StillWaiting ==> read == |signals|
      invariant Granted(callOK, if end == CallFailed then |sent| - 1 else |sent|)
      invariant end == CallFailed ==> sent != [] && !callOK(|sent| - 1)
      invariant sent == [] ==> read == 0 && tasks == initial && end in {Ticked, Finished}
      invariant sent != [] ==> sent[0] == initial
      decreases end == Ticked, |signals| - read, sent == []
    {
      AskAgain(initial, signals, sent, at, read);
      TicksAskMore(signals, read, at);
      sent, at := sent + [tasks], at + [read];
      if !callOK(|sent| - 1) {
        end := CallFailed;
      } else {
        ghost var start := read;
        end, tasks, read := Wait(initial, tasks, signals, read);
        AnswersOnly(signals, start, read, at);
      }
    }
  }

  lemma NothingAsked(initial: TaskMap, signals: seq<Signal>)
    ensures Outstanding(initial, signals, 0) == initial
    ensures Asks(initial, signals, [], []) && TicksAsk(signals, 0, [])
  {
  }

  lemma TicksAskMore(signals: seq<Signal>, n: nat, at: seq<nat>)
    requires TicksAsk(signals, n - if at != [] then 1 else 0, at) && (at == [] ==> n == 0)
    ensures TicksAsk(signals, n, at + [n])
  {
    assert forall j | j in at :: j in at + [n];
    assert (at + [n])[|at|] == n;
  }
}
