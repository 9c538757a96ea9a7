/** The offers tuner: when it suppresses offers and when it revives them (mesos/offerstuner/offerstuner.go). */
module OffersTuners {
  import opened Wrappers
  import opened JobModel

  const DAY: int := 24 * 60 * MINUTE
  const ROUND_INTERVAL: int := 30 * SECOND
  const MIN_DELAY_TO_REVIVE: int := MINUTE

  // ---- Delays and deadlines ----

  /** The longest any job is overdue, or 0. */
  method FindMaxDelay(jobs: seq<Job>, next: Cron, now: int) returns (maxDelay: int)
    ensures maxDelay >= 0 && forall j | j in jobs :: Sub(now, j.NextRun(next)) <= maxDelay
    ensures maxDelay == 0 || exists j | j in jobs :: Sub(now, j.NextRun(next)) == maxDelay
  {
    maxDelay := 0;
    for i := 0 to |jobs|
      invariant maxDelay >= 0 && forall k | 0 <= k < i :: Sub(now, jobs[k].NextRun(next)) <= maxDelay
      invariant maxDelay == 0 || exists j | j in jobs :: Sub(now, j.NextRun(next)) == maxDelay
    {
      var delay := Sub(now, jobs[i].NextRun(next));
      if delay > maxDelay {
        maxDelay := delay;
      }
    }
  }

  /** The shortest time until a job that is not overdue is due, but a day at most. */
  method FindMinDeadline(jobs: seq<Job>, next: Cron, now: int) returns (minDeadline: int)
    ensures 0 <= minDeadline <= DAY
    ensures forall j | j in jobs && j.NextRun(next) >= now :: minDeadline <= Sub(j.NextRun(next), now)
    ensures minDeadline == DAY || exists j | j in jobs :: Sub(j.NextRun(next), now) == minDeadline
  {
    minDeadline := DAY;
    for i := 0 to |jobs|
      invariant 0 <= minDeadline <= DAY
      invariant forall k | 0 <= k < i && jobs[k].NextRun(next) >= now ::
        minDeadline <= Sub(jobs[k].NextRun(next), now)
      invariant minDeadline == DAY || exists j | j in jobs :: Sub(j.NextRun(next), now) == minDeadline
    {
      var delay := Sub(jobs[i].NextRun(next), now);
      if delay >= 0 && delay < minDeadline {
        minDeadline := delay;
      }
    }
  }

  // ---- What a round should do ----

  datatype Call = Revive | Suppress

  /**
   * What a round meets: the storage's answers, the clock as read by FindMaxDelay and by FindMinDeadline, whether
   * a revive token is there, and whether the call to Mesos succeeds.
   */
  datatype Input = Input(
    jobs: Result<seq<Job>, string>, queued: Result<seq<JobID>, string>,
    before: int, after: int, token: bool, callOK: bool)

  /** Some job is overdue by d at least. */
  predicate Overdue(jobs: seq<Job>, next: Cron, now: int, d: int) {
    exists j | j in jobs :: now - j.NextRun(next) >= d
  }

  /** Nothing is due: no job at the first reading, nor soon after the second but in the gap between the two. */
  predicate NothingSoon(jobs: seq<Job>, next: Cron, before: int, after: int) {
    forall j | j in jobs ::
      before <= j.NextRun(next) && (j.NextRun(next) < after || j.NextRun(next) - after > ROUND_INTERVAL / 4)
  }

  predicate WantsRevive(input: Input, next: Cron, suppressed: bool) {
    && input.jobs.Ok? && input.queued.Ok?
    && (|| input.queued.value != []
        || Overdue(input.jobs.value, next, input.before, MIN_DELAY_TO_REVIVE)
        || (suppressed && Overdue(input.jobs.value, next, input.before, 1)))
  }

  predicate WantsSuppress(input: Input, next: Cron, suppressed: bool) {
    && input.jobs.Ok? && input.queued == Ok([])
    && NothingSoon(input.jobs.value, next, input.before, input.after)
    && !suppressed
  }

  /** The call a round makes, if any. */
  function Chosen(input: Input, next: Cron, suppressed: bool): Option<Call> {
    if WantsRevive(input, next, suppressed) then (if input.token then Some(Revive) else None)
    else if WantsSuppress(input, next, suppressed) then Some(Suppress)
    else None
  }

  /**
   * A round revives offers just when it can read jobs and queue, a token is there, and a job is queued, or is a
   * minute overdue, or is overdue at all while offers are suppressed.
   */
  lemma ReviveIff(input: Input, next: Cron, suppressed: bool)
    ensures Chosen(input, next, suppressed) == Some(Revive) <==>
      && input.jobs.Ok? && input.queued.Ok? && input.token
      && (|| input.queued.value != []
          || (exists j | j in input.jobs.value :: input.before - j.NextRun(next) >= 60_000_000_000)
          || (suppressed && exists j | j in input.jobs.value :: j.NextRun(next) < input.before))
  {
    assert forall j: Job :: j.NextRun(next) < input.before <==> input.before - j.NextRun(next) >= 1;
  }

  /**
   * It suppresses offers just when they flow, it can read jobs and queue, no job is queued or overdue, and none is
   * due within 7.5 seconds of the second reading but in the gap between the two.
   */
  lemma SuppressIff(input: Input, next: Cron, suppressed: bool)
    ensures Chosen(input, next, suppressed) == Some(Suppress) <==>
      && !suppressed && input.jobs.Ok? && input.queued == Ok([])
      && (forall j | j in input.jobs.value :: j.NextRun(next) >= input.before)
      && forall j | j in input.jobs.value && j.NextRun(next) >= input.after ::
          j.NextRun(next) - input.after > 7_500_000_000
  {
    if input.jobs.Ok? {
      var jobs := input.jobs.value;
      assert Overdue(jobs, next, input.before, MIN_DELAY_TO_REVIVE) ==> Overdue(jobs, next, input.before, 1);
      if !Overdue(jobs, next, input.before, 1) {
        assert forall j | j in jobs :: input.before - j.NextRun(next) < 1;
      }
    }
  }

  /** The thresholds the code tests are the ones meant above. */
  lemma Thresholds(jobs: seq<Job>, next: Cron, before: int, after: int, maxDelay: int, minDeadline: int)
    requires maxDelay >= 0 && forall j | j in jobs :: Sub(before, j.NextRun(next)) <= maxDelay
    requires maxDelay == 0 || exists j | j in jobs :: Sub(before, j.NextRun(next)) == maxDelay
    requires forall j | j in jobs && j.NextRun(next) >= after :: minDeadline <= Sub(j.NextRun(next), after)
    requires minDeadline == DAY || exists j | j in jobs :: Sub(j.NextRun(next), after) == minDeadline
    requires 0 <= minDeadline
    ensures maxDelay >= MIN_DELAY_TO_REVIVE <==> Overdue(jobs, next, before, MIN_DELAY_TO_REVIVE)
    ensures maxDelay > 0 <==> Overdue(jobs, next, before, 1)
    ensures maxDelay == 0 && minDeadline > ROUND_INTERVAL / 4 <==> NothingSoon(jobs, next, before, after)
  {
    if maxDelay > 0 {
      var j :| j in jobs && Sub(before, j.NextRun(next)) == maxDelay;
      assert before - j.NextRun(next) >= maxDelay;
    }
    if minDeadline < DAY {
      var j :| j in jobs && Sub(j.NextRun(next), after) == minDeadline;
      assert j.NextRun(next) - after == minDeadline;
    }
  }

  /**
   * The call named in the package's own words, offers suppressed only while no task is to run soon, fails just
   * when a job becomes due between the two readings.
   */
  lemma SuppressedInVainIff(input: Input, next: Cron)
    requires WantsSuppress(input, next, false) && input.before <= input.after
    ensures (exists j | j in input.jobs.value :: j.NextRun(next) <= input.after + ROUND_INTERVAL / 4)
       <==> exists j | j in input.jobs.value :: input.before <= j.NextRun(next) < input.after
  {
    forall j | j in input.jobs.value && j.NextRun(next) <= input.after + ROUND_INTERVAL / 4
      ensures input.before <= j.NextRun(next) < input.after
    {
    }
  }

  /** It does happen: a job due at instant 1, read to be in the future at 0 and in the past at 2. */
  lemma SuppressedInVain(conf: JobConf) returns (input: Input, next: Cron)
    ensures WantsSuppress(input, next, false) && IsSchedule(next, (_, _) => true, conf.cron)
    ensures input.jobs.value != [] && input.jobs.value[0].NextRun(next) < input.after
  {
    next := (_, t) => t + 1;
    var job := Job(conf, JobRuntime(Idle, 0, "", "", 0));
    input := Input(Ok([job]), Ok([]), 0, 2, false, true);
    assert job.NextRun(next) == 1;
  }

  // ---- Rounds ----

  /** A call made, whether it succeeded, and what its round met; the call made at the start has no round. */
  datatype Sent = Sent(call: Call, ok: bool, during: Option<Input>)

  /** The last successful call. */
  function Last(sent: seq<Sent>): Option<Call> {
    if sent == [] then None
    else if sent[|sent| - 1].ok then Some(sent[|sent| - 1].call)
    else Last(sent[..|sent| - 1])
  }

  /** Every call but those at the start was chosen by its round, and SUPPRESS is sent only after offers flow. */
  ghost predicate Sound(next: Cron, sent: seq<Sent>) {
    forall k | 0 <= k < |sent| :: SoundEntry(next, sent[..k], sent[k])
  }

  predicate SoundEntry(next: Cron, before: seq<Sent>, entry: Sent) {
    && (entry.during.Some? ==> Chosen(entry.during.value, next, Last(before) == Some(Suppress)) == Some(entry.call))
    && (entry.call == Suppress ==> Last(before) == Some(Revive) && entry.during.Some?)
  }

  lemma SoundExtends(next: Cron, sent: seq<Sent>, entry: Sent)
    requires Sound(next, sent) && SoundEntry(next, sent, entry)
    ensures Sound(next, sent + [entry])
    ensures Last(sent + [entry]) == if entry.ok then Some(entry.call) else Last(sent)
  {
    var longer := sent + [entry];
    assert longer[..|sent|] == sent;
    forall k | 0 <= k < |longer| ensures SoundEntry(next, longer[..k], longer[k]) {
      assert k < |sent| ==> longer[..k] == sent[..k];
    }
  }

  lemma NothingSent(next: Cron)
    ensures Sound(next, []) && Last([]) == None
  {
  }

  lemma OpeningIsSound(next: Cron, sent: seq<Sent>, ok: bool)
    ensures SoundEntry(next, sent, Sent(Revive, ok, None))
  {
  }

  lemma ChosenIsSound(input: Input, next: Cron, sent: seq<Sent>)
    requires Last(sent).Some? && Chosen(input, next, Last(sent) == Some(Suppress)).Some?
    ensures var call := Chosen(input, next, Last(sent) == Some(Suppress)).value;
      SoundEntry(next, sent, Sent(call, input.callOK, Some(input)))
  {
    assert Last(sent).value == Revive || Last(sent).value == Suppress;
  }

  lemma {:induction false} LastIsThere(sent: seq<Sent>, n: nat) returns (k: nat)
    requires n <= |sent| && Last(sent[..n]).Some?
    ensures k < n && sent[k].ok && Some(sent[k].call) == Last(sent[..n])
    ensures forall i | k < i < n :: !sent[i].ok
  {
    if sent[n - 1].ok {
      k := n - 1;
    } else {
      assert sent[..n][..n - 1] == sent[..n - 1];
      k := LastIsThere(sent, n - 1);
    }
  }

  /** The first successful call is no SUPPRESS, and two of them always have a successful REVIVE between. */
  lemma ReviveBetween(next: Cron, sent: seq<Sent>, j: nat) returns (k: nat)
    requires Sound(next, sent) && j < |sent| && sent[j].call == Suppress
    ensures k < j && sent[k].ok && sent[k].call == Revive
    ensures forall i | 0 <= i < j && sent[i].ok && sent[i].call == Suppress :: i < k
  {
    assert SoundEntry(next, sent[..j], sent[j]);
    k := LastIsThere(sent, j);
    forall i | 0 <= i < j && sent[i].ok && sent[i].call == Suppress ensures i < k {
    }
  }

  /** The calls made at the start: REVIVE until it succeeds. */
  function Opening(reviveOK: seq<bool>): seq<Sent> {
    if reviveOK == [] then []
    else if reviveOK[0] then [Sent(Revive, true, None)]
    else [Sent(Revive, false, None)] + Opening(reviveOK[1..])
  }

  /** `sent` are the calls made at the start by the time i of them have been tried. */
  predicate OpenedSoFar(sent: seq<Sent>, reviveOK: seq<bool>, i: nat, started: bool)
    requires i <= |reviveOK|
  {
    sent + (if started then [] else Opening(reviveOK[i..])) == Opening(reviveOK)
  }

  lemma OpeningContinues(sent: seq<Sent>, reviveOK: seq<bool>, i: nat)
    requires i < |reviveOK| && OpenedSoFar(sent, reviveOK, i, false)
    ensures OpenedSoFar(sent + [Sent(Revive, reviveOK[i], None)], reviveOK, i + 1, reviveOK[i])
  {
    assert reviveOK[i..][1..] == reviveOK[i + 1..];
  }

  lemma OpeningEnds(sent: seq<Sent>, reviveOK: seq<bool>, i: nat, started: bool)
    ensures OpenedSoFar([], reviveOK, 0, false)
    ensures i <= |reviveOK| && (started || i == |reviveOK|) && OpenedSoFar(sent, reviveOK, i, started) ==>
      sent == Opening(reviveOK)
  {
    assert reviveOK[0..] == reviveOK;
  }

  /** The calls made by the end of a round; offers are suppressed while the last successful call is SUPPRESS. */
  function AfterRound(next: Cron, sent: seq<Sent>, input: Input): seq<Sent> {
    match Chosen(input, next, Last(sent) == Some(Suppress))
    case None => sent
    case Some(call) => sent + [Sent(call, input.callOK, Some(input))]
  }

  /** The calls made by the end of all rounds. */
  function AfterRounds(next: Cron, sent: seq<Sent>, rounds: seq<Input>): seq<Sent> {
    if rounds == [] then sent
    else AfterRound(next, AfterRounds(next, sent, rounds[..|rounds| - 1]), rounds[|rounds| - 1])
  }

  /** What REVIVE and SUPPRESS entries say of the jobs, the queue and the calls before them. */
  lemma EntriesMean(next: Cron, sent: seq<Sent>, k: nat)
    requires Sound(next, sent) && k < |sent|
    ensures sent[k].call == Revive && sent[k].during.Some? ==>
      var input := sent[k].during.value;
      && input.token && input.jobs.Ok? && input.queued.Ok?
      && (|| input.queued.value != []
          || (exists j | j in input.jobs.value :: input.before - j.NextRun(next) >= 60_000_000_000)
          || (Last(sent[..k]) == Some(Suppress) && exists j | j in input.jobs.value :: j.NextRun(next) < input.before))
    ensures sent[k].call == Suppress ==>
      && Last(sent[..k]) == Some(Revive) && sent[k].during.Some?
      && var input := sent[k].during.value;
      && input.jobs.Ok? && input.queued == Ok([])
      && (forall j | j in input.jobs.value :: j.NextRun(next) >= input.before)
      && forall j | j in input.jobs.value && j.NextRun(next) >= input.after ::
          j.NextRun(next) - input.after > 7_500_000_000
  {
    if sent[k].during.Some? {
      ReviveIff(sent[k].during.value, next, Last(sent[..k]) == Some(Suppress));
      SuppressIff(sent[k].during.value, next, Last(sent[..k]) == Some(Suppress));
    }
  }

  lemma AppendingDiffers(sent: seq<Sent>)
    ensures forall a :: sent + [a] != sent
    ensures forall a, b | sent + [a] == sent + [b] :: a == b
  {
    forall a ensures sent + [a] != sent {
      assert |sent + [a]| == |sent| + 1;
    }
    forall a, b | sent + [a] == sent + [b] ensures a == b {
      assert (sent + [a])[|sent|] == a && (sent + [b])[|sent|] == b;
    }
  }

  class Tuner {
    const next: Cron
    /** The calls made, in order. */
    ghost var sent: seq<Sent>

    constructor (next: Cron)
      ensures this.next == next && sent == []
    {
      this.next := next;
      sent := [];
    }

    method Send(call: Call, ok: bool, ghost during: Option<Input>) returns (err: bool)
      modifies this
      ensures sent == old(sent) + [Sent(call, ok, during)] && err == !ok
    {
      sent := sent + [Sent(call, ok, during)];
      err := !ok;
    }

    method Round(input: Input, suppressed: bool) returns (now: bool, err: bool)
      modifies this
      ensures Chosen(input, next, suppressed).None? ==> sent == old(sent) && now == suppressed
      ensures Chosen(input, next, suppressed).Some? ==>
        var call := Chosen(input, next, suppressed).value;
        && sent == old(sent) + [Sent(call, input.callOK, Some(input))]
        && now == if input.callOK then call == Suppress else suppressed
      ensures sent == old(sent) + [Sent(Revive, input.callOK, Some(input))] <==>
        && input.jobs.Ok? && input.queued.Ok? && input.token
        && (|| input.queued.value != []
            || (exists j | j in input.jobs.value :: input.before - j.NextRun(next) >= 60_000_000_000)
            || (suppressed && exists j | j in input.jobs.value :: j.NextRun(next) < input.before))
      ensures sent == old(sent) + [Sent(Suppress, input.callOK, Some(input))] <==>
        && !suppressed && input.jobs.Ok? && input.queued == Ok([])
        && (forall j | j in input.jobs.value :: j.NextRun(next) >= input.before)
        && forall j | j in input.jobs.value && j.NextRun(next) >= input.after ::
            j.NextRun(next) - input.after > 7_500_000_000
      ensures err <==>
        || input.jobs.Err? || input.queued.Err?
        || (Chosen(input, next, suppressed).Some? && !input.callOK)
    {
      ReviveIff(input, next, suppressed);
      SuppressIff(input, next, suppressed);
      AppendingDiffers(sent);
      now, err := suppressed, false;
      if input.jobs.Err? || input.queued.Err? {
        return suppressed, true;
      }
      var maxDelay;
      if |input.queued.value| > 0 {
        maxDelay := MIN_DELAY_TO_REVIVE;
      } else {
        maxDelay := FindMaxDelay(input.jobs.value, next, input.before);
      }
      var minDeadline := FindMinDeadline(input.jobs.value, next, input.after);
      if |input.queued.value| == 0 {
        Thresholds(input.jobs.value, next, input.before, input.after, maxDelay, minDeadline);
      }
      if maxDelay >= MIN_DELAY_TO_REVIVE || (suppressed && maxDelay > 0) {
        if input.token {
          err := Send(Revive, input.callOK, Some(input));
          if !err {
            now := false;
          }
        }
      } else if maxDelay == 0 && minDeadline > ROUND_INTERVAL / 4 && !suppressed {
        err := Send(Suppress, input.callOK, Some(input));
        if !err {
          now := true;
        }
      }
    }

    /** Revives offers until that succeeds. */
    method Start(reviveOK: seq<bool>) returns (started: bool)
      requires sent == []
      modifies this
      ensures sent == Opening(reviveOK) && Sound(next, sent)
      ensures started == (true in reviveOK) && Last(sent) == if started then Some(Revive) else None
      ensures forall k | 0 <= k < |sent| :: sent[k].during.None? && sent[k].call == Revive
      ensures !started ==> forall k | 0 <= k < |sent| :: !sent[k].ok
    {
      hide Sound, SoundEntry, Last, Opening, OpenedSoFar;
      NothingSent(next);
      OpeningEnds(sent, reviveOK, 0, false);
      var i := 0;
      started := false;
      while i < |reviveOK| && !started
        invariant i <= |reviveOK|
        invariant Sound(next, sent)
        invariant OpenedSoFar(sent, reviveOK, i, started)
        invariant Last(sent) == if started then Some(Revive) else None
        invariant started <==> exists k | 0 <= k < i :: reviveOK[k]
        invariant forall k | 0 <= k < |sent| :: sent[k].during.None? && sent[k].call == Revive
        invariant !started ==> forall k | 0 <= k < |sent| :: !sent[k].ok
      {
        OpeningIsSound(next, sent, reviveOK[i]);
        SoundExtends(next, sent, Sent(Revive, reviveOK[i], None));
        OpeningContinues(sent, reviveOK, i);
        var err := Send(Revive, reviveOK[i], None);
        started := !err;
        i := i + 1;
      }
      OpeningEnds(sent, reviveOK, i, started);
    }

    /**
     * The goroutine: revives offers until that succeeds, then goes through the given rounds. Its flag is set
     * exactly when the last successful call is SUPPRESS.
     */
    method Run(reviveOK: seq<bool>, rounds: seq<Input>) returns (suppressed: bool)
      requires sent == []
      modifies this
      ensures Sound(next, sent)
      ensures sent == if true in reviveOK then AfterRounds(next, Opening(reviveOK), rounds) else Opening(reviveOK)
      ensures suppressed <==> Last(sent) == Some(Suppress)
      ensures true !in reviveOK ==> forall k | 0 <= k < |sent| :: !sent[k].ok && sent[k].call == Revive
      ensures true in reviveOK ==> Last(sent).Some?
      ensures forall k | 0 <= k < |sent| && sent[k].during.Some? :: sent[k].during.value in rounds
    {
      hide Sound, SoundEntry, Last, Chosen, Opening;
      var started := Start(reviveOK);
      suppressed := false;
      if !started {
        return;
      }
      for n := 0 to |rounds|
        invariant Sound(next, sent)
        invariant sent == AfterRounds(next, Opening(reviveOK), rounds[..n])
        invariant Last(sent) == Some(if suppressed then Suppress else Revive)
        invariant forall k | 0 <= k < |sent| && sent[k].during.Some? :: sent[k].during.value in rounds
      {
        var call := Chosen(rounds[n], next, suppressed);
        if call.Some? {
          ChosenIsSound(rounds[n], next, sent);
          SoundExtends(next, sent, Sent(call.value, rounds[n].callOK, Some(rounds[n])));
        }
        assert rounds[..n + 1][..n] == rounds[..n];
        var err;
        suppressed, err := Round(rounds[n], suppressed);
      }
      assert rounds[..|rounds|] == rounds;
    }
  }
}
