/** Jobs, their identifiers, and the rules that say when a job is due (model/model.go). */
module JobModel {
  import opened Wrappers
  import opened Text

  // ---- Identifiers ----

  datatype JobID = JobID(group: string, project: string, id: string) {
    function String(): string {
      group + ":" + project + ":" + id
    }

    /** No separator in any part; implied by the API's name pattern. */
    predicate WellFormed() {
      ':' !in group && ':' !in project && ':' !in id
    }
  }

  function ParseJobID(v: string): Result<JobID, string>
  {
    var chunks := Split(v, ':');
    if |chunks| != 3 then Err("Invalid number of chunks")
    else Ok(JobID(chunks[0], chunks[1], chunks[2]))
  }

  lemma JobIDIsJoin(jid: JobID)
    ensures jid.String() == Join([jid.group, jid.project, jid.id], ':')
  {
    var parts := [jid.group, jid.project, jid.id];
    assert parts[1..] == [jid.project, jid.id] && parts[1..][1..] == [jid.id];
    assert Join([jid.project, jid.id], ':') == jid.project + ":" + jid.id;
    assert jid.group + ":" + (jid.project + ":" + jid.id) == jid.String();
  }

  /** A printed ID parses back exactly when none of its parts holds the separator. */
  lemma JobIDRoundTrip(jid: JobID)
    ensures ParseJobID(jid.String()) == Ok(jid) <==> jid.WellFormed()
  {
    JobIDIsJoin(jid);
    if jid.WellFormed() {
      SplitJoin([jid.group, jid.project, jid.id], ':');
    } else {
      var chunks := Split(jid.String(), ':');
      assert forall i | 0 <= i < |chunks| :: ':' !in chunks[i];
    }
  }

  /** Whatever parses was printed from the parsed ID, which is then well formed. */
  lemma ParsedJobID(v: string)
    requires ParseJobID(v).Ok?
    ensures ParseJobID(v).value.String() == v && ParseJobID(v).value.WellFormed()
  {
    var chunks := Split(v, ':');
    JoinSplit(v, ':');
    JobIDIsJoin(ParseJobID(v).value);
    assert chunks == [chunks[0], chunks[1], chunks[2]];
    assert chunks[0] in chunks && chunks[1] in chunks && chunks[2] in chunks;
  }

  /** Well-formed IDs never share a printed form, so it can be used as a key. */
  lemma JobIDInjective(a: JobID, b: JobID)
    requires a.WellFormed() && b.WellFormed() && a.String() == b.String()
    ensures a == b
  {
    JobIDRoundTrip(a);
    JobIDRoundTrip(b);
  }

  /** A task ID is its job's ID, the separator, and a UUID (mesos/jobsscheduler/jobsscheduler.go). */
  function TaskIDString(jid: JobID, uuid: string): string {
    jid.String() + ":" + uuid
  }

  function ParseTaskID(tid: string): Result<JobID, string>
  {
    var idx := LastIndex(tid, ':');
    if idx == -1 then Err("Task ID separator not found") else ParseJobID(tid[..idx])
  }

  lemma {:induction false} LastIndexOf(a: string, s: string)
    requires ':' !in s
    ensures LastIndex(a + ":" + s, ':') == |a|
  {
    if s != "" {
      LastIndexOf(a, s[..|s| - 1]);
      assert (a + ":" + s)[..|a| + |s|] == a + ":" + s[..|s| - 1];
    }
  }

  /** A task ID parses back to its job exactly when the job's ID is well formed. */
  lemma TaskIDRoundTrip(jid: JobID, uuid: string)
    requires ':' !in uuid
    ensures ParseTaskID(TaskIDString(jid, uuid)) == Ok(jid) <==> jid.WellFormed()
    ensures TaskIDString(jid, uuid) != ""
  {
    LastIndexOf(jid.String(), uuid);
    assert TaskIDString(jid, uuid)[..|jid.String()|] == jid.String();
    JobIDRoundTrip(jid);
  }

  /** Task IDs differ as soon as their jobs or their UUIDs do. */
  lemma TaskIDInjective(a: JobID, u: string, b: JobID, v: string)
    requires a.WellFormed() && b.WellFormed() && ':' !in u && ':' !in v
    ensures TaskIDString(a, u) == TaskIDString(b, v) <==> a == b && u == v
  {
    TaskIDRoundTrip(a, u);
    TaskIDRoundTrip(b, v);
    var n := |a.String()| + 1;
    assert TaskIDString(a, u)[n..] == u;
    if a == b {
      assert TaskIDString(b, v)[n..] == v;
    }
  }

  // ---- Jobs ----

  datatype State = Idle | Staging | Starting | Running | Failed

  /** Launched and not known to have ended. */
  predicate IsActive(st: State) {
    st == Staging || st == Starting || st == Running
  }

  /** `launch` stands for the fields only newTaskInfo reads (command, environment, container, ...). */
  datatype JobConf = JobConf(
    jid: JobID, cron: string, cpus: real, mem: real, disk: real, maxRetries: int, launch: string)
  {
    function FQID(): string { jid.String() }

    /** What the API's schema accepts for a new job. */
    predicate Acceptable() {
      jid.WellFormed() && cpus > 0.0 && mem > 0.0 && disk >= 0.0 && maxRetries >= 0
    }
  }

  /** Instants are counted in nanoseconds; ZERO_TIME is Go's zero time, before every reading of a clock. */
  const ZERO_TIME: int := -62135596800000000000

  datatype JobRuntime = JobRuntime(
    state: State, lastStart: int, currentTaskID: string, currentAgentID: string, retries: int)

  /** Runtime of a newly created job. */
  const FRESH_RUNTIME := JobRuntime(Idle, ZERO_TIME, "", "", 0)

  /** The cron library's Next: schedule text and instant to the following schedule point. */
  type Cron = (string, int) -> int

  datatype Job = Job(conf: JobConf, rt: JobRuntime) {
    function FQID(): string { conf.FQID() }

    predicate IsRetryable() {
      rt.state == Failed && rt.retries < conf.maxRetries
    }

    function NextRun(next: Cron): int {
      if IsRetryable() then rt.lastStart else next(conf.cron, rt.lastStart)
    }

    predicate IsRunnable(next: Cron, now: int) {
      (rt.state == Idle || rt.state == Failed) && NextRun(next) < now
    }
  }

  /** The contract of the cron library: Next(t) is the least schedule point strictly after t. */
  ghost predicate IsSchedule(next: Cron, points: (string, int) -> bool, cron: string) {
    forall t: int {:trigger next(cron, t)} ::
      && t < next(cron, t)
      && points(cron, next(cron, t))
      && forall u | t < u < next(cron, t) :: !points(cron, u)
  }

  // ---- Durations ----

  const MAX_DURATION: int := 0x7fff_ffff_ffff_ffff
  const MIN_DURATION: int := -0x8000_0000_0000_0000
  const SECOND: int := 1_000_000_000
  const MINUTE: int := 60 * SECOND

  /** Time.Sub: the difference, clamped to the range of a 64-bit Duration. */
  function Sub(t: int, u: int): int
  {
    if t - u > MAX_DURATION then MAX_DURATION
    else if t - u < MIN_DURATION then MIN_DURATION
    else t - u
  }
}
