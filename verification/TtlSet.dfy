/** A clock that never goes backwards. */
module Clocks {
  class Clock {
    var now: int

    constructor (start: int)
      ensures now == start
    {
      now := start;
    }

    /** Any amount of time may pass between two readings. */
    method Now() returns (t: int)
      modifies this
      ensures t == now && t >= old(now)
    {
      var elapsed: int :| elapsed >= 0;
      now := now + elapsed;
      t := now;
    }
  }
}

/**
 * The set of booked jobs: entries stop counting after a time to live, and a background cleanup throws
 * out the stale ones (mesos/jobsscheduler/ttlmap.go).
 */
module TtlSets {
  import opened Clocks
  import opened JobModel

  type Entries = map<string, int>

  /** The entry is older than ttl at instant `at`. */
  predicate Expired(m: Entries, ttl: int, k: string, at: int)
    requires k in m
  {
    Sub(at, m[k]) > ttl
  }

  predicate ExistsAt(m: Entries, ttl: int, k: string, at: int) {
    k in m && Sub(at, m[k]) <= ttl
  }

  class TtlSet {
    var m: Entries
    const ttl: int
    const clock: Clock

    constructor (ttl: int, clock: Clock)
      ensures m == map[] && this.ttl == ttl && this.clock == clock
    {
      m := map[];
      this.ttl := ttl;
      this.clock := clock;
    }

    method Exists(k: string) returns (found: bool, ghost at: int)
      modifies clock
      ensures old(clock.now) <= at <= clock.now
      ensures found == ExistsAt(m, ttl, k, at)
    {
      at := clock.now;
      if k !in m {
        return false, at;
      }
      var now := clock.Now();
      at := now;
      found := Sub(now, m[k]) <= ttl;
    }

    method Set(k: string) returns (ghost at: int)
      modifies this, clock
      ensures old(clock.now) <= at <= clock.now
      ensures m == old(m)[k := at]
    {
      var now := clock.Now();
      at := now;
      m := m[k := now];
    }

    method Del(k: string)
      modifies this
      ensures m == old(m) - {k}
    {
      m := m - {k};
    }

    /** Removes only expired entries, and every entry that had expired when the pass began. */
    method Cleanup() returns (ghost removed: set<string>)
      modifies this, clock
      ensures clock.now >= old(clock.now)
      ensures m == old(m) - removed && removed <= old(m).Keys
      ensures forall k | k in removed :: Expired(old(m), ttl, k, clock.now)
      ensures forall k | k in old(m) && Expired(old(m), ttl, k, old(clock.now)) :: k in removed
    {
      removed := {};
      var rest := m.Keys;
      while rest != {}
        invariant clock.now >= old(clock.now)
        invariant rest <= m.Keys
        invariant m == old(m) - removed && removed <= old(m).Keys
        invariant forall k | k in removed :: Expired(old(m), ttl, k, clock.now)
        invariant forall k | k in old(m) && Expired(old(m), ttl, k, old(clock.now)) :: k in removed || k in rest
        decreases rest
      {
        var k :| k in rest;
        rest := rest - {k};
        var now := clock.Now();
        if Sub(now, m[k]) > ttl {
          m := m - {k};
          removed := removed + {k};
        }
      }
    }
  }

  // ---- Traces ----

  datatype Op =
    | SetOp(k: string, at: int)
    | DelOp(k: string)
    | ExistsOp(k: string, at: int)
    | CleanupOp(removed: set<string>, at: int)

  function After(m: Entries, op: Op): Entries {
    match op
    case SetOp(k, at) => m[k := at]
    case DelOp(k) => m - {k}
    case ExistsOp(_, _) => m
    case CleanupOp(removed, _) => m - removed
  }

  function Time(op: Op, now: int): int {
    match op
    case SetOp(_, at) => at
    case DelOp(_) => now
    case ExistsOp(_, at) => at
    case CleanupOp(_, at) => at
  }

  /** The clock never goes backwards, and a cleanup removes only what has expired by then. */
  ghost predicate Legal(m: Entries, ttl: int, ops: seq<Op>, now: int)
    decreases |ops|
  {
    |ops| == 0 ||
    var op := ops[0];
    && now <= Time(op, now)
    && (op.CleanupOp? ==> forall k | k in op.removed :: k in m && Expired(m, ttl, k, op.at))
    && Legal(After(m, op), ttl, ops[1..], Time(op, now))
  }

  /** What the Exists calls of a trace answer, in order. */
  function Answers(m: Entries, ttl: int, ops: seq<Op>): seq<bool>
    decreases |ops|
  {
    if |ops| == 0 then []
    else
      (if ops[0].ExistsOp? then [ExistsAt(m, ttl, ops[0].k, ops[0].at)] else [])
      + Answers(After(m, ops[0]), ttl, ops[1..])
  }

  function WithoutCleanups(ops: seq<Op>): seq<Op> {
    if |ops| == 0 then []
    else (if ops[0].CleanupOp? then [] else [ops[0]]) + WithoutCleanups(ops[1..])
  }

  /** m has lost nothing but entries of n that have expired by `now`. */
  ghost predicate Shadows(m: Entries, n: Entries, ttl: int, now: int) {
    && (forall k | k in m :: k in n && n[k] == m[k])
    && forall k | k in n && k !in m :: Expired(n, ttl, k, now)
  }

  /** Cleanup is invisible: no answer of any trace changes when all its cleanups are left out. */
  lemma CleanupInvisible(ttl: int, ops: seq<Op>, now: int)
    requires Legal(map[], ttl, ops, now)
    ensures Answers(map[], ttl, WithoutCleanups(ops)) == Answers(map[], ttl, ops)
  {
    ShadowAnswers(map[], map[], ttl, ops, now);
  }

  lemma {:induction false} ShadowAnswers(m: Entries, n: Entries, ttl: int, ops: seq<Op>, now: int)
    requires Legal(m, ttl, ops, now) && Shadows(m, n, ttl, now)
    ensures Answers(n, ttl, WithoutCleanups(ops)) == Answers(m, ttl, ops)
    decreases |ops|
  {
    if |ops| > 0 {
      var op := ops[0];
      var n' := if op.CleanupOp? then n else After(n, op);
      ShadowAnswers(After(m, op), n', ttl, ops[1..], Time(op, now));
      var kept := WithoutCleanups(ops);
      if op.CleanupOp? {
        assert kept == WithoutCleanups(ops[1..]);
      } else {
        assert kept[0] == op && kept[1..] == WithoutCleanups(ops[1..]);
      }
    }
  }
}
