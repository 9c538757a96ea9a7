/** The hourly removal of old task records (storage/zk/zk.go). */
module TaskCleanups {
  import opened Wrappers
  import opened Text
  import opened JobModel
  import opened Clocks
  import opened Contexts
  import opened ZkTrees
  import opened ZkConns
  import opened StorageSpec
  import opened Storages

  /** The timestamp in a record's key. */
  function Stamp(key: string): Option<int> { ParseInt(Before(key, '@')) }

  /** For any task ID, the timestamp read back is the second at which the run ended. */
  lemma StampOfTaskKey(task: Task)
    requires MIN_INT64 <= task.end / SECOND <= MAX_INT64
    ensures Stamp(TaskKey(task)) == Some(task.end / SECOND)
  {
    var n := task.end / SECOND;
    assert '@' !in FormatInt(n) by {
      assert !IsDigit('@');
    }
    BeforeOf(FormatInt(n), task.taskID, '@');
    assert TaskKey(task) == FormatInt(n) + ['@'] + task.taskID;
    ParseFormatInt(n);
  }

  /** By the second in its key, the record is older than ttl at instant `at`. */
  predicate IsOld(key: string, ttl: int, at: int) {
    Stamp(key).Some? && Sub(at, Stamp(key).value * SECOND) > ttl
  }

  /** The end of a run, in whole seconds. */
  function EndSecond(task: Task): int { task.end - task.end % SECOND }

  /** The second in which the run ended is one a 64-bit integer can count. */
  predicate Stampable(task: Task) { MIN_INT64 <= task.end / SECOND <= MAX_INT64 }

  /** The record of a run is old once the time since the second in which the run ended is more than ttl. */
  lemma OldByItsEnd(task: Task, ttl: int, at: int)
    requires Stampable(task)
    ensures IsOld(TaskKey(task), ttl, at) <==> Sub(at, EndSecond(task)) > ttl
  {
    StampOfTaskKey(task);
    assert task.end / SECOND * SECOND == EndSecond(task);
  }

  /** Two runs share a key exactly when they have the same task ID and ended in the same second. */
  lemma SameKeyIff(a: Task, b: Task)
    requires Stampable(a) && Stampable(b)
    ensures TaskKey(a) == TaskKey(b) <==> a.taskID == b.taskID && EndSecond(a) == EndSecond(b)
  {
    StampOfTaskKey(a);
    StampOfTaskKey(b);
    assert a.end / SECOND * SECOND == EndSecond(a) && b.end / SECOND * SECOND == EndSecond(b);
    if TaskKey(a) == TaskKey(b) {
      var n := |FormatInt(a.end / SECOND)|;
      assert TaskKey(a)[n + 1..] == a.taskID && TaskKey(b)[n + 1..] == b.taskID;
    }
  }

  predicate IsOldRecord(dir: string, p: Path, ttl: int, at: int) {
    && p.Child? && p.name.Name? && IsOld(p.name.name, ttl, at)
    && p.parent.Child? && p.parent.name == Tasks
    && p.parent.parent.Child? && p.parent.parent.name.Name? && p.parent.parent.parent == JobsPath(dir)
  }

  /** Nothing was added or changed, and only records that were old by `at` are missing. */
  ghost predicate LosesOldRecords(dir: string, before: Tree, after: Tree, ttl: int, at: int) {
    && (forall p | p in after :: p in before && after[p] == before[p])
    && forall p | p in before && p !in after :: IsOldRecord(dir, p, ttl, at)
  }

  /** Records of runs that ended no longer than ttl before `at` are still there, unchanged. */
  ghost predicate KeepsRecent(dir: string, before: Tree, after: Tree, ttl: int, at: int) {
    forall id, task |
      Stampable(task) && TaskPath(dir, id, TaskKey(task)) in before && Sub(at, EndSecond(task)) <= ttl ::
      var p := TaskPath(dir, id, TaskKey(task));
      p in after && after[p] == before[p]
  }

  /** Records of runs that ended longer than ttl before `from` are gone. */
  ghost predicate DropsOld(dir: string, after: Tree, ttl: int, from: int) {
    forall id, task | Stampable(task) && Sub(from, EndSecond(task)) > ttl :: TaskPath(dir, id, TaskKey(task)) !in after
  }

  lemma RecentStay(dir: string, before: Tree, after: Tree, ttl: int, at: int)
    requires LosesOldRecords(dir, before, after, ttl, at)
    ensures KeepsRecent(dir, before, after, ttl, at)
  {
    forall id, task | Stampable(task) && TaskPath(dir, id, TaskKey(task)) in before && Sub(at, EndSecond(task)) <= ttl
      ensures TaskPath(dir, id, TaskKey(task)) in after
    {
      OldByItsEnd(task, ttl, at);
    }
  }

  lemma OldGo(dir: string, before: Tree, after: Tree, ttl: int, from: int)
    requires Layout(dir, after) && forall p | p in after :: p in before
    requires forall id | Child(JobsPath(dir), id) in before :: Cleaned(dir, after, id, ttl, from)
    ensures DropsOld(dir, after, ttl, from)
  {
    forall id, task | Stampable(task) && Sub(from, EndSecond(task)) > ttl
      ensures TaskPath(dir, id, TaskKey(task)) !in after
    {
      OldByItsEnd(task, ttl, from);
      var p := TaskPath(dir, id, TaskKey(task));
      assert p == RecordPath(dir, Name(id), TaskKey(task));
      if p in after {
        assert p.parent in after && p.parent.parent in after;
        assert Cleaned(dir, after, Name(id), ttl, from);
      }
    }
  }

  function RecordPath(dir: string, id: Component, key: string): Path {
    Child(Child(Child(JobsPath(dir), id), Tasks), Name(key))
  }

  /** None of the job's records that were old at `from` is left. */
  ghost predicate Cleaned(dir: string, after: Tree, id: Component, ttl: int, from: int) {
    forall key | IsOld(key, ttl, from) :: RecordPath(dir, id, key) !in after
  }

  lemma LosesMore(dir: string, t1: Tree, t2: Tree, t3: Tree, ttl: int, at: int, later: int)
    requires at <= later && LosesOldRecords(dir, t1, t2, ttl, at) && LosesOldRecords(dir, t2, t3, ttl, later)
    ensures LosesOldRecords(dir, t1, t3, ttl, later)
  {
  }

  lemma StayCleaned(dir: string, before: Tree, after: Tree, ttl: int, at: int, jobIDs: seq<Component>, from: int)
    requires LosesOldRecords(dir, before, after, ttl, at)
    ensures forall p | p in after :: p in before
    ensures forall id | id in jobIDs && Cleaned(dir, before, id, ttl, from) :: Cleaned(dir, after, id, ttl, from)
  {
  }

  lemma CleanedEarlier(dir: string, after: Tree, ttl: int, id: Component, from: int, at: int)
    requires from <= at && Cleaned(dir, after, id, ttl, at)
    ensures Cleaned(dir, after, id, ttl, from)
  {
    forall key | IsOld(key, ttl, from) ensures IsOld(key, ttl, at) {}
  }

  lemma LosesNoRecords(dir: string, t: Tree, ttl: int, at: int)
    ensures LosesOldRecords(dir, t, t, ttl, at)
  {
  }

  lemma JobIsNamed(dir: string, t: Tree, jobIDs: seq<Component>, i: nat)
    requires Layout(dir, t) && i < |jobIDs| && forall c | c in jobIDs :: c in Children(t, JobsPath(dir))
    ensures jobIDs[i].Name?
  {
    ChildrenOf(t, JobsPath(dir));
    assert jobIDs[i] in jobIDs;
    assert WellPlaced(dir, Child(JobsPath(dir), jobIDs[i]), t[Child(JobsPath(dir), jobIDs[i])]);
  }

  lemma RecordIsNamed(dir: string, t: Tree, id: string, key: Component)
    requires Layout(dir, t) && key in Children(t, TasksPath(dir, id))
    ensures key.Name?
  {
    ChildrenOf(t, TasksPath(dir, id));
    assert WellPlaced(dir, Child(TasksPath(dir, id), key), t[Child(TasksPath(dir, id), key)]);
  }

  /** None of the first n listed records that were old at `from` is left. */
  ghost predicate CleanedSoFar(dir: string, t: Tree, id: string, keys: seq<Component>, n: nat, ttl: int, from: int)
    requires n <= |keys|
  {
    forall j | 0 <= j < n && keys[j].Name? && IsOld(keys[j].name, ttl, from) :: Child(TasksPath(dir, id), keys[j]) !in t
  }

  lemma NoneCleaned(dir: string, t: Tree, id: string, keys: seq<Component>, ttl: int, from: int)
    ensures CleanedSoFar(dir, t, id, keys, 0, ttl, from)
  {
  }

  lemma CleanedMore(
    dir: string, before: Tree, after: Tree, id: string, keys: seq<Component>, n: nat,
    ttl: int, from: int, at: int, now: int)
    requires n < |keys| && from <= at && CleanedSoFar(dir, before, id, keys, n, ttl, from)
    requires LosesOldRecords(dir, before, after, ttl, now)
    requires keys[n].Name? && IsOld(keys[n].name, ttl, at) ==> TaskPath(dir, id, keys[n].name) !in after
    ensures CleanedSoFar(dir, after, id, keys, n + 1, ttl, from)
  {
  }

  lemma AllCleaned(
    dir: string, before: Tree, after: Tree, id: string, keys: seq<Component>, ttl: int, from: int, now: int)
    requires LosesOldRecords(dir, before, after, ttl, now) && CleanedSoFar(dir, after, id, keys, |keys|, ttl, from)
    requires forall c :: c in keys <==> c in Children(before, TasksPath(dir, id))
    ensures Cleaned(dir, after, Name(id), ttl, from)
  {
    ChildrenOf(before, TasksPath(dir, id));
    forall key | IsOld(key, ttl, from) ensures RecordPath(dir, Name(id), key) !in after {
      assert Child(TasksPath(dir, id), Name(key)) in before ==> Name(key) in keys;
    }
  }

  class Cleaner {
    const dir: string
    const conn: Conn
    const taskTTL: int
    const clock: Clock

    constructor (dir: string, conn: Conn, taskTTL: int, clock: Clock)
      ensures this.dir == dir && this.conn == conn && this.taskTTL == taskTTL && this.clock == clock
    {
      this.dir, this.conn, this.taskTTL, this.clock := dir, conn, taskTTL, clock;
    }

    ghost predicate Valid()
      reads conn
    {
      Layout(dir, conn.tree)
    }

    /** One record; `clean` says that no call failed. */
    method CleanRecord(id: string, key: string) returns (removed: bool, ghost clean: bool)
      requires Valid()
      modifies conn, clock
      ensures Valid() && clock.now >= old(clock.now)
      ensures conn.tree == old(conn.tree) || conn.tree == old(conn.tree) - {TaskPath(dir, id, key)}
      ensures conn.tree != old(conn.tree) ==> IsOld(key, taskTTL, clock.now)
      ensures LosesOldRecords(dir, old(conn.tree), conn.tree, taskTTL, clock.now)
      ensures removed ==> TaskPath(dir, id, key) in old(conn.tree) && TaskPath(dir, id, key) !in conn.tree
      ensures clean && !removed ==> conn.tree == old(conn.tree)
      ensures clean && IsOld(key, taskTTL, old(clock.now)) ==> TaskPath(dir, id, key) !in conn.tree
      ensures conn.reliable ==> clean
    {
      removed, clean := false, true;
      var timestamp := ParseInt(Before(key, '@'));
      if timestamp.None? {
        return;
      }
      var now := clock.Now();
      if Sub(now, timestamp.value * SECOND) > taskTTL {
        if TaskPath(dir, id, key) in conn.tree {
          RecordIsLeaf(dir, conn.tree, id, Name(key));
        }
        var err := conn.Delete(TaskPath(dir, id, key), 0);
        removed := err.None?;
        clean := err != Some(ConnectionLoss);
      }
    }

    /** The listed records of one job; `stopped` when the context is cancelled. */
    method CleanRecords(ctx: Context, id: string, keys: seq<Component>)
      returns (deleted: nat, stopped: bool, ghost clean: bool)
      requires Valid() && forall c :: c in keys <==> c in Children(conn.tree, TasksPath(dir, id))
      modifies conn, clock, ctx
      ensures Valid() && clock.now >= old(clock.now)
      ensures LosesOldRecords(dir, old(conn.tree), conn.tree, taskTTL, clock.now)
      ensures deleted + |conn.tree| <= |old(conn.tree)|
      ensures clean ==> deleted + |conn.tree| == |old(conn.tree)|
      ensures clean && !stopped ==> Cleaned(dir, conn.tree, Name(id), taskTTL, old(clock.now))
      ensures (conn.reliable ==> clean) && (stopped ==> ctx.cancelled)
      ensures ctx.lasting ==> ctx.cancelled == old(ctx.cancelled)
    {
      hide LosesOldRecords, Layout, CleanedSoFar, Cleaned, IsOld;
      deleted, stopped, clean := 0, false, true;
      ghost var t, from := conn.tree, clock.now;
      LosesNoRecords(dir, t, taskTTL, from);
      NoneCleaned(dir, t, id, keys, taskTTL, from);
      for i := 0 to |keys|
        invariant Valid() && clock.now >= from
        invariant LosesOldRecords(dir, t, conn.tree, taskTTL, clock.now)
        invariant deleted + |conn.tree| <= |t|
        invariant clean ==> deleted + |conn.tree| == |t|
        invariant conn.reliable ==> clean
        invariant ctx.lasting ==> ctx.cancelled == old(ctx.cancelled)
        invariant clean ==> CleanedSoFar(dir, conn.tree, id, keys, i, taskTTL, from)
      {
        assert keys[i] in keys;
        RecordIsNamed(dir, t, id, keys[i]);
        ghost var before, at := conn.tree, clock.now;
        var removed;
        ghost var fine;
        removed, fine := CleanRecord(id, keys[i].name);
        LosesMore(dir, t, before, conn.tree, taskTTL, at, clock.now);
        if clean && fine {
          CleanedMore(dir, before, conn.tree, id, keys, i, taskTTL, from, at, clock.now);
        }
        clean := clean && fine;
        if removed {
          deleted := deleted + 1;
        }
        var cancelled := ctx.Err();
        if cancelled {
          return deleted, true, clean;
        }
      }
      if clean {
        AllCleaned(dir, t, conn.tree, id, keys, taskTTL, from, clock.now);
      }
    }

    /** One job of the pass. */
    method CleanJob(ctx: Context, id: string) returns (deleted: nat, stopped: bool, ghost clean: bool)
      requires Valid()
      modifies conn, clock, ctx
      ensures Valid() && clock.now >= old(clock.now)
      ensures LosesOldRecords(dir, old(conn.tree), conn.tree, taskTTL, clock.now)
      ensures deleted + |conn.tree| <= |old(conn.tree)|
      ensures clean ==> deleted + |conn.tree| == |old(conn.tree)|
      ensures clean && !stopped ==> Cleaned(dir, conn.tree, Name(id), taskTTL, old(clock.now))
      ensures (conn.reliable ==> clean) && (stopped ==> ctx.cancelled)
      ensures ctx.lasting ==> ctx.cancelled == old(ctx.cancelled)
    {
      deleted, stopped, clean := 0, false, true;
      var keys := conn.Children(TasksPath(dir, id));
      if keys.Err? {
        clean := keys.error == NoNode;
        if clean {
          NoNodeNoChildren(conn.tree, TasksPath(dir, id));
          ChildrenOf(conn.tree, TasksPath(dir, id));
        }
        return;
      }
      var cancelled := ctx.Err();
      if cancelled {
        stopped := true;
        return;
      }
      deleted, stopped, clean := CleanRecords(ctx, id, keys.value);
    }

    /** The listed jobs, one after the other. */
    method CleanJobs(ctx: Context, jobIDs: seq<Component>)
      returns (deleted: nat, stopped: bool, ghost clean: bool)
      requires Valid() && forall c :: c in jobIDs <==> c in Children(conn.tree, JobsPath(dir))
      modifies conn, clock, ctx
      ensures Valid() && clock.now >= old(clock.now)
      ensures LosesOldRecords(dir, old(conn.tree), conn.tree, taskTTL, clock.now)
      ensures deleted + |conn.tree| <= |old(conn.tree)|
      ensures clean ==> deleted + |conn.tree| == |old(conn.tree)|
      ensures clean && !stopped ==> forall id | id in jobIDs :: Cleaned(dir, conn.tree, id, taskTTL, old(clock.now))
      ensures (conn.reliable ==> clean) && (stopped ==> ctx.cancelled)
      ensures ctx.lasting ==> ctx.cancelled == old(ctx.cancelled)
    {
      hide LosesOldRecords, Cleaned, Layout;
      deleted, stopped, clean := 0, false, true;
      ghost var t, from := conn.tree, clock.now;
      LosesNoRecords(dir, t, taskTTL, from);
      for i := 0 to |jobIDs|
        invariant Valid() && clock.now >= from
        invariant LosesOldRecords(dir, t, conn.tree, taskTTL, clock.now)
        invariant deleted + |conn.tree| <= |t|
        invariant clean ==> deleted + |conn.tree| == |t|
        invariant conn.reliable ==> clean
        invariant ctx.lasting ==> ctx.cancelled == old(ctx.cancelled)
        invariant clean ==> forall id | id in jobIDs[..i] :: Cleaned(dir, conn.tree, id, taskTTL, from)
      {
        JobIsNamed(dir, t, jobIDs, i);
        ghost var before, at := conn.tree, clock.now;
        var n;
        ghost var fine;
        n, stopped, fine := CleanJob(ctx, jobIDs[i].name);
        LosesMore(dir, t, before, conn.tree, taskTTL, at, clock.now);
        StayCleaned(dir, before, conn.tree, taskTTL, clock.now, jobIDs[..i], from);
        assert jobIDs[..i + 1] == jobIDs[..i] + [jobIDs[i]];
        deleted := deleted + n;
        clean := clean && fine;
        if stopped {
          return;
        }
        if clean {
          CleanedEarlier(dir, conn.tree, taskTTL, jobIDs[i], from, at);
        }
      }
      stopped := false;
      assert jobIDs[..|jobIDs|] == jobIDs;
    }

    /**
     * A pass over all jobs. Only records older than the TTL go, and a pass that is neither disturbed nor
     * cancelled succeeds and leaves none that was too old when it began.
     */
    method TasksCleanup(ctx: Context) returns (r: Result<nat, ZkError>, ghost clean: bool)
      requires Valid()
      modifies conn, clock, ctx
      ensures Valid() && LosesOldRecords(dir, old(conn.tree), conn.tree, taskTTL, clock.now)
      ensures KeepsRecent(dir, old(conn.tree), conn.tree, taskTTL, clock.now)
      ensures r.Err? ==> conn.tree == old(conn.tree) && !clean
      ensures r.Ok? ==> r.value + |conn.tree| <= |old(conn.tree)|
      ensures clean ==> r.value + |conn.tree| == |old(conn.tree)|
      ensures clean ==> DropsOld(dir, conn.tree, taskTTL, old(clock.now))
      ensures clean ==> forall id | Child(JobsPath(dir), id) in old(conn.tree) ::
        Cleaned(dir, conn.tree, id, taskTTL, old(clock.now))
      ensures conn.reliable && !ctx.cancelled ==> r.Ok? && clean
      ensures ctx.lasting ==> ctx.cancelled == old(ctx.cancelled)
    {
      JobsPathThere(dir, conn.tree);
      hide LosesOldRecords, Cleaned, Layout, KeepsRecent, DropsOld;
      ghost var t, from := conn.tree, clock.now;
      LosesNoRecords(dir, t, taskTTL, from);
      RecentStay(dir, t, t, taskTTL, from);
      var listed := conn.Children(JobsPath(dir));
      if listed.Err? {
        return Err(listed.error), false;
      }
      var cancelled := ctx.Err();
      if cancelled {
        return Ok(0), false;
      }
      var deleted, stopped;
      deleted, stopped, clean := CleanJobs(ctx, listed.value);
      r, clean := Ok(deleted), clean && !stopped;
      RecentStay(dir, t, conn.tree, taskTTL, clock.now);
      StayCleaned(dir, t, conn.tree, taskTTL, clock.now, [], from);
      ChildrenOf(t, JobsPath(dir));
      if clean {
        OldGo(dir, t, conn.tree, taskTTL, from);
      }
    }
  }
}
