/** The storage methods over the connection, proved against module StorageSpec (storage/zk/zk.go). */
module Storages {
  import opened Wrappers
  import opened Text
  import opened JobModel
  import opened ZkTrees
  import opened ZkConns
  import opened StorageSpec

  /** Nothing was added or changed, and whatever is missing lay below root. */
  ghost predicate OnlyLoses(before: Tree, after: Tree, root: Path) {
    && AgreeOutside(before, after, root)
    && forall p | p in after :: p in before && after[p] == before[p]
  }

  lemma LosingKeepsJobs(dir: string, t: Tree, t': Tree)
    requires Layout(dir, t) && ParentClosed(t') && JobsPath(dir) in t' && QueueDir(dir) in t'
    requires forall p | p in t' :: p in t && t'[p] == t[p]
    ensures Layout(dir, t')
  {
  }

  /** The paths of the first n listed task records. */
  function RecordPaths(dir: string, id: string, keys: seq<Component>, n: nat): set<Path>
    requires n <= |keys|
  {
    if n == 0 then {} else RecordPaths(dir, id, keys, n - 1) + {Child(TasksPath(dir, id), keys[n - 1])}
  }

  lemma {:induction false} RecordPathsAre(dir: string, id: string, keys: seq<Component>, n: nat)
    requires n <= |keys|
    ensures forall p | p in RecordPaths(dir, id, keys, n) ::
      exists i | 0 <= i < n :: p == Child(TasksPath(dir, id), keys[i])
    ensures forall i | 0 <= i < n :: Child(TasksPath(dir, id), keys[i]) in RecordPaths(dir, id, keys, n)
  {
    if n > 0 {
      RecordPathsAre(dir, id, keys, n - 1);
    }
  }

  /** Without its records, a job's tasks node is a leaf; without that, so are its runtime and the job. */
  lemma AllRecords(dir: string, t: Tree, id: string, keys: seq<Component>)
    requires Layout(dir, t)
    requires forall c :: c in keys <==> c in Children(t, TasksPath(dir, id))
    ensures var t1 := t - RecordPaths(dir, id, keys, |keys|);
      && Children(t1, TasksPath(dir, id)) == {}
      && t1 - {TasksPath(dir, id)} == RemoveSubtree(t, TasksPath(dir, id))
  {
    var q := TasksPath(dir, id);
    var gone := RecordPaths(dir, id, keys, |keys|);
    RecordPathsAre(dir, id, keys, |keys|);
    ChildrenOf(t, q);
    ChildrenOf(t - gone, q);
    forall p | p in t ensures p in gone || p == q <==> Below(q, p) {
      JobSubtree(dir, t, id, p);
      assert Below(q, Child(q, Runtime)) && p.Child? ==> (p.parent == q ==> p.name in keys);
    }
  }

  /** What lies below a job: its node, its runtime, its tasks node and the records below that. */
  lemma JobSubtree(dir: string, t: Tree, id: string, p: Path)
    requires Layout(dir, t) && p in t
    ensures Below(JobPath(dir, id), p) <==>
      p == JobPath(dir, id) || p == RuntimePath(dir, id) || Below(TasksPath(dir, id), p)
    ensures Below(TasksPath(dir, id), p) <==> p == TasksPath(dir, id) || (p.Child? && p.parent == TasksPath(dir, id))
  {
  }

  lemma JobLeaves(dir: string, t: Tree, id: string)
    requires Layout(dir, t)
    ensures var t1 := RemoveSubtree(t, TasksPath(dir, id));
      && Children(t1, RuntimePath(dir, id)) == {}
      && Children(t1 - {RuntimePath(dir, id)}, JobPath(dir, id)) == {}
      && t1 - {RuntimePath(dir, id)} - {JobPath(dir, id)} == RemoveSubtree(t, JobPath(dir, id))
  {
    var j, r, q := JobPath(dir, id), RuntimePath(dir, id), TasksPath(dir, id);
    var t1 := RemoveSubtree(t, q);
    forall p | p in t {
      JobSubtree(dir, t, id, p);
    }
    ChildrenOf(t1, r);
    ChildrenOf(t1 - {r}, j);
    assert forall c | Child(r, c) in t1 :: Below(j, Child(r, c));
    assert forall c | Child(j, c) in t1 :: Below(j, Child(j, c));
  }

  lemma NoNodeNoChildren(t: Tree, p: Path)
    requires ParentClosed(t) && p !in t
    ensures Children(t, p) == {}
  {
    ChildrenOf(t, p);
    assert forall c :: Child(p, c).parent == p;
  }

  lemma LosesNothing(t: Tree, root: Path)
    ensures OnlyLoses(t, t, root)
  {
  }

  lemma LosesLeaf(before: Tree, now: Tree, p: Path, root: Path)
    requires OnlyLoses(before, now, root) && Below(root, p)
    ensures OnlyLoses(before, now - {p}, root)
    ensures p !in now ==> now - {p} == now
  {
  }

  lemma LosesWider(before: Tree, now: Tree, narrow: Path, wide: Path)
    requires OnlyLoses(before, now, narrow) && forall p | Below(narrow, p) :: Below(wide, p)
    ensures OnlyLoses(before, now, wide)
  {
  }

  /** What ReadJob makes of a child. */
  ghost predicate IsRead(dir: string, t: Tree, child: Component, job: Job) {
    child == Name(job.FQID()) && HasJob(dir, t, job.FQID()) && job == JobAt(dir, t, job.FQID())
  }

  lemma AllRead(dir: string, t: Tree, children: seq<Component>, jobs: seq<Job>)
    requires |children| == |jobs| && forall c :: c in children <==> c in Children(t, JobsPath(dir))
    requires forall i, j | 0 <= i < j < |children| :: children[i] != children[j]
    requires forall j | 0 <= j < |jobs| :: IsRead(dir, t, children[j], jobs[j])
    ensures Readable(dir, t)
    ensures forall i | 0 <= i < |jobs| ::
      jobs[i].FQID() in StoredJobs(dir, t) && StoredJobs(dir, t)[jobs[i].FQID()] == jobs[i]
    ensures forall k | k in StoredJobs(dir, t) :: StoredJobs(dir, t)[k] in jobs
    ensures forall i, j | 0 <= i < j < |jobs| :: jobs[i].FQID() != jobs[j].FQID()
  {
    StoredJobsAt(dir, t);
    ChildrenOf(t, JobsPath(dir));
    hide StoredJobs;
    forall k | JobPath(dir, k) in t ensures HasJob(dir, t, k) && JobAt(dir, t, k) in jobs {
      assert Name(k) in children;
      var i :| 0 <= i < |children| && children[i] == Name(k);
      assert IsRead(dir, t, children[i], jobs[i]);
    }
  }

  lemma JobsPathThere(dir: string, t: Tree)
    requires Layout(dir, t)
    ensures JobsPath(dir) in t
  {
  }

  lemma TasksBelowJob(dir: string, t: Tree, id: string)
    ensures forall p | Below(TasksPath(dir, id), p) :: Below(JobPath(dir, id), p)
    ensures Below(JobPath(dir, id), TasksPath(dir, id)) && Below(JobPath(dir, id), RuntimePath(dir, id))
    ensures Below(JobPath(dir, id), JobPath(dir, id))
  {
    assert Below(JobPath(dir, id), TasksPath(dir, id));
    forall p | Below(TasksPath(dir, id), p) ensures Below(JobPath(dir, id), p) {
      BelowTransitive(JobPath(dir, id), TasksPath(dir, id), p);
    }
  }

  lemma DeletionKeepsLayout(dir: string, t: Tree, p: Path)
    requires Layout(dir, t) && p != JobsPath(dir) && p != QueueDir(dir) && Children(t, p) == {}
    ensures Layout(dir, t - {p})
  {
    OperationsKeepParents(t, p, Bare, -1);
    assert p !in t ==> t - {p} == t;
    LosingKeepsJobs(dir, t, t - {p});
  }

  lemma RecordIsLeaf(dir: string, t: Tree, id: string, c: Component)
    requires Layout(dir, t) && Child(TasksPath(dir, id), c) in t
    ensures Delete(t, Child(TasksPath(dir, id), c), 0) == Ok(t - {Child(TasksPath(dir, id), c)})
    ensures Layout(dir, t - {Child(TasksPath(dir, id), c)})
  {
    var p := Child(TasksPath(dir, id), c);
    ChildrenOf(t, p);
    assert WellPlaced(dir, p, t[p]);
    assert forall d, node :: !WellPlaced(dir, Child(p, d), node);
    DeletionKeepsLayout(dir, t, p);
  }

  predicate HasThreeParts(name: string) {
    |Split(name, ':')| >= 3
  }

  function FirstThree(name: string): JobID
    requires HasThreeParts(name)
  {
    var chunks := Split(name, ':');
    JobID(chunks[0], chunks[1], chunks[2])
  }

  /** Some queued name starts with the parts of the ID. */
  ghost predicate Queued(dir: string, t: Tree, jid: JobID) {
    exists k | k in StoredQueue(dir, t) && HasThreeParts(k) :: FirstThree(k) == jid
  }

  ghost predicate IsFirstThree(dir: string, t: Tree, child: Component, jid: JobID) {
    child.Name? && child.name in StoredQueue(dir, t) && HasThreeParts(child.name) && FirstThree(child.name) == jid
  }

  lemma AllFirstThree(dir: string, t: Tree, children: seq<Component>, ids: seq<JobID>)
    requires |children| == |ids| && forall c :: c in children <==> c in Children(t, QueueDir(dir))
    requires forall k | k in StoredQueue(dir, t) :: HasThreeParts(k)
    requires forall j | 0 <= j < |ids| :: IsFirstThree(dir, t, children[j], ids[j])
    ensures forall jid :: jid in ids <==> Queued(dir, t, jid)
    ensures forall k | k in StoredQueue(dir, t) && ParseJobID(k).Ok? :: exists jid | jid in ids :: jid.String() == k
  {
    forall k | k in StoredQueue(dir, t)
      ensures FirstThree(k) in ids && (ParseJobID(k).Ok? ==> FirstThree(k).String() == k)
    {
      assert Name(k) in children;
      var i :| 0 <= i < |children| && children[i] == Name(k);
      assert ids[i] in ids;
      if ParseJobID(k).Ok? {
        ParsedJobID(k);
      }
    }
    forall jid | jid in ids ensures Queued(dir, t, jid) {
      var i :| 0 <= i < |ids| && ids[i] == jid;
      assert IsFirstThree(dir, t, children[i], ids[i]);
    }
  }

  class Storage {
    const dir: string
    const conn: Conn

    constructor (dir: string, conn: Conn)
      ensures this.dir == dir && this.conn == conn
    {
      this.dir, this.conn := dir, conn;
    }

    ghost predicate Valid()
      reads conn
    {
      Layout(dir, conn.tree)
    }

    // ---- Saving ----

    method SaveJobConf(conf: JobConf) returns (err: Option<ZkError>)
      requires Valid()
      modifies conn
      ensures Valid() && Outcome(old(conn.tree), SaveConf(dir, old(conn.tree), conf), conn.tree, err)
      ensures conn.reliable ==> err != Some(ConnectionLoss)
    {
      SaveConfEffect(dir, conn.tree, conf);
      err := conn.Set(JobPath(dir, conf.FQID()), ConfData(conf), -1);
      if err == Some(NoNode) {
        err := conn.Create(JobPath(dir, conf.FQID()), ConfData(conf));
      }
    }

    method SaveJobRuntime(id: string, rt: JobRuntime) returns (err: Option<ZkError>)
      requires Valid()
      modifies conn
      ensures Valid() && Outcome(old(conn.tree), SaveRuntime(dir, old(conn.tree), id, rt), conn.tree, err)
      ensures conn.reliable ==> err != Some(ConnectionLoss)
    {
      SaveRuntimeEffect(dir, conn.tree, id, rt);
      err := conn.Set(RuntimePath(dir, id), RuntimeData(rt), -1);
      if err == Some(NoNode) {
        err := conn.Create(RuntimePath(dir, id), RuntimeData(rt));
      }
    }

    method SaveJob(job: Job) returns (err: Option<ZkError>)
      requires Valid()
      modifies conn
      ensures Valid()
      ensures err.None? ==> StorageSpec.SaveJob(dir, old(conn.tree), job) == Ok(conn.tree)
      ensures err.Some? ==>
        && err.value == ConnectionLoss
        && (|| conn.tree == old(conn.tree)
            || SaveConf(dir, old(conn.tree), job.conf) == Ok(conn.tree)
            || StorageSpec.SaveJob(dir, old(conn.tree), job) == Ok(conn.tree))
      ensures conn.reliable ==> err.None?
    {
      SaveConfEffect(dir, conn.tree, job.conf);
      SaveJobPuts(dir, conn.tree, job.FQID(), job);
      SaveConfPuts(dir, conn.tree, job.FQID(), job.conf);
      err := SaveJobConf(job.conf);
      if err.Some? {
        return;
      }
      SaveRuntimeEffect(dir, conn.tree, job.FQID(), job.rt);
      err := SaveJobRuntime(job.FQID(), job.rt);
    }

    method AddTask(id: string, task: Task) returns (err: Option<ZkError>)
      requires Valid()
      modifies conn
      ensures Valid()
      ensures err.None? ==> StorageSpec.AddTask(dir, old(conn.tree), id, task) == Ok(conn.tree)
      ensures err.Some? && err.value != ConnectionLoss ==>
        conn.tree == old(conn.tree) && StorageSpec.AddTask(dir, old(conn.tree), id, task) == Err(err.value)
      ensures AgreeOutside(old(conn.tree), conn.tree, TasksPath(dir, id))
      ensures conn.reliable ==> err != Some(ConnectionLoss)
    {
      var p := TaskPath(dir, id, TaskKey(task));
      err := conn.Create(p, TaskData(task));
      if conn.tree != old(conn.tree) {
        PutKeepsLayout(dir, old(conn.tree), p, Node(TaskData(task), 0));
      }
      if err == Some(NoNode) {
        ghost var t := conn.tree;
        err := conn.Create(TasksPath(dir, id), Bare);
        if conn.tree != t {
          PutKeepsLayout(dir, t, TasksPath(dir, id), Node(Bare, 0));
        }
        if err.None? {
          t := conn.tree;
          err := conn.Create(p, TaskData(task));
          if conn.tree != t {
            PutKeepsLayout(dir, t, p, Node(TaskData(task), 0));
          }
        }
      }
    }

    // ---- Reading ----

    method GetJobConf(id: string) returns (r: Result<Option<JobConf>, ZkError>)
      requires Valid()
      ensures r == Err(ConnectionLoss)
        || (JobPath(dir, id) !in conn.tree && r == Ok(None))
        || (JobPath(dir, id) in conn.tree && conn.tree[JobPath(dir, id)].data.ConfData?
            && r == Ok(Some(conn.tree[JobPath(dir, id)].data.conf)))
      ensures conn.reliable ==> r != Err(ConnectionLoss)
    {
      var got := conn.Get(JobPath(dir, id));
      match got {
        case Err(NoNode) => r := Ok(None);
        case Err(e) => r := Err(e);
        case Ok(node) =>
          assert WellPlaced(dir, JobPath(dir, id), node);
          r := if node.data.ConfData? then Ok(Some(node.data.conf)) else Err(BadPayload);
      }
    }

    method GetJobRuntime(id: string) returns (r: Result<Option<JobRuntime>, ZkError>)
      requires Valid()
      ensures r == Err(ConnectionLoss)
        || (RuntimePath(dir, id) !in conn.tree && r == Ok(None))
        || (RuntimePath(dir, id) in conn.tree && conn.tree[RuntimePath(dir, id)].data.RuntimeData?
            && r == Ok(Some(conn.tree[RuntimePath(dir, id)].data.rt)))
      ensures conn.reliable ==> r != Err(ConnectionLoss)
    {
      var got := conn.Get(RuntimePath(dir, id));
      match got {
        case Err(NoNode) => r := Ok(None);
        case Err(e) => r := Err(e);
        case Ok(node) =>
          assert WellPlaced(dir, RuntimePath(dir, id), node);
          r := if node.data.RuntimeData? then Ok(Some(node.data.rt)) else Err(BadPayload);
      }
    }

    /** A job is found exactly when both its nodes exist. */
    method GetJob(id: string) returns (r: Result<Option<Job>, ZkError>)
      requires Valid()
      ensures r == Err(ConnectionLoss)
        || r == Ok(if id in StoredJobs(dir, conn.tree) then Some(StoredJobs(dir, conn.tree)[id]) else None)
      ensures conn.reliable ==> r != Err(ConnectionLoss)
    {
      HasJobIsStored(dir, conn.tree, id);
      var conf := GetJobConf(id);
      if conf.Err? {
        return Err(conf.error);
      }
      if conf.value.None? {
        return Ok(None);
      }
      var rt := GetJobRuntime(id);
      if rt.Err? {
        return Err(rt.error);
      }
      if rt.value.None? {
        return Ok(None);
      }
      r := Ok(Some(Job(conf.value.value, rt.value.value)));
    }

    /** One iteration of GetJobs. */
    method ReadJob(child: Component) returns (r: Result<Job, ZkError>)
      requires Valid() && child in Children(conn.tree, JobsPath(dir))
      ensures child.Name?
      ensures r.Ok? ==> HasJob(dir, conn.tree, child.name) && r.value == JobAt(dir, conn.tree, child.name)
                        && r.value.FQID() == child.name
      ensures r.Err? ==> r.error == ConnectionLoss || RuntimePath(dir, child.name) !in conn.tree
      ensures conn.reliable ==> r != Err(ConnectionLoss)
    {
      ChildrenOf(conn.tree, JobsPath(dir));
      var p := Child(JobsPath(dir), child);
      assert WellPlaced(dir, p, conn.tree[p]) && p == JobPath(dir, child.name);
      var conf := conn.Get(p);
      if conf.Err? {
        return Err(conf.error);
      }
      var rt := conn.Get(RuntimePath(dir, child.name));
      if rt.Err? {
        return Err(rt.error);
      }
      assert WellPlaced(dir, RuntimePath(dir, child.name), rt.value);
      r := Ok(Job(conf.value.data.conf, rt.value.data.rt));
    }

    /** All stored jobs, each once; a single job without its runtime makes the whole read fail. */
    method GetJobs() returns (r: Result<seq<Job>, ZkError>)
      requires Valid()
      ensures r.Ok? ==> Readable(dir, conn.tree)
      ensures r.Ok? ==> forall i | 0 <= i < |r.value| ::
        r.value[i].FQID() in StoredJobs(dir, conn.tree) && StoredJobs(dir, conn.tree)[r.value[i].FQID()] == r.value[i]
      ensures r.Ok? ==> forall k | k in StoredJobs(dir, conn.tree) :: StoredJobs(dir, conn.tree)[k] in r.value
      ensures r.Ok? ==> forall i, j | 0 <= i < j < |r.value| :: r.value[i].FQID() != r.value[j].FQID()
      ensures r.Err? ==> r.error == ConnectionLoss || !Readable(dir, conn.tree)
      ensures conn.reliable && Readable(dir, conn.tree) ==> r.Ok?
    {
      JobsPathThere(dir, conn.tree);
      hide Layout, StoredJobs, HasJob, JobAt;
      var listed := conn.Children(JobsPath(dir));
      if listed.Err? {
        return Err(listed.error);
      }
      var children := listed.value;
      var jobs: seq<Job> := [];
      for i := 0 to |children|
        invariant |jobs| == i
        invariant forall j | 0 <= j < i :: IsRead(dir, conn.tree, children[j], jobs[j])
      {
        assert children[i] in children;
        var job := ReadJob(children[i]);
        if job.Err? {
          ChildrenOf(conn.tree, JobsPath(dir));
          assert JobPath(dir, children[i].name) in conn.tree;
          return Err(job.error);
        }
        jobs := jobs + [job.value];
      }
      r := Ok(jobs);
      AllRead(dir, conn.tree, children, jobs);
    }

    // ---- Deleting ----

    method DeleteRecords(id: string, keys: seq<Component>) returns (err: Option<ZkError>)
      requires Valid()
      requires forall c :: c in keys <==> c in Children(conn.tree, TasksPath(dir, id))
      requires forall i, j | 0 <= i < j < |keys| :: keys[i] != keys[j]
      modifies conn
      ensures Valid() && OnlyLoses(old(conn.tree), conn.tree, TasksPath(dir, id))
      ensures err.None? ==> conn.tree == old(conn.tree) - RecordPaths(dir, id, keys, |keys|)
      ensures err.Some? ==> err.value == ConnectionLoss
      ensures conn.reliable ==> err.None?
    {
      hide Layout, OnlyLoses;
      LosesNothing(conn.tree, TasksPath(dir, id));
      ghost var t, q := conn.tree, TasksPath(dir, id);
      ChildrenOf(t, q);
      for i := 0 to |keys|
        invariant Valid() && OnlyLoses(t, conn.tree, q)
        invariant conn.tree == t - RecordPaths(dir, id, keys, i)
      {
        ghost var p := Child(q, keys[i]);
        RecordPathsAre(dir, id, keys, i);
        assert keys[i] in keys && p in t;
        assert p !in RecordPaths(dir, id, keys, i) by {
          assert forall j | 0 <= j < i :: Child(q, keys[j]) != p;
        }
        RecordIsLeaf(dir, conn.tree, id, keys[i]);
        LosesLeaf(t, conn.tree, p, q);
        err := conn.Delete(Child(TasksPath(dir, id), keys[i]), 0);
        if err.Some? && err.value != NoNode {
          return;
        }
      }
      err := None;
    }

    /** Uninterrupted, it removes exactly the job's subtree; cut short, some of that subtree. */
    method DeleteJob(id: string) returns (err: Option<ZkError>)
      requires Valid()
      modifies conn
      ensures Valid() && OnlyLoses(old(conn.tree), conn.tree, JobPath(dir, id))
      ensures err.None? ==> conn.tree == RemoveSubtree(old(conn.tree), JobPath(dir, id))
      ensures err.Some? ==> err.value == ConnectionLoss
      ensures conn.reliable ==> err.None?
    {
      ghost var t := conn.tree;
      var listed := conn.Children(TasksPath(dir, id));
      if listed.Err? && listed.error != NoNode {
        return Some(listed.error);
      }
      var keys := if listed.Ok? then listed.value else [];
      if listed.Err? {
        NoNodeNoChildren(t, TasksPath(dir, id));
      }
      TasksBelowJob(dir, t, id);
      AllRecords(dir, t, id, keys);
      JobLeaves(dir, t, id);
      err := DeleteRecords(id, keys);
      if err.Some? {
        return;
      }
      err := DeleteEmptied(id, t);
    }

    /** The last three deletions, once the records are gone. */
    method DeleteEmptied(id: string, ghost t: Tree) returns (err: Option<ZkError>)
      requires Layout(dir, t) && Valid()
      requires OnlyLoses(t, conn.tree, TasksPath(dir, id)) && Children(conn.tree, TasksPath(dir, id)) == {}
      requires conn.tree - {TasksPath(dir, id)} == RemoveSubtree(t, TasksPath(dir, id))
      modifies conn
      ensures Valid() && OnlyLoses(t, conn.tree, JobPath(dir, id))
      ensures err.None? ==> conn.tree == RemoveSubtree(t, JobPath(dir, id))
      ensures err.Some? ==> err.value == ConnectionLoss
      ensures conn.reliable ==> err.None?
    {
      hide Layout, OnlyLoses, RemoveSubtree, Below;
      TasksBelowJob(dir, t, id);
      JobLeaves(dir, t, id);
      LosesWider(t, conn.tree, TasksPath(dir, id), JobPath(dir, id));
      DeletionKeepsLayout(dir, conn.tree, TasksPath(dir, id));
      LosesLeaf(t, conn.tree, TasksPath(dir, id), JobPath(dir, id));
      err := conn.Delete(TasksPath(dir, id), -1);
      if err.Some? && err.value != NoNode {
        return;
      }
      assert conn.tree == RemoveSubtree(t, TasksPath(dir, id));
      DeletionKeepsLayout(dir, conn.tree, RuntimePath(dir, id));
      LosesLeaf(t, conn.tree, RuntimePath(dir, id), JobPath(dir, id));
      err := conn.Delete(RuntimePath(dir, id), -1);
      if err.Some? && err.value != NoNode {
        return;
      }
      assert conn.tree == RemoveSubtree(t, TasksPath(dir, id)) - {RuntimePath(dir, id)};
      DeletionKeepsLayout(dir, conn.tree, JobPath(dir, id));
      LosesLeaf(t, conn.tree, JobPath(dir, id), JobPath(dir, id));
      err := conn.Delete(JobPath(dir, id), -1);
      if err.Some? && err.value != NoNode {
        return;
      }
      err := None;
    }

    // ---- The queue ----

    method QueueJob(id: string) returns (err: Option<ZkError>)
      requires Valid()
      modifies conn
      ensures Valid() && Outcome(old(conn.tree), Enqueue(dir, old(conn.tree), id), conn.tree, err)
      ensures conn.reliable ==> err != Some(ConnectionLoss)
    {
      EnqueueEffect(dir, conn.tree, id);
      err := conn.Create(QueuePath(dir, id), Bare);
      if err == Some(NodeExists) {
        err := None;
      }
    }

    method DequeueJob(id: string) returns (err: Option<ZkError>)
      requires Valid()
      modifies conn
      ensures Valid() && Outcome(old(conn.tree), Dequeue(dir, old(conn.tree), id), conn.tree, err)
      ensures conn.reliable ==> err != Some(ConnectionLoss)
    {
      DequeueEffect(dir, conn.tree, id);
      err := conn.Delete(QueuePath(dir, id), 0);
      if err == Some(NoNode) {
        err := None;
      }
    }

    /** The first three parts of each queued name; a name with fewer makes the program panic. */
    method GetQueuedJobsIDs() returns (r: Result<seq<JobID>, ZkError>)
      requires Valid() && forall k | k in StoredQueue(dir, conn.tree) :: HasThreeParts(k)
      ensures r.Ok? ==> forall jid :: jid in r.value <==> Queued(dir, conn.tree, jid)
      ensures r.Ok? ==> forall k | k in StoredQueue(dir, conn.tree) && ParseJobID(k).Ok? ::
        exists jid | jid in r.value :: jid.String() == k
      ensures r.Err? ==> r.error == ConnectionLoss
      ensures conn.reliable ==> r.Ok?
    {
      var listed := conn.Children(QueueDir(dir));
      if listed.Err? {
        return Err(listed.error);
      }
      var children := listed.value;
      var ids: seq<JobID> := [];
      StoredQueueAt(dir, conn.tree);
      ChildrenOf(conn.tree, QueueDir(dir));
      for i := 0 to |children|
        invariant |ids| == i
        invariant forall j | 0 <= j < i :: IsFirstThree(dir, conn.tree, children[j], ids[j])
      {
        var p := Child(QueueDir(dir), children[i]);
        assert children[i] in children && p in conn.tree && WellPlaced(dir, p, conn.tree[p]);
        assert p == QueuePath(dir, children[i].name);
        var chunks := Split(children[i].name, ':');
        ids := ids + [JobID(chunks[0], chunks[1], chunks[2])];
      }
      r := Ok(ids);
      AllFirstThree(dir, conn.tree, children, ids);
    }
  }
}
