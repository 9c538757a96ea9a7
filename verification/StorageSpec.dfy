/**
 * How jobs, their runtimes, their task records and the queue are laid out in the tree, and what each
 * storage operation does to it when it is not interrupted (storage/zk/zk.go).
 */
module StorageSpec {
  import opened Wrappers
  import opened Text
  import opened JobModel
  import opened ZkTrees
  import Spec = SchedulerSpec

  function JobsPath(dir: string): Path { Child(Child(Root, Name(dir)), Jobs) }
  function JobPath(dir: string, id: string): Path { Child(JobsPath(dir), Name(id)) }
  function RuntimePath(dir: string, id: string): Path { Child(JobPath(dir, id), Runtime) }
  function TasksPath(dir: string, id: string): Path { Child(JobPath(dir, id), Tasks) }
  function TaskPath(dir: string, id: string, key: string): Path { Child(TasksPath(dir, id), Name(key)) }
  function QueueDir(dir: string): Path { Child(Child(Root, Name(dir)), QueuedJobs) }
  function QueuePath(dir: string, id: string): Path { Child(QueueDir(dir), Name(id)) }

  /** Task records and queue entries are never set again, so their version stays 0. */
  predicate WellPlaced(dir: string, p: Path, node: Node) {
    if p == Root then true
    else if Up(p) == JobsPath(dir) then p.name.Name? && node.data.ConfData? && node.data.conf.FQID() == p.name.name
    else if Up(p) == QueueDir(dir) then p.name.Name? && node.version == 0
    else if Up(Up(p)) == JobsPath(dir) then (p.name == Runtime && node.data.RuntimeData?) || p.name == Tasks
    else if Up(Up(p)) == QueueDir(dir) then false
    else if Up(Up(Up(p))) == JobsPath(dir) then p.parent.name == Tasks && p.name.Name? && node.version == 0
    else Up(Up(Up(Up(p)))) != JobsPath(dir)
  }

  function Up(p: Path): Path { if p == Root then Root else p.parent }

  ghost predicate Layout(dir: string, t: Tree) {
    && ParentClosed(t)
    && JobsPath(dir) in t && QueueDir(dir) in t
    && forall p | p in t :: WellPlaced(dir, p, t[p])
  }

  // ---- What storage holds ----

  function Names(children: set<Component>): set<string> {
    set c | c in children && c.Name? :: c.name
  }

  predicate HasJob(dir: string, t: Tree, id: string) {
    && JobPath(dir, id) in t && t[JobPath(dir, id)].data.ConfData?
    && RuntimePath(dir, id) in t && t[RuntimePath(dir, id)].data.RuntimeData?
  }

  function JobAt(dir: string, t: Tree, id: string): Job
    requires HasJob(dir, t, id)
  {
    Job(t[JobPath(dir, id)].data.conf, t[RuntimePath(dir, id)].data.rt)
  }

  function StoredJobs(dir: string, t: Tree): map<string, Job> {
    map id | id in Names(Children(t, JobsPath(dir))) && HasJob(dir, t, id) :: JobAt(dir, t, id)
  }

  function StoredQueue(dir: string, t: Tree): set<string> { Names(Children(t, QueueDir(dir))) }

  /** Every job has its runtime: only then can all jobs be read. */
  ghost predicate Readable(dir: string, t: Tree) {
    forall id | JobPath(dir, id) in t :: RuntimePath(dir, id) in t
  }

  lemma StoredJobsAt(dir: string, t: Tree)
    ensures forall id :: id in StoredJobs(dir, t) <==> HasJob(dir, t, id)
    ensures forall id | HasJob(dir, t, id) :: StoredJobs(dir, t)[id] == JobAt(dir, t, id)
  {
    ChildrenOf(t, JobsPath(dir));
    assert forall id | JobPath(dir, id) in t :: Name(id) in Children(t, JobsPath(dir));
  }

  lemma StoredQueueAt(dir: string, t: Tree)
    ensures forall id :: id in StoredQueue(dir, t) <==> QueuePath(dir, id) in t
  {
    ChildrenOf(t, QueueDir(dir));
    assert forall id :: Name(id) in Children(t, QueueDir(dir)) <==> QueuePath(dir, id) in t;
  }

  // ---- Operations ----

  /** Sets a node, or creates it when it does not exist. */
  function Save(t: Tree, p: Path, d: Data): Result<Tree, ZkError>
    requires p.Child?
  {
    match Set(t, p, d, -1)
    case Ok(t') => Ok(t')
    case Err(NoNode) => Create(t, p, d)
    case Err(e) => Err(e)
  }

  function SaveConf(dir: string, t: Tree, conf: JobConf): Result<Tree, ZkError> {
    Save(t, JobPath(dir, conf.FQID()), ConfData(conf))
  }

  function SaveRuntime(dir: string, t: Tree, id: string, rt: JobRuntime): Result<Tree, ZkError> {
    Save(t, RuntimePath(dir, id), RuntimeData(rt))
  }

  function SaveJob(dir: string, t: Tree, job: Job): Result<Tree, ZkError> {
    match SaveConf(dir, t, job.conf)
    case Ok(t') => SaveRuntime(dir, t', job.FQID(), job.rt)
    case Err(e) => Err(e)
  }

  /** The end of the run in whole seconds, then the task ID. */
  function TaskKey(task: Task): string {
    FormatInt(task.end / SECOND) + "@" + task.taskID
  }

  function AddTask(dir: string, t: Tree, id: string, task: Task): Result<Tree, ZkError> {
    match Create(t, TaskPath(dir, id, TaskKey(task)), TaskData(task))
    case Ok(t') => Ok(t')
    case Err(NoNode) =>
      (match Create(t, TasksPath(dir, id), Bare)
       case Ok(t') => Create(t', TaskPath(dir, id, TaskKey(task)), TaskData(task))
       case Err(e) => Err(e))
    case Err(e) => Err(e)
  }

  function RemoveSubtree(t: Tree, root: Path): Tree {
    map p | p in t && !Below(root, p) :: t[p]
  }

  function Enqueue(dir: string, t: Tree, id: string): Result<Tree, ZkError> {
    match Create(t, QueuePath(dir, id), Bare)
    case Err(NodeExists) => Ok(t)
    case r => r
  }

  function Dequeue(dir: string, t: Tree, id: string): Result<Tree, ZkError> {
    match Delete(t, QueuePath(dir, id), 0)
    case Err(NoNode) => Ok(t)
    case r => r
  }

  // ---- Each operation does to the stored jobs and queue what the scheduler's model says ----

  ghost predicate AgreeOutside(t: Tree, t': Tree, root: Path) {
    forall p | !Below(root, p) :: (p in t <==> p in t') && (p in t ==> t'[p] == t[p])
  }

  lemma OutsideJob(dir: string, t: Tree, t': Tree, id: string, k: string)
    requires AgreeOutside(t, t', JobPath(dir, id))
    ensures k != id ==> (HasJob(dir, t', k) <==> HasJob(dir, t, k))
    ensures k != id && HasJob(dir, t, k) ==> JobAt(dir, t', k) == JobAt(dir, t, k)
    ensures k != id && JobPath(dir, k) in t' ==>
      JobPath(dir, k) in t && (RuntimePath(dir, k) in t ==> RuntimePath(dir, k) in t')
    ensures QueuePath(dir, k) in t' <==> QueuePath(dir, k) in t
  {
    var j := JobPath(dir, id);
    NotBelow(dir, j);
    assert !Below(j, QueueDir(dir)) && !Below(j, QueuePath(dir, k));
    assert k != id ==> !Below(j, JobPath(dir, k)) && !Below(j, RuntimePath(dir, k));
  }

  /** The upper levels of the tree lie below no job and no queue entry. */
  lemma NotBelow(dir: string, p: Path)
    requires p.Child? && (p.parent == JobsPath(dir) || p.parent == QueueDir(dir))
    ensures !Below(p, Root) && !Below(p, Child(Root, Name(dir))) && !Below(p, JobsPath(dir)) && !Below(p, QueueDir(dir))
  {
    assert !Below(p, Root);
    assert !Below(p, Child(Root, Name(dir)));
  }

  lemma HasJobIsStored(dir: string, t: Tree, id: string)
    ensures id in StoredJobs(dir, t) <==> HasJob(dir, t, id)
    ensures HasJob(dir, t, id) ==> StoredJobs(dir, t)[id] == JobAt(dir, t, id)
  {
    StoredJobsAt(dir, t);
  }

  lemma OtherJobsStay(dir: string, t: Tree, t': Tree, id: string)
    requires AgreeOutside(t, t', JobPath(dir, id))
    ensures StoredJobs(dir, t')
         == if HasJob(dir, t', id) then StoredJobs(dir, t)[id := JobAt(dir, t', id)] else StoredJobs(dir, t) - {id}
  {
    var before, now := StoredJobs(dir, t), StoredJobs(dir, t');
    forall k
      ensures k != id ==> (k in now <==> k in before)
      ensures k != id && k in before ==> now[k] == before[k]
    {
      HasJobIsStored(dir, t, k);
      HasJobIsStored(dir, t', k);
      OutsideJob(dir, t, t', id, k);
    }
    HasJobIsStored(dir, t', id);
  }

  /** What happens below one job's node concerns no other job, nor the queue. */
  lemma OtherJobsUntouched(dir: string, t: Tree, t': Tree, id: string)
    requires AgreeOutside(t, t', JobPath(dir, id))
    ensures StoredQueue(dir, t') == StoredQueue(dir, t)
    ensures StoredJobs(dir, t')
         == if HasJob(dir, t', id) then StoredJobs(dir, t)[id := JobAt(dir, t', id)] else StoredJobs(dir, t) - {id}
    ensures Readable(dir, t) && (JobPath(dir, id) in t' ==> RuntimePath(dir, id) in t') ==> Readable(dir, t')
  {
    OtherJobsStay(dir, t, t', id);
    forall k {
      OutsideJob(dir, t, t', id, k);
    }
    StoredQueueAt(dir, t);
    StoredQueueAt(dir, t');
  }

  lemma PutKeepsLayout(dir: string, t: Tree, p: Path, node: Node)
    requires Layout(dir, t) && p.Child? && p.parent in t && WellPlaced(dir, p, node)
    ensures Layout(dir, t[p := node])
  {
  }

  lemma PutBelow(t: Tree, p: Path, node: Node, root: Path)
    requires Below(root, p)
    ensures AgreeOutside(t, t[p := node], root)
  {
  }

  lemma NoJobNoRuntime(dir: string, t: Tree, id: string)
    requires Layout(dir, t) && JobPath(dir, id) !in t
    ensures RuntimePath(dir, id) !in t && TasksPath(dir, id) !in t && !HasJob(dir, t, id)
  {
  }

  /** What saving leaves at a node whose parent exists. */
  function Saved(t: Tree, p: Path, d: Data): Node {
    Node(d, if p in t then t[p].version + 1 else 0)
  }

  lemma SavePuts(t: Tree, p: Path, d: Data)
    requires p.Child? && p.parent in t
    ensures Save(t, p, d) == Ok(t[p := Saved(t, p, d)])
  {
  }

  lemma SaveConfPuts(dir: string, t: Tree, id: string, conf: JobConf)
    requires Layout(dir, t) && id == conf.FQID()
    ensures SaveConf(dir, t, conf) == Ok(t[JobPath(dir, id) := Saved(t, JobPath(dir, id), ConfData(conf))])
    ensures Layout(dir, t[JobPath(dir, id) := Saved(t, JobPath(dir, id), ConfData(conf))])
  {
    SavePuts(t, JobPath(dir, id), ConfData(conf));
    PutKeepsLayout(dir, t, JobPath(dir, id), Saved(t, JobPath(dir, id), ConfData(conf)));
  }

  lemma SaveRuntimePuts(dir: string, t: Tree, id: string, rt: JobRuntime)
    requires Layout(dir, t) && JobPath(dir, id) in t
    ensures SaveRuntime(dir, t, id, rt)
         == Ok(t[RuntimePath(dir, id) := Saved(t, RuntimePath(dir, id), RuntimeData(rt))])
    ensures Layout(dir, t[RuntimePath(dir, id) := Saved(t, RuntimePath(dir, id), RuntimeData(rt))])
  {
    SavePuts(t, RuntimePath(dir, id), RuntimeData(rt));
    PutKeepsLayout(dir, t, RuntimePath(dir, id), Saved(t, RuntimePath(dir, id), RuntimeData(rt)));
  }

  /** Saving the conf of a readable job updates it; saving one of a job that is gone leaves jobs unreadable. */
  lemma SaveConfEffect(dir: string, t: Tree, conf: JobConf)
    requires Layout(dir, t)
    ensures SaveConf(dir, t, conf).Ok?
    ensures var t' := SaveConf(dir, t, conf).value;
      && Layout(dir, t')
      && StoredQueue(dir, t') == StoredQueue(dir, t)
      && StoredJobs(dir, t') == Spec.StoreConf(StoredJobs(dir, t), conf)
      && (Readable(dir, t) ==> (Readable(dir, t') <==> JobPath(dir, conf.FQID()) in t))
  {
    var id := conf.FQID();
    SaveConfPuts(dir, t, id, conf);
    ConfNodeEffect(dir, t, id, Saved(t, JobPath(dir, id), ConfData(conf)));
  }

  lemma ConfNodeEffect(dir: string, t: Tree, id: string, node: Node)
    requires Layout(dir, t) && node.data.ConfData? && node.data.conf.FQID() == id
    ensures var t' := t[JobPath(dir, id) := node];
      && StoredQueue(dir, t') == StoredQueue(dir, t)
      && StoredJobs(dir, t') == Spec.StoreConf(StoredJobs(dir, t), node.data.conf)
      && (Readable(dir, t) ==> (Readable(dir, t') <==> JobPath(dir, id) in t))
  {
    var p := JobPath(dir, id);
    var t' := t[p := node];
    PutBelow(t, p, node, p);
    OtherJobsUntouched(dir, t, t', id);
    HasJobIsStored(dir, t, id);
    assert RuntimePath(dir, id) != p;
    if p !in t {
      NoJobNoRuntime(dir, t, id);
      assert p in t' && RuntimePath(dir, id) !in t';
    } else {
      assert WellPlaced(dir, p, t[p]);
    }
    if !HasJob(dir, t, id) {
      MinusAbsent(StoredJobs(dir, t), id);
    }
  }

  lemma MinusAbsent<K, V>(m: map<K, V>, k: K)
    requires k !in m
    ensures m - {k} == m
  {
  }

  /** Saving the runtime of a stored job updates it; for a job that is gone it fails. */
  lemma SaveRuntimeEffect(dir: string, t: Tree, id: string, rt: JobRuntime)
    requires Layout(dir, t)
    ensures JobPath(dir, id) !in t ==> SaveRuntime(dir, t, id, rt) == Err(NoNode)
    ensures JobPath(dir, id) in t ==> SaveRuntime(dir, t, id, rt).Ok? && t[JobPath(dir, id)].data.ConfData?
    ensures JobPath(dir, id) in t ==>
      var t' := SaveRuntime(dir, t, id, rt).value;
      && Layout(dir, t')
      && StoredQueue(dir, t') == StoredQueue(dir, t)
      && StoredJobs(dir, t') == StoredJobs(dir, t)[id := Job(t[JobPath(dir, id)].data.conf, rt)]
      && (HasJob(dir, t, id) ==> StoredJobs(dir, t') == Spec.StoreRuntime(StoredJobs(dir, t), id, rt))
      && (Readable(dir, t) ==> Readable(dir, t'))
  {
    if JobPath(dir, id) in t {
      assert WellPlaced(dir, JobPath(dir, id), t[JobPath(dir, id)]);
      var p := RuntimePath(dir, id);
      var node := Saved(t, p, RuntimeData(rt));
      SaveRuntimePuts(dir, t, id, rt);
      assert Below(JobPath(dir, id), p);
      PutBelow(t, p, node, JobPath(dir, id));
      OtherJobsUntouched(dir, t, t[p := node], id);
      HasJobIsStored(dir, t, id);
    } else {
      NoJobNoRuntime(dir, t, id);
    }
  }

  /** The tree after saving both nodes of a job. */
  function WithJob(dir: string, t: Tree, id: string, job: Job): Tree {
    t[JobPath(dir, id) := Saved(t, JobPath(dir, id), ConfData(job.conf))]
     [RuntimePath(dir, id) := Saved(t, RuntimePath(dir, id), RuntimeData(job.rt))]
  }

  lemma SaveJobPuts(dir: string, t: Tree, id: string, job: Job)
    requires Layout(dir, t) && id == job.FQID()
    ensures SaveJob(dir, t, job) == Ok(WithJob(dir, t, id, job))
    ensures Layout(dir, WithJob(dir, t, id, job))
  {
    SaveConfPuts(dir, t, id, job.conf);
    SaveRuntimePuts(dir, t[JobPath(dir, id) := Saved(t, JobPath(dir, id), ConfData(job.conf))], id, job.rt);
    assert JobPath(dir, id) != RuntimePath(dir, id);
  }

  /** A saved job is stored, whatever was there before. */
  lemma SaveJobEffect(dir: string, t: Tree, job: Job)
    requires Layout(dir, t)
    ensures SaveJob(dir, t, job).Ok?
    ensures var t' := SaveJob(dir, t, job).value;
      && Layout(dir, t')
      && StoredQueue(dir, t') == StoredQueue(dir, t)
      && StoredJobs(dir, t') == StoredJobs(dir, t)[job.FQID() := job]
      && (Readable(dir, t) ==> Readable(dir, t'))
  {
    var id := job.FQID();
    SaveJobPuts(dir, t, id, job);
    assert Below(JobPath(dir, id), RuntimePath(dir, id)) && Below(JobPath(dir, id), JobPath(dir, id));
    OtherJobsUntouched(dir, t, WithJob(dir, t, id, job), id);
  }

  lemma AddTaskPuts(dir: string, t: Tree, id: string, task: Task)
    requires Layout(dir, t) && AddTask(dir, t, id, task).Ok?
    ensures var t' := AddTask(dir, t, id, task).value;
      && Layout(dir, t') && AgreeOutside(t, t', TasksPath(dir, id))
      && TaskPath(dir, id, TaskKey(task)) in t' && t'[TaskPath(dir, id, TaskKey(task))] == Node(TaskData(task), 0)
  {
    var p, q := TaskPath(dir, id, TaskKey(task)), TasksPath(dir, id);
    var t1 := if q in t then t else t[q := Node(Bare, 0)];
    assert Below(q, p) && Below(q, q);
    if q !in t {
      PutKeepsLayout(dir, t, q, Node(Bare, 0));
    }
    PutKeepsLayout(dir, t1, p, Node(TaskData(task), 0));
    assert AddTask(dir, t, id, task).value == t1[p := Node(TaskData(task), 0)];
  }

  /** A task record changes no job; it is added exactly when its job exists and its key is new. */
  lemma AddTaskEffect(dir: string, t: Tree, id: string, task: Task)
    requires Layout(dir, t)
    ensures JobPath(dir, id) !in t ==> AddTask(dir, t, id, task) == Err(NoNode)
    ensures AddTask(dir, t, id, task).Ok? <==>
      JobPath(dir, id) in t && TaskPath(dir, id, TaskKey(task)) !in t
    ensures AddTask(dir, t, id, task).Ok? ==>
      var t' := AddTask(dir, t, id, task).value;
      && Layout(dir, t') && (Readable(dir, t) ==> Readable(dir, t'))
      && StoredQueue(dir, t') == StoredQueue(dir, t) && StoredJobs(dir, t') == StoredJobs(dir, t)
      && TaskPath(dir, id, TaskKey(task)) in t' && t'[TaskPath(dir, id, TaskKey(task))] == Node(TaskData(task), 0)
  {
    if JobPath(dir, id) !in t {
      NoJobNoRuntime(dir, t, id);
    } else if AddTask(dir, t, id, task).Ok? {
      AddTaskPuts(dir, t, id, task);
      BelowTasks(dir, t, AddTask(dir, t, id, task).value, id);
    }
  }

  lemma {:induction false} BelowTransitive(p: Path, q: Path, r: Path)
    requires Below(p, q) && Below(q, r)
    ensures Below(p, r)
  {
    if r != q {
      BelowTransitive(p, q, r.parent);
    }
  }

  /** Task records are no part of a job. */
  lemma BelowTasks(dir: string, t: Tree, t': Tree, id: string)
    requires AgreeOutside(t, t', TasksPath(dir, id))
    ensures StoredQueue(dir, t') == StoredQueue(dir, t) && StoredJobs(dir, t') == StoredJobs(dir, t)
    ensures Readable(dir, t) ==> Readable(dir, t')
  {
    var p, q := JobPath(dir, id), TasksPath(dir, id);
    NotBelow(dir, p);
    assert !Below(q, JobsPath(dir)) by {
      assert !Below(q, Root) && !Below(q, Child(Root, Name(dir)));
    }
    assert !Below(q, p) && !Below(q, RuntimePath(dir, id)) && Below(p, q);
    forall r | Below(q, r) ensures Below(p, r) {
      BelowTransitive(p, q, r);
    }
    OtherJobsUntouched(dir, t, t', id);
    HasJobIsStored(dir, t, id);
    assert HasJob(dir, t', id) <==> HasJob(dir, t, id);
    if !HasJob(dir, t, id) {
      MinusAbsent(StoredJobs(dir, t), id);
    }
  }

  lemma RemoveKeepsLayout(dir: string, t: Tree, id: string)
    requires Layout(dir, t)
    ensures Layout(dir, RemoveSubtree(t, JobPath(dir, id)))
  {
    var t' := RemoveSubtree(t, JobPath(dir, id));
    NotBelow(dir, JobPath(dir, id));
  }

  /** Deleting a job's subtree deletes that job and nothing else. */
  lemma DeleteEffect(dir: string, t: Tree, id: string)
    requires Layout(dir, t)
    ensures var t' := RemoveSubtree(t, JobPath(dir, id));
      && Layout(dir, t')
      && StoredQueue(dir, t') == StoredQueue(dir, t)
      && StoredJobs(dir, t') == StoredJobs(dir, t) - {id}
      && (Readable(dir, t) ==> Readable(dir, t'))
  {
    RemoveKeepsLayout(dir, t, id);
    OtherJobsUntouched(dir, t, RemoveSubtree(t, JobPath(dir, id)), id);
  }

  /** After a deletion, late runtime saves and task records fail and change nothing. */
  lemma DeletedStaysDeleted(dir: string, t: Tree, id: string, rt: JobRuntime, task: Task)
    requires Layout(dir, t)
    ensures var t' := RemoveSubtree(t, JobPath(dir, id));
      SaveRuntime(dir, t', id, rt) == Err(NoNode) && AddTask(dir, t', id, task) == Err(NoNode)
  {
    RemoveKeepsLayout(dir, t, id);
    SaveRuntimeEffect(dir, RemoveSubtree(t, JobPath(dir, id)), id, rt);
    AddTaskEffect(dir, RemoveSubtree(t, JobPath(dir, id)), id, task);
  }

  function SaveRuntimeFirst(dir: string, t: Tree, job: Job): Result<Tree, ZkError> {
    match SaveRuntime(dir, t, job.FQID(), job.rt)
    case Ok(t') => SaveConf(dir, t', job.conf)
    case Err(e) => Err(e)
  }

  lemma SaveRuntimeFirstPuts(dir: string, t: Tree, id: string, job: Job)
    requires Layout(dir, t) && id == job.FQID() && JobPath(dir, id) in t
    ensures SaveRuntimeFirst(dir, t, job) == Ok(WithJob(dir, t, id, job))
  {
    var p, q := JobPath(dir, id), RuntimePath(dir, id);
    var r := Saved(t, q, RuntimeData(job.rt));
    SaveRuntimePuts(dir, t, id, job.rt);
    SaveConfPuts(dir, t[q := r], id, job.conf);
    assert p != q;
    assert t[q := r][p := Saved(t, p, ConfData(job.conf))] == WithJob(dir, t, id, job);
  }

  /**
   * Conf and runtime of an existing job are saved independently: both orders leave the same tree, in
   * which the job reads as what was saved.
   */
  lemma SavesCommute(dir: string, t: Tree, job: Job)
    requires Layout(dir, t) && JobPath(dir, job.FQID()) in t
    ensures SaveJob(dir, t, job).Ok? && SaveRuntimeFirst(dir, t, job) == SaveJob(dir, t, job)
    ensures var t' := SaveJob(dir, t, job).value;
      HasJob(dir, t', job.FQID()) && JobAt(dir, t', job.FQID()) == job
  {
    SaveJobPuts(dir, t, job.FQID(), job);
    SaveRuntimeFirstPuts(dir, t, job.FQID(), job);
    assert JobPath(dir, job.FQID()) != RuntimePath(dir, job.FQID());
  }

  lemma QueueEffects(dir: string, t: Tree, id: string)
    requires Layout(dir, t)
    ensures Enqueue(dir, t, id).Ok? && Dequeue(dir, t, id).Ok?
    ensures var t' := Enqueue(dir, t, id).value;
      && Layout(dir, t') && StoredJobs(dir, t') == StoredJobs(dir, t)
      && StoredQueue(dir, t') == StoredQueue(dir, t) + {id}
    ensures var t' := Dequeue(dir, t, id).value;
      && Layout(dir, t') && StoredJobs(dir, t') == StoredJobs(dir, t)
      && StoredQueue(dir, t') == StoredQueue(dir, t) - {id}
  {
    QueueLeaf(dir, t, id);
    EnqueueEffect(dir, t, id);
    DequeueEffect(dir, t, id);
  }

  lemma QueueLeaf(dir: string, t: Tree, id: string)
    requires Layout(dir, t)
    ensures Children(t, QueuePath(dir, id)) == {}
  {
    ChildrenOf(t, QueuePath(dir, id));
    forall c ensures Child(QueuePath(dir, id), c) !in t {
      assert forall node :: !WellPlaced(dir, Child(QueuePath(dir, id), c), node);
    }
  }

  lemma QueueOnlyTouchesQueue(dir: string, t: Tree, t': Tree, id: string)
    requires AgreeOutside(t, t', QueuePath(dir, id))
    ensures StoredJobs(dir, t') == StoredJobs(dir, t)
    ensures forall k | k != id :: k in StoredQueue(dir, t') <==> k in StoredQueue(dir, t)
  {
    StoredJobsAt(dir, t);
    StoredJobsAt(dir, t');
    StoredQueueAt(dir, t);
    StoredQueueAt(dir, t');
    forall k
      ensures !Below(QueuePath(dir, id), JobPath(dir, k)) && !Below(QueuePath(dir, id), RuntimePath(dir, k))
      ensures Below(QueuePath(dir, id), QueuePath(dir, k)) ==> k == id
    {
      NotBelow(dir, QueuePath(dir, id));
    }
    assert StoredJobs(dir, t') == StoredJobs(dir, t);
  }

  lemma EnqueueEffect(dir: string, t: Tree, id: string)
    requires Layout(dir, t)
    ensures Enqueue(dir, t, id).Ok?
    ensures var t' := Enqueue(dir, t, id).value;
      && Layout(dir, t') && StoredJobs(dir, t') == StoredJobs(dir, t)
      && StoredQueue(dir, t') == StoredQueue(dir, t) + {id}
  {
    var p := QueuePath(dir, id);
    var t' := Enqueue(dir, t, id).value;
    if p !in t {
      PutKeepsLayout(dir, t, p, Node(Bare, 0));
    }
    QueueOnlyTouchesQueue(dir, t, t', id);
    StoredQueueAt(dir, t);
    StoredQueueAt(dir, t');
    assert StoredQueue(dir, t') == StoredQueue(dir, t) + {id};
  }

  lemma DequeueEffect(dir: string, t: Tree, id: string)
    requires Layout(dir, t)
    ensures Dequeue(dir, t, id).Ok?
    ensures var t' := Dequeue(dir, t, id).value;
      && Layout(dir, t') && StoredJobs(dir, t') == StoredJobs(dir, t)
      && StoredQueue(dir, t') == StoredQueue(dir, t) - {id}
  {
    var p := QueuePath(dir, id);
    QueueLeaf(dir, t, id);
    if p in t {
      assert WellPlaced(dir, p, t[p]);
    }
    var t' := Dequeue(dir, t, id).value;
    OperationsKeepParents(t, p, Bare, 0);
    QueueOnlyTouchesQueue(dir, t, t', id);
    StoredQueueAt(dir, t);
    StoredQueueAt(dir, t');
    assert StoredQueue(dir, t') == StoredQueue(dir, t) - {id};
  }
}
