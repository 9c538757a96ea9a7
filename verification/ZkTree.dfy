/** A ZooKeeper tree and the operations the program uses on it. */
module ZkTrees {
  import opened Wrappers
  import opened JobModel

  /** Names the program fixes ("jobs", "queuedJobs", "runtime", "tasks"), and all others. */
  datatype Component = Jobs | QueuedJobs | Runtime | Tasks | Name(name: string)

  datatype Path = Root | Child(parent: Path, name: Component)

  /** A single run of a job. */
  datatype Task = Task(start: int, end: int, taskID: string, message: string)

  /** What the program stores; JSON documents are the records they encode. */
  datatype Data = Bare | ConfData(conf: JobConf) | RuntimeData(rt: JobRuntime) | TaskData(task: Task)

  datatype Node = Node(data: Data, version: nat)

  type Tree = map<Path, Node>

  /** ConnectionLoss stands for every failure of the connection; BadPayload for data that does not decode. */
  datatype ZkError = NoNode | NodeExists | NotEmpty | BadVersion | ConnectionLoss | BadPayload

  /** p lies in the subtree of root. */
  predicate Below(root: Path, p: Path) {
    p == root || (p.Child? && Below(root, p.parent))
  }

  function Children(t: Tree, p: Path): set<Component> {
    set q | q in t && q.Child? && q.parent == p :: q.name
  }

  function Create(t: Tree, p: Path, d: Data): Result<Tree, ZkError>
    requires p.Child?
  {
    if p in t then Err(NodeExists)
    else if p.parent !in t then Err(NoNode)
    else Ok(t[p := Node(d, 0)])
  }

  /** Version -1 matches any version. */
  function Set(t: Tree, p: Path, d: Data, version: int): Result<Tree, ZkError> {
    if p !in t then Err(NoNode)
    else if version != -1 && version != t[p].version then Err(BadVersion)
    else Ok(t[p := Node(d, t[p].version + 1)])
  }

  function Delete(t: Tree, p: Path, version: int): Result<Tree, ZkError> {
    if p !in t then Err(NoNode)
    else if version != -1 && version != t[p].version then Err(BadVersion)
    else if Children(t, p) != {} then Err(NotEmpty)
    else Ok(t - {p})
  }

  /** Every node's parent exists. */
  ghost predicate ParentClosed(t: Tree) {
    forall p | p in t && p.Child? :: p.parent in t
  }

  lemma ChildrenOf(t: Tree, p: Path)
    ensures forall c :: c in Children(t, p) <==> Child(p, c) in t
  {
    forall c | Child(p, c) in t ensures c in Children(t, p) {
      assert Child(p, c).parent == p && Child(p, c).name == c;
    }
  }

  /** No operation, successful or not, leaves a node without its parent. */
  lemma OperationsKeepParents(t: Tree, p: Path, d: Data, version: int)
    requires ParentClosed(t)
    ensures p.Child? && Create(t, p, d).Ok? ==> ParentClosed(Create(t, p, d).value)
    ensures Set(t, p, d, version).Ok? ==> ParentClosed(Set(t, p, d, version).value)
    ensures Delete(t, p, version).Ok? ==> ParentClosed(Delete(t, p, version).value)
  {
    ChildrenOf(t, p);
  }

  /** What a call may leave behind: a lost connection does not tell whether the call took effect. */
  ghost predicate Outcome(before: Tree, effect: Result<Tree, ZkError>, after: Tree, err: Option<ZkError>) {
    match err
    case None => effect == Ok(after)
    case Some(ConnectionLoss) => after == before || effect == Ok(after)
    case Some(e) => after == before && effect == Err(e)
  }

}

/** The connection to the server, whose calls may fail at any point. */
module ZkConns {
  import opened Wrappers
  import opened ZkTrees

  class Conn {
    var tree: Tree
    /** No call on this connection is ever lost. */
    const reliable: bool

    constructor (tree: Tree, reliable: bool)
      ensures this.tree == tree && this.reliable == reliable
    {
      this.tree, this.reliable := tree, reliable;
    }

    method Finish(effect: Result<Tree, ZkError>) returns (err: Option<ZkError>)
      requires effect.Err? ==> effect.error != ConnectionLoss
      modifies this
      ensures Outcome(old(tree), effect, tree, err)
      ensures reliable ==> err != Some(ConnectionLoss)
    {
      var lost, applied: bool := *, *;
      lost := lost && !reliable;
      if effect.Ok? && (!lost || applied) {
        tree := effect.value;
      }
      err := if lost then Some(ConnectionLoss) else if effect.Err? then Some(effect.error) else None;
    }

    method Create(p: Path, d: Data) returns (err: Option<ZkError>)
      requires p.Child?
      modifies this
      ensures Outcome(old(tree), ZkTrees.Create(old(tree), p, d), tree, err)
      ensures reliable ==> err != Some(ConnectionLoss)
    {
      err := Finish(ZkTrees.Create(tree, p, d));
    }

    method Set(p: Path, d: Data, version: int) returns (err: Option<ZkError>)
      modifies this
      ensures Outcome(old(tree), ZkTrees.Set(old(tree), p, d, version), tree, err)
      ensures reliable ==> err != Some(ConnectionLoss)
    {
      err := Finish(ZkTrees.Set(tree, p, d, version));
    }

    method Delete(p: Path, version: int) returns (err: Option<ZkError>)
      modifies this
      ensures Outcome(old(tree), ZkTrees.Delete(old(tree), p, version), tree, err)
      ensures reliable ==> err != Some(ConnectionLoss)
    {
      err := Finish(ZkTrees.Delete(tree, p, version));
    }

    method Get(p: Path) returns (r: Result<Node, ZkError>)
      ensures r == Err(ConnectionLoss) || r == if p in tree then Ok(tree[p]) else Err(NoNode)
      ensures reliable ==> r != Err(ConnectionLoss)
    {
      var lost: bool := *;
      r := if lost && !reliable then Err(ConnectionLoss) else if p in tree then Ok(tree[p]) else Err(NoNode);
    }

    /** The names of a node's children, each once, in any order. */
    method Children(p: Path) returns (r: Result<seq<Component>, ZkError>)
      ensures r == Err(ConnectionLoss) || (p !in tree && r == Err(NoNode)) || (p in tree && r.Ok?)
      ensures r.Ok? ==>
        && (forall name | name in r.value :: name in ZkTrees.Children(tree, p))
        && (forall name | name in ZkTrees.Children(tree, p) :: name in r.value)
        && forall i, j | 0 <= i < j < |r.value| :: r.value[i] != r.value[j]
      ensures reliable ==> r != Err(ConnectionLoss)
    {
      var lost: bool := *;
      if lost && !reliable {
        return Err(ConnectionLoss);
      }
      if p !in tree {
        return Err(NoNode);
      }
      var names, rest := [], ZkTrees.Children(tree, p);
      while rest != {}
        invariant rest <= ZkTrees.Children(tree, p)
        invariant forall name | name in names :: name in ZkTrees.Children(tree, p) && name !in rest
        invariant forall name | name in ZkTrees.Children(tree, p) :: name in names || name in rest
        invariant forall i, j | 0 <= i < j < |names| :: names[i] != names[j]
      {
        var name :| name in rest;
        rest := rest - {name};
        names := names + [name];
      }
      r := Ok(names);
    }
  }
}
