// Validation of the dependency graph: a depth-first search that rejects cycles,
// and what its acceptance means for the rest of the system.

module Dag {
  import opened Workflows

  predicate Marked(m: map<TaskId, bool>, id: TaskId) {
    id in m && m[id]
  }

  // ---------------------------------------------------------------------------
  // Walks, cycles and topological orders

  function IndexOf<T(==)>(s: seq<T>, x: T): (i: nat)
    requires x in s
    ensures i < |s| && s[i] == x
  {
    if s[0] == x then 0 else 1 + IndexOf(s[1..], x)
  }

  // Along a walk that starts inside a topological order, positions strictly decrease.
  lemma {:induction false} WalkDescends(deps: Dependencies, order: seq<TaskId>, p: seq<TaskId>, k: nat)
    requires IsTopological(deps, order) && IsWalk(deps, p) && k < |p| && p[0] in order
    ensures p[k] in order
    ensures k > 0 ==> IndexOf(order, p[k]) < IndexOf(order, p[0])
  {
    if k > 0 {
      WalkDescends(deps, order, p, k - 1);
      var i := IndexOf(order, p[k - 1]);
      assert Hop(deps, p, k - 1);
      assert Settled(deps, order, i);
      var j :| 0 <= j < i && order[j] == p[k];
      assert IndexOf(order, p[k]) == j;
    }
  }

  // No cycle meets a topological order.
  lemma OrderedIsOnNoCycle(deps: Dependencies, order: seq<TaskId>, c: seq<TaskId>, k: nat)
    requires IsTopological(deps, order) && IsWalk(deps, c) && k < |c| && c[k] in order
    ensures !IsCycle(deps, c)
  {
    if IsCycle(deps, c) {
      // Start the cycle at its k-th element.
      var turned := c[k..] + c[1..k + 1];
      assert IsWalk(deps, turned) by {
        forall i: nat | i + 1 < |turned|
          ensures Hop(deps, turned, i)
        {
          var m := if i + k + 1 < |c| then i + k else i + k + 1 - |c|;
          assert Hop(deps, c, m);
          assert turned[i] == c[m] && turned[i + 1] == c[m + 1];
        }
      }
      assert turned[|turned| - 1] == c[k] == turned[0];
      WalkDescends(deps, order, turned, |turned| - 1);
      assert false;
    }
  }

  // A sequence longer than the set it draws from repeats an element.
  lemma {:induction false} Pigeonhole<T>(s: seq<T>, pool: set<T>)
    requires |s| > |pool| && forall x | x in s :: x in pool
    ensures !Distinct(s)
  {
    if Distinct(s) {
      var last := s[|s| - 1];
      var rest := s[..|s| - 1];
      assert last in s;
      assert forall x | x in rest :: x in pool - {last} by {
        forall x | x in rest ensures x in pool - {last} {
          assert x in s;
        }
      }
      Pigeonhole(rest, pool - {last});
      assert false;
    }
  }

  lemma Extend(deps: Dependencies, p: seq<TaskId>, d: TaskId)
    requires p != [] ==> IsWalk(deps, p) && DependsOn(deps, p[|p| - 1], d)
    ensures IsWalk(deps, p + [d])
  {
    var q := p + [d];
    forall i: nat | i + 1 < |q| ensures Hop(deps, q, i) {
      if i + 1 < |p| {
        assert Hop(deps, p, i);
      }
    }
  }

  lemma Segment(deps: Dependencies, p: seq<TaskId>, from: nat, to: nat)
    requires IsWalk(deps, p) && from < to <= |p|
    ensures IsWalk(deps, p[from..to])
  {
    var q := p[from..to];
    forall i: nat | i + 1 < |q| ensures Hop(deps, q, i) {
      assert Hop(deps, p, from + i);
    }
  }

  // If every task of a set waits for another task of the set, walks of any length exist in it.
  ghost predicate Blocked(deps: Dependencies, pool: set<TaskId>, id: TaskId) {
    exists d :: d in pool && DependsOn(deps, id, d)
  }

  lemma {:induction false} WalkInside(deps: Dependencies, pool: set<TaskId>, n: nat) returns (p: seq<TaskId>)
    requires pool != {}
    requires forall id {:trigger Blocked(deps, pool, id)} | id in pool :: Blocked(deps, pool, id)
    ensures |p| == n + 1 && IsWalk(deps, p) && forall id | id in p :: id in pool
  {
    if n == 0 {
      var id :| id in pool;
      p := [id];
    } else {
      var q := WalkInside(deps, pool, n - 1);
      var last := q[|q| - 1];
      assert last in q;
      assert Blocked(deps, pool, last);
      var d :| d in pool && DependsOn(deps, last, d);
      Extend(deps, q, d);
      p := q + [d];
    }
  }

  lemma SomeTaskIsFree(deps: Dependencies, pool: set<TaskId>) returns (id: TaskId)
    requires Acyclic(deps) && pool != {}
    ensures id in pool && forall d | DependsOn(deps, id, d) :: d !in pool
  {
    if forall id {:trigger Blocked(deps, pool, id)} | id in pool :: Blocked(deps, pool, id) {
      var p := WalkInside(deps, pool, |pool|);
      Pigeonhole(p, pool);
      var i, j :| 0 <= i < j < |p| && p[i] == p[j];
      Segment(deps, p, i, j + 1);
      assert IsCycle(deps, p[i..j + 1]);
      assert false;
    }
    id :| id in pool && !Blocked(deps, pool, id);
  }

  lemma {:induction false} OrderOf(deps: Dependencies, pool: set<TaskId>, done: seq<TaskId>)
    returns (order: seq<TaskId>)
    requires Acyclic(deps) && IsTopological(deps, done)
    requires forall id | id in pool :: id !in done
    requires forall id, d | id in pool && DependsOn(deps, id, d) :: d in pool || d in done
    ensures IsTopological(deps, order) && done <= order
    ensures forall id :: id in order <==> id in pool || id in done
    decreases |pool|
  {
    if pool == {} {
      order := done;
    } else {
      var id := SomeTaskIsFree(deps, pool);
      var next := done + [id];
      Finish(deps, done, id);
      order := OrderOf(deps, pool - {id}, next);
    }
  }

  // An accepted workflow can be laid out so that every task follows its dependencies.
  lemma TopologicalOrderExists(wf: Workflow) returns (order: seq<TaskId>)
    requires Closed(wf) && Acyclic(wf.dependencies)
    ensures IsTopological(wf.dependencies, order) && Enumerates(order, wf.tasks.Keys)
  {
    order := OrderOf(wf.dependencies, wf.tasks.Keys, []);
  }

  // And only an accepted one can, so acceptance is exactly the existence of such a layout.
  lemma AcceptedIffOrdered(wf: Workflow)
    requires wf.tasks != map[] && Closed(wf)
    ensures Accepted(wf) <==>
            exists order :: IsTopological(wf.dependencies, order) && Enumerates(order, wf.tasks.Keys)
  {
    if Accepted(wf) {
      var order := TopologicalOrderExists(wf);
    } else if order :| IsTopological(wf.dependencies, order) && Enumerates(order, wf.tasks.Keys) {
      var c :| IsCycle(wf.dependencies, c);
      assert Hop(wf.dependencies, c, 0);
      OrderedIsOnNoCycle(wf.dependencies, order, c, 0);
      assert false;
    }
  }

  // ---------------------------------------------------------------------------
  // The search

  // The stack marks are exactly the current path, the other visited tasks are exactly
  // the finished ones, and those are laid out dependencies first.
  ghost predicate Coherent(deps: Dependencies, visited: map<TaskId, bool>, stack: map<TaskId, bool>,
                           path: seq<TaskId>, finished: seq<TaskId>)
  {
    && (forall id :: Marked(stack, id) <==> id in path)
    && (forall id :: Marked(visited, id) <==> id in path || id in finished)
    && (forall id | id in path :: id !in finished)
    && Distinct(path)
    && (path != [] ==> IsWalk(deps, path))
    && IsTopological(deps, finished)
  }

  lemma Push(deps: Dependencies, visited: map<TaskId, bool>, stack: map<TaskId, bool>,
             path: seq<TaskId>, finished: seq<TaskId>, id: TaskId)
    requires Coherent(deps, visited, stack, path, finished) && !Marked(visited, id)
    requires path != [] ==> DependsOn(deps, path[|path| - 1], id)
    ensures Coherent(deps, visited[id := true], stack[id := true], path + [id], finished)
  {
    Extend(deps, path, id);
  }

  lemma Pop(deps: Dependencies, visited: map<TaskId, bool>, stack: map<TaskId, bool>,
            path: seq<TaskId>, finished: seq<TaskId>, id: TaskId)
    requires Coherent(deps, visited, stack, path + [id], finished)
    requires forall d | DependsOn(deps, id, d) :: d in finished
    ensures Coherent(deps, visited, stack[id := false], path, finished + [id])
  {
    var full := path + [id];
    assert full[|path|] == id;
    forall i | 0 <= i < |path| ensures full[i] == path[i] && path[i] != id {
      assert full[i] != full[|path|];
    }
    assert path == full[..|path|];
    assert forall x :: x in full <==> x in path || x == id;
    assert forall x :: x in finished + [id] <==> x in finished || x == id;
    if path != [] {
      Segment(deps, full, 0, |path|);
      assert full[0..|path|] == path;
    }
    Finish(deps, finished, id);
  }

  // A dependency on the current path closes a cycle.
  lemma Caught(deps: Dependencies, visited: map<TaskId, bool>, stack: map<TaskId, bool>,
               path: seq<TaskId>, finished: seq<TaskId>, id: TaskId) returns (cycle: seq<TaskId>)
    requires Coherent(deps, visited, stack, path, finished) && Marked(stack, id)
    requires path != [] && DependsOn(deps, path[|path| - 1], id)
    ensures IsCycle(deps, cycle)
  {
    var from := IndexOf(path, id);
    cycle := path[from..] + [id];
    CloseCycle(deps, path, from);
  }

  class Search {
    const deps: Dependencies
    var visited: map<TaskId, bool>
    var stack: map<TaskId, bool>
    ghost var path: seq<TaskId>      // the tasks being explored, outermost first
    ghost var finished: seq<TaskId>  // the tasks fully explored, in the order they finished

    constructor (deps: Dependencies)
      ensures this.deps == deps && Valid() && path == [] && finished == [] && visited == map[]
    {
      this.deps := deps;
      visited, stack := map[], map[];
      path, finished := [], [];
    }

    ghost predicate Valid()
      reads this
    {
      Coherent(deps, visited, stack, path, finished)
    }

    ghost function Unvisited(nodes: set<TaskId>): set<TaskId>
      reads this
    {
      set id | id in nodes && !Marked(visited, id)
    }

    method HasCycle(id: TaskId, ghost nodes: set<TaskId>) returns (found: bool, ghost cycle: seq<TaskId>)
      requires Valid() && !Marked(visited, id) && id in nodes
      requires forall n, d | n in nodes && DependsOn(deps, n, d) :: d in nodes
      requires path != [] ==> DependsOn(deps, path[|path| - 1], id)
      modifies this
      ensures found ==> IsCycle(deps, cycle)
      ensures !found ==> Valid() && path == old(path) && id in finished
      ensures !found ==> forall x | x in old(finished) :: x in finished
      ensures Unvisited(nodes) <= old(Unvisited(nodes))
      decreases |Unvisited(nodes)|
    {
      ghost var before := Unvisited(nodes);
      Push(deps, visited, stack, path, finished, id);
      visited := visited[id := true];
      stack := stack[id := true];
      path := path + [id];
      assert Unvisited(nodes) < before by {
        assert id in before && id !in Unvisited(nodes);
      }
      ghost var inside := Unvisited(nodes);
      Smaller(inside, before);
      cycle := [];
      var next := DepsOf(deps, id);
      for i := 0 to |next|
        invariant Valid() && path == old(path) + [id]
        invariant forall x | x in old(finished) :: x in finished
        invariant forall j | 0 <= j < i :: next[j] in finished
        invariant Unvisited(nodes) <= inside
      {
        var dep := next[i];
        assert DependsOn(deps, id, dep);
        if !Marked(visited, dep) {
          Smaller(Unvisited(nodes), inside);
          found, cycle := HasCycle(dep, nodes);
          if found {
            return;
          }
        } else if Marked(stack, dep) {
          cycle := Caught(deps, visited, stack, path, finished, dep);
          return true, cycle;
        }
      }
      Pop(deps, visited, stack, old(path), finished, id);
      stack := stack[id := false];
      path := old(path);
      finished := finished + [id];
      return false, [];
    }
  }

  lemma Smaller<T>(a: set<T>, b: set<T>)
    requires a <= b
    ensures |a| <= |b| && (a != b ==> |a| < |b|)
  {
    assert b == a + (b - a);
    if a != b {
      assert b - a != {};
    }
  }

  lemma CloseCycle(deps: Dependencies, path: seq<TaskId>, from: nat)
    requires path != [] && IsWalk(deps, path) && from < |path|
    requires DependsOn(deps, path[|path| - 1], path[from])
    ensures IsCycle(deps, path[from..] + [path[from]])
  {
    Segment(deps, path, from, |path|);
    assert path[from..|path|] == path[from..];
    Extend(deps, path[from..], path[from]);
  }

  lemma Finish(deps: Dependencies, finished: seq<TaskId>, id: TaskId)
    requires IsTopological(deps, finished) && id !in finished
    requires forall d | DependsOn(deps, id, d) :: d in finished
    ensures IsTopological(deps, finished + [id])
  {
    var next := finished + [id];
    forall i: nat | i < |next| ensures Settled(deps, next, i) {
      if i < |finished| {
        assert Settled(deps, finished, i);
        assert next[..i] == finished[..i];
      } else {
        assert next[..i] == finished;
      }
    }
  }

  datatype Verdict = Ok | CycleDetected | UnknownTask(id: TaskId) | UnknownDependency(dep: TaskId)

  ghost function Nodes(wf: Workflow): set<TaskId> {
    wf.tasks.Keys + (set id, i | id in wf.dependencies && 0 <= i < |wf.dependencies[id]| :: wf.dependencies[id][i])
  }

  lemma NodesClosed(wf: Workflow)
    ensures forall n, d | DependsOn(wf.dependencies, n, d) :: d in Nodes(wf)
  {
    forall n, d | DependsOn(wf.dependencies, n, d) ensures d in Nodes(wf) {
      var i :| 0 <= i < |wf.dependencies[n]| && wf.dependencies[n][i] == d;
    }
  }

  // Both loops range over maps, so each pass takes an arbitrary remaining key.
  method ValidateDAG(wf: Workflow) returns (verdict: Verdict)
    ensures verdict.Ok? <==> Closed(wf) && Acyclic(wf.dependencies)
    ensures verdict.CycleDetected? ==> !Acyclic(wf.dependencies)
    ensures verdict.UnknownTask? ==> verdict.id in wf.dependencies && verdict.id !in wf.tasks
    ensures verdict.UnknownDependency? ==>
              verdict.dep !in wf.tasks && exists id :: DependsOn(wf.dependencies, id, verdict.dep)
  {
    var search := new Search(wf.dependencies);
    var todo := wf.tasks.Keys;
    NodesClosed(wf);
    while todo != {}
      invariant search.Valid() && search.path == [] && todo <= wf.tasks.Keys
      invariant forall id | id in wf.tasks && id !in todo :: id in search.finished
      decreases |todo|
    {
      var id :| id in todo;
      if !Marked(search.visited, id) {
        var found, cycle := search.HasCycle(id, Nodes(wf));
        if found {
          return CycleDetected;
        }
      }
      todo := todo - {id};
    }
    var keys := wf.dependencies.Keys;
    while keys != {}
      invariant keys <= wf.dependencies.Keys
      invariant forall id | id in wf.dependencies && id !in keys ::
        id in wf.tasks && forall d | d in wf.dependencies[id] :: d in wf.tasks
      decreases |keys|
    {
      var id :| id in keys;
      if id !in wf.tasks {
        return UnknownTask(id);
      }
      var deps := wf.dependencies[id];
      for i := 0 to |deps|
        invariant forall j | 0 <= j < i :: deps[j] in wf.tasks
      {
        if deps[i] !in wf.tasks {
          assert DependsOn(wf.dependencies, id, deps[i]);
          return UnknownDependency(deps[i]);
        }
      }
      keys := keys - {id};
    }
    FinishedIsAcyclic(wf, search.finished);
    return Ok;
  }

  lemma FinishedIsAcyclic(wf: Workflow, finished: seq<TaskId>)
    requires Closed(wf) && IsTopological(wf.dependencies, finished)
    requires forall id | id in wf.tasks :: id in finished
    ensures Acyclic(wf.dependencies)
  {
    forall c ensures !IsCycle(wf.dependencies, c) {
      if IsCycle(wf.dependencies, c) {
        assert Hop(wf.dependencies, c, 0);
        OrderedIsOnNoCycle(wf.dependencies, finished, c, 0);
      }
    }
  }

  datatype ParseResult = Parsed(wf: Workflow) | Rejected

  method ParseWorkflow(wf: Workflow) returns (r: ParseResult)
    ensures r == if wf.id != "" && Accepted(wf) then Parsed(wf) else Rejected
  {
    if wf.id == "" {
      return Rejected;
    }
    if |wf.tasks| == 0 {
      return Rejected;
    }
    var verdict := ValidateDAG(wf);
    if !verdict.Ok? {
      return Rejected;
    }
    return Parsed(wf);
  }

  // ---------------------------------------------------------------------------
  // Roots, dependents and reachability

  method RootTasks(wf: Workflow) returns (roots: seq<Task>)
    ensures forall t :: t in roots <==> exists id :: IsRoot(wf, id) && t == Stamped(wf, id)
    ensures forall i, j | 0 <= i < j < |roots| :: roots[i].id != roots[j].id
  {
    roots := [];
    var todo := wf.tasks.Keys;
    while todo != {}
      invariant todo <= wf.tasks.Keys
      invariant forall t :: t in roots <==> exists id :: IsRoot(wf, id) && id !in todo && t == Stamped(wf, id)
      invariant forall i, j | 0 <= i < j < |roots| :: roots[i].id != roots[j].id
      decreases |todo|
    {
      var id :| id in todo;
      if |DepsOf(wf.dependencies, id)| == 0 {
        assert forall t | t in roots :: t.id != id;
        ghost var before := roots;
        roots := roots + [Stamped(wf, id)];
        assert forall t :: t in roots <==> t in before || t == Stamped(wf, id);
        assert IsRoot(wf, id);
      }
      todo := todo - {id};
    }
  }

  method Dependents(wf: Workflow, taskId: TaskId) returns (out: seq<TaskId>)
    ensures Distinct(out)
    ensures forall id :: id in out <==> DependsOn(wf.dependencies, id, taskId)
  {
    out := [];
    var todo := wf.dependencies.Keys;
    while todo != {}
      invariant todo <= wf.dependencies.Keys && Distinct(out)
      invariant forall id :: id in out <==> id !in todo && DependsOn(wf.dependencies, id, taskId)
      decreases |todo|
    {
      var id :| id in todo;
      var deps := wf.dependencies[id];
      var hit := false;
      for i := 0 to |deps|
        invariant hit <==> taskId in deps[..i]
      {
        assert deps[..i + 1] == deps[..i] + [deps[i]];
        if deps[i] == taskId {
          hit := true;
        }
      }
      assert deps[..|deps|] == deps;
      if hit {
        out := out + [id];
      }
      todo := todo - {id};
    }
  }

  // A chain from a root: each element waits for the one before it.
  ghost predicate IsChain(deps: Dependencies, p: seq<TaskId>) {
    p != [] && forall i, j | 0 <= i && j == i + 1 < |p| :: DependsOn(deps, p[j], p[i])
  }

  lemma {:induction false} ReachedFromARoot(wf: Workflow, order: seq<TaskId>, k: nat) returns (p: seq<TaskId>)
    requires Closed(wf) && IsTopological(wf.dependencies, order)
    requires Enumerates(order, wf.tasks.Keys) && k < |order|
    ensures IsChain(wf.dependencies, p) && IsRoot(wf, p[0]) && p[|p| - 1] == order[k]
  {
    var id := order[k];
    assert id in order;
    if DepsOf(wf.dependencies, id) == [] {
      p := [id];
    } else {
      var d := DepsOf(wf.dependencies, id)[0];
      assert DependsOn(wf.dependencies, order[k], d);
      assert Settled(wf.dependencies, order, k);
      var j :| 0 <= j < k && order[j] == d;
      var q := ReachedFromARoot(wf, order, j);
      p := q + [id];
    }
  }

  // In an accepted workflow there is a root, and following dependents from the roots
  // reaches every task.
  lemma EveryTaskIsReachable(wf: Workflow, id: TaskId) returns (p: seq<TaskId>)
    requires Accepted(wf) && id in wf.tasks
    ensures IsChain(wf.dependencies, p) && IsRoot(wf, p[0]) && p[|p| - 1] == id
  {
    var order := TopologicalOrderExists(wf);
    assert id in order;
    p := ReachedFromARoot(wf, order, IndexOf(order, id));
  }
}
