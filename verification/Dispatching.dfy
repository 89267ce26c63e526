// Which dependents a scan publishes, and when that depends on the order in which the
// dependency table happens to be walked.

module Dispatching {
  import opened Workflows
  import opened WorkflowStore
  import Dag

  // Every dependency of the task is completed.
  ghost predicate Ready(wf: Workflow, states: States, id: TaskId) {
    forall d | DependsOn(wf.dependencies, id, d) :: d in states && states[d].status == Completed
  }

  ghost predicate Due(wf: Workflow, doneTask: TaskId, states: States, id: TaskId) {
    DependsOn(wf.dependencies, id, doneTask) && Ready(wf, states, id)
  }

  // The states after a scan and the tasks it published. A published task is marked at once,
  // and later iterations of the same scan see the mark.
  ghost function Scan(wf: Workflow, doneTask: TaskId, states: States, order: seq<TaskId>): (States, seq<TaskId>) {
    if order == [] then
      (states, [])
    else
      var id := order[|order| - 1];
      var (mid, ids) := Scan(wf, doneTask, states, order[..|order| - 1]);
      if Due(wf, doneTask, mid, id) then (mid[id := Marker(wf.id, id, Queued)], ids + [id]) else (mid, ids)
  }

  ghost function Chosen(wf: Workflow, doneTask: TaskId, states: States, order: seq<TaskId>): seq<TaskId> {
    Scan(wf, doneTask, states, order).1
  }

  // Two dependents are due at once, and one of them waits for the other. Only the handling
  // of a result whose dependents have already run can meet this.
  ghost predicate Nested(wf: Workflow, doneTask: TaskId, states: States, x: TaskId, y: TaskId) {
    && Due(wf, doneTask, states, x) && Due(wf, doneTask, states, y)
    && DependsOn(wf.dependencies, x, y)
  }

  ghost predicate Clashes(wf: Workflow, doneTask: TaskId, states: States) {
    exists x, y :: Nested(wf, doneTask, states, x, y)
  }

  ghost predicate OrderFree(wf: Workflow, doneTask: TaskId, states: States) {
    forall a, b | Enumerates(a, wf.dependencies.Keys) && Enumerates(b, wf.dependencies.Keys) ::
      forall id :: id in Chosen(wf, doneTask, states, a) <==> id in Chosen(wf, doneTask, states, b)
  }

  // A scan marks what it publishes and touches nothing else.
  lemma {:induction false} ScanMarks(wf: Workflow, doneTask: TaskId, states: States, order: seq<TaskId>)
    ensures
      var (after, ids) := Scan(wf, doneTask, states, order);
      && (forall id | id in ids :: id in order && Due(wf, doneTask, states, id))
      && (forall id :: id in after <==> id in states || id in ids)
      && (forall id | id in after :: after[id] == if id in ids then Marker(wf.id, id, Queued) else states[id])
  {
    if order != [] {
      var front, id := order[..|order| - 1], order[|order| - 1];
      ScanMarks(wf, doneTask, states, front);
      var (mid, ids) := Scan(wf, doneTask, states, front);
      if Due(wf, doneTask, mid, id) {
        forall d | DependsOn(wf.dependencies, id, d) ensures d in states && states[d].status == Completed {
          assert d in mid && mid[d].status == Completed;
        }
        assert Due(wf, doneTask, states, id);
      }
    }
  }

  // Without such a pair, exactly the dependents due at the start are published.
  lemma {:induction false} ScanTakesAllDue(wf: Workflow, doneTask: TaskId, states: States, order: seq<TaskId>)
    requires !Clashes(wf, doneTask, states)
    ensures forall id :: id in Chosen(wf, doneTask, states, order) <==> id in order && Due(wf, doneTask, states, id)
  {
    if order != [] {
      var front, id := order[..|order| - 1], order[|order| - 1];
      ScanTakesAllDue(wf, doneTask, states, front);
      ScanMarks(wf, doneTask, states, front);
      ScanMarks(wf, doneTask, states, order);
      var (mid, ids) := Scan(wf, doneTask, states, front);
      if Due(wf, doneTask, states, id) {
        forall d | DependsOn(wf.dependencies, id, d) ensures d in mid && mid[d].status == Completed {
          assert d in states && states[d].status == Completed;
          if d in ids {
            assert Nested(wf, doneTask, states, id, d);
            assert false;
          }
        }
        assert Due(wf, doneTask, mid, id);
      }
      assert forall x :: x in order <==> x in front || x == id;
    }
  }

  // No dependent that is due at the end has been passed over.
  lemma {:induction false} ScanMissesNothing(wf: Workflow, doneTask: TaskId, states: States, order: seq<TaskId>)
    ensures forall id | id in order && Due(wf, doneTask, Scan(wf, doneTask, states, order).0, id) ::
              id in Chosen(wf, doneTask, states, order)
  {
    if order != [] {
      var front, last := order[..|order| - 1], order[|order| - 1];
      ScanMissesNothing(wf, doneTask, states, front);
      var (mid, ids) := Scan(wf, doneTask, states, front);
      var (after, all) := Scan(wf, doneTask, states, order);
      forall id | id in order && Due(wf, doneTask, after, id) ensures id in all {
        forall d | DependsOn(wf.dependencies, id, d) ensures d in mid && mid[d].status == Completed {
          assert d in after && after[d].status == Completed;
        }
        assert Due(wf, doneTask, mid, id);
      }
    }
  }

  // What is published stays published, and a task passed over is not looked at again.
  lemma {:induction false} ScanKeeps(wf: Workflow, doneTask: TaskId, states: States, order: seq<TaskId>,
                                     k: nat, id: TaskId)
    requires k <= |order| && id !in order[k..]
    ensures id in Chosen(wf, doneTask, states, order) <==> id in Chosen(wf, doneTask, states, order[..k])
  {
    if k < |order| {
      var front := order[..|order| - 1];
      assert order[k..] == front[k..] + [order[|order| - 1]];
      assert front[..k] == order[..k];
      ScanKeeps(wf, doneTask, states, front, k, id);
    } else {
      assert order[..k] == order;
    }
  }

  lemma Listing(s: set<TaskId>) returns (order: seq<TaskId>)
    ensures Enumerates(order, s)
  {
    order := [];
    var todo := s;
    while todo != {}
      invariant todo <= s && Enumerates(order, s - todo)
    {
      var id :| id in todo;
      order, todo := order + [id], todo - {id};
    }
  }

  // A walk that begins with the given tasks.
  lemma Leading(first: seq<TaskId>, s: set<TaskId>) returns (order: seq<TaskId>)
    requires Distinct(first) && forall id | id in first :: id in s
    ensures Enumerates(order, s) && first <= order
    ensures forall id | id in first :: id !in order[|first|..]
  {
    var rest := Listing(s - set id | id in first);
    order := first + rest;
    assert order[|first|..] == rest;
    forall i, j | 0 <= i < j < |order| ensures order[i] != order[j] {
      if i < |first| <= j {
        assert order[i] in first && rest[j - |first|] in rest;
      }
    }
  }

  // The order of the walk does not matter exactly when no such pair exists.
  lemma OrderFreeIff(wf: Workflow, doneTask: TaskId, states: States)
    requires Acyclic(wf.dependencies)
    ensures OrderFree(wf, doneTask, states) <==> !Clashes(wf, doneTask, states)
  {
    if Clashes(wf, doneTask, states) {
      var x, y :| Nested(wf, doneTask, states, x, y);
      NotItself(wf.dependencies, x);
      OneFirst(wf, doneTask, states, x, y);
    } else {
      forall a, b | Enumerates(a, wf.dependencies.Keys) && Enumerates(b, wf.dependencies.Keys)
        ensures forall id :: id in Chosen(wf, doneTask, states, a) <==> id in Chosen(wf, doneTask, states, b)
      {
        ScanTakesAllDue(wf, doneTask, states, a);
        ScanTakesAllDue(wf, doneTask, states, b);
      }
    }
  }

  lemma NotItself(deps: Dependencies, x: TaskId)
    requires Acyclic(deps)
    ensures !DependsOn(deps, x, x)
  {
    if DependsOn(deps, x, x) {
      SelfIsCycle(deps, x);
    }
  }

  lemma SelfIsCycle(deps: Dependencies, x: TaskId)
    requires DependsOn(deps, x, x)
    ensures IsCycle(deps, [x, x])
  {
    assert Hop(deps, [x, x], 0);
  }

  // Walking x before y publishes x; walking y before x marks y, and x has to wait.
  lemma OneFirst(wf: Workflow, doneTask: TaskId, states: States, x: TaskId, y: TaskId)
    requires Nested(wf, doneTask, states, x, y) && x != y
    ensures !OrderFree(wf, doneTask, states)
  {
    var a := Leading([x], wf.dependencies.Keys);
    ScanKeeps(wf, doneTask, states, a, 1, x);
    assert a[..1] == [x];
    assert Scan(wf, doneTask, states, []).0 == states;
    ScanOne(wf, doneTask, states, [], x);
    assert [] + [x] == [x];
    assert x in Chosen(wf, doneTask, states, a);
    var b := Leading([y, x], wf.dependencies.Keys);
    ScanKeeps(wf, doneTask, states, b, 2, x);
    assert b[..2] == [y, x];
    MarkedIsInTheWay(wf, doneTask, states, x, y);
    assert x in Chosen(wf, doneTask, states, a) && x !in Chosen(wf, doneTask, states, b);
  }

  lemma MarkedIsInTheWay(wf: Workflow, doneTask: TaskId, states: States, x: TaskId, y: TaskId)
    requires Nested(wf, doneTask, states, x, y) && x != y
    ensures x !in Chosen(wf, doneTask, states, [y, x])
  {
    ScanOne(wf, doneTask, states, [], y);
    assert [] + [y] == [y];
    var marked := states[y := Marker(wf.id, y, Queued)];
    assert Scan(wf, doneTask, states, [y]) == (marked, [y]);
    ScanOne(wf, doneTask, states, [y], x);
    assert [y] + [x] == [y, x];
    assert !Ready(wf, marked, x);
  }

  lemma ScanOne(wf: Workflow, doneTask: TaskId, states: States, front: seq<TaskId>, id: TaskId)
    ensures
      var (mid, ids) := Scan(wf, doneTask, states, front);
      Scan(wf, doneTask, states, front + [id]) ==
      if Due(wf, doneTask, mid, id) then (mid[id := Marker(wf.id, id, Queued)], ids + [id]) else (mid, ids)
  {
    assert (front + [id])[..|front|] == front;
  }

  // One more iteration of a scan.
  lemma ScanNext(wf: Workflow, doneTask: TaskId, states: States, order: seq<TaskId>, mid: States, ids: seq<TaskId>,
                 id: TaskId, after: States, more: seq<TaskId>)
    requires Scan(wf, doneTask, states, order) == (mid, ids)
    requires if Due(wf, doneTask, mid, id)
             then after == mid[id := Marker(wf.id, id, Queued)] && more == [id]
             else after == mid && more == []
    ensures Scan(wf, doneTask, states, order + [id]) == (after, ids + more)
  {
    ScanOne(wf, doneTask, states, order, id);
    assert ids + [] == ids;
  }
}
