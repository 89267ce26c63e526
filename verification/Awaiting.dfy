// Which tasks wait for which, perhaps through others; what joins branches, and what is on top.

module Awaiting {
  import opened Workflows
  import Dag

  ghost predicate Connects(deps: Dependencies, p: seq<TaskId>, x: TaskId, y: TaskId) {
    |p| >= 2 && IsWalk(deps, p) && p[0] == x && p[|p| - 1] == y
  }

  // The first task waits for the second one, perhaps through others.
  ghost predicate Awaits(deps: Dependencies, x: TaskId, y: TaskId) {
    exists p :: Connects(deps, p, x, y)
  }

  lemma AwaitsDirectly(deps: Dependencies, x: TaskId, d: TaskId)
    requires DependsOn(deps, x, d)
    ensures Awaits(deps, x, d)
  {
    var p := [x, d];
    assert Hop(deps, p, 0);
    assert Connects(deps, p, x, d);
  }

  lemma AwaitsThen(deps: Dependencies, x: TaskId, y: TaskId, z: TaskId)
    requires Awaits(deps, x, y) && Awaits(deps, y, z)
    ensures Awaits(deps, x, z)
  {
    var p :| Connects(deps, p, x, y);
    var q :| Connects(deps, q, y, z);
    var r := p + q[1..];
    forall i: nat | i + 1 < |r| ensures Hop(deps, r, i) {
      if i + 1 < |p| {
        assert Hop(deps, p, i);
      } else {
        assert Hop(deps, q, i + 1 - |p|);
      }
    }
    assert Connects(deps, r, x, z);
  }

  // A task that waits for another one waits for it first-hand or through a dependency.
  lemma FirstOnTheWay(deps: Dependencies, x: TaskId, y: TaskId) returns (d: TaskId)
    requires Awaits(deps, x, y)
    ensures DependsOn(deps, x, d) && (d == y || Awaits(deps, d, y))
  {
    var p :| Connects(deps, p, x, y);
    d := p[1];
    assert Hop(deps, p, 0);
    if |p| > 2 {
      var q := p[1..];
      forall i: nat | i + 1 < |q| ensures Hop(deps, q, i) {
        assert Hop(deps, p, i + 1);
      }
      assert Connects(deps, q, d, y);
    }
  }

  // Nobody waits for itself.
  lemma NobodyAwaitsItself(deps: Dependencies, x: TaskId)
    requires Acyclic(deps)
    ensures !Awaits(deps, x, x)
  {
    assert forall p :: Connects(deps, p, x, x) ==> IsCycle(deps, p);
  }

  // A task waits for two others, neither of which waits for the other.
  ghost predicate Joining(wf: Workflow, t: TaskId, a: TaskId, b: TaskId) {
    && a != b && DependsOn(wf.dependencies, t, a) && DependsOn(wf.dependencies, t, b)
    && !Awaits(wf.dependencies, a, b) && !Awaits(wf.dependencies, b, a)
  }

  // And none of its other dependencies waits for one of the two.
  ghost predicate Forked(wf: Workflow, t: TaskId, a: TaskId, b: TaskId) {
    && a != b && DependsOn(wf.dependencies, t, a) && DependsOn(wf.dependencies, t, b)
    && forall c | DependsOn(wf.dependencies, t, c) :: !Awaits(wf.dependencies, c, a) && !Awaits(wf.dependencies, c, b)
  }

  // A dependency that waits for all others.
  ghost predicate Tops(deps: Dependencies, t: TaskId, m: TaskId) {
    DependsOn(deps, t, m) && forall c | DependsOn(deps, t, c) :: c == m || Awaits(deps, m, c)
  }

  // Whatever else a task waits for, its top dependency waits for it.
  lemma BelowTop(deps: Dependencies, t: TaskId, m: TaskId, a: TaskId)
    requires Tops(deps, t, m) && Awaits(deps, t, a) && a != m
    ensures Awaits(deps, m, a)
  {
    var d := FirstOnTheWay(deps, t, a);
    if d != m && d != a {
      AwaitsThen(deps, m, d, a);
    }
  }

  ghost predicate Reflexively(deps: Dependencies, x: TaskId, y: TaskId) {
    x == y || Awaits(deps, x, y)
  }

  // A dependency that no other one waits for, at or above the given one.
  lemma {:induction false} Topmost(wf: Workflow, order: seq<TaskId>, t: TaskId, d: TaskId) returns (m: TaskId)
    requires Laid(wf, order) && DependsOn(wf.dependencies, t, d)
    ensures DependsOn(wf.dependencies, t, m) && Reflexively(wf.dependencies, m, d)
    ensures forall c | DependsOn(wf.dependencies, t, c) :: !Awaits(wf.dependencies, c, m)
    decreases |order| - if d in order then Dag.IndexOf(order, d) else 0
  {
    var deps := wf.dependencies;
    assert d in order;
    if c :| DependsOn(deps, t, c) && Awaits(deps, c, d) {
      assert c in order;
      AwaitsIsLater(deps, order, c, d);
      m := Topmost(wf, order, t, c);
      if m != c {
        AwaitsThen(deps, m, c, d);
      }
    } else {
      m := d;
    }
  }

  lemma AwaitsIsLater(deps: Dependencies, order: seq<TaskId>, x: TaskId, y: TaskId)
    requires IsTopological(deps, order) && x in order && Awaits(deps, x, y)
    ensures y in order && Dag.IndexOf(order, y) < Dag.IndexOf(order, x)
  {
    var p :| Connects(deps, p, x, y);
    Dag.WalkDescends(deps, order, p, |p| - 1);
  }

  // Where branches join, there is a fork at or below.
  lemma {:induction false} ForkBelow(wf: Workflow, order: seq<TaskId>, x: TaskId, a: TaskId, b: TaskId)
    returns (t: TaskId, c: TaskId, d: TaskId)
    requires Laid(wf, order) && x in order
    requires a != b && !Awaits(wf.dependencies, a, b) && !Awaits(wf.dependencies, b, a)
    requires Awaits(wf.dependencies, x, a) && Awaits(wf.dependencies, x, b)
    ensures Forked(wf, t, c, d)
    decreases Dag.IndexOf(order, x)
  {
    t := x;
    c := Above(wf, order, t, a);
    d := Above(wf, order, t, b);
    if c == d {
      assert c in order;
      AwaitsDirectly(wf.dependencies, t, c);
      AwaitsIsLater(wf.dependencies, order, x, c);
      t, c, d := ForkBelow(wf, order, c, a, b);
    }
  }

  // The topmost dependency on the way to a task.
  lemma Above(wf: Workflow, order: seq<TaskId>, t: TaskId, a: TaskId) returns (m: TaskId)
    requires Laid(wf, order) && Awaits(wf.dependencies, t, a)
    ensures DependsOn(wf.dependencies, t, m) && Reflexively(wf.dependencies, m, a)
    ensures forall c | DependsOn(wf.dependencies, t, c) :: !Awaits(wf.dependencies, c, m)
  {
    var d := FirstOnTheWay(wf.dependencies, t, a);
    m := Topmost(wf, order, t, d);
    if m != d && d != a {
      AwaitsThen(wf.dependencies, m, d, a);
    }
  }
}
