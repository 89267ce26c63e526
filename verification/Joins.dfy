// Tasks that join branches, and nests. In every workflow with a task that waits for two
// others, neither of which waits for the other, there is a run without hurry in which nothing
// fails, some task is published twice, and the caller is told that the workflow failed. So it
// is where a task depends on another one and also on the last thing that one waits for.

module Joins {
  import opened Workflows
  import opened Protocol
  import opened Progress
  import opened BoundedWork
  import opened CalmRuns
  import opened Awaiting
  import opened Executing
  import Dag

  // ---------------------------------------------------------------------------
  // The fork

  // What comes before both branches, or beside them.
  ghost function Beside(wf: Workflow, a: TaskId, b: TaskId): set<TaskId> {
    set x | x in wf.tasks && x != a && x != b && !Awaits(wf.dependencies, x, a) && !Awaits(wf.dependencies, x, b)
  }

  lemma BesideIsClosed(wf: Workflow, t: TaskId, a: TaskId, b: TaskId)
    requires Accepted(wf) && Forked(wf, t, a, b)
    ensures ClosedUnder(wf, Beside(wf, a, b)) && t !in Beside(wf, a, b) + {a, b}
    ensures ReadyIn(wf, Beside(wf, a, b), a) && ReadyIn(wf, Beside(wf, a, b), b)
    ensures ReadyIn(wf, Beside(wf, a, b) + {a, b}, t) && ClosedUnder(wf, Beside(wf, a, b) + {a, b})
    ensures Undemanded(wf, Beside(wf, a, b) + {a, b}, a) && Undemanded(wf, Beside(wf, a, b) + {a, b}, b)
    ensures !DependsOn(wf.dependencies, a, b) && !DependsOn(wf.dependencies, b, a)
  {
    var deps := wf.dependencies;
    forall x, d | x in wf.tasks && DependsOn(deps, x, d)
      ensures Awaits(deps, x, d)
      ensures forall y | Awaits(deps, d, y) :: Awaits(deps, x, y)
    {
      AwaitsDirectly(deps, x, d);
      forall y | Awaits(deps, d, y) ensures Awaits(deps, x, y) {
        AwaitsThen(deps, x, d, y);
      }
    }
    NobodyAwaitsItself(deps, a);
    NobodyAwaitsItself(deps, b);
    assert Awaits(deps, t, a) && Awaits(deps, t, b);
  }

  lemma DoubledNeeds(wf: Workflow, done: set<TaskId>, t: TaskId, a: TaskId, b: TaskId, x: TaskId)
    requires Accepted(wf) && Forked(wf, t, a, b) && done == Beside(wf, a, b) && x in wf.tasks
    ensures
      var all := done + {a, b};
      Needs(wf, all, multiset{t}, x) + (if x == a || x == b then 1 else 0) <=
      Needs(wf, done, multiset{}, x) + (if Rouses(wf, all, a, x) then 1 else 0) +
      (if Rouses(wf, all, b, x) then 1 else 0)
    ensures Needs(wf, done + {a, b}, multiset{t}, t) == 2
  {
    BesideIsClosed(wf, t, a, b);
    var all := done + {a, b};
    if x !in all && ReadyIn(wf, all, x) && !ReadyIn(wf, done, x) {
      var d :| DependsOn(wf.dependencies, x, d) && d !in done;
      assert d == a || d == b;
    }
  }

  lemma BothExecute(wf: Workflow, s: Sys, done: set<TaskId>, a: TaskId, b: TaskId) returns (n: Sys)
    requires Stands(wf, EngineIdle, s, done) && s.handler.Idle? && s.results == multiset{}
    requires a != b && a in wf.tasks && b in wf.tasks && a !in done && b !in done && a in s.queue && b in s.queue
    ensures Stands(wf, EngineIdle, n, done + {a, b}) && n.handler.Idle?
    ensures n.results == multiset{Msg(a, Completed), Msg(b, Completed)}
    ensures n.queue == s.queue - multiset{a} - multiset{b}
  {
    var first := ExecutesOne(wf, EngineIdle, s, done, a);
    assert b in first.queue;
    n := ExecutesOne(wf, EngineIdle, first, done + {a}, b);
    assert done + {a} + {b} == done + {a, b};
  }

  lemma BothHandled(wf: Workflow, s: Sys, all: set<TaskId>, a: TaskId, b: TaskId) returns (n: Sys)
    requires Closed(wf) && Stands(wf, EngineIdle, s, all) && s.handler.Idle? && all != wf.tasks.Keys
    requires a in all && b in all && Undemanded(wf, all, a) && Undemanded(wf, all, b)
    requires s.results == multiset{Msg(a, Completed), Msg(b, Completed)}
    ensures Stands(wf, EngineIdle, n, all) && n.handler.Idle? && n.results == multiset{}
    ensures forall x | x in wf.tasks ::
              n.queue[x] ==
              s.queue[x] + (if Rouses(wf, all, a, x) then 1 else 0) + (if Rouses(wf, all, b, x) then 1 else 0)
  {
    var mid := HandlesResult(wf, EngineIdle, s, all, a);
    assert mid.results == multiset{Msg(b, Completed)};
    n := HandlesResult(wf, EngineIdle, mid, all, b);
  }

  // Both branches are executed before either result is handled, so each handling publishes
  // what joins them.
  lemma Doubles(wf: Workflow, s: Sys, done: set<TaskId>, t: TaskId, a: TaskId, b: TaskId) returns (n: Sys)
    requires Accepted(wf) && Rests(wf, EngineIdle, s, done, multiset{}) && Forked(wf, t, a, b)
    requires done == Beside(wf, a, b)
    ensures Rests(wf, EngineIdle, n, done + {a, b}, multiset{t}) && n.queue[t] >= 2
  {
    var all := done + {a, b};
    BesideIsClosed(wf, t, a, b);
    assert s.queue[a] >= Needs(wf, done, multiset{}, a) && s.queue[b] >= Needs(wf, done, multiset{}, b);
    var both := BothExecute(wf, s, done, a, b);
    n := BothHandled(wf, both, all, a, b);
    forall x | x in wf.tasks ensures n.queue[x] >= Needs(wf, all, multiset{t}, x) {
      assert s.queue[x] >= Needs(wf, done, multiset{}, x);
      DoublesOne(wf, s, both, n, done, t, a, b, x);
    }
    assert n.queue[t] >= Needs(wf, all, multiset{t}, t);
    DoubledNeeds(wf, done, t, a, b, t);
  }

  lemma DoublesOne(wf: Workflow, s: Sys, both: Sys, n: Sys, done: set<TaskId>, t: TaskId, a: TaskId, b: TaskId,
                   x: TaskId)
    requires Accepted(wf) && Forked(wf, t, a, b) && done == Beside(wf, a, b) && x in wf.tasks
    requires a in s.queue && b in s.queue && both.queue == s.queue - multiset{a} - multiset{b}
    requires s.queue[x] >= Needs(wf, done, multiset{}, x)
    requires
      var all := done + {a, b};
      n.queue[x] ==
      both.queue[x] + (if Rouses(wf, all, a, x) then 1 else 0) + (if Rouses(wf, all, b, x) then 1 else 0)
    ensures n.queue[x] >= Needs(wf, done + {a, b}, multiset{t}, x)
  {
    assert both.queue[x] + (if x == a || x == b then 1 else 0) == s.queue[x];
    DoubledNeeds(wf, done, t, a, b, x);
  }

  // What joins the branches of a fork is published twice.
  lemma ForkIsPublishedTwice(wf: Workflow, order: seq<TaskId>, t: TaskId, a: TaskId, b: TaskId) returns (s: Sys)
    requires Laid(wf, order) && Forked(wf, t, a, b)
    ensures Rests(wf, EngineIdle, s, Beside(wf, a, b) + {a, b}, multiset{t}) && Publications(s, t) >= 2
  {
    BesideIsClosed(wf, t, a, b);
    assert t in wf.tasks;
    s := SubmitsWorkflow(wf, EngineIdle);
    s := RunsTo(wf, EngineIdle, order, s, {}, Beside(wf, a, b), multiset{});
    s := Doubles(wf, s, Beside(wf, a, b), t, a, b);
    TwoMessages(wf, s, t);
  }

  // ---------------------------------------------------------------------------
  // The nest

  // A task waits for another one and also for what leads to that.
  ghost predicate Nested(wf: Workflow, t: TaskId, m: TaskId, c: TaskId) {
    && Tops(wf.dependencies, t, m) && Tops(wf.dependencies, m, c) && DependsOn(wf.dependencies, t, c)
  }

  ghost function Before(wf: Workflow, c: TaskId): set<TaskId> {
    set x | x in wf.tasks && x != c && !Awaits(wf.dependencies, x, c)
  }

  lemma BeforeIsClosed(wf: Workflow, c: TaskId)
    requires Accepted(wf) && c in wf.tasks
    ensures ClosedUnder(wf, Before(wf, c)) && ReadyIn(wf, Before(wf, c), c) && ClosedUnder(wf, Before(wf, c) + {c})
  {
    var deps := wf.dependencies;
    NobodyAwaitsItself(deps, c);
    forall x, d | DependsOn(deps, x, d) && (x in Before(wf, c) || x == c) ensures d in Before(wf, c) {
      AwaitsDirectly(deps, x, d);
      if Awaits(deps, d, c) {
        AwaitsThen(deps, x, d, c);
      }
    }
  }

  lemma NestIsClosed(wf: Workflow, t: TaskId, m: TaskId, c: TaskId)
    requires Accepted(wf) && Nested(wf, t, m, c)
    ensures t in wf.tasks && m in wf.tasks && c in wf.tasks && ClosedUnder(wf, Before(wf, c) + {c, m})
    ensures var done := Before(wf, c); m !in done + {c} && t !in done + {c, m}
    ensures var done := Before(wf, c); ReadyIn(wf, done + {c}, m) && ReadyIn(wf, done + {c, m}, t)
  {
    var deps, done := wf.dependencies, Before(wf, c);
    BeforeIsClosed(wf, c);
    AwaitsDirectly(deps, m, c);
    AwaitsDirectly(deps, t, c);
    AwaitsDirectly(deps, t, m);
    NobodyAwaitsItself(deps, c);
    NobodyAwaitsItself(deps, m);
    NobodyAwaitsItself(deps, t);
    forall d | DependsOn(deps, m, d) && d != c ensures d in done {
      AwaitedIsBefore(wf, c, d);
    }
    forall d | DependsOn(deps, t, d) && d != m && d != c ensures d in done {
      BelowTop(deps, m, c, d);
      AwaitedIsBefore(wf, c, d);
    }
  }

  lemma AwaitedIsBefore(wf: Workflow, c: TaskId, d: TaskId)
    requires Accepted(wf) && Awaits(wf.dependencies, c, d) && d in wf.tasks
    ensures d in Before(wf, c)
  {
    NobodyAwaitsItself(wf.dependencies, c);
    if Awaits(wf.dependencies, d, c) {
      AwaitsThen(wf.dependencies, c, d, c);
    }
  }

  lemma NobodyBeforeWaits(wf: Workflow, m: TaskId, c: TaskId)
    requires Accepted(wf) && Tops(wf.dependencies, m, c) && m in wf.tasks && c in wf.tasks
    requires m !in Before(wf, c) + {c}
    ensures Undemanded(wf, Before(wf, c) + {c, m}, m)
    ensures forall x | x in Before(wf, c) + {c, m} && x != m :: !DependsOn(wf.dependencies, x, c)
  {
    BeforeIsClosed(wf, c);
    AwaitsDirectly(wf.dependencies, m, c);
    NobodyAwaitsItself(wf.dependencies, m);
    if DependsOn(wf.dependencies, m, m) {
      AwaitsDirectly(wf.dependencies, m, m);
    }
  }

  // While the result of c is handled, m is published, executes, and then the scan comes to t.
  lemma NestScanned(wf: Workflow, s: Sys, t: TaskId, m: TaskId, c: TaskId) returns (n: Sys)
    requires Accepted(wf) && Nested(wf, t, m, c) && Rests(wf, EngineIdle, s, Before(wf, c), multiset{})
    ensures Stands(wf, EngineIdle, n, Before(wf, c) + {c, m}) && n.handler.Idle?
    ensures n.results == multiset{Msg(m, Completed)}
    ensures forall x | x in wf.tasks ::
              n.queue[x] + (if x == c then 1 else 0) ==
              s.queue[x] + (if x != m && Rouses(wf, Before(wf, c) + {c, m}, c, x) then 1 else 0)
  {
    var done := Before(wf, c);
    BeforeIsClosed(wf, c);
    NestIsClosed(wf, t, m, c);
    NobodyBeforeWaits(wf, m, c);
    var begun := NestBegun(wf, s, t, m, c);
    var first := NestRuns(wf, begun, s.queue, done, m, c);
    n := ScansAll(wf, EngineIdle, first, done + {c, m});
  }

  lemma NestRuns(wf: Workflow, s: Sys, queue: multiset<TaskId>, done: set<TaskId>, m: TaskId, c: TaskId)
    returns (n: Sys)
    requires Stands(wf, EngineIdle, s, done + {c}) && m in wf.tasks && m !in done + {c}
    requires s.queue == queue - multiset{c} + multiset{m} && c in queue && s.results == multiset{}
    ensures Stands(wf, EngineIdle, n, done + {c, m}) && n.handler == s.handler
    ensures n.results == multiset{Msg(m, Completed)}
    ensures forall x :: n.queue[x] + (if x == c then 1 else 0) == queue[x]
  {
    n := ExecutesOne(wf, EngineIdle, s, done + {c}, m);
    assert done + {c} + {m} == done + {c, m};
  }

  lemma NestBegun(wf: Workflow, s: Sys, t: TaskId, m: TaskId, c: TaskId) returns (n: Sys)
    requires Accepted(wf) && Nested(wf, t, m, c) && Rests(wf, EngineIdle, s, Before(wf, c), multiset{})
    ensures Stands(wf, EngineIdle, n, Before(wf, c) + {c}) && n.results == multiset{}
    ensures n.handler == Scanning(Msg(c, Completed), wf.dependencies.Keys - {m}) && c in s.queue
    ensures n.queue == s.queue - multiset{c} + multiset{m}
  {
    var done := Before(wf, c);
    BeforeIsClosed(wf, c);
    NestIsClosed(wf, t, m, c);
    assert s.queue[c] >= Needs(wf, done, multiset{}, c);
    var run := ExecutesOne(wf, EngineIdle, s, done, c);
    var scan := TakesUp(wf, EngineIdle, run, done + {c}, c);
    n := Visits(wf, EngineIdle, scan, done + {c}, m);
  }

  lemma NestNeeds(wf: Workflow, t: TaskId, m: TaskId, c: TaskId, x: TaskId)
    requires Accepted(wf) && Nested(wf, t, m, c) && x in wf.tasks
    ensures
      var (done, all) := (Before(wf, c), Before(wf, c) + {c, m});
      Needs(wf, all, multiset{t}, x) + (if x == c then 1 else 0) <=
      Needs(wf, done, multiset{}, x) + (if x != m && Rouses(wf, all, c, x) then 1 else 0) +
      (if Rouses(wf, all, m, x) then 1 else 0)
    ensures Needs(wf, Before(wf, c) + {c, m}, multiset{t}, t) == 2
  {
    BeforeIsClosed(wf, c);
    NestIsClosed(wf, t, m, c);
    var done, all := Before(wf, c), Before(wf, c) + {c, m};
    if x !in all && ReadyIn(wf, all, x) && !ReadyIn(wf, done, x) {
      var d :| DependsOn(wf.dependencies, x, d) && d !in done;
      assert d == c || d == m;
    }
  }

  // Then the result of m publishes t once more.
  lemma NestDoubles(wf: Workflow, s: Sys, t: TaskId, m: TaskId, c: TaskId) returns (n: Sys)
    requires Accepted(wf) && Nested(wf, t, m, c) && Rests(wf, EngineIdle, s, Before(wf, c), multiset{})
    ensures Stands(wf, EngineIdle, n, Before(wf, c) + {c, m}) && n.handler.Idle?
    ensures n.results == multiset{}
    ensures forall x | x in wf.tasks :: n.queue[x] >= Needs(wf, Before(wf, c) + {c, m}, multiset{t}, x)
  {
    var all := Before(wf, c) + {c, m};
    NestIsClosed(wf, t, m, c);
    var mid := NestScanned(wf, s, t, m, c);
    NobodyBeforeWaits(wf, m, c);
    n := HandlesResult(wf, EngineIdle, mid, all, m);
    forall x | x in wf.tasks ensures n.queue[x] >= Needs(wf, all, multiset{t}, x) {
      assert s.queue[x] >= Needs(wf, Before(wf, c), multiset{}, x);
      NestNeeds(wf, t, m, c, x);
    }
  }

  lemma NestIsPublishedTwice(wf: Workflow, order: seq<TaskId>, t: TaskId, m: TaskId, c: TaskId) returns (s: Sys)
    requires Laid(wf, order) && Nested(wf, t, m, c)
    ensures Rests(wf, EngineIdle, s, Before(wf, c) + {c, m}, multiset{t}) && Publications(s, t) >= 2
  {
    NestIsClosed(wf, t, m, c);
    BeforeIsClosed(wf, c);
    s := SubmitsWorkflow(wf, EngineIdle);
    s := RunsTo(wf, EngineIdle, order, s, {}, Before(wf, c), multiset{});
    s := NestDoubles(wf, s, t, m, c);
    NestNeeds(wf, t, m, c, t);
    assert s.queue[t] >= Needs(wf, Before(wf, c) + {c, m}, multiset{t}, t);
    TwoMessages(wf, s, t);
  }

  lemma TwoMessages(wf: Workflow, s: Sys, t: TaskId)
    requires Accepted(wf) && Reached(wf, false, s) && s.queue[t] >= 2
    ensures Publications(s, t) >= 2
  {
    ReachedIsMetered(wf, false, s);
    assert Publications(s, t) == Work(s, t) + Handlings(s, t);
  }

  // ---------------------------------------------------------------------------
  // The end

  // With a message to spare, the workflow can be run to its end and answered wrongly.
  lemma SpareCanAnswerFailed(wf: Workflow, order: seq<TaskId>, s: Sys, done: set<TaskId>, t: TaskId) returns (n: Sys)
    requires Laid(wf, order) && Rests(wf, EngineIdle, s, done, multiset{t}) && done != wf.tasks.Keys
    requires t in wf.tasks
    ensures Reached(wf, false, n) && Failed in n.replies
  {
    var end := RunsOut(wf, EngineIdle, order, s, done, multiset{t});
    assert end.queue[t] >= multiset{t}[t];
    n := AnswersFailed(wf, false, end, t);
  }

  // So it is with every workflow in which branches join.
  lemma JoinCanAnswerFailed(wf: Workflow, t: TaskId, a: TaskId, b: TaskId)
    returns (x: TaskId, twice: Sys, failed: Sys)
    requires Accepted(wf) && Joining(wf, t, a, b)
    ensures x in wf.tasks && Reached(wf, false, twice) && Publications(twice, x) >= 2
    ensures Reached(wf, false, failed) && Failed in failed.replies
  {
    var order := Dag.TopologicalOrderExists(wf);
    AwaitsDirectly(wf.dependencies, t, a);
    AwaitsDirectly(wf.dependencies, t, b);
    assert t in order;
    var c, d;
    x, c, d := ForkBelow(wf, order, t, a, b);
    BesideIsClosed(wf, x, c, d);
    twice := ForkIsPublishedTwice(wf, order, x, c, d);
    failed := SpareCanAnswerFailed(wf, order, twice, Beside(wf, c, d) + {c, d}, x);
  }

  // And with every one in which such a nest occurs.
  lemma NestCanAnswerFailed(wf: Workflow, t: TaskId, m: TaskId, c: TaskId) returns (twice: Sys, failed: Sys)
    requires Accepted(wf) && Nested(wf, t, m, c)
    ensures t in wf.tasks && Reached(wf, false, twice) && Publications(twice, t) >= 2
    ensures Reached(wf, false, failed) && Failed in failed.replies
  {
    var order := Dag.TopologicalOrderExists(wf);
    NestIsClosed(wf, t, m, c);
    twice := NestIsPublishedTwice(wf, order, t, m, c);
    failed := SpareCanAnswerFailed(wf, order, twice, Before(wf, c) + {c, m}, t);
  }
}
