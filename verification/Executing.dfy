// Executing tasks one after the other, in a run in which nothing fails.

module Executing {
  import opened Workflows
  import opened Protocol
  import opened Progress
  import opened BoundedWork
  import opened Replies
  import opened CalmRuns
  import opened Awaiting
  import Dag

  ghost predicate ReadyIn(wf: Workflow, done: set<TaskId>, x: TaskId) {
    forall d | DependsOn(wf.dependencies, x, d) :: d in done
  }

  ghost predicate ClosedUnder(wf: Workflow, done: set<TaskId>) {
    done <= wf.tasks.Keys && forall x | x in done :: ReadyIn(wf, done, x)
  }

  // If the engine is not idle, results are handled in a hurry.
  predicate Hurried(e: Engine) {
    !e.EngineIdle?
  }

  // The tasks in done are completed, and all others unfinished, and there was no reply yet.
  ghost predicate Stands(wf: Workflow, e: Engine, s: Sys, done: set<TaskId>) {
    && Reached(wf, Hurried(e), s) && s.engine == e && s.replies == []
    && s.running == multiset{} && s.stored == multiset{} && s.status.Keys == wf.tasks.Keys && done <= wf.tasks.Keys
    && forall x | x in wf.tasks :: if x in done then s.status[x] == Completed else Unfinished(s.status[x])
  }

  // The result of a task makes the handler publish this one.
  ghost predicate Rouses(wf: Workflow, done: set<TaskId>, id: TaskId, x: TaskId) {
    DependsOn(wf.dependencies, x, id) && ReadyIn(wf, done, x)
  }

  // A dependency is not completed, and the handler passes over its dependent.
  lemma {:induction false} PassesOver(wf: Workflow, hurry: bool, s: Sys, d: TaskId) returns (n: Sys)
    requires Reached(wf, hurry, s) && s.handler.Probing? && StatusOf(s, d) != Completed
    requires s.handler.k <= |DepsOf(wf.dependencies, s.handler.id)|
    requires d in DepsOf(wf.dependencies, s.handler.id)[s.handler.k..]
    ensures Reached(wf, hurry, n) && Quick(n) == Quick(s.(handler := Scanning(s.handler.msg, s.handler.todo)))
    decreases |DepsOf(wf.dependencies, s.handler.id)| - s.handler.k
  {
    var deps := DepsOf(wf.dependencies, s.handler.id);
    Onward(wf, hurry, s, ByHandler(Probe));
    n := Apply(wf, s, ByHandler(Probe));
    if StatusOf(s, deps[s.handler.k]) == Completed {
      assert deps[s.handler.k..] == [deps[s.handler.k]] + deps[s.handler.k + 1..];
      n := PassesOver(wf, hurry, n, d);
    }
  }

  // One dependent is looked at.
  lemma Visits(wf: Workflow, e: Engine, s: Sys, done: set<TaskId>, x: TaskId) returns (n: Sys)
    requires Closed(wf) && Stands(wf, e, s, done)
    requires s.handler.Scanning? && x in s.handler.todo && x in wf.tasks
    requires x !in done || !DependsOn(wf.dependencies, x, s.handler.msg.task)
    ensures Stands(wf, e, n, done) && n.results == s.results
    ensures n.handler == Scanning(s.handler.msg, s.handler.todo - {x})
    ensures n.queue == s.queue + if Rouses(wf, done, s.handler.msg.task, x) then multiset{x} else multiset{}
  {
    Onward(wf, Hurried(e), s, ByHandler(Consider(x)));
    n := Apply(wf, s, ByHandler(Consider(x)));
    if n.handler.Probing? {
      assert DependsOn(wf.dependencies, x, s.handler.msg.task);
      if ReadyIn(wf, done, x) {
        n := Probes(wf, Hurried(e), n);
      } else {
        var d :| DependsOn(wf.dependencies, x, d) && d !in done;
        n := PassesOver(wf, Hurried(e), n, d);
      }
    }
  }

  // No completed task waits for this one.
  ghost predicate Undemanded(wf: Workflow, done: set<TaskId>, id: TaskId) {
    forall x | x in done :: !DependsOn(wf.dependencies, x, id)
  }

  lemma {:induction false} ScansAll(wf: Workflow, e: Engine, s: Sys, done: set<TaskId>) returns (n: Sys)
    requires Closed(wf) && Stands(wf, e, s, done)
    requires s.handler.Scanning? && s.handler.todo <= wf.dependencies.Keys
    requires forall x | x in s.handler.todo && x in done :: !DependsOn(wf.dependencies, x, s.handler.msg.task)
    ensures Stands(wf, e, n, done) && n.results == s.results && n.handler.Idle?
    ensures forall x | x in wf.tasks ::
              n.queue[x] ==
              s.queue[x] + if x in s.handler.todo && Rouses(wf, done, s.handler.msg.task, x) then 1 else 0
    decreases if s.handler.Scanning? then |s.handler.todo| else 0
  {
    if s.handler.todo == {} {
      Onward(wf, Hurried(e), s, ByHandler(EndScan));
      n := Apply(wf, s, ByHandler(EndScan));
    } else {
      var x :| x in s.handler.todo;
      n := Visits(wf, e, s, done, x);
      Dag.Smaller(n.handler.todo, s.handler.todo);
      n := ScansAll(wf, e, n, done);
    }
  }

  // A result is taken, whose task has been completed before, and the handler comes to scan.
  lemma TakesUp(wf: Workflow, e: Engine, s: Sys, done: set<TaskId>, id: TaskId) returns (n: Sys)
    requires Stands(wf, e, s, done) && s.handler.Idle?
    requires id in done && Msg(id, Completed) in s.results && done != wf.tasks.Keys
    ensures Stands(wf, e, n, done) && n.queue == s.queue
    ensures n.handler == Scanning(Msg(id, Completed), wf.dependencies.Keys)
    ensures n.results == s.results - multiset{Msg(id, Completed)}
  {
    n := Takes(wf, Hurried(e), s, id);
    assert n.status == s.status;
    var x := LeftOver(done, wf.tasks.Keys);
    assert x in n.handler.todo && Unfinished(n.status[x]);
    n := Checks(wf, Hurried(e), n);
  }

  lemma HandlesResult(wf: Workflow, e: Engine, s: Sys, done: set<TaskId>, id: TaskId) returns (n: Sys)
    requires Closed(wf) && Stands(wf, e, s, done) && s.handler.Idle?
    requires id in done && Msg(id, Completed) in s.results && done != wf.tasks.Keys && Undemanded(wf, done, id)
    ensures Stands(wf, e, n, done) && n.handler.Idle?
    ensures n.results == s.results - multiset{Msg(id, Completed)}
    ensures forall x | x in wf.tasks :: n.queue[x] == s.queue[x] + if Rouses(wf, done, id, x) then 1 else 0
  {
    n := TakesUp(wf, e, s, done, id);
    n := ScansAll(wf, e, n, done);
  }

  lemma ExecutesOne(wf: Workflow, e: Engine, s: Sys, done: set<TaskId>, id: TaskId) returns (n: Sys)
    requires Stands(wf, e, s, done) && id in wf.tasks && id !in done && id in s.queue
    ensures Stands(wf, e, n, done + {id}) && n.handler == s.handler
    ensures n.queue == s.queue - multiset{id} && n.results == s.results + multiset{Msg(id, Completed)}
  {
    n := Executes(wf, Hurried(e), s, id);
  }

  // Between two executions: whatever is ready has a message, and what is spare is left over.
  ghost predicate Rests(wf: Workflow, e: Engine, s: Sys, done: set<TaskId>, spare: multiset<TaskId>) {
    && Stands(wf, e, s, done) && ClosedUnder(wf, done) && s.handler.Idle? && s.results == multiset{}
    && forall x | x in wf.tasks :: s.queue[x] >= Needs(wf, done, spare, x)
  }

  ghost function Needs(wf: Workflow, done: set<TaskId>, spare: multiset<TaskId>, x: TaskId): nat {
    spare[x] + if x !in done && ReadyIn(wf, done, x) then 1 else 0
  }

  // A ready task is executed and its result handled.
  lemma StepsOn(wf: Workflow, e: Engine, s: Sys, done: set<TaskId>, spare: multiset<TaskId>, id: TaskId)
    returns (n: Sys)
    requires Accepted(wf) && Rests(wf, e, s, done, spare)
    requires id in wf.tasks && id !in done && ReadyIn(wf, done, id) && done + {id} != wf.tasks.Keys
    ensures Rests(wf, e, n, done + {id}, spare)
  {
    assert s.queue[id] >= Needs(wf, done, spare, id);
    n := ExecutesOne(wf, e, s, done, id);
    var next := done + {id};
    NobodyAwaitsFor(wf, done, id);
    var mid := n;
    n := HandlesResult(wf, e, n, next, id);
    forall x | x in wf.tasks ensures n.queue[x] >= Needs(wf, next, spare, x) {
      assert s.queue[x] >= Needs(wf, done, spare, x);
      assert mid.queue[x] == s.queue[x] - if x == id then 1 else 0;
    }
  }

  // A task that is not completed has no completed dependents, and does not depend on itself.
  lemma NobodyAwaitsFor(wf: Workflow, done: set<TaskId>, id: TaskId)
    requires Acyclic(wf.dependencies) && ClosedUnder(wf, done) && id in wf.tasks && id !in done && ReadyIn(wf, done, id)
    ensures ClosedUnder(wf, done + {id}) && Undemanded(wf, done + {id}, id)
  {
  }

  lemma LeftOver(part: set<TaskId>, all: set<TaskId>) returns (x: TaskId)
    requires part <= all && part != all
    ensures x in all && x !in part
  {
    assert (forall x | x in all :: x in part) ==> part == all;
    x :| x in all && x !in part;
  }

  // The next task on the way to a closed set.
  lemma NextOne(wf: Workflow, order: seq<TaskId>, done: set<TaskId>, goal: set<TaskId>) returns (id: TaskId)
    requires Laid(wf, order) && ClosedUnder(wf, goal) && done <= goal && done != goal
    ensures id in goal && id !in done && ReadyIn(wf, done, id)
  {
    var y := LeftOver(done, goal);
    assert y in order;
    var k := 0;
    while order[k] !in goal || order[k] in done
      invariant k <= Dag.IndexOf(order, y)
      invariant forall i | 0 <= i < k :: order[i] in goal ==> order[i] in done
      decreases |order| - k
    {
      k := k + 1;
    }
    id := order[k];
    assert Settled(wf.dependencies, order, k);
  }

  lemma {:induction false} RunsTo(wf: Workflow, e: Engine, order: seq<TaskId>, s: Sys, done: set<TaskId>,
                                  goal: set<TaskId>, spare: multiset<TaskId>) returns (n: Sys)
    requires Laid(wf, order) && Rests(wf, e, s, done, spare)
    requires done <= goal && ClosedUnder(wf, goal) && goal != wf.tasks.Keys
    ensures Rests(wf, e, n, goal, spare)
    decreases |goal - done|
  {
    if done == goal {
      n := s;
    } else {
      var id := NextOne(wf, order, done, goal);
      n := StepsOn(wf, e, s, done, spare, id);
      Dag.Smaller(goal - (done + {id}), goal - done);
      n := RunsTo(wf, e, order, n, done + {id}, goal, spare);
    }
  }

  // ---------------------------------------------------------------------------
  // Submission

  // The given tasks have this status, and all others keep theirs.
  ghost predicate Marks(before: map<TaskId, Status>, after: map<TaskId, Status>, todo: set<TaskId>, status: Status) {
    forall x :: MarkedAt(before, after, x, x in todo, status)
  }

  ghost predicate MarkedAt(before: map<TaskId, Status>, after: map<TaskId, Status>, x: TaskId, now: bool,
                           status: Status)
  {
    if now then x in after && after[x] == status
    else if x in before then x in after && after[x] == before[x]
    else x !in after
  }

  lemma MarksMore(before: map<TaskId, Status>, after: map<TaskId, Status>, todo: set<TaskId>, status: Status,
                  id: TaskId)
    requires id in todo && Marks(before[id := status], after, todo - {id}, status)
    ensures Marks(before, after, todo, status)
  {
    forall x ensures MarkedAt(before, after, x, x in todo, status) {
      assert MarkedAt(before[id := status], after, x, x in todo - {id}, status);
    }
  }

  lemma {:induction false} InitialisesAll(wf: Workflow, hurry: bool, s: Sys) returns (n: Sys)
    requires Reached(wf, hurry, s) && s.engine.Initialising?
    ensures Reached(wf, hurry, n) && n.engine == Initialising({}) && n.queue == s.queue && n.results == s.results
    ensures n.handler == s.handler && n.replies == s.replies && n.running == s.running && n.stored == s.stored
    ensures Marks(s.status, n.status, s.engine.todo, Pending)
    decreases if s.engine.Initialising? then |s.engine.todo| else 0
  {
    if s.engine.todo == {} {
      n := s;
    } else {
      var x :| x in s.engine.todo;
      var m := Initialises(wf, hurry, s, x);
      Dag.Smaller(m.engine.todo, s.engine.todo);
      n := InitialisesAll(wf, hurry, m);
      MarksMore(s.status, n.status, s.engine.todo, Pending, x);
    }
  }

  // Roots are published and marked, but for the given ones.
  lemma {:induction false} SubmitsAll(wf: Workflow, hurry: bool, s: Sys, but: set<TaskId>) returns (n: Sys)
    requires Reached(wf, hurry, s) && s.engine.Submitting? && but <= s.engine.todo
    ensures Reached(wf, hurry, n) && n.engine == Submitting(but) && n.results == s.results
    ensures n.handler == s.handler && n.replies == s.replies && n.running == s.running && n.stored == s.stored
    ensures Marks(s.status, n.status, s.engine.todo - but, Queued)
    ensures forall x :: n.queue[x] == s.queue[x] + if x in s.engine.todo - but then 1 else 0
    decreases if s.engine.Submitting? then |s.engine.todo| else 0
  {
    if s.engine.todo == but {
      n := s;
    } else {
      var x := LeftOver(but, s.engine.todo);
      var m := SubmitsRoot(wf, hurry, s, x);
      Dag.Smaller(m.engine.todo, s.engine.todo);
      n := SubmitsAll(wf, hurry, m, but);
      assert m.engine.todo - but == s.engine.todo - but - {x};
      MarksMore(s.status, n.status, s.engine.todo - but, Queued, x);
    }
  }

  lemma SubmittedStands(wf: Workflow, pending: map<TaskId, Status>, queued: map<TaskId, Status>, sent: set<TaskId>)
    requires Marks(map[], pending, wf.tasks.Keys, Pending) && Marks(pending, queued, sent, Queued)
    requires sent <= wf.tasks.Keys
    ensures queued.Keys == wf.tasks.Keys && forall x | x in wf.tasks :: Unfinished(queued[x])
  {
    forall x ensures x in queued <==> x in wf.tasks ensures x in wf.tasks ==> Unfinished(queued[x]) {
      assert MarkedAt(map[], pending, x, x in wf.tasks.Keys, Pending);
      assert MarkedAt(pending, queued, x, x in sent, Queued);
    }
  }

  // All roots are published and marked, but for the given ones.
  lemma Submits(wf: Workflow, hurry: bool, but: set<TaskId>) returns (s: Sys)
    requires but <= Roots(wf)
    ensures Reached(wf, hurry, s) && s.engine == Submitting(but) && s.handler.Idle? && s.replies == []
    ensures s.running == multiset{} && s.stored == multiset{} && s.results == multiset{}
    ensures s.status.Keys == wf.tasks.Keys
    ensures forall x | x in wf.tasks :: Unfinished(s.status[x])
    ensures forall x :: s.queue[x] == if x in Roots(wf) - but then 1 else 0
  {
    assert CalmRun(wf, [], Fresh(wf)) && Unhurried(wf, Fresh(wf), []);
    s := InitialisesAll(wf, hurry, Fresh(wf));
    var pending := s.status;
    Onward(wf, hurry, s, ByEngine(StartSubmitting));
    s := Apply(wf, s, ByEngine(StartSubmitting));
    s := SubmitsAll(wf, hurry, s, but);
    SubmittedStands(wf, pending, s.status, Roots(wf) - but);
  }

  // The engine has sent everything; in a hurry, it has not marked the last root yet.
  lemma SubmitsWorkflow(wf: Workflow, e: Engine) returns (s: Sys)
    requires e.EngineIdle? || (e.RootSent? && e.todo == {} && e.id in Roots(wf))
    ensures Rests(wf, e, s, {}, multiset{})
  {
    if e.EngineIdle? {
      s := Submits(wf, false, {});
      Onward(wf, false, s, ByEngine(EndSubmit));
      s := Apply(wf, s, ByEngine(EndSubmit));
    } else {
      s := Submits(wf, true, {e.id});
      Onward(wf, true, s, ByEngine(SendRoot(e.id)));
      s := Apply(wf, s, ByEngine(SendRoot(e.id)));
    }
    forall x | x in wf.tasks ensures s.queue[x] >= Needs(wf, {}, multiset{}, x) {
      if ReadyIn(wf, {}, x) && DepsOf(wf.dependencies, x) != [] {
        assert DependsOn(wf.dependencies, x, DepsOf(wf.dependencies, x)[0]);
      }
    }
  }

  // ---------------------------------------------------------------------------
  // The reply

  // A task that nobody waits for among those left.
  lemma LastOne(wf: Workflow, order: seq<TaskId>, done: set<TaskId>) returns (id: TaskId)
    requires Laid(wf, order) && ClosedUnder(wf, done) && done != wf.tasks.Keys
    ensures id in wf.tasks && id !in done && ClosedUnder(wf, wf.tasks.Keys - {id})
  {
    var y := LeftOver(done, wf.tasks.Keys);
    assert y in order;
    var k := |order| - 1;
    while order[k] in done
      invariant Dag.IndexOf(order, y) <= k < |order|
      invariant forall i | k < i < |order| :: order[i] in done
      decreases k
    {
      k := k - 1;
    }
    id := order[k];
    SameIndex(order, k);
    forall x | x in wf.tasks.Keys - {id} ensures ReadyIn(wf, wf.tasks.Keys - {id}, x) {
      if DependsOn(wf.dependencies, x, id) {
        assert x in order;
        AwaitsDirectly(wf.dependencies, x, id);
        AwaitsIsLater(wf.dependencies, order, x, id);
      }
    }
  }

  lemma SameIndex(order: seq<TaskId>, k: nat)
    requires Distinct(order) && k < |order|
    ensures Dag.IndexOf(order, order[k]) == k
  {
    assert order[Dag.IndexOf(order, order[k])] == order[k];
  }

  // When the last task is over, the handler begins to collect the reply.
  lemma Concludes(wf: Workflow, e: Engine, s: Sys, done: set<TaskId>, spare: multiset<TaskId>, id: TaskId)
    returns (n: Sys)
    requires Closed(wf) && Rests(wf, e, s, done, spare)
    requires id in wf.tasks && id !in done && done + {id} == wf.tasks.Keys && ReadyIn(wf, done, id)
    ensures Stands(wf, e, n, wf.tasks.Keys) && Collecting(n) && n.handler.todo == wf.tasks.Keys
    ensures forall x | x in wf.tasks :: n.queue[x] >= spare[x]
  {
    assert s.queue[id] >= Needs(wf, done, spare, id);
    var run := ExecutesOne(wf, e, s, done, id);
    n := TakesLast(wf, e, run, id);
    forall x | x in wf.tasks ensures n.queue[x] >= spare[x] {
      assert s.queue[x] >= Needs(wf, done, spare, x);
    }
  }

  lemma TakesLast(wf: Workflow, e: Engine, s: Sys, id: TaskId) returns (n: Sys)
    requires Stands(wf, e, s, wf.tasks.Keys) && s.handler.Idle?
    requires id in wf.tasks && Msg(id, Completed) in s.results
    ensures Stands(wf, e, n, wf.tasks.Keys) && n.queue == s.queue
    ensures Collecting(n) && n.handler.todo == wf.tasks.Keys
  {
    n := Takes(wf, Hurried(e), s, id);
    assert n.status == s.status;
    n := Checks(wf, Hurried(e), n);
  }

  // All tasks but the last one, which nobody waits for, and then that one.
  lemma RunsOut(wf: Workflow, e: Engine, order: seq<TaskId>, s: Sys, done: set<TaskId>, spare: multiset<TaskId>)
    returns (n: Sys)
    requires Laid(wf, order) && Rests(wf, e, s, done, spare) && done != wf.tasks.Keys
    ensures Stands(wf, e, n, wf.tasks.Keys) && Collecting(n) && n.handler.todo == wf.tasks.Keys
    ensures forall x | x in wf.tasks :: n.queue[x] >= spare[x]
  {
    var last := LastOne(wf, order, done);
    var before := wf.tasks.Keys - {last};
    var mid := RunsTo(wf, e, order, s, done, before, spare);
    NobodyAwaitsItself(wf.dependencies, last);
    LastIsReady(wf, last);
    assert before + {last} == wf.tasks.Keys;
    n := Concludes(wf, e, mid, before, spare, last);
  }

  lemma LastIsReady(wf: Workflow, last: TaskId)
    requires Closed(wf) && !Awaits(wf.dependencies, last, last)
    ensures ReadyIn(wf, wf.tasks.Keys - {last}, last)
  {
    if DependsOn(wf.dependencies, last, last) {
      AwaitsDirectly(wf.dependencies, last, last);
    }
  }

  // While some task is not steady, it can go wrong.
  lemma AnswersFailed(wf: Workflow, hurry: bool, s: Sys, t: TaskId) returns (n: Sys)
    requires Accepted(wf) && Reached(wf, hurry, s) && Collecting(s) && (hurry || s.engine.EngineIdle?)
    requires t in s.handler.todo && !IsSteady(s, t)
    ensures Reached(wf, hurry, n) && Failed in n.replies
  {
    ReachedIsMetered(wf, hurry, s);
    var ls := UnsteadyCanAnswerFailed(wf, s, t);
    GoesOn(wf, hurry, s, ls);
    var mid := After(wf, s, ls);
    Onward(wf, hurry, mid, ByHandler(Reply));
    n := Apply(wf, mid, ByHandler(Reply));
  }

  lemma ReachedIsMetered(wf: Workflow, hurry: bool, s: Sys)
    requires Accepted(wf) && Reached(wf, hurry, s)
    ensures Metered(wf, s)
  {
    var ls :| CalmRun(wf, ls, s) && (hurry || Unhurried(wf, Fresh(wf), ls));
    FreshIsMetered(wf);
    RunKeepsMetered(wf, Fresh(wf), ls);
  }

  // Once the submission is over there is no hurry any more.
  lemma {:induction false} GoesOn(wf: Workflow, hurry: bool, s: Sys, ls: seq<Label>)
    requires Reached(wf, hurry, s) && (hurry || s.engine.EngineIdle?) && Runs(wf, s, ls) && AllCalm(ls)
    ensures Reached(wf, hurry, After(wf, s, ls))
    decreases |ls|
  {
    if ls != [] {
      assert Calm(ls[0]) && AllCalm(ls[1..]);
      Onward(wf, hurry, s, ls[0]);
      GoesOn(wf, hurry, Apply(wf, s, ls[0]), ls[1..]);
    }
  }
}
