// When exactly replies can be trusted. A workflow is laddered if each task with dependencies
// has a top one, which waits for all its other ones, and does not also depend on the top
// dependency of that. In a laddered workflow each task is published once, and without hurry
// every reply is true; in every other one the caller can be told that it failed although
// nothing did.

module Ladders {
  import opened Workflows
  import opened Protocol
  import opened Progress
  import opened BoundedWork
  import opened Replies
  import opened CalmRuns
  import opened Awaiting
  import opened Joins
  import Dag

  ghost predicate Laddered(wf: Workflow) {
    forall t | t in wf.tasks && DepsOf(wf.dependencies, t) != [] :: exists m :: Rung(wf, t, m)
  }

  ghost predicate Rung(wf: Workflow, t: TaskId, m: TaskId) {
    Tops(wf.dependencies, t, m) && forall c | DependsOn(wf.dependencies, t, c) :: !Tops(wf.dependencies, m, c)
  }

  lemma OneTop(wf: Workflow, t: TaskId, m: TaskId, n: TaskId)
    requires Acyclic(wf.dependencies) && Tops(wf.dependencies, t, m) && Tops(wf.dependencies, t, n)
    ensures m == n
  {
    if m != n {
      AwaitsThen(wf.dependencies, m, n, m);
      NobodyAwaitsItself(wf.dependencies, m);
    }
  }

  // ---------------------------------------------------------------------------
  // Climbing

  // The result of a task has been handled, and nothing of it is left.
  ghost predicate Over(s: Sys, a: TaskId) {
    Publications(s, a) >= 1 && Work(s, a) == 0 && (s.handler.Idle? || s.handler.msg.task != a)
  }

  ghost predicate HasRun(s: Sys, x: TaskId) {
    Publications(s, x) >= 1 && s.queue[x] + s.running[x] == 0
  }

  // When a task has been published, its top dependency has led to that, and everything else
  // that it waits for is over.
  ghost predicate ClimbsTo(wf: Workflow, s: Sys, b: TaskId, m: TaskId) {
    && HasRun(s, m) && Handlings(s, m) >= 1
    && forall a | Awaits(wf.dependencies, b, a) && a != m :: Over(s, a)
  }

  // What the handler may still publish.
  predicate Ahead(h: Handler, b: TaskId) {
    match h
    case Checking(_, _, _) => true
    case Scanning(_, todo) => b in todo
    case Probing(_, todo, id, _) => b in todo || b == id
    case Sent(_, todo, _) => b in todo
    case _ => false
  }

  ghost predicate HandlerClimbs(wf: Workflow, s: Sys) {
    var h := s.handler;
    !h.Idle? ==>
      && Handlings(s, h.msg.task) >= 1
      && (forall b | b in wf.tasks && Tops(wf.dependencies, b, h.msg.task) && Ahead(h, b) :: Publications(s, b) == 0)
      && (h.Probing? && h.k <= |DepsOf(wf.dependencies, h.id)| ==>
            forall i | 0 <= i < h.k :: HasRun(s, DepsOf(wf.dependencies, h.id)[i]))
  }

  ghost predicate AllClimb(wf: Workflow, s: Sys) {
    forall b, m | b in wf.tasks && Publications(s, b) >= 1 && Tops(wf.dependencies, b, m) :: ClimbsTo(wf, s, b, m)
  }

  ghost predicate Climbs(wf: Workflow, s: Sys) {
    Once(wf, s) && AllClimb(wf, s) && HandlerClimbs(wf, s)
  }

  // What is over or has run stays so while nothing of it is published again.
  ghost predicate Calms(a: Sys, b: Sys, x: TaskId) {
    && Publications(b, x) == Publications(a, x) && Handlings(b, x) >= Handlings(a, x)
    && Work(b, x) <= Work(a, x) && b.queue[x] + b.running[x] <= a.queue[x] + a.running[x]
  }

  lemma StaysClimbed(wf: Workflow, s: Sys, n: Sys, b: TaskId, m: TaskId)
    requires ClimbsTo(wf, s, b, m)
    requires forall x | Publications(s, x) >= 1 :: Calms(s, n, x)
    requires n.handler.Idle? || (!s.handler.Idle? && n.handler.msg == s.handler.msg) ||
             Work(s, n.handler.msg.task) > 0
    ensures ClimbsTo(wf, n, b, m)
  {
    forall a | Awaits(wf.dependencies, b, a) && a != m ensures Over(n, a) {
      assert Over(s, a);
    }
  }

  // The same handler at work.
  lemma HandlerStaysClimbed(wf: Workflow, s: Sys, n: Sys)
    requires HandlerClimbs(wf, s) && n.handler == s.handler
    requires forall x | Publications(s, x) >= 1 :: Calms(s, n, x)
    requires forall x | x in wf.tasks && DepsOf(wf.dependencies, x) != [] :: Publications(n, x) == Publications(s, x)
    requires !s.handler.Idle? ==> Publications(s, s.handler.msg.task) >= 1
    ensures HandlerClimbs(wf, n)
  {
    var h := n.handler;
    if !h.Idle? && h.Probing? && h.k <= |DepsOf(wf.dependencies, h.id)| {
      forall i | 0 <= i < h.k ensures HasRun(n, DepsOf(wf.dependencies, h.id)[i]) {
        assert HasRun(s, DepsOf(wf.dependencies, h.id)[i]);
      }
    }
  }

  lemma HandledWasPublished(s: Sys, x: TaskId)
    requires Conserved(s) && Handlings(s, x) >= 1
    ensures Publications(s, x) >= 1
  {
    assert Publications(s, x) == Work(s, x) + Handlings(s, x);
  }

  lemma RunnerCalms(s: Sys, r: RunnerStep, x: TaskId)
    requires RunnerCan(s, r) && (r.Finish? ==> r.outcome == Completed)
    ensures Calms(s, RunnerDoes(s, r), x) && Publications(RunnerDoes(s, r), x) == Publications(s, x)
  {
    RunnerCounts(s, r, x);
    RunnerWork(s, r, x);
  }

  lemma RunnerClimbs(wf: Workflow, s: Sys, r: RunnerStep)
    requires Conserved(s) && Climbs(wf, s) && RunnerCan(s, r) && (r.Finish? ==> r.outcome == Completed)
    ensures Climbs(wf, RunnerDoes(s, r))
  {
    var n := RunnerDoes(s, r);
    forall x ensures Calms(s, n, x) && Publications(n, x) == Publications(s, x) {
      RunnerCalms(s, r, x);
    }
    AllStayClimbed(wf, s, n);
    if !s.handler.Idle? {
      HandledWasPublished(s, s.handler.msg.task);
    }
    HandlerStaysClimbed(wf, s, n);
  }

  lemma AllStayClimbed(wf: Workflow, s: Sys, n: Sys)
    requires AllClimb(wf, s)
    requires forall x | x in wf.tasks && Publications(n, x) >= 1 && DepsOf(wf.dependencies, x) != [] ::
               Publications(s, x) >= 1
    requires forall x | Publications(s, x) >= 1 :: Calms(s, n, x)
    requires n.handler.Idle? || (!s.handler.Idle? && n.handler.msg == s.handler.msg) ||
             Work(s, n.handler.msg.task) > 0
    ensures AllClimb(wf, n)
  {
    forall b, m | b in wf.tasks && Publications(n, b) >= 1 && Tops(wf.dependencies, b, m)
      ensures ClimbsTo(wf, n, b, m)
    {
      assert ClimbsTo(wf, s, b, m);
      StaysClimbed(wf, s, n, b, m);
    }
  }

  lemma EngineCalms(wf: Workflow, s: Sys, e: EngineStep, x: TaskId)
    requires EngineCan(wf, s, e) && e != SendRoot(x)
    ensures Calms(s, EngineDoes(wf, s, e), x) && Publications(EngineDoes(wf, s, e), x) == Publications(s, x)
  {
    EngineCounts(wf, s, e, x);
    EngineWork(wf, s, e, x);
  }

  // The engine publishes roots, which it has not published before.
  lemma RootIsNew(wf: Workflow, s: Sys, id: TaskId)
    requires EngineShape(wf, s) && EngineCan(wf, s, SendRoot(id)) && AllLimited(wf, EngineDoes(wf, s, SendRoot(id)))
    ensures id in wf.tasks && DepsOf(wf.dependencies, id) == []
    ensures Publications(s, id) == 0 && Publications(EngineDoes(wf, s, SendRoot(id)), id) == 1
  {
    assert id in Roots(wf);
    assert Limited(wf, EngineDoes(wf, s, SendRoot(id)), id);
    EngineCounts(wf, s, SendRoot(id), id);
  }

  lemma EngineOnlyAdds(wf: Workflow, s: Sys, e: EngineStep)
    requires EngineShape(wf, s) && EngineCan(wf, s, e) && AllLimited(wf, EngineDoes(wf, s, e))
    ensures
      var n := EngineDoes(wf, s, e);
      forall x ::
        if e == SendRoot(x) then
          x in wf.tasks && DepsOf(wf.dependencies, x) == [] && Publications(s, x) == 0 && Publications(n, x) == 1
        else Calms(s, n, x) && Publications(n, x) == Publications(s, x)
  {
    var n := EngineDoes(wf, s, e);
    forall x
      ensures if e == SendRoot(x) then
                x in wf.tasks && DepsOf(wf.dependencies, x) == [] && Publications(s, x) == 0 && Publications(n, x) == 1
              else Calms(s, n, x) && Publications(n, x) == Publications(s, x)
    {
      if e == SendRoot(x) {
        RootIsNew(wf, s, x);
      } else {
        EngineCalms(wf, s, e, x);
      }
    }
  }

  lemma EngineClimbs(wf: Workflow, s: Sys, e: EngineStep)
    requires EngineShape(wf, s) && Conserved(s) && Climbs(wf, s) && EngineCan(wf, s, e) && !e.Submit?
    requires AllLimited(wf, EngineDoes(wf, s, e))
    ensures Climbs(wf, EngineDoes(wf, s, e))
  {
    var n := EngineDoes(wf, s, e);
    EngineOnlyAdds(wf, s, e);
    if !s.handler.Idle? {
      HandledWasPublished(s, s.handler.msg.task);
    }
    AllStayClimbed(wf, s, n);
    HandlerStaysClimbed(wf, s, n);
  }

  // Taking a result: it was the only one of its task, so nothing on top has been published.
  lemma TakenIsFirst(wf: Workflow, s: Sys, d: TaskId, b: TaskId)
    requires Conserved(s) && Climbs(wf, s) && Work(s, d) > 0 && d in wf.tasks
    requires b in wf.tasks && Tops(wf.dependencies, b, d)
    ensures Publications(s, b) == 0
  {
    assert Publications(s, d) == Work(s, d) + Handlings(s, d);
    assert Publications(s, b) >= 1 ==> ClimbsTo(wf, s, b, d);
  }

  lemma TakeCalms(wf: Workflow, s: Sys, msg: Msg, x: TaskId)
    requires HandlerCan(wf, s, Take(msg))
    ensures
      var n := HandlerDoes(wf, s, Take(msg));
      Calms(s, n, x) && Publications(n, x) == Publications(s, x) && (x == msg.task ==> Handlings(n, x) >= 1)
  {
    HandlerCounts(wf, s, Take(msg), x);
    HandlerWork(wf, s, Take(msg), x);
  }

  lemma TakeClimbs(wf: Workflow, s: Sys, msg: Msg)
    requires TrafficShape(wf, s) && Conserved(s) && Climbs(wf, s) && HandlerCan(wf, s, Take(msg))
    ensures Climbs(wf, HandlerDoes(wf, s, Take(msg)))
  {
    var n := HandlerDoes(wf, s, Take(msg));
    forall x ensures Calms(s, n, x) && Publications(n, x) == Publications(s, x) {
      TakeCalms(wf, s, msg, x);
    }
    assert msg in s.results && msg == Msg(msg.task, Completed) && Work(s, msg.task) > 0;
    AllStayClimbed(wf, s, n);
    TakeCalms(wf, s, msg, msg.task);
    forall b | b in wf.tasks && Tops(wf.dependencies, b, msg.task) ensures Publications(n, b) == 0 {
      TakenIsFirst(wf, s, msg.task, b);
    }
  }

  // Steps that publish nothing.
  lemma LookCalms(wf: Workflow, s: Sys, h: HandlerStep, x: TaskId)
    requires HandlerCan(wf, s, h) && !h.Take? && !h.Send?
    ensures
      var n := HandlerDoes(wf, s, h);
      && Calms(s, n, x) && Publications(n, x) == Publications(s, x)
      && n.queue[x] + n.running[x] == s.queue[x] + s.running[x]
  {
    HandlerCounts(wf, s, h, x);
    HandlerWork(wf, s, h, x);
  }

  // The handler moves on, and has fewer tasks ahead.
  lemma HandlerMovesOn(wf: Workflow, s: Sys, n: Sys)
    requires HandlerClimbs(wf, s) && !s.handler.Idle? && (n.handler.Idle? || n.handler.msg == s.handler.msg)
    requires forall x :: Calms(s, n, x)
    requires forall b | Ahead(n.handler, b) :: Ahead(s.handler, b)
    requires n.handler.Probing? && n.handler.k <= |DepsOf(wf.dependencies, n.handler.id)| ==>
               forall i | 0 <= i < n.handler.k :: HasRun(n, DepsOf(wf.dependencies, n.handler.id)[i])
    ensures HandlerClimbs(wf, n)
  {
    assert Calms(s, n, s.handler.msg.task);
    assert forall b :: Calms(s, n, b) && Publications(s, b) == 0 ==> Publications(n, b) == 0;
  }

  lemma LooksAhead(wf: Workflow, s: Sys, h: HandlerStep)
    requires HandlerCan(wf, s, h) && !h.Take? && !h.Send?
    ensures
      var n := HandlerDoes(wf, s, h);
      && !s.handler.Idle? && (n.handler.Idle? || n.handler.msg == s.handler.msg)
      && forall b | Ahead(n.handler, b) :: Ahead(s.handler, b)
  {
  }

  lemma LookClimbs(wf: Workflow, s: Sys, h: HandlerStep)
    requires StatusShape(wf, s) && Conserved(s) && CompletedLeftResult(s) && Climbs(wf, s)
    requires HandlerCan(wf, s, h) && !h.Take? && !h.Send?
    ensures Climbs(wf, HandlerDoes(wf, s, h))
  {
    var n := HandlerDoes(wf, s, h);
    forall x ensures Calms(s, n, x) && Publications(n, x) == Publications(s, x) {
      LookCalms(wf, s, h, x);
    }
    LooksAhead(wf, s, h);
    AllStayClimbed(wf, s, n);
    ReadsOn(wf, s, h);
    HandlerMovesOn(wf, s, n);
  }

  // What was read as completed has run.
  lemma ReadsOn(wf: Workflow, s: Sys, h: HandlerStep)
    requires StatusShape(wf, s) && Conserved(s) && CompletedLeftResult(s) && Once(wf, s) && HandlerClimbs(wf, s)
    requires HandlerCan(wf, s, h) && !h.Take? && !h.Send?
    ensures
      var n := HandlerDoes(wf, s, h);
      n.handler.Probing? && n.handler.k <= |DepsOf(wf.dependencies, n.handler.id)| ==>
        forall i | 0 <= i < n.handler.k :: HasRun(n, DepsOf(wf.dependencies, n.handler.id)[i])
  {
    var n := HandlerDoes(wf, s, h);
    if h.Probe? && n.handler.Probing? {
      ReadsOneMore(wf, s);
    }
  }

  lemma ReadsOneMore(wf: Workflow, s: Sys)
    requires StatusShape(wf, s) && Conserved(s) && CompletedLeftResult(s) && Once(wf, s) && HandlerClimbs(wf, s)
    requires HandlerCan(wf, s, Probe)
    requires StatusOf(s, DepsOf(wf.dependencies, s.handler.id)[s.handler.k]) == Completed
    ensures forall i | 0 <= i <= s.handler.k ::
              HasRun(HandlerDoes(wf, s, Probe), DepsOf(wf.dependencies, s.handler.id)[i])
  {
    var deps := DepsOf(wf.dependencies, s.handler.id);
    CompletedHasRun(wf, s, deps[s.handler.k]);
    forall i | 0 <= i <= s.handler.k ensures HasRun(HandlerDoes(wf, s, Probe), deps[i]) {
      LookCalms(wf, s, Probe, deps[i]);
    }
  }

  lemma CompletedHasRun(wf: Workflow, s: Sys, d: TaskId)
    requires StatusShape(wf, s) && Conserved(s) && CompletedLeftResult(s) && Once(wf, s) && StatusOf(s, d) == Completed
    ensures HasRun(s, d)
  {
    assert d in wf.tasks;
    assert Publications(s, d) == Work(s, d) + Handlings(s, d);
  }

  lemma SendCalms(wf: Workflow, s: Sys, x: TaskId)
    requires HandlerCan(wf, s, Send)
    ensures
      var n := HandlerDoes(wf, s, Send);
      if x == s.handler.id then Publications(n, x) == Publications(s, x) + 1
      else Calms(s, n, x) && Publications(n, x) == Publications(s, x)
  {
    HandlerCounts(wf, s, Send, x);
    HandlerWork(wf, s, Send, x);
  }

  // A task is published when the result of its top dependency is handled.
  lemma SendClimbs(wf: Workflow, s: Sys)
    requires Accepted(wf) && Laddered(wf) && Metered(wf, s) && Climbs(wf, s) && HandlerCan(wf, s, Send)
    ensures Climbs(wf, HandlerDoes(wf, s, Send))
  {
    var n, j := HandlerDoes(wf, s, Send), s.handler.id;
    var m :| Rung(wf, j, m);
    ReadHasRun(wf, s, j, m);
    SentByTop(wf, s, j, m);
    SentIsClimbed(wf, s, j, m);
    forall x ensures if x == j then Publications(n, x) == Publications(s, x) + 1
                     else Calms(s, n, x) && Publications(n, x) == Publications(s, x)
    {
      SendCalms(wf, s, x);
    }
    AllClimbOn(wf, s, n, j, m);
    SentMovesOn(wf, s);
  }

  lemma SentMovesOn(wf: Workflow, s: Sys)
    requires HandlerShape(wf, s) && HandlerClimbs(wf, s) && HandlerCan(wf, s, Send)
    ensures HandlerClimbs(wf, HandlerDoes(wf, s, Send))
  {
    var n := HandlerDoes(wf, s, Send);
    HandlerCounts(wf, s, Send, s.handler.msg.task);
    forall b | b in n.handler.todo ensures Publications(n, b) == Publications(s, b) {
      SendCalms(wf, s, b);
    }
  }

  // One more task has climbed.
  lemma AllClimbOn(wf: Workflow, s: Sys, n: Sys, j: TaskId, m: TaskId)
    requires Acyclic(wf.dependencies) && AllClimb(wf, s) && ClimbsTo(wf, s, j, m) && Tops(wf.dependencies, j, m)
    requires Publications(s, j) == 0 && !s.handler.Idle? && !n.handler.Idle? && n.handler.msg == s.handler.msg
    requires forall x | x != j :: Calms(s, n, x) && Publications(n, x) == Publications(s, x)
    ensures AllClimb(wf, n)
  {
    forall b, c | b in wf.tasks && Publications(n, b) >= 1 && Tops(wf.dependencies, b, c)
      ensures ClimbsTo(wf, n, b, c)
    {
      if b == j {
        OneTop(wf, j, m, c);
      } else {
        assert ClimbsTo(wf, s, b, c);
      }
      StaysClimbed(wf, s, n, b, c);
    }
  }

  lemma ReadHasRun(wf: Workflow, s: Sys, j: TaskId, m: TaskId)
    requires HandlerClimbs(wf, s) && HandlerCan(wf, s, Send) && j == s.handler.id && DependsOn(wf.dependencies, j, m)
    ensures HasRun(s, m)
  {
    var i :| 0 <= i < |DepsOf(wf.dependencies, j)| && DepsOf(wf.dependencies, j)[i] == m;
  }

  lemma OtherIsOver(wf: Workflow, s: Sys, j: TaskId, m: TaskId, d: TaskId)
    requires Accepted(wf) && Laddered(wf) && AllClimb(wf, s) && Rung(wf, j, m) && HasRun(s, m)
    requires DependsOn(wf.dependencies, j, d) && d != m
    ensures Over(s, d)
  {
    var e := TopOf(wf, m, d);
    assert ClimbsTo(wf, s, m, e);
  }

  lemma SentByTop(wf: Workflow, s: Sys, j: TaskId, m: TaskId)
    requires Accepted(wf) && Laddered(wf) && Shape(wf, s) && Climbs(wf, s) && HandlerCan(wf, s, Send)
    requires j == s.handler.id && Rung(wf, j, m) && HasRun(s, m)
    ensures s.handler.msg.task == m && Publications(s, j) == 0
  {
    var d := s.handler.msg.task;
    if d != m {
      OtherIsOver(wf, s, j, m, d);
    }
  }

  lemma TopOf(wf: Workflow, m: TaskId, d: TaskId) returns (e: TaskId)
    requires Accepted(wf) && Laddered(wf) && Awaits(wf.dependencies, m, d)
    ensures m in wf.tasks && Tops(wf.dependencies, m, e)
  {
    var c := FirstOnTheWay(wf.dependencies, m, d);
    e :| Rung(wf, m, e);
  }

  lemma SentIsClimbed(wf: Workflow, s: Sys, j: TaskId, m: TaskId)
    requires Accepted(wf) && Laddered(wf) && Metered(wf, s) && Climbs(wf, s) && HandlerCan(wf, s, Send)
    requires j == s.handler.id && Rung(wf, j, m) && HasRun(s, m) && s.handler.msg.task == m
    ensures ClimbsTo(wf, s, j, m)
  {
    forall a | Awaits(wf.dependencies, j, a) && a != m ensures Over(s, a) {
      BelowTop(wf.dependencies, j, m, a);
      var e := TopOf(wf, m, a);
      assert ClimbsTo(wf, s, m, e);
      if a == e {
        assert a in wf.tasks;
        assert Publications(s, a) == Work(s, a) + Handlings(s, a);
      }
    }
  }

  lemma StepClimbs(wf: Workflow, s: Sys, l: Label)
    requires Accepted(wf) && Laddered(wf) && Metered(wf, s) && CompletedLeftResult(s) && Climbs(wf, s)
    requires Enabled(wf, s, l) && Calm(l)
    ensures Climbs(wf, Apply(wf, s, l)) && CompletedLeftResult(Apply(wf, s, l))
  {
    StepKeepsMetered(wf, s, l);
    match l {
      case ByEngine(e) =>
        EngineClimbs(wf, s, e);
        EngineLeavesResults(wf, s, e);
      case ByRunner(r) =>
        RunnerClimbs(wf, s, r);
        RunnerLeavesResults(s, r);
      case ByHandler(h) =>
        if h.Take? {
          TakeClimbs(wf, s, h.msg);
        } else if h.Send? {
          SendClimbs(wf, s);
        } else {
          LookClimbs(wf, s, h);
        }
        HandlerLeavesResults(wf, s, h);
    }
  }

  lemma {:induction false} RunClimbs(wf: Workflow, s: Sys, ls: seq<Label>)
    requires Accepted(wf) && Laddered(wf) && Metered(wf, s) && CompletedLeftResult(s) && Climbs(wf, s)
    requires Runs(wf, s, ls) && AllCalm(ls)
    ensures Climbs(wf, After(wf, s, ls))
    decreases |ls|
  {
    if ls != [] {
      assert Calm(ls[0]) && AllCalm(ls[1..]);
      StepClimbs(wf, s, ls[0]);
      StepKeepsMetered(wf, s, ls[0]);
      RunClimbs(wf, Apply(wf, s, ls[0]), ls[1..]);
    }
  }

  lemma {:induction false} RunIsTruthful(wf: Workflow, s: Sys, ls: seq<Label>)
    requires Accepted(wf) && Laddered(wf) && Metered(wf, s) && CompletedLeftResult(s) && Climbs(wf, s)
    requires Truthful(wf, s) && HandlerWaits(s) && Runs(wf, s, ls) && AllCalm(ls) && Unhurried(wf, s, ls)
    ensures Truthful(wf, After(wf, s, ls))
    decreases |ls|
  {
    if ls != [] {
      assert Calm(ls[0]) && AllCalm(ls[1..]);
      UnhurriedStep(wf, s, ls[0]);
      StepIsTruthful(wf, s, ls[0]);
      StepClimbs(wf, s, ls[0]);
      StepKeepsMetered(wf, s, ls[0]);
      RunIsTruthful(wf, Apply(wf, s, ls[0]), ls[1..]);
    }
  }

  // ---------------------------------------------------------------------------
  // The exact conditions

  // Nothing is published twice while nothing fails.
  ghost predicate PublishesOnce(wf: Workflow) {
    forall ls | Runs(wf, Fresh(wf), ls) && AllCalm(ls) :: Once(wf, After(wf, Fresh(wf), ls))
  }

  // Without hurry, no caller is told of a failure while nothing fails.
  ghost predicate AnswersTruly(wf: Workflow) {
    forall ls | Runs(wf, Fresh(wf), ls) && AllCalm(ls) && Unhurried(wf, Fresh(wf), ls) ::
      forall r | r in After(wf, Fresh(wf), ls).replies :: r == Completed
  }

  // A workflow that is not laddered has branches that join, or a nest.
  lemma NotLaddered(wf: Workflow) returns (t: TaskId, m: TaskId, c: TaskId)
    requires Accepted(wf) && !Laddered(wf)
    ensures Joining(wf, t, m, c) || Nested(wf, t, m, c)
  {
    t :| t in wf.tasks && DepsOf(wf.dependencies, t) != [] && !exists m :: Rung(wf, t, m);
    var order := Dag.TopologicalOrderExists(wf);
    m := Topmost(wf, order, t, DepsOf(wf.dependencies, t)[0]);
    assert !Rung(wf, t, m);
    if Tops(wf.dependencies, t, m) {
      c :| DependsOn(wf.dependencies, t, c) && Tops(wf.dependencies, m, c);
    } else {
      c :| DependsOn(wf.dependencies, t, c) && c != m && !Awaits(wf.dependencies, m, c);
    }
  }

  lemma NotLadderedGoesWrong(wf: Workflow)
    requires Accepted(wf) && !Laddered(wf)
    ensures !PublishesOnce(wf) && !AnswersTruly(wf)
  {
    var t, m, c := NotLaddered(wf);
    var x, twice, failed;
    if Joining(wf, t, m, c) {
      x, twice, failed := JoinCanAnswerFailed(wf, t, m, c);
    } else {
      x := t;
      twice, failed := NestCanAnswerFailed(wf, t, m, c);
    }
    var ls :| CalmRun(wf, ls, twice) && (false || Unhurried(wf, Fresh(wf), ls));
    assert !Once(wf, twice);
    var all :| CalmRun(wf, all, failed) && (false || Unhurried(wf, Fresh(wf), all));
    assert !(forall r | r in failed.replies :: r == Completed);
  }

  lemma LadderedGoesRight(wf: Workflow)
    requires Accepted(wf) && Laddered(wf)
    ensures PublishesOnce(wf) && AnswersTruly(wf)
  {
    FreshIsMetered(wf);
    forall ls | Runs(wf, Fresh(wf), ls) && AllCalm(ls) ensures Once(wf, After(wf, Fresh(wf), ls)) {
      RunClimbs(wf, Fresh(wf), ls);
    }
    forall ls | Runs(wf, Fresh(wf), ls) && AllCalm(ls) && Unhurried(wf, Fresh(wf), ls)
      ensures forall r | r in After(wf, Fresh(wf), ls).replies :: r == Completed
    {
      RunIsTruthful(wf, Fresh(wf), ls);
    }
  }

  // Tasks are published at most once in all runs in which nothing fails if and only if the
  // workflow is laddered.
  lemma PublishesOnceIff(wf: Workflow)
    requires Accepted(wf)
    ensures PublishesOnce(wf) <==> Laddered(wf)
  {
    if Laddered(wf) {
      LadderedGoesRight(wf);
    } else {
      NotLadderedGoesWrong(wf);
    }
  }

  // And so it is with true replies, in all such runs without hurry.
  lemma AnswersTrulyIff(wf: Workflow)
    requires Accepted(wf)
    ensures AnswersTruly(wf) <==> Laddered(wf)
  {
    if Laddered(wf) {
      LadderedGoesRight(wf);
    } else {
      NotLadderedGoesWrong(wf);
    }
  }

  // In particular where no task has two different dependencies.
  lemma WithoutJoinsRepliesAreTrue(wf: Workflow)
    requires Accepted(wf) && NoJoins(wf)
    ensures PublishesOnce(wf) && AnswersTruly(wf)
  {
    forall t | t in wf.tasks && DepsOf(wf.dependencies, t) != [] ensures exists m :: Rung(wf, t, m) {
      var m := DepsOf(wf.dependencies, t)[0];
      forall c | DependsOn(wf.dependencies, t, c) ensures c == m && !Tops(wf.dependencies, m, c) {
        assert DependsOn(wf.dependencies, t, m);
        if DependsOn(wf.dependencies, m, m) {
          AwaitsDirectly(wf.dependencies, m, m);
        }
        NobodyAwaitsItself(wf.dependencies, m);
      }
      assert Rung(wf, t, m);
    }
    LadderedGoesRight(wf);
  }

  ghost predicate NoJoins(wf: Workflow) {
    forall t, c, d | t in wf.tasks && DependsOn(wf.dependencies, t, c) && DependsOn(wf.dependencies, t, d) :: c == d
  }
}
