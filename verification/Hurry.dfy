// What can happen in a hurry, when results are handled while the workflow is still being
// submitted. Nothing fails, and yet every workflow can be left without a reply, or be answered
// wrongly. In a laddered workflow a run is answered truly exactly if the engine never marks a
// root between the two readings of it that a reply relies on.

module Hurry {
  import opened Workflows
  import opened Protocol
  import opened CausalOrder
  import opened Progress
  import opened BoundedWork
  import opened Termination
  import opened Replies
  import opened CalmRuns
  import opened Executing
  import opened Ladders
  import Interleaving
  import Dag

  lemma SomeRoot(wf: Workflow, order: seq<TaskId>) returns (r: TaskId)
    requires Laid(wf, order)
    ensures r in Roots(wf) && r in wf.tasks && DepsOf(wf.dependencies, r) == []
  {
    var id :| id in wf.tasks;
    assert id in order;
    r := order[0];
    assert r in order && Settled(wf.dependencies, order, 0);
    if DepsOf(wf.dependencies, r) != [] {
      assert DependsOn(wf.dependencies, r, DepsOf(wf.dependencies, r)[0]);
    }
  }

  // In every workflow, the engine can mark the last root between the conclusion and its
  // reading for the reply.
  lemma HurryCanAnswerFailed(wf: Workflow) returns (s: Sys)
    requires Accepted(wf)
    ensures Reached(wf, true, s) && Failed in s.replies
  {
    var order := Dag.TopologicalOrderExists(wf);
    var r := SomeRoot(wf, order);
    var e := RootSent({}, r);
    var sent := SubmitsWorkflow(wf, e);
    var end := RunsOut(wf, e, order, sent, {}, multiset{});
    s := AnswersFailed(wf, true, end, r);
  }

  // ---------------------------------------------------------------------------
  // No reply at all

  // The root is over, but marked as queued, and so the handler will never conclude.
  ghost predicate Mute(wf: Workflow, s: Sys, r: TaskId) {
    && r in wf.tasks && DepsOf(wf.dependencies, r) == [] && StatusOf(s, r) == Queued && Work(s, r) == 0
    && !s.engine.Initialising? && !WillMark(s.engine, r) && s.replies == []
    && !s.handler.Aggregating? && (s.handler.Checking? ==> s.handler.running || r in s.handler.todo)
    && (s.handler.Sent? ==> s.handler.id != r)
  }

  lemma EngineStaysMute(wf: Workflow, s: Sys, e: EngineStep, r: TaskId)
    requires Mute(wf, s, r) && EngineCan(wf, s, e) && !e.Submit?
    ensures Mute(wf, EngineDoes(wf, s, e), r)
  {
    EngineWork(wf, s, e, r);
  }

  lemma RunnerStaysMute(wf: Workflow, s: Sys, r: TaskId, step: RunnerStep)
    requires Mute(wf, s, r) && RunnerCan(s, step) && (step.Finish? ==> step.outcome == Completed)
    ensures Mute(wf, RunnerDoes(s, step), r)
  {
    RunnerWork(s, step, r);
  }

  lemma HandlerStaysMute(wf: Workflow, s: Sys, h: HandlerStep, r: TaskId)
    requires HandlerShape(wf, s) && StatusShape(wf, s) && TrafficShape(wf, s) && Mute(wf, s, r) && HandlerCan(wf, s, h)
    ensures Mute(wf, HandlerDoes(wf, s, h), r)
  {
    HandlerWork(wf, s, h, r);
    assert h.Take? ==> h.msg == Msg(h.msg.task, Completed);
  }

  lemma StaysMute(wf: Workflow, s: Sys, l: Label, r: TaskId)
    requires Shape(wf, s) && Mute(wf, s, r) && Enabled(wf, s, l) && Calm(l)
    ensures Mute(wf, Apply(wf, s, l), r)
  {
    match l
    case ByEngine(e) => EngineStaysMute(wf, s, e, r);
    case ByRunner(step) => RunnerStaysMute(wf, s, r, step);
    case ByHandler(h) => HandlerStaysMute(wf, s, h, r);
  }

  // As long as something is left, something can be done, if only a late mark.
  lemma SomeStep(wf: Workflow, s: Sys) returns (l: Label)
    requires Shape(wf, s) && !Quiet(s)
    ensures Enabled(wf, s, l) && Calm(l)
  {
    if Doomed(s) {
      l := ByEngine(MarkRoot);
    } else {
      l := Move(wf, s);
    }
  }

  lemma {:induction false} RunsToQuiet(wf: Workflow, order: seq<TaskId>, s: Sys, r: TaskId) returns (n: Sys)
    requires Laid(wf, order) && Reached(wf, true, s) && Mute(wf, s, r)
    ensures Reached(wf, true, n) && Mute(wf, n, r) && Quiet(n) && s.log <= n.log
    decreases Left(wf, order, s)
  {
    ReachedIsMetered(wf, true, s);
    if Quiet(s) {
      n := s;
    } else {
      var l := SomeStep(wf, s);
      Onward(wf, true, s, l);
      StaysMute(wf, s, l, r);
      StepSpends(wf, s, l, order);
      Interleaving.LogGrows(wf, s, l);
      n := RunsToQuiet(wf, order, Apply(wf, s, l), r);
    }
  }

  // All tasks are completed, and the handler has just taken the last result.
  lemma TakenLate(wf: Workflow, order: seq<TaskId>, r: TaskId) returns (s: Sys)
    requires Laid(wf, order) && r in Roots(wf)
    ensures Reached(wf, true, s) && s.engine == RootSent({}, r) && s.handler.Checking? && s.replies == []
    ensures s.handler.todo == wf.tasks.Keys && Work(s, r) == 0
    ensures forall x | x in wf.tasks :: StatusOf(s, x) == Completed
  {
    var run, last := ExecutesAll(wf, order, r);
    s := Takes(wf, true, run, last);
    assert s.status == run.status && s.results == multiset{};
    RootIsOver(wf, s, r);
  }

  // The last root was published and all tasks are executed, before it is marked.
  lemma ExecutesAll(wf: Workflow, order: seq<TaskId>, r: TaskId) returns (s: Sys, last: TaskId)
    requires Laid(wf, order) && r in Roots(wf)
    ensures Stands(wf, RootSent({}, r), s, wf.tasks.Keys) && s.handler.Idle?
    ensures last in wf.tasks && s.results == multiset{Msg(last, Completed)}
  {
    var e := RootSent({}, r);
    var sent := SubmitsWorkflow(wf, e);
    last := LastOne(wf, order, {});
    var mid := RunsTo(wf, e, order, sent, {}, wf.tasks.Keys - {last}, multiset{});
    AloneIsReady(wf, last);
    assert mid.queue[last] >= Needs(wf, wf.tasks.Keys - {last}, multiset{}, last);
    s := ExecutesOne(wf, e, mid, wf.tasks.Keys - {last}, last);
    assert wf.tasks.Keys - {last} + {last} == wf.tasks.Keys;
  }

  lemma AloneIsReady(wf: Workflow, last: TaskId)
    requires Accepted(wf)
    ensures ReadyIn(wf, wf.tasks.Keys - {last}, last)
  {
    Awaiting.NobodyAwaitsItself(wf.dependencies, last);
    LastIsReady(wf, last);
  }

  lemma RootIsOver(wf: Workflow, s: Sys, r: TaskId)
    requires Accepted(wf) && Reached(wf, true, s) && r in Roots(wf) && StatusOf(s, r) == Completed
    requires s.stored == multiset{} && s.results == multiset{}
    ensures Work(s, r) == 0
  {
    ReachedIsMetered(wf, true, s);
    ReachedLeftResults(wf, true, s);
    assert Limited(wf, s, r);
    assert Publications(s, r) == Work(s, r) + Handlings(s, r);
  }

  lemma ReachedLeftResults(wf: Workflow, hurry: bool, s: Sys)
    requires Reached(wf, hurry, s)
    ensures CompletedLeftResult(s)
  {
    var ls :| CalmRun(wf, ls, s) && (hurry || Unhurried(wf, Fresh(wf), ls));
    RunLeavesResults(wf, Fresh(wf), ls);
  }

  lemma {:induction false} RunLeavesResults(wf: Workflow, s: Sys, ls: seq<Label>)
    requires CompletedLeftResult(s) && Runs(wf, s, ls) && AllCalm(ls)
    ensures CompletedLeftResult(After(wf, s, ls))
    decreases |ls|
  {
    if ls != [] {
      assert Calm(ls[0]) && AllCalm(ls[1..]);
      match ls[0] {
        case ByEngine(e) => EngineLeavesResults(wf, s, e);
        case ByRunner(r) => RunnerLeavesResults(s, r);
        case ByHandler(h) => HandlerLeavesResults(wf, s, h);
      }
      RunLeavesResults(wf, Apply(wf, s, ls[0]), ls[1..]);
    }
  }

  lemma CompletedHasFinished(wf: Workflow, hurry: bool, s: Sys, x: TaskId)
    requires Reached(wf, hurry, s) && StatusOf(s, x) == Completed
    ensures Finished(x) in s.log
  {
    var ls :| CalmRun(wf, ls, s) && (hurry || Unhurried(wf, Fresh(wf), ls));
    var submit := [ByEngine(Submit)];
    assert submit[1..] == [] && Runs(wf, Nothing, submit) && After(wf, Nothing, submit) == Fresh(wf);
    RunThen(wf, Nothing, submit, ls);
    assert IsWalk(wf.dependencies, [x]);
    CompletedIsJustified(wf, submit + ls, [x]);
  }

  // In every workflow it can happen that all tasks are executed and complete, the last result
  // is handled before the engine has marked the last root as queued, and then nothing is left
  // to do and no reply was sent.
  lemma HandledWhileSubmitting(wf: Workflow) returns (s: Sys)
    requires Accepted(wf)
    ensures Reached(wf, true, s) && Quiet(s) && s.replies == []
    ensures forall x | x in wf.tasks :: Finished(x) in s.log
    ensures exists r :: r in Roots(wf) && StatusOf(s, r) == Queued
  {
    var order := Dag.TopologicalOrderExists(wf);
    var r := SomeRoot(wf, order);
    var late := TakenLate(wf, order, r);
    forall x | x in wf.tasks ensures Finished(x) in late.log {
      CompletedHasFinished(wf, true, late, x);
    }
    Onward(wf, true, late, ByEngine(MarkRoot));
    var marked := Apply(wf, late, ByEngine(MarkRoot));
    EngineWork(wf, late, MarkRoot, r);
    s := RunsToQuiet(wf, order, marked, r);
  }

  // ---------------------------------------------------------------------------
  // Replies in a hurry

  // The roots that were marked after the handler had looked at them, in the check that it is
  // going through or has come through, and before it reads them for the reply.
  function Overtaken(s: Sys, l: Label, late: set<TaskId>): set<TaskId> {
    match l
    case ByHandler(Take(_)) => {}
    case ByEngine(MarkRoot) =>
      if s.engine.RootSent? &&
         ((s.handler.Checking? && s.engine.id !in s.handler.todo) ||
          (s.handler.Aggregating? && s.engine.id in s.handler.todo))
      then late + {s.engine.id} else late
    case _ => late
  }

  // Whenever a reply is sent, no root was.
  ghost predicate Timely(wf: Workflow, s: Sys, ls: seq<Label>, late: set<TaskId>)
    requires Runs(wf, s, ls)
    decreases |ls|
  {
    ls != [] ==>
      && (ls[0] == ByHandler(Reply) ==> late == {})
      && Timely(wf, Apply(wf, s, ls[0]), ls[1..], Overtaken(s, ls[0], late))
  }

  ghost predicate AllTrue(s: Sys) {
    forall r | r in s.replies :: r == Completed
  }

  // Of the tasks that were looked at and not yet read for the reply, exactly those that are
  // late are not completed.
  ghost predicate LateOnly(wf: Workflow, s: Sys, late: set<TaskId>, x: TaskId) {
    if x in late then StatusOf(s, x) == Queued && HasRun(s, x) else StatusOf(s, x) == Completed
  }

  ghost predicate Watched(wf: Workflow, s: Sys, late: set<TaskId>) {
    var h := s.handler;
    && (h.Checking? ==> late <= wf.tasks.Keys - h.todo)
    && (h.Checking? && !h.running ==> forall x | x in wf.tasks && x !in h.todo :: LateOnly(wf, s, late, x))
    && (h.Aggregating? ==>
          && late <= wf.tasks.Keys && (forall x | x in h.todo :: LateOnly(wf, s, late, x))
          && (h.failed <==> exists x :: x in late && x !in h.todo))
  }

  lemma EngineWatched(wf: Workflow, s: Sys, e: EngineStep, late: set<TaskId>)
    requires Shape(wf, s) && Conserved(s) && CompletedLeftResult(s) && Once(wf, s) && Watched(wf, s, late)
    requires EngineCan(wf, s, e) && !e.Submit? && Once(wf, EngineDoes(wf, s, e))
    ensures Watched(wf, EngineDoes(wf, s, e), Overtaken(s, ByEngine(e), late))
  {
    var n, more := EngineDoes(wf, s, e), Overtaken(s, ByEngine(e), late);
    forall x | x in wf.tasks && LateOnly(wf, s, late, x) && WasSeen(s.handler, x) ensures LateOnly(wf, n, more, x) {
      EngineKeepsLate(wf, s, e, late, x);
    }
  }

  // The handler has looked at the task and not read it for the reply.
  predicate WasSeen(h: Handler, x: TaskId) {
    (h.Checking? && x !in h.todo) || (h.Aggregating? && x in h.todo)
  }

  lemma EngineKeepsLate(wf: Workflow, s: Sys, e: EngineStep, late: set<TaskId>, x: TaskId)
    requires Shape(wf, s) && Conserved(s) && CompletedLeftResult(s) && Once(wf, s) && x in wf.tasks
    requires EngineCan(wf, s, e) && !e.Submit? && Once(wf, EngineDoes(wf, s, e))
    requires LateOnly(wf, s, late, x) && WasSeen(s.handler, x)
    ensures LateOnly(wf, EngineDoes(wf, s, e), Overtaken(s, ByEngine(e), late), x)
  {
    if StatusOf(s, x) == Completed {
      CompletedHasRun(wf, s, x);
    }
    EngineKeepsRun(wf, s, e, x);
    EngineMarksLate(wf, s, e, late, x);
  }

  lemma EngineKeepsRun(wf: Workflow, s: Sys, e: EngineStep, x: TaskId)
    requires EngineCan(wf, s, e) && Once(wf, EngineDoes(wf, s, e)) && HasRun(s, x) && x in wf.tasks
    ensures HasRun(EngineDoes(wf, s, e), x)
  {
    EngineCounts(wf, s, e, x);
    if e != SendRoot(x) {
      EngineCalms(wf, s, e, x);
    }
  }

  lemma EngineMarksLate(wf: Workflow, s: Sys, e: EngineStep, late: set<TaskId>, x: TaskId)
    requires EngineShape(wf, s) && EngineCan(wf, s, e) && !e.Submit? && WasSeen(s.handler, x)
    ensures
      var (n, more) := (EngineDoes(wf, s, e), Overtaken(s, ByEngine(e), late));
      if e == MarkRoot && s.engine.id == x then x in more && StatusOf(n, x) == Queued
      else (x in more <==> x in late) && StatusOf(n, x) == StatusOf(s, x)
  {
  }

  lemma RunnerWatched(wf: Workflow, s: Sys, r: RunnerStep, late: set<TaskId>)
    requires Shape(wf, s) && Conserved(s) && CompletedLeftResult(s) && Once(wf, s) && Watched(wf, s, late)
    requires RunnerCan(s, r) && (r.Finish? ==> r.outcome == Completed)
    ensures Watched(wf, RunnerDoes(s, r), late)
  {
    var n := RunnerDoes(s, r);
    forall x | x in wf.tasks && LateOnly(wf, s, late, x) ensures LateOnly(wf, n, late, x) {
      RunnerKeepsLate(wf, s, r, late, x);
    }
    WatchedAlike(wf, s, n, late);
  }

  lemma WatchedAlike(wf: Workflow, s: Sys, n: Sys, late: set<TaskId>)
    requires Watched(wf, s, late) && s.handler == n.handler
    requires s.handler.Aggregating? ==> s.handler.todo <= wf.tasks.Keys
    requires forall x | x in wf.tasks && LateOnly(wf, s, late, x) :: LateOnly(wf, n, late, x)
    ensures Watched(wf, n, late)
  {
  }

  lemma RunnerKeepsLate(wf: Workflow, s: Sys, r: RunnerStep, late: set<TaskId>, x: TaskId)
    requires Shape(wf, s) && Conserved(s) && CompletedLeftResult(s) && Once(wf, s) && x in wf.tasks
    requires RunnerCan(s, r) && (r.Finish? ==> r.outcome == Completed) && LateOnly(wf, s, late, x)
    ensures LateOnly(wf, RunnerDoes(s, r), late, x)
  {
    if StatusOf(s, x) == Completed {
      CompletedHasRun(wf, s, x);
    }
    RunnerKeepsRun(s, r, x);
  }

  lemma RunnerKeepsRun(s: Sys, r: RunnerStep, x: TaskId)
    requires RunnerCan(s, r) && HasRun(s, x) && x in s.status
    ensures HasRun(RunnerDoes(s, r), x) && StatusOf(RunnerDoes(s, r), x) == StatusOf(s, x)
  {
    assert r.Start? || r.Finish? ==> r.id != x;
    RunnerCounts(s, r, x);
  }

  lemma HandlerWatched(wf: Workflow, s: Sys, h: HandlerStep, late: set<TaskId>)
    requires Shape(wf, s) && Watched(wf, s, late) && HandlerCan(wf, s, h)
    ensures Watched(wf, HandlerDoes(wf, s, h), Overtaken(s, ByHandler(h), late))
  {
    if h.Examine? || h.Decide? {
      CheckWatched(wf, s, h, late);
    } else if h.Gather? {
      GatherWatched(wf, s, h, late);
    }
  }

  lemma CheckWatched(wf: Workflow, s: Sys, h: HandlerStep, late: set<TaskId>)
    requires Shape(wf, s) && Watched(wf, s, late) && HandlerCan(wf, s, h) && (h.Examine? || h.Decide?)
    ensures Watched(wf, HandlerDoes(wf, s, h), late)
  {
    var n := HandlerDoes(wf, s, h);
    forall x | x in wf.tasks && LateOnly(wf, s, late, x) ensures LateOnly(wf, n, late, x) {
      HandlerCounts(wf, s, h, x);
    }
  }

  lemma GatherWatched(wf: Workflow, s: Sys, h: HandlerStep, late: set<TaskId>)
    requires Shape(wf, s) && Watched(wf, s, late) && HandlerCan(wf, s, h) && h.Gather?
    ensures Watched(wf, HandlerDoes(wf, s, h), late)
  {
    var n := HandlerDoes(wf, s, h);
    forall x | x in wf.tasks && LateOnly(wf, s, late, x) ensures LateOnly(wf, n, late, x) {
      HandlerCounts(wf, s, h, x);
    }
  }

  lemma StepWatched(wf: Workflow, s: Sys, l: Label, late: set<TaskId>)
    requires Accepted(wf) && Laddered(wf) && Metered(wf, s) && CompletedLeftResult(s) && Climbs(wf, s)
    requires Watched(wf, s, late) && Enabled(wf, s, l) && Calm(l)
    ensures Watched(wf, Apply(wf, s, l), Overtaken(s, l, late))
    ensures AllTrue(Apply(wf, s, l)) <==> AllTrue(s) && (l == ByHandler(Reply) ==> late == {})
  {
    StepClimbs(wf, s, l);
    match l
    case ByEngine(e) => EngineWatched(wf, s, e, late);
    case ByRunner(r) => RunnerWatched(wf, s, r, late);
    case ByHandler(h) =>
      HandlerWatched(wf, s, h, late);
      RepliesTrulyIff(wf, s, h, late);
  }

  lemma RepliesTrulyIff(wf: Workflow, s: Sys, h: HandlerStep, late: set<TaskId>)
    requires Watched(wf, s, late) && HandlerCan(wf, s, h)
    ensures AllTrue(HandlerDoes(wf, s, h)) <==> AllTrue(s) && (h == Reply ==> late == {})
  {
    var n := HandlerDoes(wf, s, h);
    if h == Reply {
      if late != {} {
        var x :| x in late;
        assert x !in s.handler.todo;
      }
      assert s.handler.failed <==> late != {};
      var verdict := if s.handler.failed then Failed else Completed;
      assert n.replies == s.replies + [verdict];
      assert verdict in n.replies;
      assert forall r :: r in n.replies <==> r in s.replies || r == verdict;
    }
  }

  lemma {:induction false} RunIsTimelyIff(wf: Workflow, s: Sys, ls: seq<Label>, late: set<TaskId>)
    requires Accepted(wf) && Laddered(wf) && Metered(wf, s) && CompletedLeftResult(s) && Climbs(wf, s)
    requires Watched(wf, s, late) && Runs(wf, s, ls) && AllCalm(ls)
    ensures AllTrue(After(wf, s, ls)) <==> AllTrue(s) && Timely(wf, s, ls, late)
    decreases |ls|
  {
    if ls != [] {
      assert Calm(ls[0]) && AllCalm(ls[1..]);
      StepWatched(wf, s, ls[0], late);
      StepClimbs(wf, s, ls[0]);
      StepKeepsMetered(wf, s, ls[0]);
      RunIsTimelyIff(wf, Apply(wf, s, ls[0]), ls[1..], Overtaken(s, ls[0], late));
    }
  }

  // Without hurry nothing is late.
  lemma {:induction false} UnhurriedIsTimely(wf: Workflow, s: Sys, ls: seq<Label>)
    requires Closed(wf) && Shape(wf, s) && HandlerWaits(s) && Runs(wf, s, ls) && AllCalm(ls) && Unhurried(wf, s, ls)
    ensures Timely(wf, s, ls, {})
    decreases |ls|
  {
    if ls != [] {
      assert Calm(ls[0]) && AllCalm(ls[1..]);
      UnhurriedStep(wf, s, ls[0]);
      StepKeepsShape(wf, s, ls[0]);
      assert Overtaken(s, ls[0], {}) == {};
      UnhurriedIsTimely(wf, Apply(wf, s, ls[0]), ls[1..]);
    }
  }

  // Of all runs in which nothing fails, exactly the timely ones are answered truly.
  ghost predicate TrueIffTimely(wf: Workflow) {
    forall ls | Runs(wf, Fresh(wf), ls) && AllCalm(ls) ::
      AllTrue(After(wf, Fresh(wf), ls)) <==> Timely(wf, Fresh(wf), ls, {})
  }

  // And that is so exactly in laddered workflows.
  lemma TrueIffTimelyIff(wf: Workflow)
    requires Accepted(wf)
    ensures TrueIffTimely(wf) <==> Laddered(wf)
  {
    if Laddered(wf) {
      FreshIsMetered(wf);
      forall ls | Runs(wf, Fresh(wf), ls) && AllCalm(ls)
        ensures AllTrue(After(wf, Fresh(wf), ls)) <==> Timely(wf, Fresh(wf), ls, {})
      {
        RunIsTimelyIff(wf, Fresh(wf), ls, {});
      }
    } else {
      NotLadderedGoesWrong(wf);
      var ls :| Runs(wf, Fresh(wf), ls) && AllCalm(ls) && Unhurried(wf, Fresh(wf), ls) &&
                !AllTrue(After(wf, Fresh(wf), ls));
      FreshIsSound(wf);
      UnhurriedIsTimely(wf, Fresh(wf), ls);
    }
  }
}
