// When the reply that the handler composes can be trusted. The completion check and the
// collection of results read the task states separately; between the two, a second message
// of a join task can start executing, and the engine can mark a root.

module Replies {
  import opened Workflows
  import opened Protocol
  import opened Progress
  import opened BoundedWork
  import Dag

  // The handler has concluded that the workflow is completed and has seen no failure so far.
  ghost predicate Collecting(s: Sys) {
    s.handler.Aggregating? && !s.handler.failed
  }

  // The engine has yet to mark this task.
  predicate WillMark(engine: Engine, id: TaskId) {
    match engine
    case Submitting(todo) => id in todo
    case RootSent(todo, sent) => id in todo || id == sent
    case _ => false
  }

  // Every task still to be read is completed, no message of it is left to execute, and the
  // engine will not mark it.
  ghost predicate Steady(s: Sys)
    requires s.handler.Aggregating?
  {
    forall id | id in s.handler.todo :: IsSteady(s, id)
  }

  ghost predicate IsSteady(s: Sys, id: TaskId) {
    StatusOf(s, id) == Completed && s.queue[id] == 0 && !WillMark(s.engine, id)
  }

  // A way to get from here to the point where the reply is sent.
  ghost predicate LeadsToReply(wf: Workflow, s: Sys, ls: seq<Label>) {
    && Runs(wf, s, ls) && AllCalm(ls)
    && ByHandler(Reply) !in ls && Enabled(wf, After(wf, s, ls), ByHandler(Reply))
  }

  ghost predicate AlwaysAnswersCompleted(wf: Workflow, s: Sys) {
    forall ls | LeadsToReply(wf, s, ls) :: !After(wf, s, ls).handler.failed
  }

  lemma RunnerLeavesSteady(s: Sys, r: RunnerStep)
    requires Collecting(s) && Steady(s) && RunnerCan(s, r) && (r.Finish? ==> r.outcome == Completed)
    ensures Collecting(RunnerDoes(s, r)) && Steady(RunnerDoes(s, r))
  {
  }

  lemma HandlerLeavesSteady(wf: Workflow, s: Sys, h: HandlerStep)
    requires Collecting(s) && Steady(s) && HandlerCan(wf, s, h) && h != Reply
    ensures Collecting(HandlerDoes(wf, s, h)) && Steady(HandlerDoes(wf, s, h))
  {
    assert h.Gather?;
  }

  lemma EngineLeavesSteady(wf: Workflow, s: Sys, e: EngineStep)
    requires EngineShape(wf, s) && Collecting(s) && Steady(s) && EngineCan(wf, s, e) && !e.Submit?
    ensures Collecting(EngineDoes(wf, s, e)) && Steady(EngineDoes(wf, s, e))
  {
    var next := EngineDoes(wf, s, e);
    forall id | id in next.handler.todo ensures IsSteady(next, id) {
      assert IsSteady(s, id);
    }
  }

  lemma SteadyStays(wf: Workflow, s: Sys, l: Label)
    requires EngineShape(wf, s) && Collecting(s) && Steady(s)
    requires Enabled(wf, s, l) && Calm(l) && l != ByHandler(Reply)
    ensures Collecting(Apply(wf, s, l)) && Steady(Apply(wf, s, l))
  {
    match l
    case ByEngine(e) => EngineLeavesSteady(wf, s, e);
    case ByRunner(r) => RunnerLeavesSteady(s, r);
    case ByHandler(h) => HandlerLeavesSteady(wf, s, h);
  }

  lemma {:induction false} SteadyAnswersCompleted(wf: Workflow, s: Sys, ls: seq<Label>)
    requires Accepted(wf) && Shape(wf, s) && Collecting(s) && Steady(s) && LeadsToReply(wf, s, ls)
    ensures !After(wf, s, ls).handler.failed
    decreases |ls|
  {
    if ls != [] {
      assert Calm(ls[0]) && AllCalm(ls[1..]);
      SteadyStays(wf, s, ls[0]);
      StepKeepsShape(wf, s, ls[0]);
      SteadyAnswersCompleted(wf, Apply(wf, s, ls[0]), ls[1..]);
    }
  }

  // Reading all that remains, once a failure has been seen.
  lemma {:induction false} ReadTheRest(wf: Workflow, s: Sys) returns (ls: seq<Label>)
    requires StatusShape(wf, s) && HandlerShape(wf, s) && !s.engine.Initialising?
    requires s.handler.Aggregating? && s.handler.failed
    ensures LeadsToReply(wf, s, ls) && After(wf, s, ls).handler.failed
    decreases if s.handler.Aggregating? then |s.handler.todo| else 0
  {
    if s.handler.todo == {} {
      ls := [];
    } else {
      var id :| id in s.handler.todo;
      var l := ByHandler(Gather(id));
      var next := Apply(wf, s, l);
      Dag.Smaller(next.handler.todo, s.handler.todo);
      var rest := ReadTheRest(wf, next);
      ls := [l] + rest;
      assert ls[1..] == rest;
    }
  }

  lemma Prepend(wf: Workflow, s: Sys, l: Label, rest: seq<Label>)
    requires Enabled(wf, s, l) && Calm(l) && l != ByHandler(Reply)
    requires LeadsToReply(wf, Apply(wf, s, l), rest)
    ensures LeadsToReply(wf, s, [l] + rest)
    ensures After(wf, s, [l] + rest) == After(wf, Apply(wf, s, l), rest)
  {
    assert ([l] + rest)[1..] == rest;
  }

  // Once a task that is still to be read is not completed, the reply reports a failure.
  lemma UnfinishedCanBeRead(wf: Workflow, s: Sys, id: TaskId) returns (ls: seq<Label>)
    requires Shape(wf, s) && Collecting(s) && id in s.handler.todo && StatusOf(s, id) != Completed
    ensures LeadsToReply(wf, s, ls) && After(wf, s, ls).handler.failed
  {
    var read := ByHandler(Gather(id));
    var rest := ReadTheRest(wf, Apply(wf, s, read));
    Prepend(wf, s, read, rest);
    ls := [read] + rest;
  }

  // One step leads to a state from which the reply can report a failure.
  lemma ViaStep(wf: Workflow, s: Sys, l: Label, rest: seq<Label>) returns (ls: seq<Label>)
    requires Enabled(wf, s, l) && Calm(l) && l != ByHandler(Reply)
    requires LeadsToReply(wf, Apply(wf, s, l), rest) && After(wf, Apply(wf, s, l), rest).handler.failed
    ensures LeadsToReply(wf, s, ls) && After(wf, s, ls).handler.failed
  {
    Prepend(wf, s, l, rest);
    ls := [l] + rest;
  }

  // The engine can mark it first.
  lemma MarkCanBeRead(wf: Workflow, s: Sys, id: TaskId) returns (ls: seq<Label>)
    requires Closed(wf) && Shape(wf, s) && Collecting(s) && id in s.handler.todo && WillMark(s.engine, id)
    ensures LeadsToReply(wf, s, ls) && After(wf, s, ls).handler.failed
    decreases if s.engine.RootSent? && s.engine.id == id then 0 else if s.engine.Submitting? then 1 else 2
  {
    var l := ByEngine(if s.engine.RootSent? then MarkRoot else SendRoot(id));
    var next := Apply(wf, s, l);
    StepKeepsShape(wf, s, l);
    var rest;
    if s.engine.RootSent? && s.engine.id == id {
      rest := UnfinishedCanBeRead(wf, next, id);
    } else {
      rest := MarkCanBeRead(wf, next, id);
    }
    ls := ViaStep(wf, s, l, rest);
  }

  // A task that is not completed, or can start or be marked again, lets the reply report a
  // failure although nothing failed.
  lemma UnsteadyCanAnswerFailed(wf: Workflow, s: Sys, id: TaskId) returns (ls: seq<Label>)
    requires Closed(wf) && Shape(wf, s) && Collecting(s) && id in s.handler.todo && !IsSteady(s, id)
    ensures LeadsToReply(wf, s, ls) && After(wf, s, ls).handler.failed
  {
    if StatusOf(s, id) != Completed {
      ls := UnfinishedCanBeRead(wf, s, id);
    } else if WillMark(s.engine, id) {
      ls := MarkCanBeRead(wf, s, id);
    } else {
      var l := ByRunner(Start(id));
      StepKeepsShape(wf, s, l);
      var rest := UnfinishedCanBeRead(wf, Apply(wf, s, l), id);
      ls := ViaStep(wf, s, l, rest);
    }
  }

  // The exact condition: the reply is sure to say Completed if and only if no task that is
  // still to be read is unfinished, has a message waiting, or is still to be marked.
  lemma ReplyIsSureIff(wf: Workflow, s: Sys)
    requires Accepted(wf) && Shape(wf, s) && Collecting(s)
    ensures AlwaysAnswersCompleted(wf, s) <==> Steady(s)
  {
    if Steady(s) {
      forall ls | LeadsToReply(wf, s, ls) ensures !After(wf, s, ls).handler.failed {
        SteadyAnswersCompleted(wf, s, ls);
      }
    } else {
      var id :| id in s.handler.todo && !IsSteady(s, id);
      var ls := UnsteadyCanAnswerFailed(wf, s, id);
    }
  }

  // ---------------------------------------------------------------------------
  // Tasks that are published once

  // A completed task has left a result behind.
  ghost predicate CompletedLeftResult(s: Sys) {
    forall id | StatusOf(s, id) == Completed :: LeftResult(s, id)
  }

  ghost predicate LeftResult(s: Sys, id: TaskId) {
    s.stored[Msg(id, Completed)] + s.results[Msg(id, Completed)] + Handlings(s, id) > 0
  }

  ghost predicate Once(wf: Workflow, s: Sys) {
    forall id | id in wf.tasks :: Publications(s, id) <= 1
  }

  // What the handler passed over as completed is completed, and all replies say so.
  ghost predicate Truthful(wf: Workflow, s: Sys) {
    && (forall r | r in s.replies :: r == Completed)
    && (s.handler.Checking? && !s.handler.running ==>
          forall id | id in wf.tasks && id !in s.handler.todo :: StatusOf(s, id) == Completed)
    && (s.handler.Aggregating? ==>
          !s.handler.failed && forall id | id in wf.tasks :: StatusOf(s, id) == Completed)
  }

  lemma EngineLeavesResults(wf: Workflow, s: Sys, e: EngineStep)
    requires CompletedLeftResult(s) && EngineCan(wf, s, e)
    ensures CompletedLeftResult(EngineDoes(wf, s, e))
  {
    forall id | StatusOf(EngineDoes(wf, s, e), id) == Completed ensures LeftResult(EngineDoes(wf, s, e), id) {
      assert StatusOf(s, id) == Completed ==> LeftResult(s, id);
      EngineCounts(wf, s, e, id);
    }
  }

  lemma RunnerLeavesResults(s: Sys, r: RunnerStep)
    requires CompletedLeftResult(s) && RunnerCan(s, r) && (r.Finish? ==> r.outcome == Completed)
    ensures CompletedLeftResult(RunnerDoes(s, r))
  {
    forall id | StatusOf(RunnerDoes(s, r), id) == Completed ensures LeftResult(RunnerDoes(s, r), id) {
      assert StatusOf(s, id) == Completed ==> LeftResult(s, id);
      RunnerCounts(s, r, id);
    }
  }

  lemma HandlerLeavesResults(wf: Workflow, s: Sys, h: HandlerStep)
    requires CompletedLeftResult(s) && HandlerCan(wf, s, h)
    ensures CompletedLeftResult(HandlerDoes(wf, s, h))
  {
    forall id | StatusOf(HandlerDoes(wf, s, h), id) == Completed ensures LeftResult(HandlerDoes(wf, s, h), id) {
      assert StatusOf(s, id) == Completed ==> LeftResult(s, id);
      HandlerLeavesResult(wf, s, h, id);
    }
  }

  lemma HandlerLeavesResult(wf: Workflow, s: Sys, h: HandlerStep, id: TaskId)
    requires StatusOf(s, id) == Completed ==> LeftResult(s, id)
    requires HandlerCan(wf, s, h) && StatusOf(HandlerDoes(wf, s, h), id) == Completed
    ensures LeftResult(HandlerDoes(wf, s, h), id)
  {
    HandlerCounts(wf, s, h, id);
  }

  // A task that is published once and completed does not run again.
  lemma CompletedIsOver(wf: Workflow, s: Sys, id: TaskId)
    requires Conserved(s) && Once(wf, s) && CompletedLeftResult(s)
    requires id in wf.tasks && StatusOf(s, id) == Completed
    ensures s.queue[id] == 0 && s.running[id] == 0
  {
    assert Publications(s, id) == Work(s, id) + Handlings(s, id);
  }

  lemma StepIsTruthful(wf: Workflow, s: Sys, l: Label)
    requires Shape(wf, s) && Conserved(s) && Once(wf, s) && CompletedLeftResult(s) && Truthful(wf, s)
    requires HandlerWaits(s) && Enabled(wf, s, l) && Calm(l)
    ensures Truthful(wf, Apply(wf, s, l))
  {
    match l
    case ByEngine(e) => EngineIsTruthful(wf, s, e);
    case ByRunner(r) => RunnerIsTruthful(wf, s, r);
    case ByHandler(h) => HandlerIsTruthful(wf, s, h);
  }

  lemma EngineIsTruthful(wf: Workflow, s: Sys, e: EngineStep)
    requires HandlerWaits(s) && Truthful(wf, s) && EngineCan(wf, s, e) && !e.Submit?
    ensures Truthful(wf, EngineDoes(wf, s, e))
  {
  }

  lemma RunnerKeepsCompleted(wf: Workflow, s: Sys, r: RunnerStep, id: TaskId)
    requires Conserved(s) && Once(wf, s) && CompletedLeftResult(s)
    requires RunnerCan(s, r) && (r.Finish? ==> r.outcome == Completed)
    requires id in wf.tasks && StatusOf(s, id) == Completed
    ensures StatusOf(RunnerDoes(s, r), id) == Completed
  {
    CompletedIsOver(wf, s, id);
  }

  lemma RunnerIsTruthful(wf: Workflow, s: Sys, r: RunnerStep)
    requires Conserved(s) && Once(wf, s) && CompletedLeftResult(s) && Truthful(wf, s)
    requires RunnerCan(s, r) && (r.Finish? ==> r.outcome == Completed)
    ensures Truthful(wf, RunnerDoes(s, r))
  {
    forall id | id in wf.tasks && StatusOf(s, id) == Completed
      ensures StatusOf(RunnerDoes(s, r), id) == Completed
    {
      RunnerKeepsCompleted(wf, s, r, id);
    }
  }

  lemma HandlerIsTruthful(wf: Workflow, s: Sys, h: HandlerStep)
    requires TrafficShape(wf, s) && StatusShape(wf, s) && Truthful(wf, s) && HandlerCan(wf, s, h)
    ensures Truthful(wf, HandlerDoes(wf, s, h))
  {
    if h.Take? || h.Examine? || h.Decide? {
      CheckIsTruthful(wf, s, h);
    }
  }

  lemma CheckIsTruthful(wf: Workflow, s: Sys, h: HandlerStep)
    requires TrafficShape(wf, s) && StatusShape(wf, s) && Truthful(wf, s) && HandlerCan(wf, s, h)
    requires h.Take? || h.Examine? || h.Decide?
    ensures Truthful(wf, HandlerDoes(wf, s, h))
  {
  }
}
