// Every run without faults is finite, with a bound computed from the dependency graph,
// and can only stop by completing the workflow.

module Termination {
  import opened Workflows
  import opened Protocol
  import opened Progress
  import opened BoundedWork
  import Dag

  lemma PublishesOne(s: Sys, next: Sys, order: seq<TaskId>, x: TaskId)
    requires Distinct(order) && x in order
    requires forall id :: Publications(next, id) == Publications(s, id) + (if id == x then 1 else 0)
    ensures AllPublications(next, order) == AllPublications(s, order) + 1
  {
    SumBump(order, id => Publications(s, id), id => Publications(next, id), x);
  }

  lemma PublishesNone(s: Sys, next: Sys, order: seq<TaskId>)
    requires forall id :: Publications(next, id) == Publications(s, id)
    ensures AllPublications(next, order) == AllPublications(s, order)
  {
    SumLe(order, id => Publications(s, id), id => Publications(next, id));
    SumLe(order, id => Publications(next, id), id => Publications(s, id));
  }

  lemma EnginePublications(wf: Workflow, s: Sys, e: EngineStep, order: seq<TaskId>)
    requires Laid(wf, order) && EngineShape(wf, s) && EngineCan(wf, s, e) && !e.Submit?
    ensures AllPublications(EngineDoes(wf, s, e), order) ==
            AllPublications(s, order) + (if e.SendRoot? then 1 else 0)
  {
    var next := EngineDoes(wf, s, e);
    forall id { EngineCounts(wf, s, e, id); }
    if e.SendRoot? {
      PublishesOne(s, next, order, e.id);
    } else {
      PublishesNone(s, next, order);
    }
  }

  lemma RunnerPublications(s: Sys, r: RunnerStep, order: seq<TaskId>)
    requires RunnerCan(s, r)
    ensures AllPublications(RunnerDoes(s, r), order) == AllPublications(s, order)
  {
    var next := RunnerDoes(s, r);
    forall id { RunnerCounts(s, r, id); }
    SumLe(order, id => Publications(s, id), id => Publications(next, id));
    SumLe(order, id => Publications(next, id), id => Publications(s, id));
  }

  lemma HandlerPublications(wf: Workflow, s: Sys, h: HandlerStep, order: seq<TaskId>)
    requires Laid(wf, order) && HandlerShape(wf, s) && HandlerCan(wf, s, h)
    ensures AllPublications(HandlerDoes(wf, s, h), order) ==
            AllPublications(s, order) + (if h.Send? then 1 else 0)
  {
    var next := HandlerDoes(wf, s, h);
    forall id { HandlerCounts(wf, s, h, id); }
    if h.Send? {
      PublishesOne(s, next, order, s.handler.id);
    } else {
      PublishesNone(s, next, order);
    }
  }

  lemma RootsFew(wf: Workflow)
    ensures |Roots(wf)| <= |wf.tasks|
  {
    Dag.Smaller(Roots(wf), wf.tasks.Keys);
  }

  // No more is published than there are chains.
  lemma WithinBudget(wf: Workflow, s: Sys, order: seq<TaskId>)
    requires Laid(wf, order) && Metered(wf, s)
    ensures AllPublications(s, order) <= AllChains(wf.dependencies, order)
  {
    forall id | id in order ensures Publications(s, id) <= ChainCount(wf.dependencies, order, id) {
      WithinChains(wf, s, order, Dag.IndexOf(order, id));
    }
    SumLe(order, id => Publications(s, id), id => ChainCount(wf.dependencies, order, id));
  }

  lemma EngineSpends(wf: Workflow, s: Sys, e: EngineStep, order: seq<TaskId>)
    requires Laid(wf, order) && EngineShape(wf, s) && EngineCan(wf, s, e) && !e.Submit?
    requires AllPublications(EngineDoes(wf, s, e), order) <= AllChains(wf.dependencies, order)
    ensures Left(wf, order, EngineDoes(wf, s, e)) < Left(wf, order, s)
  {
    EnginePublications(wf, s, e, order);
    EngineLoops(wf, s, e);
    EngineTraffic(wf, s, e, PerResult(wf, order));
    EngineLeavesHandler(wf, s, e);
    EnginePartsAddUp(wf, order, s, EngineDoes(wf, s, e), e.SendRoot?);
  }

  lemma EnginePartsAddUp(wf: Workflow, order: seq<TaskId>, s: Sys, n: Sys, sent: bool)
    requires IsTopological(wf.dependencies, order) && n.handler == s.handler
    requires AllPublications(n, order) <= AllChains(wf.dependencies, order)
    requires AllPublications(n, order) == AllPublications(s, order) + (if sent then 1 else 0)
    requires TrafficLeft(n, PerResult(wf, order)) ==
             TrafficLeft(s, PerResult(wf, order)) + (if sent then PerResult(wf, order) + 4 else 0)
    requires EngineLeft(wf, n.engine) < EngineLeft(wf, s.engine)
    ensures Left(wf, order, n) < Left(wf, order, s)
  {
  }

  lemma EngineLeavesHandler(wf: Workflow, s: Sys, e: EngineStep)
    requires EngineCan(wf, s, e)
    ensures EngineDoes(wf, s, e).handler == s.handler
  {
  }

  lemma EngineTraffic(wf: Workflow, s: Sys, e: EngineStep, c: nat)
    requires EngineCan(wf, s, e)
    ensures TrafficLeft(EngineDoes(wf, s, e), c) == TrafficLeft(s, c) + (if e.SendRoot? then c + 4 else 0)
  {
  }

  lemma EngineLoops(wf: Workflow, s: Sys, e: EngineStep)
    requires EngineCan(wf, s, e) && !e.Submit?
    ensures EngineLeft(wf, EngineDoes(wf, s, e).engine) < EngineLeft(wf, s.engine)
  {
    RootsFew(wf);
  }

  lemma RunnerSpends(wf: Workflow, s: Sys, r: RunnerStep, order: seq<TaskId>)
    requires Laid(wf, order) && RunnerCan(s, r)
    ensures Left(wf, order, RunnerDoes(s, r)) < Left(wf, order, s)
  {
    RunnerPublications(s, r, order);
    RunnerTraffic(s, r, PerResult(wf, order));
    OnlyTraffic(wf, order, s, RunnerDoes(s, r));
  }

  lemma OnlyTraffic(wf: Workflow, order: seq<TaskId>, s: Sys, n: Sys)
    requires IsTopological(wf.dependencies, order) && n.engine == s.engine && n.handler == s.handler
    requires AllPublications(n, order) == AllPublications(s, order)
    requires TrafficLeft(n, PerResult(wf, order)) < TrafficLeft(s, PerResult(wf, order))
    ensures Left(wf, order, n) < Left(wf, order, s)
  {
  }

  lemma RunnerTraffic(s: Sys, r: RunnerStep, c: nat)
    requires RunnerCan(s, r)
    ensures TrafficLeft(RunnerDoes(s, r), c) < TrafficLeft(s, c)
  {
    var n := RunnerDoes(s, r);
    match r
    case Start(_) => assert |n.queue| == |s.queue| - 1 && |n.running| == |s.running| + 1;
    case Finish(_, _) => assert |n.running| == |s.running| - 1 && |n.stored| == |s.stored| + 1;
    case Post(_) => assert |n.stored| == |s.stored| - 1 && |n.results| == |s.results| + 1;
  }

  lemma ConsiderSpends(wf: Workflow, s: Sys, id: TaskId, order: seq<TaskId>)
    requires Laid(wf, order) && HandlerShape(wf, s) && HandlerCan(wf, s, Consider(id))
    ensures HandlerLeft(wf, order, HandlerDoes(wf, s, Consider(id)).handler) < HandlerLeft(wf, order, s.handler)
  {
    DependencyFits(wf, order, id);
    Dropped(s.handler.todo, id);
    var (n, w) := (|s.handler.todo| as nat, PerDependent(wf, order));
    assert Times(n, w) == Times(n - 1, w) + w;
  }

  lemma DependencyFits(wf: Workflow, order: seq<TaskId>, id: TaskId)
    requires id in order
    ensures |DepsOf(wf.dependencies, id)| <= Width(wf.dependencies, order)
  {
    SummandLe(order, x => |DepsOf(wf.dependencies, x)|, id);
  }

  // The handler's own loops shrink with each of their steps.
  lemma HandlerLoops(wf: Workflow, s: Sys, h: HandlerStep, order: seq<TaskId>)
    requires Closed(wf) && HandlerShape(wf, s) && StatusShape(wf, s) && HandlerCan(wf, s, h)
    requires !h.Take? && !h.Consider?
    ensures HandlerLeft(wf, order, HandlerDoes(wf, s, h).handler) < HandlerLeft(wf, order, s.handler)
  {
    if h.Decide? {
      DecideSpends(wf, s, order);
    } else if h.Examine? || h.Gather? {
      ReadingSpends(wf, s, h, order);
    } else {
      PublishingSpends(wf, s, h, order);
    }
  }

  lemma ReadingSpends(wf: Workflow, s: Sys, h: HandlerStep, order: seq<TaskId>)
    requires StatusShape(wf, s) && HandlerCan(wf, s, h) && (h.Examine? || h.Gather?)
    ensures HandlerLeft(wf, order, HandlerDoes(wf, s, h).handler) < HandlerLeft(wf, order, s.handler)
  {
    Dropped(s.handler.todo, h.id);
  }

  lemma PublishingSpends(wf: Workflow, s: Sys, h: HandlerStep, order: seq<TaskId>)
    requires HandlerCan(wf, s, h) && h in {Reply, Probe, Send, Mark, EndScan}
    ensures HandlerLeft(wf, order, HandlerDoes(wf, s, h).handler) < HandlerLeft(wf, order, s.handler)
  {
  }

  lemma Dropped(todo: set<TaskId>, id: TaskId)
    requires id in todo
    ensures |todo - {id}| == |todo| - 1
  {
  }

  lemma DecideSpends(wf: Workflow, s: Sys, order: seq<TaskId>)
    requires Closed(wf) && HandlerCan(wf, s, Decide)
    ensures HandlerLeft(wf, order, HandlerDoes(wf, s, Decide).handler) < HandlerLeft(wf, order, s.handler)
  {
    Dag.Smaller(wf.dependencies.Keys, wf.tasks.Keys);
    TimesGrows(|wf.dependencies.Keys|, |wf.tasks|, PerDependent(wf, order));
  }

  lemma HandlerTraffic(wf: Workflow, s: Sys, h: HandlerStep, c: nat)
    requires HandlerCan(wf, s, h)
    ensures TrafficLeft(HandlerDoes(wf, s, h), c) ==
            TrafficLeft(s, c) + (if h.Send? then c + 4 else 0) - (if h.Take? then c + 1 else 0)
  {
    var n := HandlerDoes(wf, s, h);
    match h
    case Take(_) => assert |n.results| == |s.results| - 1;
    case Send => assert |n.queue| == |s.queue| + 1;
    case _ =>
  }

  // What a step of the handler leaves, put together from its parts.
  lemma PartsAddUp(wf: Workflow, order: seq<TaskId>, s: Sys, n: Sys, sent: bool, taken: bool)
    requires IsTopological(wf.dependencies, order) && n.engine == s.engine
    requires AllPublications(n, order) <= AllChains(wf.dependencies, order)
    requires AllPublications(n, order) == AllPublications(s, order) + (if sent then 1 else 0)
    requires TrafficLeft(n, PerResult(wf, order)) ==
             TrafficLeft(s, PerResult(wf, order)) + (if sent then PerResult(wf, order) + 4 else 0)
                                                  - (if taken then PerResult(wf, order) + 1 else 0)
    requires if taken then s.handler.Idle? && HandlerLeft(wf, order, n.handler) <= PerResult(wf, order)
             else HandlerLeft(wf, order, n.handler) < HandlerLeft(wf, order, s.handler)
    ensures Left(wf, order, n) < Left(wf, order, s)
  {
  }

  lemma TakeSpends(wf: Workflow, s: Sys, m: Msg, order: seq<TaskId>)
    requires HandlerCan(wf, s, Take(m))
    ensures HandlerLeft(wf, order, HandlerDoes(wf, s, Take(m)).handler) <= PerResult(wf, order)
  {
  }

  lemma HandlerLeavesEngine(wf: Workflow, s: Sys, h: HandlerStep)
    requires HandlerCan(wf, s, h)
    ensures HandlerDoes(wf, s, h).engine == s.engine
  {
  }

  lemma HandlerSpendsStep(wf: Workflow, s: Sys, h: HandlerStep, order: seq<TaskId>)
    requires Laid(wf, order) && HandlerShape(wf, s) && StatusShape(wf, s) && HandlerCan(wf, s, h)
    requires AllPublications(HandlerDoes(wf, s, h), order) <= AllChains(wf.dependencies, order)
    ensures Left(wf, order, HandlerDoes(wf, s, h)) < Left(wf, order, s)
  {
    var n := HandlerDoes(wf, s, h);
    HandlerPublications(wf, s, h, order);
    HandlerTraffic(wf, s, h, PerResult(wf, order));
    HandlerLeavesEngine(wf, s, h);
    if h.Consider? {
      ConsiderSpends(wf, s, h.id, order);
    } else if h.Take? {
      TakeSpends(wf, s, h.msg, order);
    } else {
      HandlerLoops(wf, s, h, order);
    }
    PartsAddUp(wf, order, s, n, h.Send?, h.Take?);
  }

  lemma StepSpends(wf: Workflow, s: Sys, l: Label, order: seq<TaskId>)
    requires Laid(wf, order) && Metered(wf, s) && Enabled(wf, s, l) && Calm(l)
    ensures Left(wf, order, Apply(wf, s, l)) < Left(wf, order, s)
  {
    StepKeepsMetered(wf, s, l);
    WithinBudget(wf, Apply(wf, s, l), order);
    match l
    case ByEngine(e) => EngineSpends(wf, s, e, order);
    case ByRunner(r) => RunnerSpends(wf, s, r, order);
    case ByHandler(h) => HandlerSpendsStep(wf, s, h, order);
  }

  lemma {:induction false} RunIsShort(wf: Workflow, s: Sys, ls: seq<Label>, order: seq<TaskId>)
    requires Laid(wf, order) && Metered(wf, s) && Runs(wf, s, ls) && AllCalm(ls)
    ensures |ls| <= Left(wf, order, s)
    decreases |ls|
  {
    if ls != [] {
      assert Calm(ls[0]) && AllCalm(ls[1..]);
      StepKeepsMetered(wf, s, ls[0]);
      StepSpends(wf, s, ls[0], order);
      RunIsShort(wf, Apply(wf, s, ls[0]), ls[1..], order);
    }
  }

  ghost function Bound(wf: Workflow, order: seq<TaskId>): nat
    requires IsTopological(wf.dependencies, order)
  {
    Times(AllChains(wf.dependencies, order), PerResult(wf, order) + 5) + 3 * |wf.tasks| + 2
  }

  // The number of steps of a run is bounded by the number of chains, the number of tasks
  // and the length of the dependency lists.
  lemma {:induction false} RunsAreBounded(wf: Workflow, order: seq<TaskId>, ls: seq<Label>)
    requires Laid(wf, order) && Runs(wf, Fresh(wf), ls) && AllCalm(ls)
    ensures |ls| <= Bound(wf, order)
  {
    FreshIsMetered(wf);
    RunIsShort(wf, Fresh(wf), ls, order);
    FreshLeft(wf, order);
  }

  lemma {:induction false} FreshLeft(wf: Workflow, order: seq<TaskId>)
    requires IsTopological(wf.dependencies, order)
    ensures Left(wf, order, Fresh(wf)) <= Bound(wf, order)
  {
    SumZero(order, id => Publications(Fresh(wf), id));
  }

  lemma {:induction false} SumZero(xs: seq<TaskId>, f: TaskId -> nat)
    requires forall x :: f(x) == 0
    ensures Sum(xs, f) == 0
  {
    if xs != [] {
      SumZero(xs[1..], f);
    }
  }

  lemma {:induction false} CleanThen(wf: Workflow, s: Sys, ls: seq<Label>, l: Label)
    requires Clean(wf, s, ls) && Runs(wf, s, ls)
    requires Enabled(wf, After(wf, s, ls), l) && Lossless(After(wf, s, ls), l)
    ensures Clean(wf, s, ls + [l])
    decreases |ls|
  {
    if ls == [] {
      assert [l][1..] == [];
      assert ls + [l] == [l];
    } else {
      assert (ls + [l])[1..] == ls[1..] + [l];
      CleanThen(wf, Apply(wf, s, ls[0]), ls[1..], l);
    }
  }

  // As long as nothing goes wrong and the engine marks roots in time, a run goes on until
  // the workflow is done.
  lemma {:induction false} RunsComplete(wf: Workflow, order: seq<TaskId>, ls: seq<Label>) returns (all: seq<Label>)
    requires Laid(wf, order) && Clean(wf, Fresh(wf), ls) && Runs(wf, Fresh(wf), ls)
    requires !Doomed(After(wf, Fresh(wf), ls))
    ensures ls <= all && Runs(wf, Fresh(wf), all) && AllCalm(all)
    ensures Quiet(After(wf, Fresh(wf), all)) && Done(wf, After(wf, Fresh(wf), all))
    decreases Bound(wf, order) - |ls|
  {
    CleanRuns(wf, Fresh(wf), ls);
    RunsAreBounded(wf, order, ls);
    if Quiet(After(wf, Fresh(wf), ls)) {
      all := ls;
      QuietMeansDone(wf, ls);
    } else {
      var l := NotQuietCanMove(wf, ls);
      CleanThen(wf, Fresh(wf), ls, l);
      CleanRuns(wf, Fresh(wf), ls + [l]);
      RunStep(wf, Fresh(wf), ls, l);
      RunsAreBounded(wf, order, ls + [l]);
      all := RunsComplete(wf, order, ls + [l]);
    }
  }

  // The run can be continued to a quiet end at which the workflow is done.
  ghost predicate CanBeDone(wf: Workflow, ls: seq<Label>) {
    exists all :: Completes(wf, ls, all)
  }

  ghost predicate Completes(wf: Workflow, ls: seq<Label>, all: seq<Label>) {
    && ls <= all && Runs(wf, Fresh(wf), all) && AllCalm(all)
    && Quiet(After(wf, Fresh(wf), all)) && Done(wf, After(wf, Fresh(wf), all))
  }

  // However a run in which nothing went wrong has gone so far, it can still get done if and
  // only if every mark was on time and the engine is not about to be late.
  lemma CanBeDoneIff(wf: Workflow, order: seq<TaskId>, ls: seq<Label>)
    requires Laid(wf, order) && Runs(wf, Fresh(wf), ls) && AllCalm(ls)
    ensures CanBeDone(wf, ls) <==> Punctual(wf, Fresh(wf), ls) && !Doomed(After(wf, Fresh(wf), ls))
  {
    if Punctual(wf, Fresh(wf), ls) && !Doomed(After(wf, Fresh(wf), ls)) {
      OnTimeCanBeDone(wf, order, ls);
    }
    if CanBeDone(wf, ls) {
      var all :| Completes(wf, ls, all);
      assert all == ls + all[|ls|..];
      CompletedWasOnTime(wf, ls, all[|ls|..]);
    }
  }

  lemma OnTimeCanBeDone(wf: Workflow, order: seq<TaskId>, ls: seq<Label>)
    requires Laid(wf, order) && Runs(wf, Fresh(wf), ls) && AllCalm(ls)
    requires Punctual(wf, Fresh(wf), ls) && !Doomed(After(wf, Fresh(wf), ls))
    ensures CanBeDone(wf, ls)
  {
    PunctualIsClean(wf, Fresh(wf), ls);
    var all := RunsComplete(wf, order, ls);
    assert Completes(wf, ls, all);
  }

  lemma CompletedWasOnTime(wf: Workflow, ls: seq<Label>, rest: seq<Label>)
    requires Accepted(wf) && Runs(wf, Fresh(wf), ls) && AllCalm(ls) && Completes(wf, ls, ls + rest)
    ensures Punctual(wf, Fresh(wf), ls) && !Doomed(After(wf, Fresh(wf), ls))
  {
    QuietIsDoneIff(wf, ls + rest);
    PunctualPrefix(wf, Fresh(wf), ls, rest);
    assert AllCalm(rest);
    FreshIsMetered(wf);
    RunKeepsMetered(wf, Fresh(wf), ls);
    if Doomed(After(wf, Fresh(wf), ls)) {
      DoomedIsLate(wf, After(wf, Fresh(wf), ls), rest);
    }
  }

  lemma {:induction false} PunctualPrefix(wf: Workflow, s: Sys, ls: seq<Label>, rest: seq<Label>)
    requires Runs(wf, s, ls) && Runs(wf, s, ls + rest) && Punctual(wf, s, ls + rest)
    ensures Punctual(wf, s, ls)
    ensures Runs(wf, After(wf, s, ls), rest) && Punctual(wf, After(wf, s, ls), rest)
    ensures After(wf, s, ls + rest) == After(wf, After(wf, s, ls), rest)
    decreases |ls|
  {
    if ls == [] {
      assert ls + rest == rest;
    } else {
      assert (ls + rest)[0] == ls[0] && (ls + rest)[1..] == ls[1..] + rest;
      PunctualPrefix(wf, Apply(wf, s, ls[0]), ls[1..], rest);
    }
  }

  // The work of a root that is waiting to be marked does not come back.
  lemma {:induction false} DoomedIsLate(wf: Workflow, s: Sys, ls: seq<Label>)
    requires Closed(wf) && Shape(wf, s) && Doomed(s) && Runs(wf, s, ls) && AllCalm(ls)
    ensures !(Punctual(wf, s, ls) && After(wf, s, ls).engine.EngineIdle?)
    decreases |ls|
  {
    if ls != [] {
      assert Calm(ls[0]) && AllCalm(ls[1..]);
      if OnTime(s, ls[0]) {
        DoomedStays(wf, s, ls[0]);
        StepKeepsShape(wf, s, ls[0]);
        DoomedIsLate(wf, Apply(wf, s, ls[0]), ls[1..]);
      }
    }
  }

  lemma DoomedStays(wf: Workflow, s: Sys, l: Label)
    requires EngineShape(wf, s) && HandlerShape(wf, s) && Doomed(s) && Enabled(wf, s, l) && Calm(l) && OnTime(s, l)
    ensures Doomed(Apply(wf, s, l))
  {
    match l
    case ByEngine(e) =>
    case ByRunner(r) => RunnerWork(s, r, s.engine.id);
    case ByHandler(h) =>
      HandlerKeepsEngine(wf, s, h);
      HandlerWork(wf, s, h, s.engine.id);
  }
}
