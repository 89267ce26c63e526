// No lost wake-up. Nothing fails or gets lost, but results may be handled at any time, also
// while the workflow is still being submitted. When such a run goes quiet, so that no message
// and no execution is left, the workflow is done if and only if the engine never marked a
// root as queued after all its work was over.

module Progress {
  import opened Workflows
  import opened Protocol
  import Dag

  // A step in which nothing goes wrong: no fault, no second submission, only completed
  // outcomes.
  predicate Calm(l: Label) {
    match l
    case ByEngine(e) => !e.Submit?
    case ByRunner(r) => r.Finish? ==> r.outcome == Completed
    case ByHandler(_) => true
    case ByFault(_) => false
  }

  predicate AllCalm(ls: seq<Label>) {
    forall l | l in ls :: Calm(l)
  }

  // Messages and executions that will still lead to a result of the task being handled.
  ghost function Work(s: Sys, id: TaskId): nat {
    s.queue[id] + s.running[id] + s.stored[Msg(id, Completed)] + s.results[Msg(id, Completed)]
  }

  // If the step marks a root as queued, a result of that root is still to be handled.
  ghost predicate OnTime(s: Sys, l: Label) {
    l == ByEngine(MarkRoot) ==> s.engine.RootSent? && Work(s, s.engine.id) > 0
  }

  ghost predicate Lossless(s: Sys, l: Label) {
    Calm(l) && OnTime(s, l)
  }

  ghost predicate Clean(wf: Workflow, s: Sys, ls: seq<Label>)
    decreases |ls|
  {
    ls != [] ==> Enabled(wf, s, ls[0]) && Lossless(s, ls[0]) && Clean(wf, Apply(wf, s, ls[0]), ls[1..])
  }

  // Every mark of the run is on time.
  ghost predicate Punctual(wf: Workflow, s: Sys, ls: seq<Label>)
    requires Runs(wf, s, ls)
    decreases |ls|
  {
    ls != [] ==> OnTime(s, ls[0]) && Punctual(wf, Apply(wf, s, ls[0]), ls[1..])
  }

  lemma {:induction false} PunctualIsClean(wf: Workflow, s: Sys, ls: seq<Label>)
    requires Runs(wf, s, ls) && AllCalm(ls)
    ensures Punctual(wf, s, ls) <==> Clean(wf, s, ls)
    decreases |ls|
  {
    if ls != [] {
      assert Calm(ls[0]) && AllCalm(ls[1..]);
      PunctualIsClean(wf, Apply(wf, s, ls[0]), ls[1..]);
    }
  }

  lemma {:induction false} CleanRuns(wf: Workflow, s: Sys, ls: seq<Label>)
    requires Clean(wf, s, ls)
    ensures Runs(wf, s, ls) && AllCalm(ls)
    decreases |ls|
  {
    if ls != [] {
      CleanRuns(wf, Apply(wf, s, ls[0]), ls[1..]);
    }
  }

  ghost predicate Quiet(s: Sys) {
    && s.queue == multiset{} && s.running == multiset{} && s.stored == multiset{} && s.results == multiset{}
    && s.engine.EngineIdle? && s.handler.Idle?
  }

  // ---------------------------------------------------------------------------
  // Shape of the reachable states

  ghost predicate TrafficShape(wf: Workflow, s: Sys) {
    && (forall id | id in s.queue || id in s.running :: id in wf.tasks)
    && (forall m | m in s.stored || m in s.results :: m.task in wf.tasks && m.status == Completed)
  }

  ghost predicate HandlerShape(wf: Workflow, s: Sys) {
    var h := s.handler;
    !h.Idle? ==>
      && h.msg.task in wf.tasks && h.msg.status == Completed && h.todo <= wf.tasks.Keys
      && (h.Probing? ==> h.id in wf.tasks && h.id !in h.todo && h.k <= |DepsOf(wf.dependencies, h.id)|
                         && DependsOn(wf.dependencies, h.id, h.msg.task))
      && (h.Sent? ==> h.id in wf.tasks && h.id !in h.todo && DependsOn(wf.dependencies, h.id, h.msg.task))
  }

  ghost predicate EngineShape(wf: Workflow, s: Sys) {
    match s.engine
    case EngineIdle => true
    case Initialising(todo) =>
      && todo <= wf.tasks.Keys && s == Nothing.(status := s.status, engine := s.engine)
      && (forall id | id in s.status :: s.status[id] == Pending)
    case Submitting(todo) => todo <= Roots(wf)
    case RootSent(todo, id) => todo <= Roots(wf) && id in Roots(wf) && id !in todo
  }

  ghost predicate StatusShape(wf: Workflow, s: Sys) {
    && s.status.Keys <= wf.tasks.Keys
    && (forall id | id in wf.tasks && !(s.engine.Initialising? && id in s.engine.todo) :: id in s.status)
    && (forall id | id in s.status :: s.status[id] in {Pending, Queued, Running, Completed})
  }

  ghost predicate Shape(wf: Workflow, s: Sys) {
    TrafficShape(wf, s) && HandlerShape(wf, s) && EngineShape(wf, s) && StatusShape(wf, s)
  }

  lemma EngineKeepsShape(wf: Workflow, s: Sys, e: EngineStep)
    requires Shape(wf, s) && EngineCan(wf, s, e) && !e.Submit?
    ensures Shape(wf, EngineDoes(wf, s, e))
  {
    EngineKeepsOwnShape(wf, s, e);
  }

  lemma EngineKeepsOwnShape(wf: Workflow, s: Sys, e: EngineStep)
    requires EngineShape(wf, s) && StatusShape(wf, s) && EngineCan(wf, s, e) && !e.Submit?
    ensures EngineShape(wf, EngineDoes(wf, s, e)) && StatusShape(wf, EngineDoes(wf, s, e))
  {
  }

  lemma RunnerKeepsTraffic(wf: Workflow, s: Sys, r: RunnerStep)
    requires TrafficShape(wf, s) && RunnerCan(s, r) && (r.Finish? ==> r.outcome == Completed)
    ensures TrafficShape(wf, RunnerDoes(s, r))
  {
  }

  lemma RunnerKeepsShape(wf: Workflow, s: Sys, r: RunnerStep)
    requires Shape(wf, s) && RunnerCan(s, r) && (r.Finish? ==> r.outcome == Completed)
    ensures Shape(wf, RunnerDoes(s, r))
  {
    RunnerKeepsTraffic(wf, s, r);
  }

  lemma HandlerKeepsTraffic(wf: Workflow, s: Sys, h: HandlerStep)
    requires TrafficShape(wf, s) && HandlerShape(wf, s) && HandlerCan(wf, s, h)
    ensures TrafficShape(wf, HandlerDoes(wf, s, h))
  {
  }

  lemma HandlerKeepsItsShape(wf: Workflow, s: Sys, h: HandlerStep)
    requires Closed(wf) && TrafficShape(wf, s) && HandlerShape(wf, s) && HandlerCan(wf, s, h)
    ensures HandlerShape(wf, HandlerDoes(wf, s, h))
  {
  }

  lemma HandlerKeepsEngine(wf: Workflow, s: Sys, h: HandlerStep)
    requires EngineShape(wf, s) && HandlerCan(wf, s, h)
    ensures !s.engine.Initialising? && HandlerDoes(wf, s, h).engine == s.engine
  {
  }

  lemma HandlerKeepsStatus(wf: Workflow, s: Sys, h: HandlerStep)
    requires TrafficShape(wf, s) && HandlerShape(wf, s) && StatusShape(wf, s) && !s.engine.Initialising?
    requires HandlerCan(wf, s, h)
    ensures StatusShape(wf, HandlerDoes(wf, s, h))
  {
  }

  lemma StepKeepsShape(wf: Workflow, s: Sys, l: Label)
    requires Closed(wf) && Shape(wf, s) && Enabled(wf, s, l) && Calm(l)
    ensures Shape(wf, Apply(wf, s, l))
  {
    match l
    case ByEngine(e) => EngineKeepsShape(wf, s, e);
    case ByRunner(r) => RunnerKeepsShape(wf, s, r);
    case ByHandler(h) =>
      HandlerKeepsTraffic(wf, s, h);
      HandlerKeepsItsShape(wf, s, h);
      HandlerKeepsEngine(wf, s, h);
      HandlerKeepsStatus(wf, s, h);
  }

  // ---------------------------------------------------------------------------
  // What keeps a workflow moving

  lemma EngineWork(wf: Workflow, s: Sys, e: EngineStep, id: TaskId)
    requires EngineCan(wf, s, e)
    ensures Work(EngineDoes(wf, s, e), id) == Work(s, id) + (if e == SendRoot(id) then 1 else 0)
  {
  }

  lemma RunnerWork(s: Sys, r: RunnerStep, id: TaskId)
    requires RunnerCan(s, r) && (r.Finish? ==> r.outcome == Completed)
    ensures Work(RunnerDoes(s, r), id) == Work(s, id)
  {
  }

  // Only taking a result message uses work up.
  lemma HandlerWork(wf: Workflow, s: Sys, h: HandlerStep, id: TaskId)
    requires HandlerCan(wf, s, h)
    ensures Work(HandlerDoes(wf, s, h), id) ==
            Work(s, id) + (if h == Send && s.handler.id == id then 1 else 0)
                        - (if h == Take(Msg(id, Completed)) then 1 else 0)
  {
  }

  ghost predicate BusyIfMarked(s: Sys, id: TaskId) {
    StatusOf(s, id) in {Queued, Running} ==> Work(s, id) > 0
  }

  // A task marked as queued or running, or about to be marked so by the handler, has work
  // outstanding.
  ghost predicate MarkedIsBusy(wf: Workflow, s: Sys) {
    && (forall id | id in wf.tasks :: BusyIfMarked(s, id))
    && (s.handler.Sent? ==> Work(s, s.handler.id) > 0)
  }

  lemma EngineKeepsBusy(wf: Workflow, s: Sys, e: EngineStep)
    requires EngineShape(wf, s) && MarkedIsBusy(wf, s) && EngineCan(wf, s, e) && !e.Submit?
    requires OnTime(s, ByEngine(e))
    ensures MarkedIsBusy(wf, EngineDoes(wf, s, e))
  {
    var next := EngineDoes(wf, s, e);
    forall id | id in wf.tasks ensures BusyIfMarked(next, id) {
      assert BusyIfMarked(s, id);
      EngineWork(wf, s, e, id);
    }
    if next.handler.Sent? {
      EngineWork(wf, s, e, next.handler.id);
    }
  }

  lemma RunnerKeepsBusy(wf: Workflow, s: Sys, r: RunnerStep)
    requires MarkedIsBusy(wf, s) && RunnerCan(s, r) && (r.Finish? ==> r.outcome == Completed)
    ensures MarkedIsBusy(wf, RunnerDoes(s, r))
  {
    var next := RunnerDoes(s, r);
    forall id | id in wf.tasks ensures BusyIfMarked(next, id) {
      assert BusyIfMarked(s, id);
      RunnerWork(s, r, id);
      assert r == Start(id) ==> next.running[id] > 0;
    }
    if next.handler.Sent? {
      RunnerWork(s, r, next.handler.id);
    }
  }

  lemma HandlerKeepsBusyAt(wf: Workflow, s: Sys, h: HandlerStep, id: TaskId)
    requires HandlerCan(wf, s, h) && BusyIfMarked(s, id)
    requires s.handler.Sent? ==> Work(s, s.handler.id) > 0
    requires forall m | m in s.results :: m.status == Completed
    ensures BusyIfMarked(HandlerDoes(wf, s, h), id)
  {
    HandlerWork(wf, s, h, id);
  }

  lemma HandlerKeepsBusy(wf: Workflow, s: Sys, h: HandlerStep)
    requires TrafficShape(wf, s) && HandlerShape(wf, s) && MarkedIsBusy(wf, s) && HandlerCan(wf, s, h)
    ensures MarkedIsBusy(wf, HandlerDoes(wf, s, h))
  {
    var next := HandlerDoes(wf, s, h);
    forall id | id in wf.tasks ensures BusyIfMarked(next, id) {
      HandlerKeepsBusyAt(wf, s, h, id);
    }
    if next.handler.Sent? {
      HandlerWork(wf, s, h, next.handler.id);
    }
  }

  lemma MarkedStaysBusy(wf: Workflow, s: Sys, l: Label)
    requires Shape(wf, s) && MarkedIsBusy(wf, s) && Enabled(wf, s, l) && Lossless(s, l)
    ensures MarkedIsBusy(wf, Apply(wf, s, l))
  {
    match l
    case ByEngine(e) => EngineKeepsBusy(wf, s, e);
    case ByRunner(r) => RunnerKeepsBusy(wf, s, r);
    case ByHandler(h) => HandlerKeepsBusy(wf, s, h);
  }

  // The handler still has to look at this dependent of the task whose result it holds.
  ghost predicate WillVisit(h: Handler, id: TaskId) {
    match h
    case Checking(_, _, _) => true
    case Scanning(_, todo) => id in todo
    case Probing(_, todo, current, _) => id in todo || id == current
    case Sent(_, todo, current) => id in todo
    case _ => false
  }

  // A reason why a pending task will be looked at again.
  ghost predicate Wakes(s: Sys, d: TaskId, id: TaskId) {
    || StatusOf(s, d) != Completed
    || Work(s, d) > 0
    || (!s.handler.Idle? && s.handler.msg.task == d && WillVisit(s.handler, id))
  }

  ghost predicate Awaited(wf: Workflow, s: Sys, id: TaskId) {
    || s.engine.Initialising?
    || (s.engine.Submitting? && id in s.engine.todo)
    || (s.engine.RootSent? && (id in s.engine.todo || id == s.engine.id))
    || (s.handler.Sent? && s.handler.id == id)
    || (exists d :: DependsOn(wf.dependencies, id, d) && Wakes(s, d, id))
  }

  ghost predicate PendingIsAwaited(wf: Workflow, s: Sys) {
    forall id | id in wf.tasks && StatusOf(s, id) == Pending :: Awaited(wf, s, id)
  }

  // While the handler checks for completion, the tasks it passed over are not pending;
  // once it concludes completion none is.
  ghost predicate PassedNoPending(wf: Workflow, s: Sys) {
    && (s.handler.Checking? && !s.handler.running ==>
          forall id | id in wf.tasks && id !in s.handler.todo :: StatusOf(s, id) != Pending)
    && (s.handler.Aggregating? ==> forall id | id in wf.tasks :: StatusOf(s, id) != Pending)
  }

  lemma EngineKeepsPassed(wf: Workflow, s: Sys, e: EngineStep)
    requires EngineShape(wf, s) && PassedNoPending(wf, s) && EngineCan(wf, s, e) && !e.Submit?
    ensures PassedNoPending(wf, EngineDoes(wf, s, e))
  {
  }

  lemma RunnerKeepsPassed(wf: Workflow, s: Sys, r: RunnerStep)
    requires PassedNoPending(wf, s) && RunnerCan(s, r) && (r.Finish? ==> r.outcome == Completed)
    ensures PassedNoPending(wf, RunnerDoes(s, r))
  {
  }

  lemma HandlerKeepsPassed(wf: Workflow, s: Sys, h: HandlerStep)
    requires HandlerShape(wf, s) && TrafficShape(wf, s) && StatusShape(wf, s)
    requires PassedNoPending(wf, s) && HandlerCan(wf, s, h)
    ensures PassedNoPending(wf, HandlerDoes(wf, s, h))
  {
  }

  lemma PassedStaysNoPending(wf: Workflow, s: Sys, l: Label)
    requires Shape(wf, s) && PassedNoPending(wf, s) && Enabled(wf, s, l) && Lossless(s, l)
    ensures PassedNoPending(wf, Apply(wf, s, l))
  {
    match l
    case ByEngine(e) => EngineKeepsPassed(wf, s, e);
    case ByRunner(r) => RunnerKeepsPassed(wf, s, r);
    case ByHandler(h) => HandlerKeepsPassed(wf, s, h);
  }

  // A reason to look again survives every step that leaves the dependent pending.

  lemma EngineKeepsReason(wf: Workflow, s: Sys, e: EngineStep, d: TaskId, id: TaskId)
    requires EngineShape(wf, s) && EngineCan(wf, s, e) && !e.Submit? && !s.engine.Initialising?
    requires Wakes(s, d, id)
    ensures Wakes(EngineDoes(wf, s, e), d, id)
  {
    EngineWork(wf, s, e, d);
  }

  lemma RunnerKeepsReason(wf: Workflow, s: Sys, r: RunnerStep, d: TaskId, id: TaskId)
    requires Wakes(s, d, id) && RunnerCan(s, r) && (r.Finish? ==> r.outcome == Completed)
    ensures Wakes(RunnerDoes(s, r), d, id)
  {
    RunnerWork(s, r, d);
  }

  // A dependency that is not completed, or has work left, stays so unless its result is taken.
  lemma HandlerKeepsUnfinished(wf: Workflow, s: Sys, h: HandlerStep, d: TaskId)
    requires TrafficShape(wf, s) && HandlerShape(wf, s) && MarkedIsBusy(wf, s) && HandlerCan(wf, s, h)
    requires StatusOf(s, d) != Completed || Work(s, d) > 0
    ensures || StatusOf(HandlerDoes(wf, s, h), d) != Completed || Work(HandlerDoes(wf, s, h), d) > 0
            || h == Take(Msg(d, Completed))
  {
    HandlerWork(wf, s, h, d);
  }

  // The handler leaves a dependent it was going to visit only after publishing it or
  // after reading a dependency that is not completed.
  lemma HandlerVisits(wf: Workflow, s: Sys, h: HandlerStep, id: TaskId)
    requires Closed(wf) && HandlerShape(wf, s) && StatusShape(wf, s) && PassedNoPending(wf, s) && HandlerCan(wf, s, h)
    requires id in wf.tasks && StatusOf(s, id) == Pending && StatusOf(HandlerDoes(wf, s, h), id) == Pending
    requires !s.handler.Idle? && WillVisit(s.handler, id) && DependsOn(wf.dependencies, id, s.handler.msg.task)
    ensures
      var next := HandlerDoes(wf, s, h);
      || (!next.handler.Idle? && next.handler.msg == s.handler.msg && WillVisit(next.handler, id))
      || (next.handler.Sent? && next.handler.id == id)
      || (h == Probe && s.handler.id == id && StatusOf(next, DepsOf(wf.dependencies, id)[s.handler.k]) != Completed)
  {
  }

  lemma HandlerKeepsReason(wf: Workflow, s: Sys, h: HandlerStep, d: TaskId, id: TaskId)
    requires Closed(wf) && TrafficShape(wf, s) && HandlerShape(wf, s) && StatusShape(wf, s)
    requires MarkedIsBusy(wf, s) && PassedNoPending(wf, s) && HandlerCan(wf, s, h)
    requires id in wf.tasks && DependsOn(wf.dependencies, id, d)
    requires StatusOf(s, id) == Pending && StatusOf(HandlerDoes(wf, s, h), id) == Pending && Wakes(s, d, id)
    ensures Awaited(wf, HandlerDoes(wf, s, h), id)
  {
    var next := HandlerDoes(wf, s, h);
    if StatusOf(s, d) != Completed || Work(s, d) > 0 {
      HandlerKeepsUnfinished(wf, s, h, d);
      assert Wakes(next, d, id);
    } else {
      HandlerVisits(wf, s, h, id);
      if h == Probe && s.handler.id == id {
        var read := DepsOf(wf.dependencies, id)[s.handler.k];
        assert DependsOn(wf.dependencies, id, read);
        assert Wakes(next, d, id) || Wakes(next, read, id);
      } else {
        assert Wakes(next, d, id) || (next.handler.Sent? && next.handler.id == id);
      }
    }
  }

  lemma EngineKeepsAwaited(wf: Workflow, s: Sys, e: EngineStep)
    requires Shape(wf, s) && PendingIsAwaited(wf, s) && EngineCan(wf, s, e) && !e.Submit?
    ensures PendingIsAwaited(wf, EngineDoes(wf, s, e))
  {
    var next := EngineDoes(wf, s, e);
    forall id | id in wf.tasks && StatusOf(next, id) == Pending ensures Awaited(wf, next, id) {
      if !s.engine.Initialising? {
        assert StatusOf(s, id) == Pending && Awaited(wf, s, id);
        if d :| DependsOn(wf.dependencies, id, d) && Wakes(s, d, id) {
          EngineKeepsReason(wf, s, e, d, id);
        }
      } else if e == StartSubmitting && id !in Roots(wf) {
        var d := DepsOf(wf.dependencies, id)[0];
        assert DependsOn(wf.dependencies, id, d) && Wakes(next, d, id);
      }
    }
  }

  lemma RunnerKeepsAwaited(wf: Workflow, s: Sys, r: RunnerStep)
    requires EngineShape(wf, s) && PendingIsAwaited(wf, s)
    requires RunnerCan(s, r) && (r.Finish? ==> r.outcome == Completed)
    ensures PendingIsAwaited(wf, RunnerDoes(s, r))
  {
    var next := RunnerDoes(s, r);
    forall id | id in wf.tasks && StatusOf(next, id) == Pending ensures Awaited(wf, next, id) {
      assert StatusOf(s, id) == Pending && Awaited(wf, s, id);
      if d :| DependsOn(wf.dependencies, id, d) && Wakes(s, d, id) {
        RunnerKeepsReason(wf, s, r, d, id);
      }
    }
  }

  lemma HandlerKeepsAwaited(wf: Workflow, s: Sys, h: HandlerStep)
    requires Closed(wf) && Shape(wf, s) && MarkedIsBusy(wf, s) && PassedNoPending(wf, s) && PendingIsAwaited(wf, s)
    requires HandlerCan(wf, s, h)
    ensures PendingIsAwaited(wf, HandlerDoes(wf, s, h))
  {
    var next := HandlerDoes(wf, s, h);
    forall id | id in wf.tasks && StatusOf(next, id) == Pending ensures Awaited(wf, next, id) {
      HandlerNeverWritesPending(wf, s, h, id);
      assert Awaited(wf, s, id);
      if d :| DependsOn(wf.dependencies, id, d) && Wakes(s, d, id) {
        HandlerKeepsReason(wf, s, h, d, id);
      }
    }
  }

  // The handler writes no Pending, and the task it has just published does not stay pending.
  lemma HandlerNeverWritesPending(wf: Workflow, s: Sys, h: HandlerStep, id: TaskId)
    requires (h.Take? ==> h.msg.status == Completed) && HandlerCan(wf, s, h)
    requires StatusOf(HandlerDoes(wf, s, h), id) == Pending
    ensures StatusOf(s, id) == Pending && !(s.handler.Sent? && s.handler.id == id)
  {
  }

  lemma PendingStaysAwaited(wf: Workflow, s: Sys, l: Label)
    requires Closed(wf) && Shape(wf, s) && MarkedIsBusy(wf, s) && PassedNoPending(wf, s)
    requires PendingIsAwaited(wf, s) && Enabled(wf, s, l) && Lossless(s, l)
    ensures PendingIsAwaited(wf, Apply(wf, s, l))
  {
    match l
    case ByEngine(e) => EngineKeepsAwaited(wf, s, e);
    case ByRunner(r) => RunnerKeepsAwaited(wf, s, r);
    case ByHandler(h) => HandlerKeepsAwaited(wf, s, h);
  }

  // ---------------------------------------------------------------------------
  // Quiet means done

  ghost predicate NoWork(s: Sys) {
    s.queue == multiset{} && s.running == multiset{} && s.stored == multiset{} && s.results == multiset{}
  }

  ghost predicate SomePending(wf: Workflow, s: Sys) {
    exists id :: id in wf.tasks && StatusOf(s, id) == Pending
  }

  // When all work has drained, and the engine is not about to mark a root, the handler is on
  // its way to the right conclusion.
  ghost predicate DrainsRight(wf: Workflow, s: Sys) {
    NoWork(s) && !s.engine.Initialising? && !s.engine.RootSent? ==>
      match s.handler
      case Idle => SomePending(wf, s) || (s.replies != [] && s.replies[|s.replies| - 1] == Completed)
      case Checking(_, _, running) => running ==> SomePending(wf, s)
      case Aggregating(_, _, failed) => !failed
      case _ => SomePending(wf, s)
  }

  ghost predicate Sound(wf: Workflow, s: Sys) {
    Shape(wf, s) && MarkedIsBusy(wf, s) && PassedNoPending(wf, s) && PendingIsAwaited(wf, s) && DrainsRight(wf, s)
  }

  lemma NoWorkMeansIdle(s: Sys, id: TaskId)
    requires NoWork(s)
    ensures Work(s, id) == 0
  {
  }

  // Without work every task is pending or completed.
  lemma DrainedStatus(wf: Workflow, s: Sys, id: TaskId)
    requires StatusShape(wf, s) && !s.engine.Initialising? && MarkedIsBusy(wf, s) && NoWork(s) && id in wf.tasks
    ensures StatusOf(s, id) in {Pending, Completed}
  {
    NoWorkMeansIdle(s, id);
    assert BusyIfMarked(s, id);
  }

  // Following unfinished dependencies leads from any pending task to one for which
  // the handler must still act; if it will not act, nothing is pending.
  lemma {:induction false} NothingPending(wf: Workflow, s: Sys, order: seq<TaskId>, k: nat)
    requires Closed(wf) && IsTopological(wf.dependencies, order) && Enumerates(order, wf.tasks.Keys)
    requires Shape(wf, s) && MarkedIsBusy(wf, s) && PendingIsAwaited(wf, s) && NoWork(s) && s.engine.EngineIdle?
    requires s.handler.Idle?
    requires k < |order|
    ensures StatusOf(s, order[k]) == Completed
  {
    var id := order[k];
    assert id in order;
    DrainedStatus(wf, s, id);
    if StatusOf(s, id) == Pending {
      assert Awaited(wf, s, id);
      var d :| DependsOn(wf.dependencies, id, d) && Wakes(s, d, id);
      NoWorkMeansIdle(s, d);
      assert Settled(wf.dependencies, order, k);
      var j :| 0 <= j < k && order[j] == d;
      NothingPending(wf, s, order, j);
      assert false;
    }
  }

  lemma DrainedAllCompleted(wf: Workflow, s: Sys)
    requires Accepted(wf) && Shape(wf, s) && MarkedIsBusy(wf, s) && PendingIsAwaited(wf, s)
    requires NoWork(s) && s.engine.EngineIdle?
    requires s.handler.Idle?
    ensures forall id | id in wf.tasks :: StatusOf(s, id) == Completed
  {
    var order := Dag.TopologicalOrderExists(wf);
    forall id | id in wf.tasks ensures StatusOf(s, id) == Completed {
      assert id in order;
      NothingPending(wf, s, order, Dag.IndexOf(order, id));
    }
  }

  lemma EngineDrainsRight(wf: Workflow, s: Sys, e: EngineStep)
    requires Accepted(wf) && Shape(wf, s) && DrainsRight(wf, s)
    requires EngineCan(wf, s, e) && !e.Submit? && OnTime(s, ByEngine(e))
    ensures DrainsRight(wf, EngineDoes(wf, s, e))
  {
    var next := EngineDoes(wf, s, e);
    match e
    case StartSubmitting =>
      var id :| id in wf.tasks;
      assert StatusOf(next, id) == Pending;
    case SendRoot(id) => assert id in next.queue;
    case MarkRoot =>
      if NoWork(s) {
        NoWorkMeansIdle(s, s.engine.id);
      }
    case _ =>
  }

  lemma RunnerKeepsWorking(s: Sys, r: RunnerStep)
    requires RunnerCan(s, r)
    ensures !NoWork(RunnerDoes(s, r))
  {
    var next := RunnerDoes(s, r);
    match r
    case Start(id) => assert id in next.running;
    case Finish(id, o) => assert Msg(id, o) in next.stored;
    case Post(m) => assert m in next.results;
  }

  lemma HandlerDrainsRight(wf: Workflow, s: Sys, h: HandlerStep)
    requires Accepted(wf) && Shape(wf, s) && MarkedIsBusy(wf, s) && PassedNoPending(wf, s) && PendingIsAwaited(wf, s)
    requires DrainsRight(wf, s) && HandlerCan(wf, s, h)
    ensures DrainsRight(wf, HandlerDoes(wf, s, h))
  {
    var next := HandlerDoes(wf, s, h);
    if NoWork(next) && !h.Take? {
      HandlerLeavesNoWork(wf, s, h);
      match h
      case Examine(id) => DrainedStatus(wf, s, id);
      case Gather(id) => DrainedStatus(wf, s, id);
      case _ =>
    }
  }

  lemma HandlerLeavesNoWork(wf: Workflow, s: Sys, h: HandlerStep)
    requires HandlerCan(wf, s, h) && NoWork(HandlerDoes(wf, s, h)) && !h.Take?
    requires MarkedIsBusy(wf, s)
    ensures NoWork(s) && h != Send && h != Mark
  {
    if h == Send {
      SendingIsWork(wf, s);
    } else if h == Mark {
      NoWorkMeansIdle(s, s.handler.id);
    }
  }

  lemma SendingIsWork(wf: Workflow, s: Sys)
    requires HandlerCan(wf, s, Send)
    ensures !NoWork(HandlerDoes(wf, s, Send))
  {
    assert s.handler.id in HandlerDoes(wf, s, Send).queue;
  }

  lemma StepKeepsSound(wf: Workflow, s: Sys, l: Label)
    requires Accepted(wf) && Sound(wf, s) && Enabled(wf, s, l) && Lossless(s, l)
    ensures Sound(wf, Apply(wf, s, l))
  {
    StepKeepsShape(wf, s, l);
    MarkedStaysBusy(wf, s, l);
    PassedStaysNoPending(wf, s, l);
    PendingStaysAwaited(wf, s, l);
    match l
    case ByEngine(e) => EngineDrainsRight(wf, s, e);
    case ByRunner(r) => RunnerKeepsWorking(s, r);
    case ByHandler(h) => HandlerDrainsRight(wf, s, h);
  }

  lemma {:induction false} RunKeepsSound(wf: Workflow, s: Sys, ls: seq<Label>)
    requires Accepted(wf) && Sound(wf, s) && Clean(wf, s, ls) && Runs(wf, s, ls)
    ensures Sound(wf, After(wf, s, ls))
    decreases |ls|
  {
    if ls != [] {
      StepKeepsSound(wf, s, ls[0]);
      RunKeepsSound(wf, Apply(wf, s, ls[0]), ls[1..]);
    }
  }

  lemma FreshIsSound(wf: Workflow)
    requires Accepted(wf)
    ensures Sound(wf, Fresh(wf))
  {
  }

  // All tasks are completed and the last reply says so.
  ghost predicate Done(wf: Workflow, s: Sys) {
    && (forall id | id in wf.tasks :: StatusOf(s, id) == Completed)
    && s.replies != [] && s.replies[|s.replies| - 1] == Completed
  }

  // Once an accepted workflow has gone quiet after a run whose marks were on time, it is done.
  lemma QuietMeansDone(wf: Workflow, ls: seq<Label>)
    requires Accepted(wf) && Clean(wf, Fresh(wf), ls) && Runs(wf, Fresh(wf), ls)
    requires Quiet(After(wf, Fresh(wf), ls))
    ensures Done(wf, After(wf, Fresh(wf), ls))
  {
    FreshIsSound(wf);
    RunKeepsSound(wf, Fresh(wf), ls);
    DrainedAllCompleted(wf, After(wf, Fresh(wf), ls));
  }

  // ---------------------------------------------------------------------------
  // A late mark is the last word on a root

  // A root that is marked as queued with nothing left that could change it.
  ghost predicate Stranded(wf: Workflow, s: Sys, id: TaskId) {
    && id in Roots(wf) && StatusOf(s, id) == Queued && Work(s, id) == 0
    && match s.engine
       case EngineIdle => true
       case Initialising(_) => false
       case Submitting(todo) => id !in todo
       case RootSent(todo, sent) => id !in todo && id != sent
  }

  lemma LateMarkStrands(wf: Workflow, s: Sys)
    requires EngineShape(wf, s) && EngineCan(wf, s, MarkRoot) && !OnTime(s, ByEngine(MarkRoot))
    ensures Stranded(wf, EngineDoes(wf, s, MarkRoot), s.engine.id)
  {
    EngineWork(wf, s, MarkRoot, s.engine.id);
  }

  lemma StrandedStays(wf: Workflow, s: Sys, l: Label, id: TaskId)
    requires TrafficShape(wf, s) && HandlerShape(wf, s) && Stranded(wf, s, id) && Enabled(wf, s, l) && Calm(l)
    ensures Stranded(wf, Apply(wf, s, l), id)
  {
    match l
    case ByEngine(e) => EngineLeavesStranded(wf, s, e, id);
    case ByRunner(r) => RunnerLeavesStranded(wf, s, r, id);
    case ByHandler(h) => HandlerLeavesStranded(wf, s, h, id);
  }

  lemma EngineLeavesStranded(wf: Workflow, s: Sys, e: EngineStep, id: TaskId)
    requires Stranded(wf, s, id) && EngineCan(wf, s, e) && !e.Submit?
    ensures Stranded(wf, EngineDoes(wf, s, e), id)
  {
    EngineWork(wf, s, e, id);
  }

  lemma HandlerLeavesStranded(wf: Workflow, s: Sys, h: HandlerStep, id: TaskId)
    requires TrafficShape(wf, s) && HandlerShape(wf, s) && Stranded(wf, s, id) && HandlerCan(wf, s, h)
    ensures Stranded(wf, HandlerDoes(wf, s, h), id)
  {
    HandlerWork(wf, s, h, id);
  }

  lemma RunnerLeavesStranded(wf: Workflow, s: Sys, r: RunnerStep, id: TaskId)
    requires Stranded(wf, s, id) && RunnerCan(s, r) && (r.Finish? ==> r.outcome == Completed)
    ensures Stranded(wf, RunnerDoes(s, r), id)
  {
    RunnerWork(s, r, id);
    assert r == Start(id) ==> s.queue[id] > 0;
    assert r.Finish? && r.id == id ==> s.running[id] > 0;
  }

  lemma {:induction false} StrandedForGood(wf: Workflow, s: Sys, ls: seq<Label>, id: TaskId)
    requires Closed(wf) && Shape(wf, s) && Stranded(wf, s, id) && Runs(wf, s, ls) && AllCalm(ls)
    ensures Stranded(wf, After(wf, s, ls), id)
    decreases |ls|
  {
    if ls != [] {
      assert Calm(ls[0]) && AllCalm(ls[1..]);
      StepKeepsShape(wf, s, ls[0]);
      StrandedStays(wf, s, ls[0], id);
      StrandedForGood(wf, Apply(wf, s, ls[0]), ls[1..], id);
    }
  }

  lemma {:induction false} LateMeansNeverDone(wf: Workflow, s: Sys, ls: seq<Label>)
    requires Closed(wf) && Shape(wf, s) && Runs(wf, s, ls) && AllCalm(ls) && !Punctual(wf, s, ls)
    ensures !Done(wf, After(wf, s, ls))
    decreases |ls|
  {
    var next := Apply(wf, s, ls[0]);
    assert Calm(ls[0]) && AllCalm(ls[1..]);
    StepKeepsShape(wf, s, ls[0]);
    if OnTime(s, ls[0]) {
      LateMeansNeverDone(wf, next, ls[1..]);
    } else {
      var id := s.engine.id;
      LateMarkStrands(wf, s);
      StrandedForGood(wf, next, ls[1..], id);
    }
  }

  // No lost wake-up, exactly: in a run in which nothing goes wrong, whenever results are
  // handled, a quiet end is a done end if and only if every mark of a root was on time.
  lemma QuietIsDoneIff(wf: Workflow, ls: seq<Label>)
    requires Accepted(wf) && Runs(wf, Fresh(wf), ls) && AllCalm(ls) && Quiet(After(wf, Fresh(wf), ls))
    ensures Done(wf, After(wf, Fresh(wf), ls)) <==> Punctual(wf, Fresh(wf), ls)
  {
    PunctualIsClean(wf, Fresh(wf), ls);
    if Punctual(wf, Fresh(wf), ls) {
      QuietMeansDone(wf, ls);
    } else {
      FreshIsSound(wf);
      LateMeansNeverDone(wf, Fresh(wf), ls);
    }
  }

  // In particular a run is punctual when no result is handled before the submission is over.
  ghost predicate Unhurried(wf: Workflow, s: Sys, ls: seq<Label>)
    requires Runs(wf, s, ls)
    decreases |ls|
  {
    ls != [] ==>
      && (ls[0].ByHandler? && ls[0].h.Take? ==> s.engine.EngineIdle?)
      && Unhurried(wf, Apply(wf, s, ls[0]), ls[1..])
  }

  // Until then the handler waits, and a root that was published has its work before it.
  ghost predicate HandlerWaits(s: Sys) {
    && (!s.engine.EngineIdle? ==> s.handler.Idle?)
    && (s.engine.RootSent? ==> Work(s, s.engine.id) > 0)
  }

  lemma UnhurriedStep(wf: Workflow, s: Sys, l: Label)
    requires EngineShape(wf, s) && HandlerWaits(s) && Enabled(wf, s, l) && Calm(l)
    requires l.ByHandler? && l.h.Take? ==> s.engine.EngineIdle?
    ensures Lossless(s, l) && HandlerWaits(Apply(wf, s, l))
  {
    var next := Apply(wf, s, l);
    if next.engine.RootSent? {
      var id := next.engine.id;
      match l
      case ByEngine(e) => EngineWork(wf, s, e, id);
      case ByRunner(r) => RunnerWork(s, r, id);
      case ByHandler(h) => HandlerKeepsEngine(wf, s, h);
    }
  }

  lemma {:induction false} UnhurriedIsClean(wf: Workflow, s: Sys, ls: seq<Label>)
    requires Closed(wf) && Shape(wf, s) && HandlerWaits(s) && Runs(wf, s, ls) && AllCalm(ls) && Unhurried(wf, s, ls)
    ensures Clean(wf, s, ls)
    decreases |ls|
  {
    if ls != [] {
      assert Calm(ls[0]) && AllCalm(ls[1..]);
      UnhurriedStep(wf, s, ls[0]);
      StepKeepsShape(wf, s, ls[0]);
      UnhurriedIsClean(wf, Apply(wf, s, ls[0]), ls[1..]);
    }
  }

  // ---------------------------------------------------------------------------
  // No deadlock

  // The engine has published a root whose result has been handled already, and will mark it.
  ghost predicate Doomed(s: Sys) {
    s.engine.RootSent? && Work(s, s.engine.id) == 0
  }

  // As long as a clean run is not quiet, some step continues it, unless it is doomed.
  lemma NotQuietCanMove(wf: Workflow, ls: seq<Label>) returns (l: Label)
    requires Accepted(wf) && Clean(wf, Fresh(wf), ls) && Runs(wf, Fresh(wf), ls)
    requires !Quiet(After(wf, Fresh(wf), ls)) && !Doomed(After(wf, Fresh(wf), ls))
    ensures
      var s := After(wf, Fresh(wf), ls);
      Enabled(wf, s, l) && Lossless(s, l) && !Doomed(Apply(wf, s, l))
  {
    FreshIsSound(wf);
    RunKeepsSound(wf, Fresh(wf), ls);
    l := Move(wf, After(wf, Fresh(wf), ls));
  }

  lemma EngineMove(wf: Workflow, s: Sys) returns (e: EngineStep)
    requires !s.engine.EngineIdle? && !Doomed(s)
    ensures EngineCan(wf, s, e) && Lossless(s, ByEngine(e)) && !Doomed(EngineDoes(wf, s, e))
  {
    match s.engine
    case Initialising(todo) =>
      if todo == {} { e := StartSubmitting; } else { var id :| id in todo; e := Initialise(id); }
    case Submitting(todo) =>
      if todo == {} { e := EndSubmit; } else { var id :| id in todo; e := SendRoot(id); }
    case RootSent(_, _) => e := MarkRoot;
  }

  lemma HandlerMove(wf: Workflow, s: Sys) returns (h: HandlerStep)
    requires HandlerShape(wf, s) && StatusShape(wf, s) && !s.engine.Initialising? && !s.handler.Idle?
    ensures HandlerCan(wf, s, h) && !h.Take?
  {
    match s.handler
    case Checking(_, todo, _) =>
      if todo == {} { h := Decide; } else { var id :| id in todo; h := Examine(id); }
    case Aggregating(_, todo, _) =>
      if todo == {} { h := Reply; } else { var id :| id in todo; h := Gather(id); }
    case Scanning(_, todo) =>
      if todo == {} { h := EndScan; } else { var id :| id in todo; h := Consider(id); }
    case Probing(_, _, id, k) => h := if k < |DepsOf(wf.dependencies, id)| then Probe else Send;
    case Sent(_, _, _) => h := Mark;
  }

  lemma Move(wf: Workflow, s: Sys) returns (l: Label)
    requires Shape(wf, s) && !Quiet(s) && !Doomed(s)
    ensures Enabled(wf, s, l) && Lossless(s, l) && !Doomed(Apply(wf, s, l))
  {
    if !s.engine.EngineIdle? {
      var e := EngineMove(wf, s);
      l := ByEngine(e);
    } else if !s.handler.Idle? {
      var h := HandlerMove(wf, s);
      l := ByHandler(h);
    } else if s.queue != multiset{} {
      var id :| id in s.queue;
      l := ByRunner(Start(id));
    } else if s.running != multiset{} {
      var id :| id in s.running;
      l := ByRunner(Finish(id, Completed));
    } else if s.stored != multiset{} {
      var m :| m in s.stored;
      l := ByRunner(Post(m));
    } else {
      var m :| m in s.results;
      l := ByHandler(Take(m));
    }
  }
}
