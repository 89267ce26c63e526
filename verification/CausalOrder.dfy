// Safety over every run, with failures, retries, redelivered and duplicated messages,
// cancellation and repeated submission: a task is published only after everything it
// transitively depends on has completed.

module CausalOrder {
  import opened Workflows
  import opened Protocol

  ghost predicate Explained(wf: Workflow, log: seq<Event>, i: nat)
    requires i < |log|
  {
    match log[i]
    case Published(id) => forall d | DependsOn(wf.dependencies, id, d) :: Finished(d) in log[..i]
    case Finished(id) => Published(id) in log[..i]
    case _ => true
  }

  ghost predicate Causal(wf: Workflow, log: seq<Event>) {
    forall i: nat | i < |log| :: Explained(wf, log, i)
  }

  // Whatever claims that a task is under way or completed is backed by an event of the log.

  ghost predicate WorkBacked(s: Sys) {
    forall id | id in s.queue || id in s.running :: Published(id) in s.log
  }

  ghost predicate StoreBacked(s: Sys) {
    forall id | id in s.status && s.status[id] == Completed :: Finished(id) in s.log
  }

  ghost predicate MessagesBacked(s: Sys) {
    forall m: Msg | m.status == Completed && (m in s.stored || m in s.results || Posted(m) in s.log) ::
      Finished(m.task) in s.log
  }

  ghost predicate HeldBacked(s: Sys) {
    !s.handler.Idle? && s.handler.msg.status == Completed ==> Finished(s.handler.msg.task) in s.log
  }

  // The dependencies that the handler has read so far.
  ghost predicate ProbeBacked(wf: Workflow, s: Sys) {
    s.handler.Probing? ==>
      && s.handler.k <= |DepsOf(wf.dependencies, s.handler.id)|
      && forall j | 0 <= j < s.handler.k :: Finished(DepsOf(wf.dependencies, s.handler.id)[j]) in s.log
  }

  ghost predicate RootsOnly(wf: Workflow, s: Sys) {
    s.engine.Submitting? || s.engine.RootSent? ==> s.engine.todo <= Roots(wf)
  }

  // Retry needs to know that a result waiting to be published belongs to a published task.
  ghost predicate ResultsBacked(s: Sys) {
    && (forall m | m in s.stored :: Published(m.task) in s.log)
  }

  ghost predicate Backed(wf: Workflow, s: Sys) {
    && WorkBacked(s) && StoreBacked(s) && MessagesBacked(s) && ResultsBacked(s)
    && HeldBacked(s) && ProbeBacked(wf, s) && RootsOnly(wf, s)
  }

  lemma CausalGrows(wf: Workflow, log: seq<Event>, e: Event)
    requires Causal(wf, log)
    requires e.Published? ==> forall d | DependsOn(wf.dependencies, e.id, d) :: Finished(d) in log
    requires e.Finished? ==> Published(e.id) in log
    ensures Causal(wf, log + [e])
  {
    var next := log + [e];
    forall i: nat | i < |next| ensures Explained(wf, next, i) {
      if i < |log| {
        assert Explained(wf, log, i);
        assert next[..i] == log[..i];
      } else {
        assert next[..i] == log;
      }
    }
  }

  lemma EngineBacked(wf: Workflow, s: Sys, e: EngineStep)
    requires Backed(wf, s) && EngineCan(wf, s, e)
    ensures Backed(wf, EngineDoes(wf, s, e))
  {
  }

  lemma RunnerBacksWork(s: Sys, r: RunnerStep)
    requires WorkBacked(s) && ResultsBacked(s) && RunnerCan(s, r)
    ensures WorkBacked(RunnerDoes(s, r)) && ResultsBacked(RunnerDoes(s, r))
  {
    RunnerBacksResults(s, r);
  }

  lemma RunnerBacksResults(s: Sys, r: RunnerStep)
    requires WorkBacked(s) && ResultsBacked(s) && RunnerCan(s, r)
    ensures ResultsBacked(RunnerDoes(s, r))
  {
  }

  lemma RunnerBacksStore(s: Sys, r: RunnerStep)
    requires StoreBacked(s) && RunnerCan(s, r)
    ensures StoreBacked(RunnerDoes(s, r))
  {
  }

  lemma RunnerBacksMessages(s: Sys, r: RunnerStep)
    requires MessagesBacked(s) && RunnerCan(s, r)
    ensures MessagesBacked(RunnerDoes(s, r))
  {
  }

  lemma RunnerBacksHandler(wf: Workflow, s: Sys, r: RunnerStep)
    requires HeldBacked(s) && ProbeBacked(wf, s) && RootsOnly(wf, s) && RunnerCan(s, r)
    ensures HeldBacked(RunnerDoes(s, r)) && ProbeBacked(wf, RunnerDoes(s, r)) && RootsOnly(wf, RunnerDoes(s, r))
  {
  }

  lemma HandlerBacksWork(wf: Workflow, s: Sys, h: HandlerStep)
    requires WorkBacked(s) && ResultsBacked(s) && RootsOnly(wf, s) && HandlerCan(wf, s, h)
    ensures WorkBacked(HandlerDoes(wf, s, h)) && ResultsBacked(HandlerDoes(wf, s, h))
    ensures RootsOnly(wf, HandlerDoes(wf, s, h))
  {
  }

  lemma HandlerBacksResults(wf: Workflow, s: Sys, h: HandlerStep)
    requires StoreBacked(s) && MessagesBacked(s) && HandlerCan(wf, s, h)
    ensures StoreBacked(HandlerDoes(wf, s, h)) && MessagesBacked(HandlerDoes(wf, s, h))
  {
  }

  lemma HandlerBacksItself(wf: Workflow, s: Sys, h: HandlerStep)
    requires HeldBacked(s) && ProbeBacked(wf, s) && StoreBacked(s) && MessagesBacked(s) && HandlerCan(wf, s, h)
    ensures HeldBacked(HandlerDoes(wf, s, h)) && ProbeBacked(wf, HandlerDoes(wf, s, h))
  {
  }

  lemma FaultBacksWork(wf: Workflow, s: Sys, f: Fault)
    requires WorkBacked(s) && ResultsBacked(s) && FaultCan(wf, s, f)
    ensures WorkBacked(FaultDoes(wf, s, f))
  {
  }

  lemma FaultBacksRest(wf: Workflow, s: Sys, f: Fault)
    requires WorkBacked(s) && ResultsBacked(s) && RootsOnly(wf, s) && FaultCan(wf, s, f)
    ensures ResultsBacked(FaultDoes(wf, s, f)) && RootsOnly(wf, FaultDoes(wf, s, f))
  {
    FaultBacksResults(wf, s, f);
  }

  lemma FaultBacksResults(wf: Workflow, s: Sys, f: Fault)
    requires WorkBacked(s) && ResultsBacked(s) && FaultCan(wf, s, f)
    ensures ResultsBacked(FaultDoes(wf, s, f))
  {
  }

  lemma FaultBacksStore(wf: Workflow, s: Sys, f: Fault)
    requires StoreBacked(s) && FaultCan(wf, s, f)
    ensures StoreBacked(FaultDoes(wf, s, f))
  {
  }

  lemma FaultBacksMessages(wf: Workflow, s: Sys, f: Fault)
    requires MessagesBacked(s) && HeldBacked(s) && FaultCan(wf, s, f)
    ensures MessagesBacked(FaultDoes(wf, s, f))
  {
  }

  lemma FaultBacksHandler(wf: Workflow, s: Sys, f: Fault)
    requires HeldBacked(s) && ProbeBacked(wf, s) && FaultCan(wf, s, f)
    ensures HeldBacked(FaultDoes(wf, s, f)) && ProbeBacked(wf, FaultDoes(wf, s, f))
  {
  }

  lemma StepIsBacked(wf: Workflow, s: Sys, l: Label)
    requires Backed(wf, s) && Enabled(wf, s, l)
    ensures Backed(wf, Apply(wf, s, l))
  {
    match l
    case ByEngine(e) =>
      EngineBacked(wf, s, e);
    case ByRunner(r) =>
      RunnerBacksWork(s, r);
      RunnerBacksStore(s, r);
      RunnerBacksMessages(s, r);
      RunnerBacksHandler(wf, s, r);
    case ByHandler(h) =>
      HandlerBacksWork(wf, s, h);
      HandlerBacksResults(wf, s, h);
      HandlerBacksItself(wf, s, h);
    case ByFault(f) =>
      FaultBacksWork(wf, s, f);
      FaultBacksRest(wf, s, f);
      FaultBacksStore(wf, s, f);
      FaultBacksMessages(wf, s, f);
      FaultBacksHandler(wf, s, f);
  }

  lemma EngineIsCausal(wf: Workflow, s: Sys, e: EngineStep)
    requires Causal(wf, s.log) && RootsOnly(wf, s) && EngineCan(wf, s, e)
    ensures Causal(wf, EngineDoes(wf, s, e).log)
  {
    if e.SendRoot? {
      CausalGrows(wf, s.log, Published(e.id));
    }
  }

  lemma RunnerIsCausal(wf: Workflow, s: Sys, r: RunnerStep)
    requires Causal(wf, s.log) && WorkBacked(s) && RunnerCan(s, r)
    ensures Causal(wf, RunnerDoes(s, r).log)
  {
    match r
    case Start(_) =>
    case Finish(id, _) => CausalGrows(wf, s.log, Finished(id));
    case Post(m) => CausalGrows(wf, s.log, Posted(m));
  }

  lemma HandlerIsCausal(wf: Workflow, s: Sys, h: HandlerStep)
    requires Causal(wf, s.log) && ProbeBacked(wf, s) && HandlerCan(wf, s, h)
    ensures Causal(wf, HandlerDoes(wf, s, h).log)
  {
    if h.Take? {
      CausalGrows(wf, s.log, Handled(h.msg.task));
    } else if h.Send? {
      CausalGrows(wf, s.log, Published(s.handler.id));
    }
  }

  lemma FaultIsCausal(wf: Workflow, s: Sys, f: Fault)
    requires Causal(wf, s.log) && WorkBacked(s) && FaultCan(wf, s, f)
    ensures Causal(wf, FaultDoes(wf, s, f).log)
  {
    if f.FinishUnmarked? {
      CausalGrows(wf, s.log, Finished(f.id));
    }
  }

  lemma StepIsCausal(wf: Workflow, s: Sys, l: Label)
    requires Causal(wf, s.log) && Backed(wf, s) && Enabled(wf, s, l)
    ensures Causal(wf, Apply(wf, s, l).log)
  {
    match l
    case ByEngine(e) => EngineIsCausal(wf, s, e);
    case ByRunner(r) => RunnerIsCausal(wf, s, r);
    case ByHandler(h) => HandlerIsCausal(wf, s, h);
    case ByFault(f) => FaultIsCausal(wf, s, f);
  }

  lemma {:induction false} RunIsCausal(wf: Workflow, s: Sys, ls: seq<Label>)
    requires Causal(wf, s.log) && Backed(wf, s) && Runs(wf, s, ls)
    ensures Causal(wf, After(wf, s, ls).log) && Backed(wf, After(wf, s, ls))
    decreases |ls|
  {
    if ls != [] {
      StepIsCausal(wf, s, ls[0]);
      StepIsBacked(wf, s, ls[0]);
      RunIsCausal(wf, Apply(wf, s, ls[0]), ls[1..]);
    }
  }

  lemma {:induction false} ChainIsFinished(wf: Workflow, log: seq<Event>, i: nat, p: seq<TaskId>)
    requires |p| >= 2 && IsWalk(wf.dependencies, p)
    requires Causal(wf, log) && i < |log| && log[i] == Published(p[0])
    ensures Finished(p[|p| - 1]) in log[..i]
    decreases |p|
  {
    assert Explained(wf, log, i);
    assert Hop(wf.dependencies, p, 0);
    assert Finished(p[1]) in log[..i];
    if |p| > 2 {
      var j :| 0 <= j < i && log[j] == Finished(p[1]);
      assert Explained(wf, log, j);
      var k :| 0 <= k < j && log[k] == Published(p[1]);
      var q := p[1..];
      forall n: nat | n + 1 < |q| ensures Hop(wf.dependencies, q, n) {
        assert Hop(wf.dependencies, p, n + 1);
      }
      ChainIsFinished(wf, log, k, q);
      assert log[..k] <= log[..i];
    }
  }

  // In every run, when a task is published, every task it depends on, directly or through
  // any chain of dependencies, has already produced a completed result.
  lemma PublishedAfterDependencies(wf: Workflow, ls: seq<Label>, i: nat, p: seq<TaskId>)
    requires Runs(wf, Nothing, ls)
    requires i < |After(wf, Nothing, ls).log|
    requires |p| >= 2 && IsWalk(wf.dependencies, p)
    requires After(wf, Nothing, ls).log[i] == Published(p[0])
    ensures Finished(p[|p| - 1]) in After(wf, Nothing, ls).log[..i]
  {
    RunIsCausal(wf, Nothing, ls);
    ChainIsFinished(wf, After(wf, Nothing, ls).log, i, p);
  }

  // And whenever the store says that a task is completed, the task and everything before
  // it has been published and has completed.
  lemma CompletedIsJustified(wf: Workflow, ls: seq<Label>, p: seq<TaskId>)
    requires Runs(wf, Nothing, ls) && p != [] && IsWalk(wf.dependencies, p)
    requires StatusOf(After(wf, Nothing, ls), p[0]) == Completed
    ensures Finished(p[|p| - 1]) in After(wf, Nothing, ls).log
  {
    RunIsCausal(wf, Nothing, ls);
    var log := After(wf, Nothing, ls).log;
    var j :| 0 <= j < |log| && log[j] == Finished(p[0]);
    assert Explained(wf, log, j);
    var k :| 0 <= k < j && log[k] == Published(p[0]);
    if |p| >= 2 {
      ChainIsFinished(wf, log, k, p);
    }
  }
}
