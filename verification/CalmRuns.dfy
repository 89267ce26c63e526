// Calm steps put together to runs.

module CalmRuns {
  import opened Workflows
  import opened Protocol
  import opened Progress
  import Dag

  ghost predicate CalmRun(wf: Workflow, ls: seq<Label>, s: Sys) {
    Runs(wf, Fresh(wf), ls) && After(wf, Fresh(wf), ls) == s && AllCalm(ls)
  }

  // By a calm run; and without hurry, by one in which no result is handled before the
  // submission is over.
  ghost predicate Reached(wf: Workflow, hurry: bool, s: Sys) {
    exists ls :: CalmRun(wf, ls, s) && (hurry || Unhurried(wf, Fresh(wf), ls))
  }

  predicate MayTake(hurry: bool, s: Sys, l: Label) {
    l.ByHandler? && l.h.Take? ==> hurry || s.engine.EngineIdle?
  }

  lemma Onward(wf: Workflow, hurry: bool, s: Sys, l: Label)
    requires Reached(wf, hurry, s) && Enabled(wf, s, l) && Calm(l) && MayTake(hurry, s, l)
    ensures Reached(wf, hurry, Apply(wf, s, l))
  {
    var ls :| CalmRun(wf, ls, s) && (hurry || Unhurried(wf, Fresh(wf), ls));
    RunStep(wf, Fresh(wf), ls, l);
    assert CalmRun(wf, ls + [l], Apply(wf, s, l));
    if !hurry {
      UnhurriedStepMore(wf, Fresh(wf), ls, l);
    }
  }

  lemma {:induction false} UnhurriedStepMore(wf: Workflow, s: Sys, ls: seq<Label>, l: Label)
    requires Runs(wf, s, ls) && Unhurried(wf, s, ls) && Runs(wf, s, ls + [l])
    requires l.ByHandler? && l.h.Take? ==> After(wf, s, ls).engine.EngineIdle?
    ensures Unhurried(wf, s, ls + [l])
    decreases |ls|
  {
    if ls == [] {
      assert [l][1..] == [];
      assert ls + [l] == [l];
    } else {
      assert (ls + [l])[1..] == ls[1..] + [l];
      UnhurriedStepMore(wf, Apply(wf, s, ls[0]), ls[1..], l);
    }
  }

  // ---------------------------------------------------------------------------
  // Building blocks; the log is not described

  ghost function Quick(s: Sys): Sys {
    s.(log := [])
  }

  lemma Executes(wf: Workflow, hurry: bool, s: Sys, id: TaskId) returns (n: Sys)
    requires Reached(wf, hurry, s) && id in s.queue
    ensures Reached(wf, hurry, n)
    ensures Quick(n) == Quick(s.(queue := s.queue - multiset{id}, status := s.status[id := Completed],
                                 results := s.results + multiset{Msg(id, Completed)}))
  {
    var b := Performs(wf, hurry, s, id);
    n := Posts(wf, hurry, b, Msg(id, Completed));
    PutBack(s.stored, Msg(id, Completed));
  }

  lemma Performs(wf: Workflow, hurry: bool, s: Sys, id: TaskId) returns (n: Sys)
    requires Reached(wf, hurry, s) && id in s.queue
    ensures Reached(wf, hurry, n) && Msg(id, Completed) in n.stored
    ensures Quick(n) == Quick(s.(queue := s.queue - multiset{id}, status := s.status[id := Completed],
                                 stored := s.stored + multiset{Msg(id, Completed)}))
  {
    var a := Starts(wf, hurry, s, id);
    n := Finishes(wf, hurry, a, id);
    PutBack(s.running, id);
    assert s.status[id := Running][id := Completed] == s.status[id := Completed];
  }

  lemma PutBack<T>(m: multiset<T>, x: T)
    ensures m + multiset{x} - multiset{x} == m
  {
  }

  lemma Starts(wf: Workflow, hurry: bool, s: Sys, id: TaskId) returns (n: Sys)
    requires Reached(wf, hurry, s) && id in s.queue
    ensures Reached(wf, hurry, n) && id in n.running
    ensures Quick(n) == Quick(s.(queue := s.queue - multiset{id}, running := s.running + multiset{id},
                                 status := s.status[id := Running]))
  {
    Onward(wf, hurry, s, ByRunner(Start(id)));
    n := Apply(wf, s, ByRunner(Start(id)));
  }

  lemma Finishes(wf: Workflow, hurry: bool, s: Sys, id: TaskId) returns (n: Sys)
    requires Reached(wf, hurry, s) && id in s.running
    ensures Reached(wf, hurry, n) && Msg(id, Completed) in n.stored
    ensures Quick(n) == Quick(s.(running := s.running - multiset{id}, stored := s.stored + multiset{Msg(id, Completed)},
                                 status := s.status[id := Completed]))
  {
    Onward(wf, hurry, s, ByRunner(Finish(id, Completed)));
    n := Apply(wf, s, ByRunner(Finish(id, Completed)));
  }

  lemma Posts(wf: Workflow, hurry: bool, s: Sys, m: Msg) returns (n: Sys)
    requires Reached(wf, hurry, s) && m in s.stored
    ensures Reached(wf, hurry, n)
    ensures Quick(n) == Quick(s.(stored := s.stored - multiset{m}, results := s.results + multiset{m}))
  {
    Onward(wf, hurry, s, ByRunner(Post(m)));
    n := Apply(wf, s, ByRunner(Post(m)));
  }

  lemma Initialises(wf: Workflow, hurry: bool, s: Sys, id: TaskId) returns (n: Sys)
    requires Reached(wf, hurry, s) && EngineCan(wf, s, Initialise(id))
    ensures Reached(wf, hurry, n)
    ensures Quick(n) == Quick(s.(status := s.status[id := Pending], engine := Initialising(s.engine.todo - {id})))
  {
    Onward(wf, hurry, s, ByEngine(Initialise(id)));
    n := Apply(wf, s, ByEngine(Initialise(id)));
  }

  lemma SendsRoot(wf: Workflow, hurry: bool, s: Sys, id: TaskId) returns (n: Sys)
    requires Reached(wf, hurry, s) && EngineCan(wf, s, SendRoot(id))
    ensures Reached(wf, hurry, n)
    ensures Quick(n) == Quick(s.(queue := s.queue + multiset{id}, engine := RootSent(s.engine.todo - {id}, id)))
  {
    Onward(wf, hurry, s, ByEngine(SendRoot(id)));
    n := Apply(wf, s, ByEngine(SendRoot(id)));
  }

  lemma SubmitsRoot(wf: Workflow, hurry: bool, s: Sys, id: TaskId) returns (n: Sys)
    requires Reached(wf, hurry, s) && EngineCan(wf, s, SendRoot(id))
    ensures Reached(wf, hurry, n)
    ensures Quick(n) == Quick(s.(queue := s.queue + multiset{id}, status := s.status[id := Queued],
                                 engine := Submitting(s.engine.todo - {id})))
  {
    n := SendsRoot(wf, hurry, s, id);
    Onward(wf, hurry, n, ByEngine(MarkRoot));
    n := Apply(wf, n, ByEngine(MarkRoot));
  }

  lemma Takes(wf: Workflow, hurry: bool, s: Sys, id: TaskId) returns (n: Sys)
    requires Reached(wf, hurry, s) && s.handler.Idle? && Msg(id, Completed) in s.results
    requires hurry || s.engine.EngineIdle?
    ensures Reached(wf, hurry, n)
    ensures Quick(n) == Quick(s.(results := s.results - multiset{Msg(id, Completed)},
                                 status := s.status[id := Completed],
                                 handler := Checking(Msg(id, Completed), wf.tasks.Keys, false)))
  {
    Onward(wf, hurry, s, ByHandler(Take(Msg(id, Completed))));
    n := Apply(wf, s, ByHandler(Take(Msg(id, Completed))));
  }

  // The completion check reads all task states, in whatever order.
  lemma {:induction false} Checks(wf: Workflow, hurry: bool, s: Sys) returns (n: Sys)
    requires Reached(wf, hurry, s) && s.handler.Checking? && s.handler.todo <= s.status.Keys
    requires forall id | id in s.handler.todo :: s.status[id] !in {Failed, TimedOut}
    ensures Reached(wf, hurry, n)
    ensures
      var running := s.handler.running || exists id :: id in s.handler.todo && Unfinished(s.status[id]);
      Quick(n) == Quick(s.(handler := if running then Scanning(s.handler.msg, wf.dependencies.Keys)
                                      else Aggregating(s.handler.msg, wf.tasks.Keys, false)))
    decreases if s.handler.Checking? then |s.handler.todo| else 0
  {
    if s.handler.todo == {} {
      Onward(wf, hurry, s, ByHandler(Decide));
      n := Apply(wf, s, ByHandler(Decide));
    } else {
      var id :| id in s.handler.todo;
      Onward(wf, hurry, s, ByHandler(Examine(id)));
      var a := Apply(wf, s, ByHandler(Examine(id)));
      Dag.Smaller(a.handler.todo, s.handler.todo);
      n := Checks(wf, hurry, a);
    }
  }

  // The handler publishes a dependent whose dependencies have all completed.
  lemma {:induction false} Probes(wf: Workflow, hurry: bool, s: Sys) returns (n: Sys)
    requires Reached(wf, hurry, s) && s.handler.Probing?
    requires s.handler.k <= |DepsOf(wf.dependencies, s.handler.id)|
    requires forall d | d in DepsOf(wf.dependencies, s.handler.id) :: StatusOf(s, d) == Completed
    ensures Reached(wf, hurry, n)
    ensures Quick(n) == Quick(s.(queue := s.queue + multiset{s.handler.id}, status := s.status[s.handler.id := Queued],
                                 handler := Scanning(s.handler.msg, s.handler.todo)))
    decreases |DepsOf(wf.dependencies, s.handler.id)| - s.handler.k
  {
    if s.handler.k < |DepsOf(wf.dependencies, s.handler.id)| {
      assert DepsOf(wf.dependencies, s.handler.id)[s.handler.k] in DepsOf(wf.dependencies, s.handler.id);
      Onward(wf, hurry, s, ByHandler(Probe));
      n := Probes(wf, hurry, Apply(wf, s, ByHandler(Probe)));
    } else {
      Onward(wf, hurry, s, ByHandler(Send));
      var a := Apply(wf, s, ByHandler(Send));
      Onward(wf, hurry, a, ByHandler(Mark));
      n := Apply(wf, a, ByHandler(Mark));
    }
  }
}
