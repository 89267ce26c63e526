// The orchestration protocol as a state machine over one workflow. Every access to the
// task-state store and every message that is published, delivered or answered is a step
// of its own, so the engine, the result handler, a canceller and any number of runners
// interleave between any two of them.

module Protocol {
  import opened Workflows

  // A result message, reduced to the task it is about and the status it reports.
  datatype Msg = Msg(task: TaskId, status: Status)

  // What happened so far, oldest first.
  datatype Event =
    | Published(id: TaskId)   // a task message was put on the processor stream
    | Finished(id: TaskId)    // an execution, or the output cache, produced a completed result
    | Posted(msg: Msg)        // a runner published a result message
    | Handled(id: TaskId)     // the result handler took a result message

  // The submission handler: write Pending for every task, then publish the roots one by one.
  datatype Engine =
    | EngineIdle
    | Initialising(todo: set<TaskId>)
    | Submitting(todo: set<TaskId>)
    | RootSent(todo: set<TaskId>, id: TaskId)

  // The result handler. Its loops run over maps: todo holds the keys not yet visited.
  datatype Handler =
    | Idle
    | Checking(msg: Msg, todo: set<TaskId>, running: bool)            // is the workflow completed?
    | Aggregating(msg: Msg, todo: set<TaskId>, failed: bool)          // collecting the reply
    | Scanning(msg: Msg, todo: set<TaskId>)                           // looking for dependents
    | Probing(msg: Msg, todo: set<TaskId>, id: TaskId, k: nat)        // k dependencies of id read as Completed
    | Sent(msg: Msg, todo: set<TaskId>, id: TaskId)                   // id published, Queued not yet written

  datatype Sys = Sys(
    status: map<TaskId, Status>,
    queue: multiset<TaskId>,      // task messages waiting for a runner
    running: multiset<TaskId>,    // executions under way
    stored: multiset<Msg>,        // results written to the store, message not yet published
    results: multiset<Msg>,       // result messages waiting for the handler
    engine: Engine,
    handler: Handler,
    replies: seq<Status>,
    log: seq<Event>)

  // Submitting a workflow.
  datatype EngineStep =
    | Submit | Initialise(id: TaskId) | StartSubmitting | SendRoot(id: TaskId) | MarkRoot | EndSubmit

  // Executing a task: Running is written, the outcome is written, the result is published.
  datatype RunnerStep = Start(id: TaskId) | Finish(id: TaskId, outcome: Status) | Post(msg: Msg)

  // Handling a result message.
  datatype HandlerStep =
    | Take(msg: Msg) | Examine(id: TaskId) | Decide | Gather(id: TaskId) | Reply
    | Consider(id: TaskId) | Probe | Send | Mark | EndScan

  // Everything that can go wrong, and cancellation. A message may be dropped or delivered
  // again at any moment, and any task may be marked Cancelled at any moment.
  datatype Fault =
    | SkipRoot(id: TaskId) | ForgetRoot | AbortSubmit
    | StartUnmarked(id: TaskId) | FinishUnmarked(id: TaskId, outcome: Status)
    | Drop(id: TaskId) | Lose(msg: Msg) | Retry(msg: Msg) | Redeliver(id: TaskId) | Repost(msg: Msg)
    | Cancel(id: TaskId)
    | ProbeError | SkipSend | ForgetMark | Abandon | AbandonReply

  datatype Label =
    | ByEngine(e: EngineStep) | ByRunner(r: RunnerStep) | ByHandler(h: HandlerStep) | ByFault(f: Fault)

  predicate Final(status: Status) {
    status in {Completed, Failed, Cancelled, TimedOut}
  }

  predicate Unfinished(status: Status) {
    status in {Pending, Queued, Running}
  }

  function StatusOf(s: Sys, id: TaskId): Status {
    if id in s.status then s.status[id] else Unset
  }

  function Roots(wf: Workflow): set<TaskId> {
    set id | id in wf.tasks && DepsOf(wf.dependencies, id) == []
  }

  const Nothing := Sys(map[], multiset{}, multiset{}, multiset{}, multiset{}, EngineIdle, Idle, [], [])

  // The state in which a workflow that was never seen before has just been accepted.
  function Fresh(wf: Workflow): Sys {
    Nothing.(engine := Initialising(wf.tasks.Keys))
  }

  predicate EngineCan(wf: Workflow, s: Sys, e: EngineStep) {
    match e
    case Submit => s.engine.EngineIdle?
    case Initialise(id) => s.engine.Initialising? && id in s.engine.todo
    case StartSubmitting => s.engine.Initialising? && s.engine.todo == {}
    case SendRoot(id) => s.engine.Submitting? && id in s.engine.todo
    case MarkRoot => s.engine.RootSent?
    case EndSubmit => s.engine.Submitting? && s.engine.todo == {}
  }

  function EngineDoes(wf: Workflow, s: Sys, e: EngineStep): Sys
    requires EngineCan(wf, s, e)
  {
    match e
    case Submit => s.(engine := Initialising(wf.tasks.Keys))
    case Initialise(id) =>
      s.(status := s.status[id := Pending], engine := Initialising(s.engine.todo - {id}))
    case StartSubmitting => s.(engine := Submitting(Roots(wf)))
    case SendRoot(id) =>
      s.(queue := s.queue + multiset{id}, engine := RootSent(s.engine.todo - {id}, id), log := s.log + [Published(id)])
    case MarkRoot => s.(status := s.status[s.engine.id := Queued], engine := Submitting(s.engine.todo))
    case EndSubmit => s.(engine := EngineIdle)
  }

  predicate RunnerCan(s: Sys, r: RunnerStep) {
    match r
    case Start(id) => id in s.queue
    case Finish(id, outcome) => id in s.running && Final(outcome)
    case Post(m) => m in s.stored
  }

  function RunnerDoes(s: Sys, r: RunnerStep): Sys
    requires RunnerCan(s, r)
  {
    match r
    case Start(id) =>
      s.(queue := s.queue - multiset{id}, running := s.running + multiset{id}, status := s.status[id := Running])
    case Finish(id, outcome) =>
      s.(running := s.running - multiset{id}, stored := s.stored + multiset{Msg(id, outcome)},
         status := s.status[id := outcome],
         log := if outcome == Completed then s.log + [Finished(id)] else s.log)
    case Post(m) => s.(stored := s.stored - multiset{m}, results := s.results + multiset{m}, log := s.log + [Posted(m)])
  }

  predicate HandlerCan(wf: Workflow, s: Sys, step: HandlerStep) {
    match step
    case Take(m) => s.handler.Idle? && m in s.results
    case Examine(id) => s.handler.Checking? && id in s.handler.todo && id in s.status
    case Decide => s.handler.Checking? && s.handler.todo == {}
    case Gather(id) => s.handler.Aggregating? && id in s.handler.todo && id in s.status
    case Reply => s.handler.Aggregating? && s.handler.todo == {}
    case Consider(id) => s.handler.Scanning? && id in s.handler.todo
    case Probe => s.handler.Probing? && s.handler.k < |DepsOf(wf.dependencies, s.handler.id)|
    case Send => s.handler.Probing? && s.handler.k == |DepsOf(wf.dependencies, s.handler.id)|
    case Mark => s.handler.Sent?
    case EndScan => s.handler.Scanning? && s.handler.todo == {}
  }

  function HandlerDoes(wf: Workflow, s: Sys, step: HandlerStep): Sys
    requires HandlerCan(wf, s, step)
  {
    var h := s.handler;
    match step
    case Take(m) =>
      s.(results := s.results - multiset{m}, status := s.status[m.task := m.status],
         handler := Checking(m, wf.tasks.Keys, false), log := s.log + [Handled(m.task)])
    case Examine(id) =>
      if s.status[id] in {Failed, TimedOut} then
        s.(handler := Aggregating(h.msg, wf.tasks.Keys, false))
      else
        s.(handler := Checking(h.msg, h.todo - {id}, h.running || Unfinished(s.status[id])))
    case Decide =>
      s.(handler := if h.running then Scanning(h.msg, wf.dependencies.Keys)
                    else Aggregating(h.msg, wf.tasks.Keys, false))
    case Gather(id) => s.(handler := Aggregating(h.msg, h.todo - {id}, h.failed || s.status[id] != Completed))
    case Reply => s.(handler := Idle, replies := s.replies + [if h.failed then Failed else Completed])
    case Consider(id) =>
      s.(handler := if DependsOn(wf.dependencies, id, h.msg.task) then Probing(h.msg, h.todo - {id}, id, 0)
                    else Scanning(h.msg, h.todo - {id}))
    case Probe =>
      s.(handler := if StatusOf(s, DepsOf(wf.dependencies, h.id)[h.k]) == Completed
                    then Probing(h.msg, h.todo, h.id, h.k + 1) else Scanning(h.msg, h.todo))
    case Send =>
      s.(queue := s.queue + multiset{h.id}, handler := Sent(h.msg, h.todo, h.id), log := s.log + [Published(h.id)])
    case Mark => s.(status := s.status[h.id := Queued], handler := Scanning(h.msg, h.todo))
    case EndScan => s.(handler := Idle)
  }

  predicate FaultCan(wf: Workflow, s: Sys, f: Fault) {
    match f
    case SkipRoot(id) => s.engine.Submitting? && id in s.engine.todo
    case ForgetRoot => s.engine.RootSent?
    case AbortSubmit => !s.engine.EngineIdle?
    case StartUnmarked(id) => id in s.queue
    case FinishUnmarked(id, outcome) => id in s.running && Final(outcome)
    case Drop(id) => id in s.queue
    case Lose(m) => m in s.stored
    case Retry(m) => m in s.stored && m.status in {Failed, TimedOut}
    case Redeliver(id) => Published(id) in s.log
    case Repost(m) => Posted(m) in s.log
    case Cancel(id) => id in s.status
    case ProbeError => s.handler.Probing? && s.handler.k < |DepsOf(wf.dependencies, s.handler.id)|
    case SkipSend => s.handler.Probing? && s.handler.k == |DepsOf(wf.dependencies, s.handler.id)|
    case ForgetMark => s.handler.Sent?
    case Abandon => !s.handler.Idle?
    case AbandonReply => s.handler.Aggregating?
  }

  function FaultDoes(wf: Workflow, s: Sys, f: Fault): Sys
    requires FaultCan(wf, s, f)
  {
    match f
    case SkipRoot(id) => s.(engine := Submitting(s.engine.todo - {id}))
    case ForgetRoot => s.(engine := Submitting(s.engine.todo))
    case AbortSubmit => s.(engine := EngineIdle)
    case StartUnmarked(id) => s.(queue := s.queue - multiset{id}, running := s.running + multiset{id})
    case FinishUnmarked(id, outcome) =>
      s.(running := s.running - multiset{id}, stored := s.stored + multiset{Msg(id, outcome)},
         log := if outcome == Completed then s.log + [Finished(id)] else s.log)
    case Drop(id) => s.(queue := s.queue - multiset{id})
    case Lose(m) => s.(stored := s.stored - multiset{m})
    case Retry(m) => s.(stored := s.stored - multiset{m}, queue := s.queue + multiset{m.task})
    case Redeliver(id) => s.(queue := s.queue + multiset{id})
    case Repost(m) => s.(results := s.results + multiset{m})
    case Cancel(id) => s.(status := s.status[id := Cancelled])
    case ProbeError => s.(handler := Scanning(s.handler.msg, s.handler.todo))
    case SkipSend => s.(handler := Scanning(s.handler.msg, s.handler.todo))
    case ForgetMark => s.(handler := Scanning(s.handler.msg, s.handler.todo))
    case Abandon => s.(handler := Idle, results := s.results + multiset{s.handler.msg})
    case AbandonReply => s.(handler := Idle)
  }

  predicate Enabled(wf: Workflow, s: Sys, l: Label) {
    match l
    case ByEngine(e) => EngineCan(wf, s, e)
    case ByRunner(r) => RunnerCan(s, r)
    case ByHandler(h) => HandlerCan(wf, s, h)
    case ByFault(f) => FaultCan(wf, s, f)
  }

  function Apply(wf: Workflow, s: Sys, l: Label): Sys
    requires Enabled(wf, s, l)
  {
    match l
    case ByEngine(e) => EngineDoes(wf, s, e)
    case ByRunner(r) => RunnerDoes(s, r)
    case ByHandler(h) => HandlerDoes(wf, s, h)
    case ByFault(f) => FaultDoes(wf, s, f)
  }

  // ---------------------------------------------------------------------------
  // Runs

  predicate Runs(wf: Workflow, s: Sys, ls: seq<Label>)
    decreases |ls|
  {
    ls != [] ==> Enabled(wf, s, ls[0]) && Runs(wf, Apply(wf, s, ls[0]), ls[1..])
  }

  function After(wf: Workflow, s: Sys, ls: seq<Label>): Sys
    requires Runs(wf, s, ls)
    decreases |ls|
  {
    if ls == [] then s else After(wf, Apply(wf, s, ls[0]), ls[1..])
  }

  lemma {:induction false} RunThen(wf: Workflow, s: Sys, ls: seq<Label>, more: seq<Label>)
    requires Runs(wf, s, ls) && Runs(wf, After(wf, s, ls), more)
    ensures Runs(wf, s, ls + more) && After(wf, s, ls + more) == After(wf, After(wf, s, ls), more)
    decreases |ls|
  {
    if ls == [] {
      assert ls + more == more;
    } else {
      assert (ls + more)[1..] == ls[1..] + more;
      RunThen(wf, Apply(wf, s, ls[0]), ls[1..], more);
    }
  }

  // A run that ends with one more step.
  lemma RunStep(wf: Workflow, s: Sys, ls: seq<Label>, l: Label)
    requires Runs(wf, s, ls) && Enabled(wf, After(wf, s, ls), l)
    ensures Runs(wf, s, ls + [l]) && After(wf, s, ls + [l]) == Apply(wf, After(wf, s, ls), l)
  {
    var mid := After(wf, s, ls);
    assert [l][1..] == [];
    assert Runs(wf, Apply(wf, mid, l), []);
    assert Runs(wf, mid, [l]);
    RunThen(wf, s, ls, [l]);
  }
}
