// The task-state store: workflow definitions and, per workflow, one state record per task.
// Any access may fail; a reliable store answers every access. Before each access to the
// states, the other participants of the protocol may have gone on.

module WorkflowStore {
  import opened Basics
  import opened Workflows
  import opened Protocol
  import opened Interleaving

  datatype Failure = Failure(processorId: string, taskId: TaskId, message: string)

  // The reply to the caller of a workflow.
  datatype Result = Result(workflowId: string, status: Status, taskResults: seq<TaskResult>, error: Option<Failure>)

  type States = map<TaskId, TaskResult>

  function StatusView(states: States): map<TaskId, Status> {
    map id | id in states :: states[id].status
  }

  lemma ViewOfUpdate(states: States, id: TaskId, st: TaskResult)
    ensures StatusView(states[id := st]) == StatusView(states)[id := st.status]
  {
  }

  // Some task failed or timed out, or no task is left to wait for.
  ghost predicate Concluded(wf: Workflow, states: States) {
    || (exists id :: id in wf.tasks && id in states && states[id].status in {Failed, TimedOut})
    || (forall id | id in wf.tasks :: id in states && !Unfinished(states[id].status))
  }

  ghost predicate AllCompleted(wf: Workflow, states: States) {
    forall id | id in wf.tasks :: id in states && states[id].status == Completed
  }

  // A reply that covers the tasks of the order: their records, in that order; Completed
  // exactly when all of them are; and the message of some uncompleted task that has one.
  ghost predicate Collected(states: States, order: seq<TaskId>, r: Result) {
    && |r.taskResults| == |order|
    && (forall i | 0 <= i < |order| :: order[i] in states && r.taskResults[i] == states[order[i]])
    && (r.status == if forall id | id in order :: states[id].status == Completed then Completed else Failed)
    && (r.error.Some? ==> exists id :: id in order && Explains(states[id], r.error.value))
    && (r.error.None? ==> forall id | id in order :: states[id].status == Completed || states[id].errorMessage == "")
  }

  ghost predicate Explains(st: TaskResult, error: Failure) {
    && st.status != Completed && st.errorMessage != ""
    && error == Failure(st.processorId, st.taskId, st.errorMessage)
  }

  function WithRecord(r: Result, st: TaskResult): Result {
    r.(taskResults := r.taskResults + [st],
       status := if st.status != Completed then Failed else r.status,
       error := if st.status != Completed && r.error.None? && st.errorMessage != ""
                then Some(Failure(st.processorId, st.taskId, st.errorMessage)) else r.error)
  }

  method AddRecord(r: Result, st: TaskResult) returns (next: Result)
    ensures next == WithRecord(r, st)
  {
    next := r.(taskResults := r.taskResults + [st]);
    if st.status != Completed {
      next := next.(status := Failed);
      if next.error.None? && st.errorMessage != "" {
        next := next.(error := Some(Failure(st.processorId, st.taskId, st.errorMessage)));
      }
    }
  }

  lemma CollectOne(read: States, order: seq<TaskId>, r: Result, id: TaskId, st: TaskResult, next: Result)
    requires Collected(read, order, r) && id !in order && next == WithRecord(r, st)
    ensures Collected(read[id := st], order + [id], next)
  {
    assert forall x :: x in order + [id] <==> x in order || x == id;
    assert forall x | x in order :: x != id;
  }

  lemma EnumerateOne(order: seq<TaskId>, all: set<TaskId>, todo: set<TaskId>, id: TaskId)
    requires Enumerates(order, all - todo) && id in todo && todo <= all
    ensures Enumerates(order + [id], all - (todo - {id}))
  {
    assert forall x :: x in order + [id] <==> x in order || x == id;
  }

  lemma CollectedVerdict(wf: Workflow, states: States, order: seq<TaskId>, r: Result)
    requires Enumerates(order, wf.tasks.Keys - {}) && Collected(states, order, r)
    ensures Enumerates(order, wf.tasks.Keys)
    ensures r.status == Completed <==> AllCompleted(wf, states)
  {
  }

  // The states with some tasks set back to Pending.
  function Restarted(wf: Workflow, states: States, reset: set<TaskId>): States {
    map id | id in states.Keys + reset :: if id in reset then Marker(wf.id, id, Pending) else states[id]
  }

  // The same, task by task.
  ghost predicate Restarts(wf: Workflow, before: States, after: States, reset: set<TaskId>) {
    forall id :: RestartsAt(wf, before, after, id, id in reset)
  }

  ghost predicate RestartsAt(wf: Workflow, before: States, after: States, id: TaskId, reset: bool) {
    if reset then id in after && after[id] == Marker(wf.id, id, Pending)
    else if id in before then id in after && after[id] == before[id]
    else id !in after
  }

  lemma RestartOne(wf: Workflow, before: States, after: States, reset: set<TaskId>, id: TaskId)
    requires Restarts(wf, before, after, reset)
    ensures Restarts(wf, before, after[id := Marker(wf.id, id, Pending)], reset + {id})
  {
    var next := after[id := Marker(wf.id, id, Pending)];
    forall x ensures RestartsAt(wf, before, next, x, x in reset + {id}) {
      assert RestartsAt(wf, before, after, x, x in reset);
    }
  }

  lemma RestartsIsRestarted(wf: Workflow, before: States, after: States, reset: set<TaskId>)
    ensures Restarts(wf, before, after, reset) <==> after == Restarted(wf, before, reset)
  {
    if Restarts(wf, before, after, reset) {
      forall id ensures id in after <==> id in Restarted(wf, before, reset) {
        assert RestartsAt(wf, before, after, id, id in reset);
      }
      forall id | id in after ensures after[id] == Restarted(wf, before, reset)[id] {
        assert RestartsAt(wf, before, after, id, id in reset);
      }
    }
  }

  // Only the states of one workflow differ.
  ghost predicate Apart(workflowId: string, before: map<string, States>, after: map<string, States>) {
    forall other | other != workflowId :: Same(before, after, other)
  }

  ghost predicate Same(before: map<string, States>, after: map<string, States>, id: string) {
    if id in before then id in after && after[id] == before[id] else id !in after
  }

  lemma ApartUpdate(workflowId: string, before: map<string, States>, after: map<string, States>, states: States)
    requires Apart(workflowId, before, after)
    ensures Apart(workflowId, before, after[workflowId := states])
  {
    var now := after[workflowId := states];
    forall other | other != workflowId ensures Same(before, now, other) {
      assert Same(before, after, other);
    }
  }

  lemma ApartThen(workflowId: string, a: map<string, States>, b: map<string, States>, c: map<string, States>)
    requires Apart(workflowId, a, b) && Apart(workflowId, b, c)
    ensures Apart(workflowId, a, c)
  {
    forall other | other != workflowId ensures Same(a, c, other) {
      assert Same(a, b, other) && Same(b, c, other);
    }
  }

  // Kinds of steps.
  predicate Initialises(l: Label) {
    l.ByEngine? && l.e.Initialise?
  }

  predicate Checks(l: Label) {
    l.ByHandler? && (l.h.Examine? || l.h.Decide?)
  }

  predicate Gathers(l: Label) {
    l.ByHandler? && l.h.Gather?
  }

  class Store {
    const reliable: bool
    var workflows: map<string, Workflow>
    var states: map<string, States>

    constructor (reliable: bool)
      ensures this.reliable == reliable && workflows == map[] && states == map[]
    {
      this.reliable := reliable;
      workflows, states := map[], map[];
    }

    function StatesOf(workflowId: string): States
      reads this
    {
      if workflowId in states then states[workflowId] else map[]
    }

    // Only accepted workflows are stored, under their own id.
    ghost predicate Valid()
      reads this
    {
      forall k | k in workflows :: workflows[k].id == k && Accepted(workflows[k])
    }

    method GetWorkflow(workflowId: string) returns (wf: Option<Workflow>)
      ensures wf.Some? ==> workflowId in workflows && wf.value == workflows[workflowId]
      ensures reliable && workflowId in workflows ==> wf.Some?
    {
      var ok := Reach(reliable);
      if ok && workflowId in workflows {
        return Some(workflows[workflowId]);
      }
      return None;
    }

    // The machine is at the end of a run, and its statuses are those of the records.
    ghost predicate Shows(m: Machine)
      reads this, m
    {
      m.Valid() && StatusView(StatesOf(m.wf.id)) == m.now.status
    }

    ghost predicate Knows(m: Machine)
      reads this, m
    {
      m.wf.id in workflows ==> workflows[m.wf.id] == m.wf
    }

    // The others go on for a while, and write records of whatever content.
    method Others(m: Machine)
      requires Shows(m)
      modifies this`states, m`now, m`steps, m`path
      ensures Shows(m) && Yields(old(m.now), m.now, m.side)
      ensures m.alone ==> m.now == old(m.now) && states == old(states)
    {
      m.Wait();
      if m.alone {
        return;
      }
      var next: map<string, States> := *;
      var written: States := *;
      if StatusView(written) != m.now.status {
        written := map id | id in m.now.status :: Marker(m.wf.id, id, m.now.status[id]);
      }
      states := next[m.wf.id := written];
    }

    method GetTaskState(workflowId: string, id: TaskId, m: Machine) returns (st: Option<TaskResult>)
      requires Shows(m) && workflowId == m.wf.id
      modifies this`states, m`now, m`steps, m`path
      ensures Shows(m) && Yields(old(m.now), m.now, m.side)
      ensures st.Some? ==> id in StatesOf(workflowId) && st.value == StatesOf(workflowId)[id]
      ensures reliable && id in StatesOf(workflowId) ==> st.Some?
      ensures m.alone ==> m.now == old(m.now) && states == old(states)
    {
      Others(m);
      var ok := Reach(reliable);
      if ok && id in StatesOf(workflowId) {
        return Some(StatesOf(workflowId)[id]);
      }
      return None;
    }

    // After a write, the machine still has to take the step that goes with it.
    method StoreTaskState(workflowId: string, id: TaskId, st: TaskResult, m: Machine) returns (ok: bool)
      requires Shows(m) && workflowId == m.wf.id
      modifies this`states, m`now, m`steps, m`path
      ensures m.Valid() && Yields(old(m.now), m.now, m.side) && (reliable ==> ok)
      ensures StatusView(StatesOf(workflowId)) == if ok then m.now.status[id := st.status] else m.now.status
      ensures m.alone ==>
                && m.now == old(m.now)
                && states == if ok then old(states)[workflowId := old(StatesOf(workflowId))[id := st]] else old(states)
    {
      Others(m);
      ok := Reach(reliable);
      if ok {
        ViewOfUpdate(StatesOf(workflowId), id, st);
        states := states[workflowId := StatesOf(workflowId)[id := st]];
      }
    }

    method ResetTask(wf: Workflow, id: TaskId, m: Machine) returns (ok: bool)
      requires Shows(m) && m.wf == wf && m.side == OfEngine && m.now.engine.Initialising? && id in m.now.engine.todo
      modifies this`states, m
      ensures Shows(m) && Keeps(old(m.now), m.now, OfEngine) && m.sent == old(m.sent)
      ensures reliable ==> ok
      ensures m.own == old(m.own) + if ok then [ByEngine(Initialise(id))] else []
      ensures m.now.engine == Initialising(if ok then old(m.now.engine.todo) - {id} else old(m.now.engine.todo))
      ensures ok ==> id in m.now.status
      ensures m.alone ==>
                states == if ok then old(states)[wf.id := old(StatesOf(wf.id))[id := Marker(wf.id, id, Pending)]]
                          else old(states)
    {
      ok := StoreTaskState(wf.id, id, Marker(wf.id, id, Pending), m);
      if ok {
        m.Step(ByEngine(Initialise(id)));
      }
    }

    // Writes Pending for the tasks in the returned set, which are all if it does not give up.
    method ResetTasks(wf: Workflow, m: Machine) returns (ok: bool, ghost reset: set<TaskId>)
      requires Shows(m) && m.wf == wf && m.side == OfEngine && m.now.engine == Initialising(wf.tasks.Keys)
      modifies this`states, m
      ensures Shows(m) && m.now.engine == Initialising(wf.tasks.Keys - reset) && reset <= m.now.status.Keys
      ensures Keeps(old(m.now), m.now, OfEngine) && m.sent == old(m.sent)
      ensures Grown(old(m.own), m.own, Initialises, true)
      ensures reliable ==> ok
      ensures reset <= wf.tasks.Keys && (ok ==> reset == wf.tasks.Keys)
      ensures m.alone ==> ResetsSoFar(wf, old(states), states, reset)
    {
      var todo := wf.tasks.Keys;
      reset := {};
      assert ResetsSoFar(wf, states, states, reset);
      while todo != {}
        invariant Shows(m) && m.sent == old(m.sent)
        invariant Resetting(wf, old(m.now), m.now, old(m.own), m.own, todo, reset)
        invariant m.alone ==> ResetsSoFar(wf, old(states), states, reset)
        decreases |todo|
      {
        var id :| id in todo;
        ghost var last, mine, now := states, m.own, m.now;
        assert id in now.engine.todo;
        ok := ResetTask(wf, id, m);
        if !ok {
          return false, reset;
        }
        ResetNext(wf, old(m.now), now, m.now, old(m.own), mine, todo, reset, id);
        if m.alone {
          ResetMore(wf, old(states), last, states, reset, id);
        }
        reset := reset + {id};
        todo := todo - {id};
      }
      ok := true;
    }

    // Writes Pending for every task and then the definition. When it gives up half way, the
    // tasks in the returned set have been reset.
    method InitWorkflow(wf: Workflow, m: Machine) returns (ok: bool, ghost reset: set<TaskId>)
      requires Shows(m) && m.wf == wf && m.side == OfEngine && m.now.engine == Initialising(wf.tasks.Keys)
      modifies this, m
      ensures Shows(m) && m.now.engine == Initialising(wf.tasks.Keys - reset) && reset <= m.now.status.Keys
      ensures Keeps(old(m.now), m.now, OfEngine) && m.sent == old(m.sent)
      ensures Grown(old(m.own), m.own, Initialises, true)
      ensures reliable ==> ok
      ensures reset <= wf.tasks.Keys && (ok ==> reset == wf.tasks.Keys)
      ensures workflows == if ok then old(workflows)[wf.id := wf] else old(workflows)
      ensures m.alone ==>
                && Apart(wf.id, old(states), states)
                && StatesOf(wf.id) == Restarted(wf, old(StatesOf(wf.id)), reset)
    {
      ok, reset := ResetTasks(wf, m);
      RestartsIsRestarted(wf, old(StatesOf(wf.id)), StatesOf(wf.id), reset);
      if !ok {
        return;
      }
      Others(m);
      ok := Reach(reliable);
      if ok {
        workflows := workflows[wf.id := wf];
      }
    }

    method Examine(workflowId: string, id: TaskId, m: Machine) returns (st: Option<TaskResult>)
      requires Shows(m) && workflowId == m.wf.id && m.side == OfHandler
      requires m.now.handler.Checking? && id in m.now.handler.todo
      modifies this`states, m
      ensures Shows(m) && Keeps(old(m.now), m.now, OfHandler) && m.sent == old(m.sent)
      ensures m.own == old(m.own) + if st.Some? then [ByHandler(HandlerStep.Examine(id))] else []
      ensures
        var h := old(m.now.handler);
        m.now.handler ==
        if st.None? then h
        else if st.value.status in {Failed, TimedOut} then Aggregating(h.msg, m.wf.tasks.Keys, false)
        else Checking(h.msg, h.todo - {id}, h.running || Unfinished(st.value.status))
      ensures st.Some? ==> id in StatesOf(workflowId) && st.value == StatesOf(workflowId)[id]
      ensures reliable && id in old(m.now.status) ==> st.Some?
      ensures m.alone ==> states == old(states)
    {
      st := GetTaskState(workflowId, id, m);
      if st.Some? {
        m.Step(ByHandler(HandlerStep.Examine(id)));
      }
    }

    // Looks at the tasks one by one, and stops at one that failed or timed out. When nobody
    // else writes meanwhile, the verdict is Concluded, whatever the order.
    method IsWorkflowCompleted(workflowId: string, m: Machine) returns (done: Option<bool>)
      requires Shows(m) && Knows(m) && workflowId == m.wf.id && m.side == OfHandler
      requires m.now.handler.Checking? && m.now.handler.todo == m.wf.tasks.Keys && !m.now.handler.running
      modifies this`states, m
      ensures Shows(m) && Keeps(old(m.now), m.now, OfHandler) && m.sent == old(m.sent)
      ensures Grown(old(m.own), m.own, Checks, true)
      ensures
        var msg := old(m.now.handler.msg);
        match done
        case None => m.now.handler.Checking? && m.now.handler.msg == msg
        case Some(yes) =>
          && workflowId in workflows
          && m.now.handler == if yes then Aggregating(msg, m.wf.tasks.Keys, false)
                              else Scanning(msg, m.wf.dependencies.Keys)
      ensures reliable && workflowId in workflows && m.wf.tasks.Keys <= old(m.now.status.Keys) ==> done.Some?
      ensures m.alone ==>
                && states == old(states)
                && (done.Some? ==> (done.value <==> Concluded(m.wf, StatesOf(workflowId))))
    {
      var wf := GetWorkflow(workflowId);
      if wf.None? {
        return None;
      }
      var running := false;
      var todo := wf.value.tasks.Keys;
      ghost var msg := m.now.handler.msg;
      while todo != {}
        invariant Shows(m) && m.sent == old(m.sent) && todo <= m.wf.tasks.Keys
        invariant Looking(old(m.now), m.now, old(m.own), m.own) && m.now.handler == Checking(msg, todo, running)
        invariant m.alone ==> states == old(states) && LookedAt(m.wf, StatesOf(workflowId), todo, running)
        decreases |todo|
      {
        var id :| id in todo;
        ghost var (now, mine) := (m.now, m.own);
        var st := Examine(workflowId, id, m);
        if st.None? {
          return None;
        }
        LookOn(old(m.now), now, m.now, old(m.own), mine, ByHandler(HandlerStep.Examine(id)));
        if m.alone {
          LookNext(m.wf, StatesOf(workflowId), todo, running, id);
        }
        match st.value.status {
          case Failed => return Some(true);
          case TimedOut => return Some(true);
          case Pending => running := true;
          case Queued => running := true;
          case Running => running := true;
          case _ =>
        }
        todo := todo - {id};
      }
      ghost var (now, mine) := (m.now, m.own);
      m.Step(ByHandler(Decide));
      LookOn(old(m.now), now, m.now, old(m.own), mine, ByHandler(Decide));
      if m.alone {
        LookedAtAll(m.wf, StatesOf(workflowId), todo, running);
      }
      return Some(!running);
    }

    method CancelTask(workflowId: string, id: TaskId, m: Machine) returns (done: bool)
      requires Shows(m) && workflowId == m.wf.id && m.side == OfCanceller
      modifies this`states, m
      ensures Shows(m) && m.own == old(m.own) + (if done then [ByFault(Cancel(id))] else []) && m.sent == old(m.sent)
      ensures m.alone ==>
                var before := old(StatesOf(workflowId));
                && (done ==> id in before && before[id].status in {Queued, Pending})
                && (states == if done then old(states)[workflowId := before[id := before[id].(status := Cancelled)]]
                              else old(states))
                && (reliable && id in before && before[id].status in {Queued, Pending} ==> done)
    {
      var st := GetTaskState(workflowId, id, m);
      if st.None? || (st.value.status != Queued && st.value.status != Pending) {
        return false;
      }
      done := StoreTaskState(workflowId, id, st.value.(status := Cancelled), m);
      if done {
        m.Step(ByFault(Cancel(id)));
      }
    }

    // Marks exactly the tasks that read as waiting, as far as the store can be reached.
    method CancelWorkflow(workflowId: string, m: Machine) returns (ok: bool, ghost cancelled: seq<TaskId>)
      requires Shows(m) && Knows(m) && workflowId == m.wf.id && m.side == OfCanceller
      modifies this`states, m
      ensures Shows(m) && m.own == old(m.own) + CancelSteps(cancelled) && m.sent == old(m.sent)
      ensures Distinct(cancelled) && forall id | id in cancelled :: id in m.wf.tasks
      ensures !ok ==> states == old(states) && cancelled == []
      ensures ok ==> workflowId in workflows
      ensures reliable && workflowId in workflows ==> ok
      ensures m.alone ==>
                CancelsSoFar(m.wf, old(states), states, cancelled, ok && reliable, m.wf.tasks.Keys)
    {
      cancelled := [];
      var wf := GetWorkflow(workflowId);
      assert m.own == m.own + CancelSteps([]);
      if wf.None? {
        return false, [];
      }
      var todo := wf.value.tasks.Keys;
      while todo != {}
        invariant todo <= m.wf.tasks.Keys && Shows(m) && m.own == old(m.own) + CancelSteps(cancelled)
        invariant m.sent == old(m.sent) && Distinct(cancelled)
        invariant forall id | id in cancelled :: id in m.wf.tasks && id !in todo
        invariant m.alone ==> CancelsSoFar(m.wf, old(states), states, cancelled, reliable, m.wf.tasks.Keys - todo)
        decreases |todo|
      {
        var id :| id in todo;
        ghost var last := states;
        var done := CancelTask(workflowId, id, m);
        if m.alone {
          CancelMore(m.wf, old(states), last, states, cancelled, id, done, reliable, m.wf.tasks.Keys, todo);
        }
        if done {
          CancelStepsMore(old(m.own), cancelled, id);
          cancelled := cancelled + [id];
        }
        todo := todo - {id};
      }
      return true, cancelled;
    }

    method Gather(workflowId: string, id: TaskId, m: Machine) returns (st: Option<TaskResult>)
      requires Shows(m) && workflowId == m.wf.id && m.side == OfHandler
      requires m.now.handler.Aggregating? && id in m.now.handler.todo
      modifies this`states, m
      ensures Shows(m) && Keeps(old(m.now), m.now, OfHandler) && m.sent == old(m.sent)
      ensures m.own == old(m.own) + if st.Some? then [ByHandler(HandlerStep.Gather(id))] else []
      ensures
        var h := old(m.now.handler);
        m.now.handler ==
        if st.None? then h else Aggregating(h.msg, h.todo - {id}, h.failed || st.value.status != Completed)
      ensures st.Some? ==> id in StatesOf(workflowId) && st.value == StatesOf(workflowId)[id]
      ensures reliable && id in old(m.now.status) ==> st.Some?
      ensures m.alone ==> states == old(states)
    {
      st := GetTaskState(workflowId, id, m);
      if st.Some? {
        m.Step(ByHandler(HandlerStep.Gather(id)));
      }
    }

    // Adds one record to a reply.
    method Collect(workflowId: string, id: TaskId, m: Machine, result: Result, ghost order: seq<TaskId>,
                   ghost read: States, ghost todo: set<TaskId>) returns (next: Option<Result>, ghost st: TaskResult)
      requires Shows(m) && workflowId == m.wf.id && m.side == OfHandler
      requires m.now.handler.Aggregating? && id in m.now.handler.todo
      requires id in todo && todo <= m.wf.tasks.Keys && Gathered(m.wf, read, order, result, todo)
      modifies this`states, m
      ensures Shows(m) && Keeps(old(m.now), m.now, OfHandler) && m.sent == old(m.sent)
      ensures m.own == old(m.own) + if next.Some? then [ByHandler(HandlerStep.Gather(id))] else []
      ensures next.Some? ==> Gathered(m.wf, read[id := st], order + [id], next.value, todo - {id})
      ensures next.Some? ==> (next.value.status != Completed <==> result.status != Completed || st.status != Completed)
      ensures
        var h := old(m.now.handler);
        m.now.handler == if next.None? then h else Aggregating(h.msg, h.todo - {id}, h.failed || st.status != Completed)
      ensures reliable && id in old(m.now.status) ==> next.Some?
      ensures m.alone ==> states == old(states)
      ensures m.alone && next.Some? && ReadFrom(read, StatesOf(workflowId)) ==>
                ReadFrom(read[id := st], StatesOf(workflowId))
    {
      st := Marker(workflowId, id, Unset);
      var found := Gather(workflowId, id, m);
      if found.None? {
        return None, st;
      }
      st := found.value;
      GatherNext(m.wf, read, order, result, todo, id, st);
      var more := AddRecord(result, found.value);
      return Some(more), st;
    }

    // Adds the records of all tasks to a reply, as they are read.
    method GatherAll(workflowId: string, m: Machine)
      returns (r: Option<Result>, ghost order: seq<TaskId>, ghost read: States)
      requires Shows(m) && workflowId == m.wf.id && m.side == OfHandler
      requires m.now.handler.Aggregating? && m.now.handler.todo == m.wf.tasks.Keys && !m.now.handler.failed
      modifies this`states, m
      ensures Shows(m) && Keeps(old(m.now), m.now, OfHandler) && m.sent == old(m.sent)
      ensures Grown(old(m.own), m.own, Gathers, true)
      ensures m.now.handler.Aggregating? && m.now.handler.msg == old(m.now.handler.msg)
      ensures r.Some? ==>
                && Gathered(m.wf, read, order, r.value, {})
                && m.now.handler.todo == {} && (m.now.handler.failed <==> r.value.status != Completed)
      ensures reliable && m.wf.tasks.Keys <= old(m.now.status.Keys) ==> r.Some?
      ensures m.alone ==> states == old(states) && ReadFrom(read, StatesOf(workflowId))
    {
      order, read := [], map[];
      var result := Result(workflowId, Completed, [], None);
      var todo := m.wf.tasks.Keys;
      ghost var msg := m.now.handler.msg;
      GatherNone(m.wf, result);
      while todo != {}
        invariant todo <= m.wf.tasks.Keys && Gathered(m.wf, read, order, result, todo)
        invariant Shows(m) && m.sent == old(m.sent)
        invariant Gathering(old(m.now), m.now, old(m.own), m.own, msg, todo, result.status != Completed)
        invariant m.alone ==> states == old(states) && ReadFrom(read, StatesOf(workflowId))
        decreases |todo|
      {
        var id :| id in todo;
        ghost var (now, mine) := (m.now, m.own);
        var next, st := Collect(workflowId, id, m, result, order, read, todo);
        if next.None? {
          return None, order, read;
        }
        GatherOn(old(m.now), now, m.now, old(m.own), mine, msg, todo, result.status != Completed, id);
        result := next.value;
        order, read := order + [id], read[id := st];
        todo := todo - {id};
      }
      return Some(result), order, read;
    }

    // One record per task, as it was read; Completed exactly when every record is, and
    // otherwise Failed with the message of some task that is not completed and has one.
    method AggregateResult(workflowId: string, m: Machine)
      returns (r: Option<Result>, ghost order: seq<TaskId>, ghost read: States)
      requires Shows(m) && Knows(m) && workflowId == m.wf.id && m.side == OfHandler
      requires m.now.handler.Aggregating? && m.now.handler.todo == m.wf.tasks.Keys && !m.now.handler.failed
      modifies this`states, m
      ensures Shows(m) && Keeps(old(m.now), m.now, OfHandler) && m.sent == old(m.sent)
      ensures Grown(old(m.own), m.own, Gathers, true)
      ensures m.now.handler.Aggregating? && m.now.handler.msg == old(m.now.handler.msg)
      ensures r.Some? ==>
                && workflowId in workflows && r.value.workflowId == workflowId
                && Enumerates(order, m.wf.tasks.Keys) && Collected(read, order, r.value)
                && (r.value.status == Completed <==> AllCompleted(m.wf, read))
                && m.now.handler.todo == {} && (m.now.handler.failed <==> r.value.status != Completed)
      ensures reliable && workflowId in workflows && m.wf.tasks.Keys <= old(m.now.status.Keys) ==> r.Some?
      ensures m.alone ==> states == old(states) && ReadFrom(read, StatesOf(workflowId))
    {
      var wf := GetWorkflow(workflowId);
      if wf.None? {
        return None, [], map[];
      }
      r, order, read := GatherAll(workflowId, m);
      if r.Some? {
        GatheredAll(m.wf, read, order, r.value, {});
      }
    }
  }

  // The tasks not in todo have been looked at: none of them failed or timed out, and running
  // says whether one of them is unfinished.
  ghost predicate LookedAt(wf: Workflow, states: States, todo: set<TaskId>, running: bool) {
    && (forall id | id in wf.tasks && id !in todo :: id in states && states[id].status !in {Failed, TimedOut})
    && (running <==> exists id :: id in wf.tasks && id !in todo && id in states && Unfinished(states[id].status))
  }

  // The handler has taken steps of the check and done nothing else.
  ghost predicate Looking(a: Sys, b: Sys, before: seq<Label>, after: seq<Label>) {
    Keeps(a, b, OfHandler) && Grown(before, after, Checks, true)
  }

  lemma LookOn(a: Sys, b: Sys, c: Sys, before: seq<Label>, after: seq<Label>, l: Label)
    requires Looking(a, b, before, after) && Keeps(b, c, OfHandler) && Checks(l) && l.ByHandler?
    ensures Looking(a, c, before, after + [l])
  {
  }

  lemma LookNext(wf: Workflow, states: States, todo: set<TaskId>, running: bool, id: TaskId)
    requires LookedAt(wf, states, todo, running) && id in todo && id in wf.tasks && id in states
    ensures states[id].status in {Failed, TimedOut} ==> Concluded(wf, states)
    ensures states[id].status !in {Failed, TimedOut} ==>
              LookedAt(wf, states, todo - {id}, running || Unfinished(states[id].status))
  {
  }

  lemma LookedAtAll(wf: Workflow, states: States, todo: set<TaskId>, running: bool)
    requires LookedAt(wf, states, todo, running) && todo == {}
    ensures Concluded(wf, states) <==> !running
  {
  }

  // The records of the tasks not in todo have been collected, in this order.
  ghost predicate Gathered(wf: Workflow, read: States, order: seq<TaskId>, r: Result, todo: set<TaskId>) {
    r.workflowId == wf.id && Enumerates(order, wf.tasks.Keys - todo) && Collected(read, order, r)
  }

  lemma GatherNone(wf: Workflow, r: Result)
    requires r == Result(wf.id, Completed, [], None)
    ensures Gathered(wf, map[], [], r, wf.tasks.Keys)
  {
    assert wf.tasks.Keys - wf.tasks.Keys == {};
  }

  lemma GatherNext(wf: Workflow, read: States, order: seq<TaskId>, r: Result, todo: set<TaskId>, id: TaskId,
                   st: TaskResult)
    requires Gathered(wf, read, order, r, todo) && id in todo && todo <= wf.tasks.Keys
    ensures Gathered(wf, read[id := st], order + [id], WithRecord(r, st), todo - {id})
    ensures WithRecord(r, st).status != Completed <==> r.status != Completed || st.status != Completed
  {
    CollectOne(read, order, r, id, st, WithRecord(r, st));
    EnumerateOne(order, wf.tasks.Keys, todo, id);
  }

  lemma GatheredAll(wf: Workflow, read: States, order: seq<TaskId>, r: Result, todo: set<TaskId>)
    requires Gathered(wf, read, order, r, todo) && todo == {}
    ensures r.workflowId == wf.id && Enumerates(order, wf.tasks.Keys) && Collected(read, order, r)
    ensures r.status == Completed <==> AllCompleted(wf, read)
  {
    CollectedVerdict(wf, read, order, r);
  }

  // The handler has read the other tasks for the reply and done nothing else.
  ghost predicate Gathering(a: Sys, b: Sys, before: seq<Label>, after: seq<Label>, msg: Msg, todo: set<TaskId>,
                            failed: bool)
  {
    b.handler == Aggregating(msg, todo, failed) && Keeps(a, b, OfHandler) && Grown(before, after, Gathers, true)
  }

  lemma GatherOn(a: Sys, b: Sys, c: Sys, before: seq<Label>, after: seq<Label>, msg: Msg, todo: set<TaskId>,
                 failed: bool, id: TaskId)
    requires Gathering(a, b, before, after, msg, todo, failed) && Keeps(b, c, OfHandler)
    requires c.handler.Aggregating? && c.handler.msg == msg && c.handler.todo == todo - {id}
    ensures Gathering(a, c, before, after + [ByHandler(HandlerStep.Gather(id))], msg, todo - {id}, c.handler.failed)
  {
  }

  ghost predicate ReadFrom(read: States, states: States) {
    forall id | id in read :: id in states && states[id] == read[id]
  }

  // The engine has initialised some tasks and done nothing else.
  ghost predicate Resetting(wf: Workflow, a: Sys, b: Sys, before: seq<Label>, after: seq<Label>, todo: set<TaskId>,
                            reset: set<TaskId>)
  {
    && todo <= wf.tasks.Keys && reset == wf.tasks.Keys - todo && reset <= b.status.Keys
    && b.engine == Initialising(wf.tasks.Keys - reset) && Keeps(a, b, OfEngine)
    && Grown(before, after, Initialises, true)
  }

  lemma ResetNext(wf: Workflow, a: Sys, b: Sys, c: Sys, before: seq<Label>, after: seq<Label>, todo: set<TaskId>,
                  reset: set<TaskId>, id: TaskId)
    requires Resetting(wf, a, b, before, after, todo, reset) && id in todo
    requires Keeps(b, c, OfEngine) && c.engine == Initialising(b.engine.todo - {id}) && id in c.status
    ensures Resetting(wf, a, c, before, after + [ByEngine(Initialise(id))], todo - {id}, reset + {id})
  {
    assert wf.tasks.Keys - (reset + {id}) == wf.tasks.Keys - reset - {id};
  }

  // The given tasks of one workflow are pending, and nothing else has changed.
  ghost predicate ResetsSoFar(wf: Workflow, first: map<string, States>, now: map<string, States>, reset: set<TaskId>) {
    Apart(wf.id, first, now) && Restarts(wf, Within(first, wf.id), Within(now, wf.id), reset)
  }

  lemma ResetMore(wf: Workflow, first: map<string, States>, last: map<string, States>, now: map<string, States>,
                  reset: set<TaskId>, id: TaskId)
    requires ResetsSoFar(wf, first, last, reset)
    requires now == last[wf.id := Within(last, wf.id)[id := Marker(wf.id, id, Pending)]]
    ensures ResetsSoFar(wf, first, now, reset + {id})
  {
    RestartOne(wf, Within(first, wf.id), Within(last, wf.id), reset, id);
    ApartUpdate(wf.id, first, last, Within(now, wf.id));
  }

  ghost function CancelSteps(ids: seq<TaskId>): seq<Label> {
    seq(|ids|, i requires 0 <= i < |ids| => ByFault(Cancel(ids[i])))
  }

  lemma CancelStepsMore(own: seq<Label>, ids: seq<TaskId>, id: TaskId)
    ensures own + CancelSteps(ids) + [ByFault(Cancel(id))] == own + CancelSteps(ids + [id])
  {
  }

  // The listed tasks were waiting, and of them only the status has changed.
  ghost predicate HasCancelled(before: States, after: States, ids: seq<TaskId>) {
    && after.Keys == before.Keys
    && (forall id | id in ids :: id in before && before[id].status in {Queued, Pending})
    && (forall id | id in after :: after[id] == if id in ids then before[id].(status := Cancelled) else before[id])
  }

  ghost function Within(all: map<string, States>, workflowId: string): States {
    if workflowId in all then all[workflowId] else map[]
  }

  // The listed tasks of one workflow have been cancelled, and nothing else has changed; of
  // those looked at, none waits any more if every access succeeded.
  ghost predicate CancelsSoFar(wf: Workflow, first: map<string, States>, now: map<string, States>, ids: seq<TaskId>,
                               well: bool, among: set<TaskId>)
  {
    && Apart(wf.id, first, now) && HasCancelled(Within(first, wf.id), Within(now, wf.id), ids)
    && (well ==> NoneWaits(wf, Within(now, wf.id), among))
  }

  lemma CancelMore(wf: Workflow, first: map<string, States>, last: map<string, States>, now: map<string, States>,
                   ids: seq<TaskId>, id: TaskId, done: bool, well: bool, all: set<TaskId>, todo: set<TaskId>)
    requires CancelsSoFar(wf, first, last, ids, well, all - todo) && id !in ids
    requires
      var before := Within(last, wf.id);
      && (done ==> id in before && before[id].status in {Queued, Pending})
      && (now == if done then last[wf.id := before[id := before[id].(status := Cancelled)]] else last)
      && (well && id in before && before[id].status in {Queued, Pending} ==> done)
    ensures CancelsSoFar(wf, first, now, if done then ids + [id] else ids, well, all - (todo - {id}))
  {
    if done {
      var before := Within(last, wf.id);
      ApartUpdate(wf.id, first, last, before[id := before[id].(status := Cancelled)]);
      assert forall x :: x in ids + [id] <==> x in ids || x == id;
    }
  }

  ghost predicate NoneWaits(wf: Workflow, states: States, among: set<TaskId>) {
    forall id | id in wf.tasks && id in among && id in states :: states[id].status !in {Queued, Pending}
  }
}
