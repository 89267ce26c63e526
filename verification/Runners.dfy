// The two kinds of runners: as walks through the protocol machine whatever the other
// participants do, and as changes of the records when they keep still.

module Runners {
  import opened Workflows
  import opened Protocol
  import opened Basics
  import opened Interleaving
  import opened WorkflowStore
  import opened Orchestrator
  import opened OutputCache

  // The steps of an execution; the two writes may fail.
  function StartLabel(id: TaskId, marked: bool): Label {
    if marked then ByRunner(Start(id)) else ByFault(StartUnmarked(id))
  }

  function FinishLabel(result: TaskResult, marked: bool): Label {
    if marked then ByRunner(Finish(result.taskId, result.status))
    else ByFault(FinishUnmarked(result.taskId, result.status))
  }

  // And of a report: the task message is given back, or the result leaves or is lost.
  function ReportLabel(result: TaskResult, acked: bool, sent: bool): Label {
    var msg := Msg(result.taskId, result.status);
    if !acked then ByFault(Retry(msg)) else if sent then ByRunner(Post(msg)) else ByFault(Lose(msg))
  }

  ghost predicate Ends(before: seq<Label>, after: seq<Label>, result: TaskResult, well: bool) {
    exists marked :: after == before + [FinishLabel(result, marked)] && (well ==> marked)
  }

  ghost predicate Executes(before: seq<Label>, after: seq<Label>, result: TaskResult, well: bool) {
    exists marked :: Ends(before + [StartLabel(result.taskId, marked)], after, result, well) && (well ==> marked)
  }

  // An execution and its report, with the result message on the stream if it left.
  ghost predicate Deals(before: seq<Label>, after: seq<Label>, result: TaskResult, acked: bool, well: bool,
                        messages: seq<TaskResult>, now: seq<TaskResult>)
  {
    && (now == messages || (acked && now == messages + [result]))
    && exists mid :: Executes(before, mid, result, well) && after == mid + [ReportLabel(result, acked, now != messages)]
  }

  // Result messages on their way to the handler.
  class ResultStream {
    const reliable: bool
    var sent: seq<TaskResult>

    constructor (reliable: bool)
      ensures this.reliable == reliable && sent == []
    {
      this.reliable, sent := reliable, [];
    }

    method Publish(result: TaskResult) returns (ok: bool)
      modifies this
      ensures sent == old(sent) + (if ok then [result] else [])
      ensures reliable ==> ok
    {
      ok := Reach(reliable);
      if ok {
        sent := sent + [result];
      }
    }
  }

  // A failed attempt is repeated while the delivery count, when it is known, allows it.
  predicate Retries(result: TaskResult, delivered: Option<nat>, maxRetries: nat) {
    result.status in {Failed, TimedOut} && delivered.Some? && delivered.value < maxRetries
  }

  // The end of a delivery, which both runners have in common: the task message is given
  // back for another attempt, or else the result is published, whether that succeeds or not.
  method Report(store: Store, stream: ResultStream, result: TaskResult, delivered: Option<nat>, maxRetries: nat,
                m: Machine) returns (acked: bool)
    requires store.Shows(m) && m.side == OfRunner && m.hold == OnOutcome(Msg(result.taskId, result.status))
    modifies store`states, stream, m
    ensures store.Shows(m) && m.hold == NoHold
    ensures acked <==> !Retries(result, delivered, maxRetries)
    ensures stream.sent == old(stream.sent) || (acked && stream.sent == old(stream.sent) + [result])
    ensures m.own == old(m.own) + [ReportLabel(result, acked, stream.sent != old(stream.sent))]
    ensures acked && stream.reliable ==> stream.sent == old(stream.sent) + [result]
    ensures m.alone ==> store.states == old(store.states)
  {
    store.Others(m);
    if result.status == Failed || result.status == TimedOut {
      if delivered.Some? && delivered.value < maxRetries {
        m.Step(ReportLabel(result, false, false));
        return false;
      }
    }
    var sent := stream.Publish(result);
    m.Step(ReportLabel(result, true, sent));
    acked := true;
  }

  // Running is written before an execution, and the outcome after it.
  method StoreStart(store: Store, running: TaskResult, m: Machine) returns (marked: bool)
    requires store.Shows(m) && m.side == OfRunner && m.hold == OnMessage(running.taskId)
    requires running.workflowId == m.wf.id && running.status == Running
    modifies store`states, m
    ensures store.Shows(m) && m.hold == OnExecution(running.taskId)
    ensures m.own == old(m.own) + [StartLabel(running.taskId, marked)] && (store.reliable ==> marked)
    ensures m.alone ==> store.states == if marked then WithResult(old(store.states), running) else old(store.states)
  {
    marked := store.StoreTaskState(running.workflowId, running.taskId, running, m);
    m.Step(StartLabel(running.taskId, marked));
  }

  method StoreEnd(store: Store, result: TaskResult, m: Machine)
    requires store.Shows(m) && m.side == OfRunner && m.hold == OnExecution(result.taskId)
    requires result.workflowId == m.wf.id && Final(result.status)
    modifies store`states, m
    ensures store.Shows(m) && m.hold == OnOutcome(Msg(result.taskId, result.status))
    ensures Ends(old(m.own), m.own, result, store.reliable)
    ensures m.alone ==> store.states == old(store.states) || store.states == WithResult(old(store.states), result)
    ensures m.alone && store.reliable ==> store.states == WithResult(old(store.states), result)
  {
    var marked := store.StoreTaskState(result.workflowId, result.taskId, result, m);
    m.Step(FinishLabel(result, marked));
  }

  ghost predicate SameRecord(before: States, after: States, id: TaskId) {
    if id in before then id in after && after[id] == before[id] else id !in after
  }

  // What an execution does to the records when nobody else writes.
  ghost predicate Leads(wf: Workflow, first: map<string, States>, now: map<string, States>, result: TaskResult,
                        well: bool)
  {
    && Apart(wf.id, first, now)
    && (forall id | id != result.taskId :: SameRecord(Within(first, wf.id), Within(now, wf.id), id))
    && (well ==> now == WithResult(first, result))
  }

  lemma LeadsOn(wf: Workflow, first: map<string, States>, mid: map<string, States>, now: map<string, States>,
                running: TaskResult, result: TaskResult, well: bool)
    requires running.workflowId == wf.id && result.workflowId == wf.id && running.taskId == result.taskId
    requires mid == first || mid == WithResult(first, running)
    requires now == mid || now == WithResult(mid, result)
    requires well ==> mid == WithResult(first, running) && now == WithResult(mid, result)
    ensures Leads(wf, first, now, result, well)
  {
    assert Apart(wf.id, first, first);
    ApartUpdate(wf.id, first, first, Within(mid, wf.id));
    ApartUpdate(wf.id, first, mid, Within(now, wf.id));
    if well {
      var id := result.taskId;
      assert Within(first, wf.id)[id := running][id := result] == Within(first, wf.id)[id := result];
      assert first[wf.id := Within(mid, wf.id)][wf.id := Within(now, wf.id)] == first[wf.id := Within(now, wf.id)];
    }
  }

  // The id and version a task is resolved under.
  function ProcessorRef(t: Task): (string, string) {
    (if t.processorId == "" then t.subject else t.processorId,
     if t.processorVersion == "" then "latest" else t.processorVersion)
  }

  function CallOf(t: Task, attempt: nat): Call {
    var (processor, ref) := ProcessorRef(t);
    Call(if t.tenant == "" then "default" else t.tenant, processor, ref, t.input, attempt)
  }

  function Outputs(entries: map<string, TaskResult>): map<string, string> {
    map key | key in entries :: entries[key].output
  }

  // Cached results are completed ones.
  predicate OnlyCompleted(entries: map<string, TaskResult>) {
    forall key | key in entries :: entries[key].status == Completed
  }

  // What came out: the output of a completed result.
  function Outcome(result: TaskResult): Option<string> {
    if result.status == Completed then Some(result.output) else None
  }

  predicate SameTask(a: TaskResult, b: TaskResult) {
    a.workflowId == b.workflowId && a.taskId == b.taskId && a.processorId == b.processorId
  }

  // The runner of sandboxed processors.
  class SandboxRunner {
    const store: Store
    const stream: ResultStream
    const world: World
    const hasCache: bool
    const reliable: bool    // references, artifacts and the cache can be read and written
    const maxRetries: nat
    var entries: map<string, TaskResult>

    constructor (store: Store, stream: ResultStream, world: World, hasCache: bool, reliable: bool, maxRetries: nat)
      ensures this.store == store && this.stream == stream && this.world == world && this.hasCache == hasCache
      ensures this.reliable == reliable && this.maxRetries == maxRetries && entries == map[]
    {
      this.store, this.stream, this.world, this.hasCache := store, stream, world, hasCache;
      this.reliable, this.maxRetries, entries := reliable, maxRetries, map[];
    }

    // The outcome of a task is what the cache says it should be, or a failure to find out.
    ghost predicate Answered(call: Call, before: map<string, TaskResult>, result: TaskResult)
      reads this
    {
      var (next, output) := if hasCache then Serve(world, Outputs(before), call)
                            else (Outputs(before), Direct(world, call));
      && (result.status == Completed || (result.status == Failed && entries == before))
      && (result.status == Completed ==> Some(result.output) == output)
      && (Outputs(entries) == Outputs(before) || Outputs(entries) == next)
      && (reliable ==> Outcome(result) == output && Outputs(entries) == next)
    }

    // The execution the result is about is under way.
    ghost predicate Waits(m: Machine, pending: TaskResult)
      reads this, store, m
    {
      && store.Shows(m) && m.side == OfRunner && m.hold == OnExecution(pending.taskId)
      && pending.workflowId == m.wf.id
    }

    // And now it has ended.
    ghost predicate Recorded(m: Machine, before: seq<Label>, states: map<string, States>, result: TaskResult)
      reads this, store, m
    {
      && store.Shows(m) && m.side == OfRunner && m.hold == OnOutcome(Msg(result.taskId, result.status))
      && Ends(before, m.own, result, store.reliable)
      && (m.alone ==> store.states == states || store.states == WithResult(states, result))
      && (m.alone && store.reliable ==> store.states == WithResult(states, result))
    }

    // A failure is recorded before it is reported.
    method StoreFailure(result: TaskResult, m: Machine) returns (failed: TaskResult)
      requires Waits(m, result)
      modifies store`states, m
      ensures Recorded(m, old(m.own), old(store.states), failed)
      ensures failed.status == Failed && failed == result.(status := Failed, errorMessage := failed.errorMessage)
    {
      var message: string := *;
      failed := result.(status := Failed, errorMessage := message);
      StoreEnd(store, failed, m);
    }

    method Resolve(call: Call) returns (m: Option<Executable>)
      ensures m.Some? ==> m == ExecutableOf(world, call)
      ensures reliable ==> m == ExecutableOf(world, call)
    {
      var ok := Reach(reliable);
      return if ok then ExecutableOf(world, call) else None;
    }

    method GetCached(key: string) returns (ok: bool, cached: Option<TaskResult>)
      ensures ok ==> cached == if key in entries then Some(entries[key]) else None
      ensures reliable ==> ok
    {
      ok := Reach(reliable);
      cached := if key in entries then Some(entries[key]) else None;
    }

    method PutCached(key: string, result: TaskResult) returns (ok: bool)
      modifies this`entries
      ensures entries == if ok then old(entries)[key := result] else old(entries)
      ensures reliable ==> ok
    {
      ok := Reach(reliable);
      if ok {
        entries := entries[key := result];
      }
    }

    // Fetches what is needed and runs the program.
    method RunProgram(m: Executable, call: Call) returns (output: Option<string>)
      ensures output.Some? ==> output == world.program(m, call.input, call.attempt)
      ensures reliable ==> output == world.program(m, call.input, call.attempt)
    {
      var fetched := Reach(reliable);
      if !fetched {
        return None;
      }
      var ran := Reach(reliable);
      return if ran then world.program(m, call.input, call.attempt) else None;
    }

    method Execute(task: Task, attempt: nat, m: Machine) returns (result: TaskResult)
      requires store.Shows(m) && m.side == OfRunner && m.hold == OnMessage(task.id) && task.workflowId == m.wf.id
      requires OnlyCompleted(entries)
      modifies store`states, this`entries, m
      ensures store.Shows(m) && m.hold == OnOutcome(Msg(task.id, result.status))
      ensures Executes(old(m.own), m.own, result, store.reliable)
      ensures result.taskId == task.id && result.workflowId == m.wf.id && result.processorId == ProcessorRef(task).0
      ensures Answered(CallOf(task, attempt), old(entries), result) && OnlyCompleted(entries)
      ensures m.alone ==> Leads(m.wf, old(store.states), store.states, result, store.reliable)
    {
      var call := CallOf(task, attempt);
      result := TaskResult(task.workflowId, task.id, call.processor, Unset, "", "");
      ghost var running := result.(status := Running);
      var marked := StoreStart(store, result.(status := Running), m);
      ghost var mid := store.states;
      result := Attempt(call, result, m);
      if m.alone {
        LeadsOn(m.wf, old(store.states), mid, store.states, running, result, store.reliable);
      }
    }

    // The part of an execution that comes after Running has been written.
    method Attempt(call: Call, pending: TaskResult, m: Machine) returns (result: TaskResult)
      requires Waits(m, pending) && OnlyCompleted(entries) && pending.processorId == call.processor
      modifies store`states, this`entries, m
      ensures Recorded(m, old(m.own), old(store.states), result) && SameTask(pending, result)
      ensures Answered(call, old(entries), result) && OnlyCompleted(entries)
    {
      var manifest := Resolve(call);
      if manifest.None? {
        result := StoreFailure(pending, m);
        return;
      }
      var ok, key, cached := CachedResult(call, manifest.value, pending);
      if !ok {
        result := StoreFailure(pending, m);
      } else if cached.Some? {
        result := cached.value;
        StoreEnd(store, result, m);
      } else {
        result := Produce(call, manifest.value, key, pending, m);
      }
    }

    // Looks the task up in the cache, when there is one and the processor is deterministic;
    // the key is returned if the output is to be kept later.
    method CachedResult(call: Call, found: Executable, pending: TaskResult)
      returns (ok: bool, key: Option<string>, cached: Option<TaskResult>)
      requires Some(found) == ExecutableOf(world, call) && OnlyCompleted(entries)
      requires pending.processorId == call.processor
      ensures reliable ==> ok
      ensures ok ==> (key == if hasCache && found.deterministic then Some(KeyOf(world, call)) else None)
      ensures ok && cached.Some? ==> Answered(call, entries, cached.value) && SameTask(pending, cached.value)
      ensures ok && cached.Some? ==> cached.value.status == Completed
      ensures ok && cached.None? && key.Some? ==> key.value !in entries
    {
      if !hasCache || !found.deterministic {
        return true, None, None;
      }
      var k := KeyOf(world, call);
      var read, hit := GetCached(k);
      if !read {
        return false, None, None;
      }
      if hit.None? {
        return true, Some(k), None;
      }
      return true, Some(k), Some(hit.value.(workflowId := pending.workflowId, taskId := pending.taskId,
                                              processorId := call.processor));
    }

    // Executes the program and keeps the output of a deterministic one.
    method Produce(call: Call, found: Executable, key: Option<string>, pending: TaskResult, m: Machine)
      returns (result: TaskResult)
      requires Waits(m, pending) && OnlyCompleted(entries) && Some(found) == ExecutableOf(world, call)
      requires key == if hasCache && found.deterministic then Some(KeyOf(world, call)) else None
      requires key.Some? ==> key.value !in entries
      modifies store`states, this`entries, m
      ensures Recorded(m, old(m.own), old(store.states), result) && SameTask(pending, result)
      ensures Answered(call, old(entries), result) && OnlyCompleted(entries)
    {
      var output := RunProgram(found, call);
      if output.None? {
        result := StoreFailure(pending, m);
        return;
      }
      result := pending.(status := Completed, output := output.value);
      if key.Some? {
        OutputsOfUpdate(entries, key.value, result);
        var kept := PutCached(key.value, result);
      }
      StoreEnd(store, result, m);
    }

    // Takes one task message off the stream; None is a message that cannot be decoded.
    // delivered counts its deliveries, when that is known.
    method HandleTask(raw: Option<Task>, delivered: Option<nat>, attempt: nat, m: Machine)
      returns (acked: bool, ghost result: TaskResult)
      requires OnlyCompleted(entries)
      requires raw.Some? ==>
                 && store.Shows(m) && m.side == OfRunner && m.hold == OnMessage(raw.value.id)
                 && raw.value.workflowId == m.wf.id
      modifies store`states, this`entries, stream, m
      ensures OnlyCompleted(entries)
      ensures raw.None? ==> !acked && store.states == old(store.states) && stream.sent == old(stream.sent) &&
                            entries == old(entries) && m.own == old(m.own)
      ensures raw.Some? ==>
                && store.Shows(m) && m.hold == NoHold
                && Deals(old(m.own), m.own, result, acked, store.reliable, old(stream.sent), stream.sent)
      ensures raw.Some? ==> Answered(CallOf(raw.value, attempt), old(entries), result)
      ensures raw.Some? ==> result.taskId == raw.value.id && result.workflowId == m.wf.id
      ensures raw.Some? ==> (acked <==> !Retries(result, delivered, maxRetries))
      ensures acked && stream.reliable ==> stream.sent == old(stream.sent) + [result]
      ensures raw.Some? && m.alone ==> Leads(m.wf, old(store.states), store.states, result, store.reliable)
    {
      if raw.None? {
        acked, result := false, Marker("", "", Unset);
        return;
      }
      var outcome := Execute(raw.value, attempt, m);
      result := outcome;
      acked := Report(store, stream, outcome, delivered, maxRetries, m);
    }
  }

  // The runner of processors written with the development kit. It looks at the task's state
  // before it starts.
  class KitRunner {
    const store: Store
    const stream: ResultStream
    const processorId: string
    const program: string -> Option<string>
    const maxRetries: nat
    var active: set<TaskId>

    constructor (store: Store, stream: ResultStream, processorId: string, program: string -> Option<string>,
                 maxRetries: nat)
      ensures this.store == store && this.stream == stream && this.processorId == processorId
      ensures this.program == program && this.maxRetries == maxRetries && active == {}
    {
      this.store, this.stream, this.processorId := store, stream, processorId;
      this.program, this.maxRetries, active := program, maxRetries, {};
    }

    // The program may also be overtaken by its deadline or by a cancellation.
    method Execute(task: Task) returns (result: TaskResult)
      ensures result.workflowId == task.workflowId && result.taskId == task.id && result.processorId == processorId
      ensures Final(result.status)
      ensures result.status == Completed ==> Some(result.output) == program(task.input)
      ensures result.status == Failed ==> program(task.input) == None
      ensures result.status != Completed ==> result.output == ""
    {
      result := TaskResult(task.workflowId, task.id, processorId, Unset, "", "");
      var overtaken := *;
      if overtaken {
        var deadline := *;
        if deadline {
          return result.(status := TimedOut, errorMessage := "timeout");
        }
        return result.(status := Cancelled);
      }
      var output := program(task.input);
      if output.None? {
        var message: string := *;
        return result.(status := Failed, errorMessage := message);
      }
      return result.(status := Completed, output := output.value);
    }

    // Takes one task message off the stream. A task that reads as cancelled is dropped.
    method Handle(raw: Option<Task>, delivered: Option<nat>, m: Machine)
      returns (acked: bool, skipped: bool, ghost result: TaskResult)
      requires raw.Some? ==>
                 && store.Shows(m) && m.side == OfRunner && m.hold == OnMessage(raw.value.id)
                 && raw.value.workflowId == m.wf.id
      modifies store`states, stream, this`active, m
      ensures raw.None? ==> !acked && !skipped && active == old(active) && store.states == old(store.states) &&
                            stream.sent == old(stream.sent) && m.own == old(m.own)
      ensures raw.Some? ==> store.Shows(m) && m.hold == NoHold
      ensures skipped ==>
                && raw.Some? && acked && m.own == old(m.own) + [ByFault(Drop(raw.value.id))]
                && raw.value.id in m.now.status && m.now.status[raw.value.id] == Cancelled
                && stream.sent == old(stream.sent) && (m.alone ==> store.states == old(store.states))
      ensures raw.Some? && !skipped ==>
                && Deals(old(m.own), m.own, result, acked, store.reliable, old(stream.sent), stream.sent)
                && Final(result.status) && result.taskId == raw.value.id && result.workflowId == m.wf.id
                && (result.status == Completed ==> Some(result.output) == program(raw.value.input))
                && (acked <==> !Retries(result, delivered, maxRetries))
                && active == old(active) - {raw.value.id}
                && (m.alone ==> Leads(m.wf, old(store.states), store.states, result, store.reliable))
      ensures raw.Some? && !skipped && acked && stream.reliable ==> stream.sent == old(stream.sent) + [result]
      ensures m.alone && store.reliable && raw.Some? ==>
                (skipped <==> raw.value.id in old(m.now.status) && old(m.now.status[raw.value.id]) == Cancelled)
    {
      if raw.None? {
        acked, skipped, result := false, false, Marker("", "", Unset);
        return;
      }
      var task := raw.value;
      var st := store.GetTaskState(task.workflowId, task.id, m);
      if st.Some? && st.value.status == Cancelled {
        acked, skipped, result := true, true, st.value;
        m.Step(ByFault(Drop(task.id)));
        return;
      }
      skipped := false;
      acked, result := Carry(task, delivered, m);
    }

    // Carries a task out, keeping it among the active ones meanwhile, and reports.
    method Carry(task: Task, delivered: Option<nat>, m: Machine) returns (acked: bool, ghost result: TaskResult)
      requires store.Shows(m) && m.side == OfRunner && m.hold == OnMessage(task.id) && task.workflowId == m.wf.id
      modifies store`states, stream, this`active, m
      ensures store.Shows(m) && m.hold == NoHold
      ensures Deals(old(m.own), m.own, result, acked, store.reliable, old(stream.sent), stream.sent)
      ensures Final(result.status) && result.taskId == task.id && result.workflowId == m.wf.id
      ensures result.status == Completed ==> Some(result.output) == program(task.input)
      ensures acked <==> !Retries(result, delivered, maxRetries)
      ensures acked && stream.reliable ==> stream.sent == old(stream.sent) + [result]
      ensures active == old(active) - {task.id}
      ensures m.alone ==> Leads(m.wf, old(store.states), store.states, result, store.reliable)
    {
      active := active + {task.id};
      var outcome := Perform(task, m);
      result := outcome;
      active := active - {task.id};
      acked := Report(store, stream, outcome, delivered, maxRetries, m);
    }

    // Running is written, the program runs, its outcome is written.
    method Perform(task: Task, m: Machine) returns (result: TaskResult)
      requires store.Shows(m) && m.side == OfRunner && m.hold == OnMessage(task.id) && task.workflowId == m.wf.id
      modifies store`states, m
      ensures store.Shows(m) && m.hold == OnOutcome(Msg(task.id, result.status))
      ensures Executes(old(m.own), m.own, result, store.reliable)
      ensures result.taskId == task.id && result.workflowId == m.wf.id && Final(result.status)
      ensures result.status == Completed ==> Some(result.output) == program(task.input)
      ensures m.alone ==> Leads(m.wf, old(store.states), store.states, result, store.reliable)
    {
      var begun := Marker(task.workflowId, task.id, Running).(processorId := processorId);
      var started := StoreStart(store, begun, m);
      ghost var mid := store.states;
      result := Execute(task);
      StoreEnd(store, result, m);
      if m.alone {
        LeadsOn(m.wf, old(store.states), mid, store.states, begun, result, store.reliable);
      }
    }
  }

  lemma OutputsOfUpdate(entries: map<string, TaskResult>, key: string, result: TaskResult)
    ensures Outputs(entries[key := result]) == Outputs(entries)[key := result.output]
  {
  }
}
