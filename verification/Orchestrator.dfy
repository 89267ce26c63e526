// The handlers of the control plane as they are written: loops over maps, reads and writes
// of the store, and publications. Each is proved to walk through steps of the protocol
// machine, whatever the other participants do in between, and what it does to the records
// when the others keep still.

module Orchestrator {
  import opened Workflows
  import opened Protocol
  import opened Basics
  import opened Interleaving
  import opened WorkflowStore
  import opened Dispatching
  import Dag

  datatype Message = Message(subject: string, task: Task)

  datatype ReplyMessage = ReplyMessage(id: string, subject: string, result: Result)

  class Publisher {
    const reliable: bool
    var sent: seq<Message>
    var replies: seq<ReplyMessage>
    var cancels: seq<string>

    constructor (reliable: bool)
      ensures this.reliable == reliable && sent == [] && replies == [] && cancels == []
    {
      this.reliable := reliable;
      sent, replies, cancels := [], [], [];
    }

    method Publish(subject: string, t: Task) returns (ok: bool)
      modifies this`sent
      ensures sent == old(sent) + (if ok then [Message(subject, t)] else [])
      ensures reliable ==> ok
    {
      ok := Reach(reliable);
      if ok {
        sent := sent + [Message(subject, t)];
      }
    }

    method PublishWithID(id: string, subject: string, result: Result) returns (ok: bool)
      modifies this`replies
      ensures replies == old(replies) + (if ok then [ReplyMessage(id, subject, result)] else [])
      ensures reliable ==> ok
    {
      ok := Reach(reliable);
      if ok {
        replies := replies + [ReplyMessage(id, subject, result)];
      }
    }

    method PublishCancel(workflowId: string) returns (ok: bool)
      modifies this`cancels
      ensures cancels == old(cancels) + (if ok then [workflowId] else [])
      ensures reliable ==> ok
    {
      ok := Reach(reliable);
      if ok {
        cancels := cancels + [workflowId];
      }
    }
  }

  // The new messages at the end of a stream are those of the listed tasks, in order.
  ghost predicate Adds(before: seq<Message>, after: seq<Message>, wf: Workflow, ids: seq<TaskId>) {
    && |after| == |before| + |ids| && before <= after
    && forall i | 0 <= i < |ids| :: ids[i] in wf.tasks && after[|before| + i].task == Stamped(wf, ids[i])
  }

  // ---------------------------------------------------------------------------
  // Publishing a task

  // The submission handler and the result handler publish in the same way, but by steps of
  // their own.
  function SendLabel(side: Side, id: TaskId): Label {
    if side == OfEngine then ByEngine(SendRoot(id)) else ByHandler(Send)
  }

  function MarkLabel(side: Side): Label {
    if side == OfEngine then ByEngine(MarkRoot) else ByHandler(Mark)
  }

  function SkipLabel(side: Side, id: TaskId): Label {
    if side == OfEngine then ByFault(SkipRoot(id)) else ByFault(SkipSend)
  }

  function ForgetLabel(side: Side): Label {
    if side == OfEngine then ByFault(ForgetRoot) else ByFault(ForgetMark)
  }

  ghost function PublishSteps(side: Side, id: TaskId, sent: bool, marked: bool): seq<Label> {
    if !sent then [SkipLabel(side, id)]
    else [SendLabel(side, id), if marked then MarkLabel(side) else ForgetLabel(side)]
  }

  // The task is the next to be published.
  ghost predicate Publishes(wf: Workflow, s: Sys, side: Side, id: TaskId) {
    || (side == OfEngine && s.engine.Submitting? && id in s.engine.todo)
    || (side == OfHandler && s.handler.Probing? && s.handler.id == id && s.handler.k == |DepsOf(wf.dependencies, id)|)
  }

  // And it has been dealt with.
  ghost predicate Passes(a: Sys, b: Sys, side: Side, id: TaskId) {
    && (side == OfEngine ==> a.engine.Submitting? && b.engine == Submitting(a.engine.todo - {id}))
    && (side == OfHandler ==> a.handler.Probing? && b.handler == Scanning(a.handler.msg, a.handler.todo))
  }

  ghost function WithMark(all: map<string, States>, t: Task): map<string, States> {
    all[t.workflowId := Within(all, t.workflowId)[t.id := Marker(t.workflowId, t.id, Queued)]]
  }

  method Route(routable: bool, t: Task) returns (subject: Option<string>)
    ensures routable ==> subject.Some?
  {
    var ok := Reach(routable);
    if ok {
      var s := *;
      return Some(s);
    }
    return None;
  }

  // Publishes a task and then marks it as queued; either may fail.
  method PublishTask(store: Store, pub: Publisher, routable: bool, t: Task, m: Machine)
    returns (sent: bool, marked: bool)
    requires store.Shows(m) && t.workflowId == m.wf.id && Publishes(m.wf, m.now, m.side, t.id)
    modifies store`states, m, pub`sent
    ensures store.Shows(m) && Keeps(old(m.now), m.now, m.side) && Passes(old(m.now), m.now, m.side, t.id)
    ensures m.own == old(m.own) + PublishSteps(m.side, t.id, sent, marked)
    ensures m.sent == old(m.sent) + if sent then [t.id] else []
    ensures marked ==> sent
    ensures store.reliable && pub.reliable && routable ==> marked
    ensures |pub.sent| == |old(pub.sent)| + (if sent then 1 else 0) && old(pub.sent) <= pub.sent
    ensures sent ==> pub.sent[|old(pub.sent)|].task == t
    ensures m.alone ==> store.states == if marked then WithMark(old(store.states), t) else old(store.states)
  {
    marked := false;
    var subject := Route(routable, t);
    store.Others(m);
    sent := false;
    if subject.Some? {
      sent := pub.Publish(subject.value, t);
    }
    if !sent {
      m.Step(SkipLabel(m.side, t.id));
      return;
    }
    m.Step(SendLabel(m.side, t.id));
    marked := Record(store, t, m);
  }

  // The second half: the mark.
  method Record(store: Store, t: Task, m: Machine) returns (marked: bool)
    requires store.Shows(m) && t.workflowId == m.wf.id
    requires (m.side == OfEngine && m.now.engine.RootSent? && m.now.engine.id == t.id) ||
             (m.side == OfHandler && m.now.handler.Sent? && m.now.handler.id == t.id)
    modifies store`states, m
    ensures store.Shows(m) && Keeps(old(m.now), m.now, m.side)
    ensures m.side == OfEngine ==> m.now.engine == Submitting(old(m.now.engine.todo))
    ensures m.side == OfHandler ==> m.now.handler == Scanning(old(m.now.handler.msg), old(m.now.handler.todo))
    ensures m.own == old(m.own) + [if marked then MarkLabel(m.side) else ForgetLabel(m.side)]
    ensures m.sent == old(m.sent) && (store.reliable ==> marked)
    ensures m.alone ==> store.states == if marked then WithMark(old(store.states), t) else old(store.states)
  {
    marked := store.StoreTaskState(t.workflowId, t.id, Marker(t.workflowId, t.id, Queued), m);
    m.Step(if marked then MarkLabel(m.side) else ForgetLabel(m.side));
  }

  // ---------------------------------------------------------------------------
  // Handling results

  // Steps within the handling of one result.
  predicate Inner(l: Label) {
    (l.ByHandler? && !l.h.Take?) || (l.ByFault? && l.f in {ProbeError, SkipSend, ForgetMark, AbandonReply})
  }

  // The message was taken and dealt with, or else given back.
  ghost predicate Handles(before: seq<Label>, after: seq<Label>, msg: Msg, well: bool) {
    Grown(before + [ByHandler(Take(msg))], after, Inner, well)
  }

  ghost predicate GivesBack(before: seq<Label>, after: seq<Label>, msg: Msg) {
    exists mid :: Handles(before, mid, msg, true) && after == mid + [ByFault(Abandon)]
  }

  ghost predicate AllRead(states: States, deps: seq<TaskId>) {
    forall j | 0 <= j < |deps| :: HasCompleted(states, deps[j])
  }

  ghost predicate HasCompleted(states: States, id: TaskId) {
    id in states && states[id].status == Completed
  }

  lemma ViewOf(states: States, id: TaskId)
    ensures HasCompleted(states, id) <==> id in StatusView(states) && StatusView(states)[id] == Completed
  {
  }

  // A scan after the completion of a task changes nothing but to mark tasks it published,
  // and publishes only dependents that were ready when it began, each once.
  ghost predicate Dispatched(wf: Workflow, doneTask: TaskId, before: States, after: States, ids: seq<TaskId>) {
    && Distinct(ids)
    && (forall id | id in ids :: Due(wf, doneTask, before, id))
    && (forall id | id in before :: id in after)
    && (forall id | id in after ::
          || (id in before && after[id] == before[id])
          || (id in ids && after[id] == Marker(wf.id, id, Queued)))
  }

  // Looking at one dependent publishes it or not, and marks it at most if it was published.
  ghost predicate Visited(wf: Workflow, doneTask: TaskId, before: States, after: States, id: TaskId, ids: seq<TaskId>) {
    && (ids == [] || (ids == [id] && Due(wf, doneTask, before, id)))
    && (after == before || (ids == [id] && after == before[id := Marker(wf.id, id, Queued)]))
  }

  // It is published and marked exactly when it is due, if all goes well.
  ghost predicate VisitedWell(wf: Workflow, doneTask: TaskId, before: States, after: States, id: TaskId,
                              ids: seq<TaskId>)
  {
    if Due(wf, doneTask, before, id) then ids == [id] && after == before[id := Marker(wf.id, id, Queued)]
    else ids == [] && after == before
  }

  // A task is published at most if it is ready, and marked at most if it is published; and
  // both if it is ready and all goes well.
  ghost predicate SendsIfReady(wf: Workflow, first: map<string, States>, now: map<string, States>, id: TaskId,
                               ids: seq<TaskId>, well: bool)
  {
    var (before, after) := (Within(first, wf.id), Within(now, wf.id));
    var marked := before[id := Marker(wf.id, id, Queued)];
    && Apart(wf.id, first, now)
    && (ids == [] || (ids == [id] && Ready(wf, before, id))) && (after == before || (ids == [id] && after == marked))
    && (well ==> if Ready(wf, before, id) then ids == [id] && after == marked else ids == [] && after == before)
  }

  lemma DispatchOne(wf: Workflow, doneTask: TaskId, before: States, mid: States, after: States,
                    ids: seq<TaskId>, id: TaskId, more: seq<TaskId>)
    requires Dispatched(wf, doneTask, before, mid, ids) && id !in ids
    requires Visited(wf, doneTask, mid, after, id, more)
    ensures Dispatched(wf, doneTask, before, after, ids + more)
  {
    if more == [] {
      assert ids + more == ids;
      return;
    }
    forall d | DependsOn(wf.dependencies, id, d) ensures d in before && before[d].status == Completed {
      assert d in mid && mid[d].status == Completed;
    }
    assert forall x :: x in ids + [id] <==> x in ids || x == id;
  }

  // When faults keep away, this is the scan of the dependency table in some order.
  ghost predicate Scanned(wf: Workflow, doneTask: TaskId, before: States, after: States, ids: seq<TaskId>) {
    exists order :: Enumerates(order, wf.dependencies.Keys) && Scan(wf, doneTask, before, order) == (after, ids)
  }

  // Part of the dependency table has been scanned: what was published, and what became of the
  // records of this workflow and of the others.
  ghost predicate ScanSoFar(wf: Workflow, doneTask: TaskId, first: map<string, States>, now: map<string, States>,
                            ids: seq<TaskId>, order: seq<TaskId>, todo: set<TaskId>, well: bool)
  {
    && Enumerates(order, wf.dependencies.Keys - todo) && Apart(wf.id, first, now)
    && Dispatched(wf, doneTask, Within(first, wf.id), Within(now, wf.id), ids)
    && (well ==> Scan(wf, doneTask, Within(first, wf.id), order) == (Within(now, wf.id), ids))
  }

  lemma ScanNothing(wf: Workflow, doneTask: TaskId, all: map<string, States>, well: bool)
    ensures ScanSoFar(wf, doneTask, all, all, [], [], wf.dependencies.Keys, well)
  {
    assert wf.dependencies.Keys - wf.dependencies.Keys == {};
  }

  lemma ScanMore(wf: Workflow, doneTask: TaskId, first: map<string, States>, last: map<string, States>,
                 now: map<string, States>, ids: seq<TaskId>, order: seq<TaskId>, todo: set<TaskId>, well: bool,
                 id: TaskId, more: seq<TaskId>)
    requires ScanSoFar(wf, doneTask, first, last, ids, order, todo, well) && id !in ids
    requires id in todo && todo <= wf.dependencies.Keys
    requires Apart(wf.id, last, now) && Visited(wf, doneTask, Within(last, wf.id), Within(now, wf.id), id, more)
    requires well ==> VisitedWell(wf, doneTask, Within(last, wf.id), Within(now, wf.id), id, more)
    ensures ScanSoFar(wf, doneTask, first, now, ids + more, order + [id], todo - {id}, well)
  {
    EnumerateOne(order, wf.dependencies.Keys, todo, id);
    ApartThen(wf.id, first, last, now);
    DispatchOne(wf, doneTask, Within(first, wf.id), Within(last, wf.id), Within(now, wf.id), ids, id, more);
    if well {
      ScanNext(wf, doneTask, Within(first, wf.id), order, Within(last, wf.id), ids, id, Within(now, wf.id), more);
    }
  }

  // The tasks of a scan, whoever else writes meanwhile: dependents of the task, each once.
  ghost predicate Candidates(wf: Workflow, doneTask: TaskId, ids: seq<TaskId>, todo: set<TaskId>) {
    Distinct(ids) && forall id | id in ids :: DependsOn(wf.dependencies, id, doneTask) && id !in todo
  }

  lemma CandidateMore(wf: Workflow, doneTask: TaskId, ids: seq<TaskId>, todo: set<TaskId>, id: TaskId,
                      more: seq<TaskId>)
    requires Candidates(wf, doneTask, ids, todo) && id in todo
    requires more == [] || (more == [id] && DependsOn(wf.dependencies, id, doneTask))
    ensures Candidates(wf, doneTask, ids + more, todo - {id})
  {
    assert forall x :: x in ids + more <==> x in ids || x in more;
  }

  // The handler has gone on with the result at hand and done nothing else.
  ghost predicate Strides(a: Sys, b: Sys, before: seq<Label>, after: seq<Label>, well: bool) {
    Keeps(a, b, OfHandler) && Grown(before, after, Inner, well)
  }

  lemma StrideOn(a: Sys, b: Sys, c: Sys, first: seq<Label>, before: seq<Label>, after: seq<Label>, well: bool)
    requires Strides(a, b, first, before, well) && Strides(b, c, before, after, well)
    ensures Strides(a, c, first, after, well)
  {
    GrownMore(first, before, after, Inner, well);
  }

  // Such tasks are what was published.
  ghost predicate AddsDue(before: seq<Message>, after: seq<Message>, wf: Workflow, doneTask: TaskId, ids: seq<TaskId>,
                          todo: set<TaskId>)
  {
    Adds(before, after, wf, ids) && Candidates(wf, doneTask, ids, todo)
  }

  lemma AddMoreDue(a: seq<Message>, b: seq<Message>, c: seq<Message>, wf: Workflow, doneTask: TaskId,
                   ids: seq<TaskId>, todo: set<TaskId>, id: TaskId, more: seq<TaskId>)
    requires AddsDue(a, b, wf, doneTask, ids, todo) && Adds(b, c, wf, more) && id in todo
    requires more == [] || (more == [id] && DependsOn(wf.dependencies, id, doneTask))
    ensures AddsDue(a, c, wf, doneTask, ids + more, todo - {id}) && id !in ids
  {
    AddMore(a, b, c, wf, ids, more);
    CandidateMore(wf, doneTask, ids, todo, id, more);
  }

  class ResultHandler {
    const store: Store
    const pub: Publisher
    const routable: bool   // every task can be given a subject

    constructor (store: Store, pub: Publisher, routable: bool)
      ensures this.store == store && this.pub == pub && this.routable == routable
    {
      this.store, this.pub, this.routable := store, pub, routable;
    }

    ghost predicate AllGoesWell()
      reads this
    {
      store.reliable && pub.reliable && routable
    }

    // The machine of the handler agrees with the store.
    ghost predicate InStep(m: Machine)
      reads this, store, m
    {
      store.Shows(m) && m.side == OfHandler
    }

    method ProbeOne(workflowId: string, dep: TaskId, m: Machine) returns (completed: bool)
      requires InStep(m) && workflowId == m.wf.id && m.now.handler.Probing?
      requires m.now.handler.k < |DepsOf(m.wf.dependencies, m.now.handler.id)|
      requires dep == DepsOf(m.wf.dependencies, m.now.handler.id)[m.now.handler.k]
      modifies store`states, m
      ensures InStep(m) && Keeps(old(m.now), m.now, OfHandler) && m.sent == old(m.sent)
      ensures
        var h := old(m.now.handler);
        m.now.handler == if completed then h.(k := h.k + 1) else Scanning(h.msg, h.todo)
      ensures Grown(old(m.own), m.own, Inner, store.reliable)
      ensures m.alone ==>
                && store.states == old(store.states)
                && (completed ==> HasCompleted(store.StatesOf(workflowId), dep))
                && (store.reliable && HasCompleted(store.StatesOf(workflowId), dep) ==> completed)
    {
      var st := store.GetTaskState(workflowId, dep, m);
      ViewOf(store.StatesOf(workflowId), dep);
      completed := st.Some? && st.value.status == Completed;
      m.Step(if !completed && StatusOf(m.now, dep) == Completed then ByFault(ProbeError) else ByHandler(Probe));
    }

    // Reads dependencies until one is not completed or cannot be read.
    method IsReady(workflowId: string, deps: seq<TaskId>, m: Machine) returns (ready: bool)
      requires InStep(m) && workflowId == m.wf.id && m.now.handler.Probing? && m.now.handler.k == 0
      requires deps == DepsOf(m.wf.dependencies, m.now.handler.id)
      modifies store`states, m
      ensures InStep(m) && Keeps(old(m.now), m.now, OfHandler) && m.sent == old(m.sent)
      ensures
        var h := old(m.now.handler);
        m.now.handler == if ready then h.(k := |deps|) else Scanning(h.msg, h.todo)
      ensures Grown(old(m.own), m.own, Inner, store.reliable)
      ensures m.alone ==>
                && store.states == old(store.states)
                && (ready ==> AllRead(store.StatesOf(workflowId), deps))
                && (store.reliable && AllRead(store.StatesOf(workflowId), deps) ==> ready)
    {
      ghost var h := m.now.handler;
      for i := 0 to |deps|
        invariant InStep(m) && Keeps(old(m.now), m.now, OfHandler) && m.sent == old(m.sent)
        invariant m.now.handler == h.(k := i) && Grown(old(m.own), m.own, Inner, store.reliable)
        invariant m.alone ==> store.states == old(store.states)
        invariant m.alone ==> forall j | 0 <= j < i :: HasCompleted(store.StatesOf(workflowId), deps[j])
      {
        ghost var mine := m.own;
        var completed := ProbeOne(workflowId, deps[i], m);
        GrownMore(old(m.own), mine, m.own, Inner, store.reliable);
        if !completed {
          return false;
        }
      }
      return true;
    }

    method Depends(deps: seq<TaskId>, doneTask: TaskId) returns (depends: bool)
      ensures depends <==> doneTask in deps
    {
      depends := false;
      for i := 0 to |deps|
        invariant doneTask !in deps[..i]
      {
        if deps[i] == doneTask {
          return true;
        }
        assert deps[..i + 1] == deps[..i] + [deps[i]];
      }
      assert deps[..|deps|] == deps;
    }

    // The end of an iteration that found every dependency completed.
    method SendReady(wf: Workflow, id: TaskId, m: Machine) returns (ghost ids: seq<TaskId>)
      requires InStep(m) && m.wf == wf && id in wf.tasks
      requires m.now.handler.Probing? && m.now.handler.id == id && m.now.handler.k == |DepsOf(wf.dependencies, id)|
      modifies store`states, m, pub`sent
      ensures InStep(m) && Keeps(old(m.now), m.now, OfHandler) && m.sent == old(m.sent) + ids
      ensures m.now.handler == Scanning(old(m.now.handler.msg), old(m.now.handler.todo))
      ensures Grown(old(m.own), m.own, Inner, AllGoesWell())
      ensures Adds(old(pub.sent), pub.sent, wf, ids) && (ids == [] || ids == [id])
      ensures AllGoesWell() ==> ids == [id]
      ensures m.alone ==>
                && Apart(wf.id, old(store.states), store.states)
                && (store.StatesOf(wf.id) == old(store.StatesOf(wf.id)) ||
                    (ids == [id] &&
                     store.StatesOf(wf.id) == old(store.StatesOf(wf.id))[id := Marker(wf.id, id, Queued)]))
                && (AllGoesWell() ==>
                      store.StatesOf(wf.id) == old(store.StatesOf(wf.id))[id := Marker(wf.id, id, Queued)])
    {
      ghost var states := store.StatesOf(wf.id);
      assert Apart(wf.id, store.states, store.states);
      ApartUpdate(wf.id, store.states, store.states, states[id := Marker(wf.id, id, Queued)]);
      var task := Stamped(wf, id);
      var sent, marked := PublishTask(store, pub, routable, task, m);
      ids := if sent then [id] else [];
    }

    // One iteration of the scan.
    method VisitDependent(wf: Workflow, doneTask: TaskId, id: TaskId, m: Machine) returns (ghost ids: seq<TaskId>)
      requires InStep(m) && m.wf == wf && Accepted(wf) && id in wf.dependencies
      requires m.now.handler.Scanning? && id in m.now.handler.todo && m.now.handler.msg.task == doneTask
      modifies store`states, m, pub`sent
      ensures InStep(m) && Keeps(old(m.now), m.now, OfHandler) && m.sent == old(m.sent) + ids
      ensures m.now.handler == Scanning(old(m.now.handler.msg), old(m.now.handler.todo) - {id})
      ensures Grown(old(m.own), m.own, Inner, AllGoesWell())
      ensures Adds(old(pub.sent), pub.sent, wf, ids)
      ensures ids == [] || (ids == [id] && DependsOn(wf.dependencies, id, doneTask))
      ensures m.alone ==>
                && Apart(wf.id, old(store.states), store.states)
                && Visited(wf, doneTask, old(store.StatesOf(wf.id)), store.StatesOf(wf.id), id, ids)
                && (AllGoesWell() ==>
                      VisitedWell(wf, doneTask, old(store.StatesOf(wf.id)), store.StatesOf(wf.id), id, ids))
    {
      ghost var first := m.own;
      assert Apart(wf.id, store.states, store.states);
      var deps := wf.dependencies[id];
      ids := [];
      m.Step(ByHandler(Consider(id)));
      GrownOne(first, first, ByHandler(Consider(id)), Inner, AllGoesWell());
      var depends := Depends(deps, doneTask);
      if !depends {
        return;
      }
      ghost var mine := m.own;
      ids := SendIfReady(wf, id, m);
      GrownMore(first, mine, m.own, Inner, AllGoesWell());
    }

    method SendIfReady(wf: Workflow, id: TaskId, m: Machine) returns (ghost ids: seq<TaskId>)
      requires InStep(m) && m.wf == wf && Accepted(wf) && id in wf.dependencies
      requires m.now.handler.Probing? && m.now.handler.id == id && m.now.handler.k == 0
      modifies store`states, m, pub`sent
      ensures InStep(m) && Keeps(old(m.now), m.now, OfHandler) && m.sent == old(m.sent) + ids
      ensures m.now.handler == Scanning(old(m.now.handler.msg), old(m.now.handler.todo))
      ensures Grown(old(m.own), m.own, Inner, AllGoesWell())
      ensures Adds(old(pub.sent), pub.sent, wf, ids) && (ids == [] || ids == [id])
      ensures m.alone ==>
                SendsIfReady(wf, old(store.states), store.states, id, ids, AllGoesWell())
    {
      assert Apart(wf.id, store.states, store.states);
      ids := [];
      var ready := IsReady(wf.id, wf.dependencies[id], m);
      ReadIsReady(wf, old(store.StatesOf(wf.id)), id);
      if !ready {
        return;
      }
      ghost var mine := m.own;
      ids := SendReady(wf, id, m);
      GrownMore(old(m.own), mine, m.own, Inner, AllGoesWell());
    }

    method ScanDependents(wf: Workflow, doneTask: TaskId, m: Machine) returns (ghost ids: seq<TaskId>)
      requires InStep(m) && m.wf == wf && Accepted(wf)
      requires m.now.handler.Scanning? && m.now.handler.msg.task == doneTask
      requires m.now.handler.todo == wf.dependencies.Keys
      modifies store`states, m, pub`sent
      ensures InStep(m) && Keeps(old(m.now), m.now, OfHandler) && m.sent == old(m.sent) + ids
      ensures m.now.handler == Scanning(old(m.now.handler.msg), {}) && Grown(old(m.own), m.own, Inner, AllGoesWell())
      ensures Adds(old(pub.sent), pub.sent, wf, ids) && Candidates(wf, doneTask, ids, {})
      ensures m.alone ==>
                && Apart(wf.id, old(store.states), store.states)
                && Dispatched(wf, doneTask, old(store.StatesOf(wf.id)), store.StatesOf(wf.id), ids)
                && (AllGoesWell() ==> Scanned(wf, doneTask, old(store.StatesOf(wf.id)), store.StatesOf(wf.id), ids))
    {
      var todo := wf.dependencies.Keys;
      ids := [];
      ghost var order: seq<TaskId> := [];
      ghost var msg := m.now.handler.msg;
      ScanNothing(wf, doneTask, store.states, AllGoesWell());
      while todo != {}
        invariant todo <= wf.dependencies.Keys && InStep(m) && m.now.handler == Scanning(msg, todo)
        invariant Strides(old(m.now), m.now, old(m.own), m.own, AllGoesWell()) && m.sent == old(m.sent) + ids
        invariant AddsDue(old(pub.sent), pub.sent, wf, doneTask, ids, todo)
        invariant m.alone ==> ScanSoFar(wf, doneTask, old(store.states), store.states, ids, order, todo, AllGoesWell())
        decreases |todo|
      {
        var id :| id in todo;
        ghost var now, before, mine, last := m.now, pub.sent, m.own, store.states;
        ghost var more := VisitDependent(wf, doneTask, id, m);
        StrideOn(old(m.now), now, m.now, old(m.own), mine, m.own, AllGoesWell());
        AddMoreDue(old(pub.sent), before, pub.sent, wf, doneTask, ids, todo, id, more);
        if m.alone {
          ScanMore(wf, doneTask, old(store.states), last, store.states, ids, order, todo, AllGoesWell(), id, more);
        }
        order, ids := order + [id], ids + more;
        todo := todo - {id};
      }
      if m.alone {
        ScanIsScanned(wf, doneTask, old(store.states), store.states, ids, order, todo, AllGoesWell());
      }
    }

    // Publishes the dependents of a task that are ready. When nobody else writes meanwhile,
    // this is a scan of the dependency table in some order, as far as nothing fails.
    method PublishReady(wf: Workflow, doneTask: TaskId, m: Machine) returns (ghost ids: seq<TaskId>)
      requires InStep(m) && m.wf == wf && Accepted(wf)
      requires m.now.handler.Scanning? && m.now.handler.msg.task == doneTask
      requires m.now.handler.todo == wf.dependencies.Keys
      modifies store`states, m, pub`sent
      ensures InStep(m) && Keeps(old(m.now), m.now, OfHandler) && m.sent == old(m.sent) + ids
      ensures m.now.handler == Idle && Grown(old(m.own), m.own, Inner, AllGoesWell())
      ensures Adds(old(pub.sent), pub.sent, wf, ids) && Candidates(wf, doneTask, ids, {})
      ensures m.alone ==>
                && Apart(wf.id, old(store.states), store.states)
                && Dispatched(wf, doneTask, old(store.StatesOf(wf.id)), store.StatesOf(wf.id), ids)
                && (AllGoesWell() ==> Scanned(wf, doneTask, old(store.StatesOf(wf.id)), store.StatesOf(wf.id), ids))
    {
      ids := ScanDependents(wf, doneTask, m);
      ghost var mine := m.own;
      m.Step(ByHandler(EndScan));
      GrownOne(old(m.own), mine, ByHandler(EndScan), Inner, AllGoesWell());
    }

    // Collects the reply; the message of the result at hand, when it has one, takes the place
    // of what was collected. The second result are the records as they were read.
    method Compose(wf: Workflow, last: TaskResult, m: Machine) returns (reply: Option<Result>, ghost read: States)
      requires InStep(m) && m.wf == wf && store.Knows(m)
      requires m.now.handler.Aggregating? && m.now.handler.todo == wf.tasks.Keys && !m.now.handler.failed
      modifies store`states, m
      ensures InStep(m) && Keeps(old(m.now), m.now, OfHandler) && m.sent == old(m.sent)
      ensures Grown(old(m.own), m.own, Inner, true)
      ensures m.now.handler.Aggregating? && m.now.handler.msg == old(m.now.handler.msg)
      ensures reply.Some? ==>
                && Faithful(wf, read, last, ReplyMessage(wf.id, wf.replySubject, reply.value))
                && m.now.handler.todo == {} && (m.now.handler.failed <==> reply.value.status != Completed)
      ensures store.reliable && wf.id in store.workflows && wf.tasks.Keys <= old(m.now.status.Keys) ==> reply.Some?
      ensures m.alone ==> store.states == old(store.states) && (reply.Some? ==> read == store.StatesOf(wf.id))
    {
      ghost var order;
      var aggregate;
      aggregate, order, read := store.AggregateResult(wf.id, m);
      GathersInside(old(m.own), m.own);
      if aggregate.None? {
        return None, read;
      }
      if m.alone {
        ReadAll(wf, order, aggregate.value, read, store.StatesOf(wf.id));
        read := store.StatesOf(wf.id);
      }
      var result := aggregate.value;
      CollectedStatus(read, order, result);
      if result.status == Failed {
        if last.errorMessage != "" {
          result := result.(error := Some(Failure(last.processorId, last.taskId, last.errorMessage)));
        }
      } else {
        result := result.(status := Completed);
      }
      IsFaithful(wf, read, order, aggregate.value, last, ReplyMessage(wf.id, wf.replySubject, result));
      return Some(result), read;
    }

    // After a failure the runners are told to stop.
    method StopOthers(wf: Workflow, last: TaskResult)
      modifies pub`cancels
      ensures Cancels(wf, last, old(pub.cancels), pub.cancels, pub.reliable)
    {
      if last.status == Failed || last.status == TimedOut {
        var cancelled := pub.PublishCancel(wf.id);
      }
    }

    // Puts the reply on its way.
    method Deliver(wf: Workflow, reply: Result, ghost read: States, ghost last: TaskResult, m: Machine)
      requires InStep(m) && m.wf == wf && m.now.handler.Aggregating? && m.now.handler.todo == {}
      requires m.now.handler.failed <==> reply.status != Completed
      requires Faithful(wf, read, last, ReplyMessage(wf.id, wf.replySubject, reply))
      modifies store`states, m, pub`replies
      ensures InStep(m) && old(m.now.status.Keys) <= m.now.status.Keys && m.sent == old(m.sent) && m.now.handler == Idle
      ensures Grown(old(m.own), m.own, Inner, AllGoesWell())
      ensures Answers(wf, read, last, old(pub.replies), pub.replies, old(m.now.replies), m.now.replies)
      ensures AllGoesWell() ==> |pub.replies| == |old(pub.replies)| + 1
      ensures m.alone ==> store.states == old(store.states)
    {
      store.Others(m);
      var sent := pub.PublishWithID(wf.id, wf.replySubject, reply);
      DeliverAnswers(wf, read, last, reply, old(pub.replies), m.now.replies, sent);
      m.Step(if sent then ByHandler(Reply) else ByFault(AbandonReply));
    }

    // Composes and publishes the reply; with the message of the last result when it has one.
    method Finalize(wf: Workflow, result: TaskResult, m: Machine) returns (ghost read: States)
      requires InStep(m) && m.wf == wf && store.Knows(m)
      requires m.now.handler.Aggregating? && m.now.handler.todo == wf.tasks.Keys && !m.now.handler.failed
      modifies store`states, m, pub`replies, pub`cancels
      ensures InStep(m) && old(m.now.status.Keys) <= m.now.status.Keys && m.sent == old(m.sent) && m.now.handler == Idle
      ensures Grown(old(m.own), m.own, Inner, AllGoesWell() && wf.id in store.workflows &&
                                              wf.tasks.Keys <= old(m.now.status.Keys))
      ensures Answers(wf, read, result, old(pub.replies), pub.replies, old(m.now.replies), m.now.replies)
      ensures AllGoesWell() && wf.id in store.workflows && wf.tasks.Keys <= old(m.now.status.Keys) ==>
                |pub.replies| == |old(pub.replies)| + 1
      ensures Cancels(wf, result, old(pub.cancels), pub.cancels, pub.reliable)
      ensures m.alone ==> store.states == old(store.states) && read == store.StatesOf(wf.id)
    {
      StopOthers(wf, result);
      read := Answer(wf, result, m);
    }

    method Answer(wf: Workflow, result: TaskResult, m: Machine) returns (ghost read: States)
      requires InStep(m) && m.wf == wf && store.Knows(m)
      requires m.now.handler.Aggregating? && m.now.handler.todo == wf.tasks.Keys && !m.now.handler.failed
      modifies store`states, m, pub`replies
      ensures InStep(m) && old(m.now.status.Keys) <= m.now.status.Keys && m.sent == old(m.sent) && m.now.handler == Idle
      ensures Grown(old(m.own), m.own, Inner, AllGoesWell() && wf.id in store.workflows &&
                                              wf.tasks.Keys <= old(m.now.status.Keys))
      ensures Answers(wf, read, result, old(pub.replies), pub.replies, old(m.now.replies), m.now.replies)
      ensures AllGoesWell() && wf.id in store.workflows && wf.tasks.Keys <= old(m.now.status.Keys) ==>
                |pub.replies| == |old(pub.replies)| + 1
      ensures m.alone ==> store.states == old(store.states) && read == store.StatesOf(wf.id)
    {
      var reply;
      reply, read := Compose(wf, result, m);
      ghost var mine := m.own;
      if reply.None? {
        m.Step(ByFault(AbandonReply));
        read := store.StatesOf(wf.id);
        return;
      }
      Deliver(wf, reply.value, read, result, m);
      GrownMore(old(m.own), mine, m.own, Inner, AllGoesWell());
    }

    method Proceed(wf: Workflow, result: TaskResult, done: bool, m: Machine)
      returns (ghost ids: seq<TaskId>, ghost read: States)
      requires InStep(m) && m.wf == wf && Accepted(wf) && wf.id in store.workflows && store.workflows[wf.id] == wf
      requires
        var msg := Msg(result.taskId, result.status);
        m.now.handler == if done then Aggregating(msg, wf.tasks.Keys, false) else Scanning(msg, wf.dependencies.Keys)
      modifies store`states, m, pub`sent, pub`replies, pub`cancels
      ensures InStep(m) && old(m.now.status.Keys) <= m.now.status.Keys
      ensures m.now.handler == Idle && m.sent == old(m.sent) + ids && Adds(old(pub.sent), pub.sent, wf, ids)
      ensures Grown(old(m.own), m.own, Inner, AllGoesWell() && wf.tasks.Keys <= old(m.now.status.Keys))
      ensures Acts(wf, result, done, read, ids, old(pub.replies), pub.replies, old(m.now.replies), m.now.replies)
      ensures if done then Cancels(wf, result, old(pub.cancels), pub.cancels, pub.reliable)
              else pub.cancels == old(pub.cancels)
      ensures AllGoesWell() && wf.tasks.Keys <= old(m.now.status.Keys) && done ==>
                |pub.replies| == |old(pub.replies)| + 1
      ensures m.alone ==>
                Follows(wf, result, done, old(store.states), store.states, ids, read,
                        AllGoesWell() && wf.tasks.Keys <= old(m.now.status.Keys))
    {
      ids, read := [], map[];
      if done {
        read := Finalize(wf, result, m);
      } else {
        ids := PublishReady(wf, result.taskId, m);
      }
    }

    // What a handled result leads to, with the result in the states: a reply when the workflow
    // reads as concluded, which done says, and the publication of dependents otherwise.
    method Advance(wf: Workflow, result: TaskResult, m: Machine)
      returns (ok: bool, ghost done: bool, ghost ids: seq<TaskId>, ghost read: States)
      requires InStep(m) && m.wf == wf && Accepted(wf) && wf.id in store.workflows && store.workflows[wf.id] == wf
      requires m.now.handler == Checking(Msg(result.taskId, result.status), wf.tasks.Keys, false)
      modifies store`states, m, pub`sent, pub`replies, pub`cancels
      ensures InStep(m) && old(m.now.status.Keys) <= m.now.status.Keys
      ensures m.now.handler == Idle && m.sent == old(m.sent) + ids && Adds(old(pub.sent), pub.sent, wf, ids)
      ensures if ok then Grown(old(m.own), m.own, Inner, AllGoesWell() && wf.tasks.Keys <= old(m.now.status.Keys))
              else GivenUp(old(m.own), m.own)
      ensures Acts(wf, result, done, read, ids, old(pub.replies), pub.replies, old(m.now.replies), m.now.replies)
      ensures if done then Cancels(wf, result, old(pub.cancels), pub.cancels, pub.reliable)
              else pub.cancels == old(pub.cancels)
      ensures !ok ==> !done && ids == []
      ensures store.reliable && wf.tasks.Keys <= old(m.now.status.Keys) ==> ok
      ensures AllGoesWell() && wf.tasks.Keys <= old(m.now.status.Keys) && done ==>
                |pub.replies| == |old(pub.replies)| + 1
      ensures m.alone ==>
                StepsAhead(wf, result, ok, done, old(store.states), store.states, ids, read,
                           AllGoesWell() && wf.tasks.Keys <= old(m.now.status.Keys))
    {
      ids, done, read := [], false, map[];
      assert Apart(wf.id, store.states, store.states);
      var verdict := store.IsWorkflowCompleted(wf.id, m);
      ChecksInside(old(m.own), m.own);
      ghost var mine, well := m.own, AllGoesWell() && wf.tasks.Keys <= old(m.now.status.Keys);
      ok := verdict.Some?;
      if !ok {
        m.Step(ByFault(Abandon));
        return;
      }
      done := verdict.value;
      ids, read := Proceed(wf, result, verdict.value, m);
      GrownMore(old(m.own), mine, m.own, Inner, well);
    }

    // A well-formed result of a workflow that is known.
    ghost predicate Concerns(raw: Option<TaskResult>)
      reads store
    {
      raw.Some? && WellFormed(raw.value) && raw.value.workflowId in store.workflows
    }

    // Stores a result and acts on it.
    method Absorb(wf: Workflow, result: TaskResult, m: Machine)
      returns (ok: bool, ghost done: bool, ghost ids: seq<TaskId>, ghost read: States)
      requires InStep(m) && m.wf == wf && Accepted(wf) && wf.id in store.workflows && store.workflows[wf.id] == wf
      requires result.workflowId == wf.id && m.now.handler == Idle
      requires Msg(result.taskId, result.status) in m.now.results
      modifies store`states, m, pub`sent, pub`replies, pub`cancels
      ensures InStep(m) && old(m.now.status.Keys) <= m.now.status.Keys
      ensures m.now.handler == Idle && m.sent == old(m.sent) + ids && Adds(old(pub.sent), pub.sent, wf, ids)
      ensures if ok then Handles(old(m.own), m.own, Msg(result.taskId, result.status),
                                 AllGoesWell() && wf.tasks.Keys <= old(m.now.status.Keys))
              else m.own == old(m.own) || GivesBack(old(m.own), m.own, Msg(result.taskId, result.status))
      ensures Acts(wf, result, done, read, ids, old(pub.replies), pub.replies, old(m.now.replies), m.now.replies)
      ensures if done then Cancels(wf, result, old(pub.cancels), pub.cancels, pub.reliable)
              else pub.cancels == old(pub.cancels)
      ensures !ok ==> !done && ids == []
      ensures store.reliable && wf.tasks.Keys <= old(m.now.status.Keys) ==> ok
      ensures AllGoesWell() && wf.tasks.Keys <= old(m.now.status.Keys) && done ==>
                |pub.replies| == |old(pub.replies)| + 1
      ensures m.alone ==>
                || (!ok && store.states == old(store.states))
                || StepsAhead(wf, result, ok, done, WithResult(old(store.states), result), store.states, ids, read,
                              AllGoesWell() && wf.tasks.Keys <= old(m.now.status.Keys))
    {
      ids, done, read := [], false, map[];
      ok := StoreResult(result, m);
      if !ok {
        return;
      }
      ok, done, ids, read := Advance(wf, result, m);
    }

    method StoreResult(result: TaskResult, m: Machine) returns (ok: bool)
      requires InStep(m) && result.workflowId == m.wf.id && m.now.handler == Idle
      requires Msg(result.taskId, result.status) in m.now.results
      modifies store`states, m
      ensures InStep(m) && Keeps(old(m.now), m.now, OfHandler) && m.sent == old(m.sent)
      ensures
        var msg := Msg(result.taskId, result.status);
        && m.own == old(m.own) + (if ok then [ByHandler(Take(msg))] else [])
        && m.now.handler == if ok then Checking(msg, m.wf.tasks.Keys, false) else Idle
      ensures store.reliable ==> ok
      ensures m.alone ==> store.states == if ok then WithResult(old(store.states), result) else old(store.states)
    {
      ok := store.StoreTaskState(result.workflowId, result.taskId, result, m);
      if ok {
        m.Step(ByHandler(Take(Msg(result.taskId, result.status))));
      }
    }

    // Takes one result message off the stream; None is a message that cannot be decoded.
    method HandleResult(raw: Option<TaskResult>, m: Machine)
      returns (acked: bool, ghost done: bool, ghost ids: seq<TaskId>, ghost read: States)
      requires store.Valid()
      requires Concerns(raw) ==>
                 && InStep(m) && m.wf == store.workflows[raw.value.workflowId]
                 && m.now.handler == Idle && Msg(raw.value.taskId, raw.value.status) in m.now.results
      modifies store`states, m, pub`sent, pub`replies, pub`cancels
      ensures acked ==> Concerns(raw)
      ensures store.reliable && Concerns(raw) && m.wf.tasks.Keys <= old(m.now.status.Keys) ==> acked
      ensures !Concerns(raw) ==> store.states == old(store.states) && m.own == old(m.own)
      ensures !acked ==> !done && ids == [] && pub.sent == old(pub.sent) && pub.replies == old(pub.replies) &&
                         pub.cancels == old(pub.cancels)
      ensures Concerns(raw) ==>
                && InStep(m) && m.now.handler == Idle && m.sent == old(m.sent) + ids
                && Adds(old(pub.sent), pub.sent, m.wf, ids)
                && Acts(m.wf, raw.value, done, read, ids, old(pub.replies), pub.replies, old(m.now.replies),
                        m.now.replies)
      ensures acked ==>
                && Handles(old(m.own), m.own, Msg(raw.value.taskId, raw.value.status),
                           AllGoesWell() && m.wf.tasks.Keys <= old(m.now.status.Keys))
                && (if done then Cancels(m.wf, raw.value, old(pub.cancels), pub.cancels, pub.reliable)
                    else pub.cancels == old(pub.cancels))
                && (AllGoesWell() && m.wf.tasks.Keys <= old(m.now.status.Keys) && done ==>
                      |pub.replies| == |old(pub.replies)| + 1)
      ensures !acked && Concerns(raw) ==>
                m.own == old(m.own) || GivesBack(old(m.own), m.own, Msg(raw.value.taskId, raw.value.status))
      ensures m.alone && Concerns(raw) ==>
                || (!acked && store.states == old(store.states))
                || StepsAhead(m.wf, raw.value, acked, done, WithResult(old(store.states), raw.value), store.states, ids,
                              read, AllGoesWell() && m.wf.tasks.Keys <= old(m.now.status.Keys))
    {
      acked, done, ids, read := false, false, [], map[];
      if raw.None? {
        return;
      }
      var result := raw.value;
      if result.workflowId == "" || result.taskId == "" {
        return;
      }
      if result.status == Unset {
        return;
      }
      var found := store.GetWorkflow(result.workflowId);
      if found.None? {
        return;
      }
      acked, done, ids, read := Absorb(found.value, result, m);
    }
  }

  ghost function WithResult(all: map<string, States>, result: TaskResult): map<string, States> {
    all[result.workflowId := Within(all, result.workflowId)[result.taskId := result]]
  }

  // The fields without which a result message is refused.
  predicate WellFormed(r: TaskResult) {
    r.workflowId != "" && r.taskId != "" && r.status != Unset
  }

  // The message was not dealt with.
  ghost predicate GivenUp(before: seq<Label>, after: seq<Label>) {
    exists mid :: Grown(before, mid, Inner, true) && after == mid + [ByFault(Abandon)]
  }

  // Either a reply, made of the records as they were read, or publications of dependents.
  ghost predicate Acts(wf: Workflow, last: TaskResult, done: bool, read: States, ids: seq<TaskId>,
                       before: seq<ReplyMessage>, now: seq<ReplyMessage>, statuses: seq<Status>, next: seq<Status>)
  {
    if done then ids == [] && Answers(wf, read, last, before, now, statuses, next)
    else Candidates(wf, last.taskId, ids, {}) && now == before && next == statuses
  }

  // What happens to the records when nobody else writes: from those with the result in them,
  // the workflow is concluded and nothing is changed, or the dependents are scanned.
  ghost predicate StepsAhead(wf: Workflow, last: TaskResult, ok: bool, done: bool, stored: map<string, States>,
                             after: map<string, States>, ids: seq<TaskId>, read: States, well: bool)
  {
    if !ok then after == stored
    else (done <==> Concluded(wf, Within(stored, wf.id))) && Follows(wf, last, done, stored, after, ids, read, well)
  }

  ghost predicate Follows(wf: Workflow, last: TaskResult, done: bool, stored: map<string, States>,
                          after: map<string, States>, ids: seq<TaskId>, read: States, well: bool)
  {
    if done then after == stored && read == Within(stored, wf.id)
    else
      && Apart(wf.id, stored, after)
      && Dispatched(wf, last.taskId, Within(stored, wf.id), Within(after, wf.id), ids)
      && (well ==> Scanned(wf, last.taskId, Within(stored, wf.id), Within(after, wf.id), ids))
  }

  // A cancellation is sent after a failure, and only then.
  ghost predicate Cancels(wf: Workflow, last: TaskResult, before: seq<string>, after: seq<string>, reliable: bool) {
    if last.status in {Failed, TimedOut} then
      after == before + [wf.id] || (!reliable && after == before)
    else
      after == before
  }

  // A reply that says Completed exactly when every task is, with one record per task, and
  // that blames the result at hand or else a task that is not completed.
  ghost predicate Faithful(wf: Workflow, states: States, last: TaskResult, reply: ReplyMessage) {
    && reply.id == wf.id && reply.subject == wf.replySubject && reply.result.workflowId == wf.id
    && reply.result.status == (if AllCompleted(wf, states) then Completed else Failed)
    && (exists order :: Enumerates(order, wf.tasks.Keys) && Records(states, order, reply.result.taskResults))
    && Blames(wf, states, last, reply.result)
  }

  ghost predicate Blames(wf: Workflow, states: States, last: TaskResult, r: Result) {
    if r.status == Failed && last.errorMessage != "" then
      r.error == Some(Failure(last.processorId, last.taskId, last.errorMessage))
    else if r.error.Some? then
      exists id :: id in wf.tasks && id in states && Explains(states[id], r.error.value)
    else
      forall id | id in wf.tasks && id in states :: states[id].status == Completed || states[id].errorMessage == ""
  }

  ghost predicate Records(states: States, order: seq<TaskId>, records: seq<TaskResult>) {
    |records| == |order| && forall i | 0 <= i < |order| :: order[i] in states && records[i] == states[order[i]]
  }

  lemma CollectedStatus(states: States, order: seq<TaskId>, r: Result)
    requires Collected(states, order, r)
    ensures r.status in {Completed, Failed}
    ensures forall id | id in order :: id in states
  {
  }

  lemma ReadIsReady(wf: Workflow, states: States, id: TaskId)
    requires id in wf.dependencies
    ensures AllRead(states, wf.dependencies[id]) <==> Ready(wf, states, id)
  {
    if AllRead(states, wf.dependencies[id]) {
      forall d | DependsOn(wf.dependencies, id, d) ensures d in states && states[d].status == Completed {
        var j :| 0 <= j < |wf.dependencies[id]| && wf.dependencies[id][j] == d;
        assert HasCompleted(states, wf.dependencies[id][j]);
      }
    }
    if Ready(wf, states, id) {
      forall j | 0 <= j < |wf.dependencies[id]|
        ensures HasCompleted(states, wf.dependencies[id][j])
      {
        assert DependsOn(wf.dependencies, id, wf.dependencies[id][j]);
      }
    }
  }

  lemma ScanIsScanned(wf: Workflow, doneTask: TaskId, first: map<string, States>, now: map<string, States>,
                      ids: seq<TaskId>, order: seq<TaskId>, todo: set<TaskId>, well: bool)
    requires ScanSoFar(wf, doneTask, first, now, ids, order, todo, well) && todo == {}
    ensures well ==> Scanned(wf, doneTask, Within(first, wf.id), Within(now, wf.id), ids)
  {
    assert wf.dependencies.Keys - todo == wf.dependencies.Keys;
  }

  lemma GathersInside(before: seq<Label>, after: seq<Label>)
    requires Grown(before, after, Gathers, true)
    ensures Grown(before, after, Inner, true)
  {
    GrownWithin(before, after, Gathers, Inner);
  }

  lemma ChecksInside(before: seq<Label>, after: seq<Label>)
    requires Grown(before, after, Checks, true)
    ensures Grown(before, after, Inner, true)
  {
    GrownWithin(before, after, Checks, Inner);
  }

  // Records that were read from unchanged states are those states.
  lemma ReadAll(wf: Workflow, order: seq<TaskId>, r: Result, read: States, states: States)
    requires Enumerates(order, wf.tasks.Keys) && Collected(read, order, r) && ReadFrom(read, states)
    requires r.status == Completed <==> AllCompleted(wf, read)
    ensures Collected(states, order, r) && (r.status == Completed <==> AllCompleted(wf, states))
  {
    forall i | 0 <= i < |order| ensures order[i] in states && r.taskResults[i] == states[order[i]] {
      assert order[i] in read;
    }
    assert forall id | id in order :: id in read && read[id] == states[id];
  }

  lemma IsFaithful(wf: Workflow, states: States, order: seq<TaskId>, aggregate: Result, last: TaskResult,
                   reply: ReplyMessage)
    requires Enumerates(order, wf.tasks.Keys) && Collected(states, order, aggregate)
    requires aggregate.status == Completed <==> AllCompleted(wf, states)
    requires reply.id == wf.id && reply.subject == wf.replySubject && aggregate.workflowId == wf.id
    requires reply.result == aggregate.(error :=
               if aggregate.status == Failed && last.errorMessage != ""
               then Some(Failure(last.processorId, last.taskId, last.errorMessage)) else aggregate.error)
    ensures Faithful(wf, states, last, reply)
  {
    assert Records(states, order, reply.result.taskResults);
  }

  // At most one reply was added, a faithful one, and the machine records its status.
  ghost predicate Answers(wf: Workflow, states: States, last: TaskResult,
                          before: seq<ReplyMessage>, after: seq<ReplyMessage>, statuses: seq<Status>, next: seq<Status>)
  {
    if |after| == |before| + 1 then
      && before <= after && Faithful(wf, states, last, after[|before|])
      && next == statuses + [after[|before|].result.status]
    else
      after == before && next == statuses
  }

  lemma DeliverAnswers(wf: Workflow, read: States, last: TaskResult, reply: Result, before: seq<ReplyMessage>,
                       statuses: seq<Status>, sent: bool)
    requires Faithful(wf, read, last, ReplyMessage(wf.id, wf.replySubject, reply))
    ensures
      var after := before + (if sent then [ReplyMessage(wf.id, wf.replySubject, reply)] else []);
      var next := if sent then statuses + [if reply.status != Completed then Failed else Completed] else statuses;
      Answers(wf, read, last, before, after, statuses, next)
  {
  }

  lemma AddMore(a: seq<Message>, b: seq<Message>, c: seq<Message>, wf: Workflow, ids: seq<TaskId>, more: seq<TaskId>)
    requires Adds(a, b, wf, ids) && Adds(b, c, wf, more)
    ensures Adds(a, c, wf, ids + more)
  {
    forall i | 0 <= i < |ids + more| ensures c[|a| + i].task == Stamped(wf, (ids + more)[i]) {
      if i < |ids| {
        assert c[|a| + i] == b[|a| + i];
      } else {
        assert c[|b| + (i - |ids|)].task == Stamped(wf, more[i - |ids|]);
      }
    }
  }
}
