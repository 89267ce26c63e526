// Submitting a workflow, and cancelling one: as walks through the protocol machine whatever
// the other participants do, and as changes of the records when they keep still.

module Submission {
  import opened Workflows
  import opened Protocol
  import opened Basics
  import opened Interleaving
  import opened WorkflowStore
  import opened Orchestrator
  import Dag

  // Steps within one submission.
  predicate WithinSubmission(l: Label) {
    (l.ByEngine? && !l.e.Submit?) || (l.ByFault? && (l.f.SkipRoot? || l.f == ForgetRoot))
  }

  // The workflow was submitted, or else given up after some tasks were set to Pending.
  ghost predicate Submits(before: seq<Label>, after: seq<Label>, well: bool) {
    Grown(before + [ByEngine(Submit)], after, WithinSubmission, well)
  }

  ghost predicate GivesUp(before: seq<Label>, after: seq<Label>) {
    exists mid :: Submits(before, mid, true) && after == mid + [ByFault(AbortSubmit)]
  }

  lemma InitialisesWithin(before: seq<Label>, after: seq<Label>)
    requires Grown(before, after, Initialises, true)
    ensures Grown(before, after, WithinSubmission, true)
  {
    GrownWithin(before, after, Initialises, WithinSubmission);
  }

  // Each task is pending or has been published and marked.
  ghost predicate Started(wf: Workflow, states: States, ids: seq<TaskId>) {
    forall id | id in wf.tasks :: id in states &&
      (states[id] == Marker(wf.id, id, Pending) || (id in ids && states[id] == Marker(wf.id, id, Queued)))
  }

  // The listed tasks, and no others, are marked.
  ghost predicate Queues(wf: Workflow, states: States, ids: seq<TaskId>) {
    forall id | id in wf.tasks && id in states ::
      states[id] == Marker(wf.id, id, if id in ids then Queued else Pending)
  }

  lemma StartOne(wf: Workflow, before: States, ids: seq<TaskId>, after: States, id: TaskId, more: seq<TaskId>)
    requires Started(wf, before, ids) && (more == [] || more == [id])
    requires after == before || (more == [id] && after == before[id := Marker(wf.id, id, Queued)])
    ensures Started(wf, after, ids + more)
    ensures Queues(wf, before, ids) && more == [id] && after == before[id := Marker(wf.id, id, Queued)] ==>
              Queues(wf, after, ids + more)
  {
    assert forall x :: x in ids + more <==> x in ids || x in more;
  }

  ghost predicate Initial(wf: Workflow, states: States) {
    forall id | id in wf.tasks :: id in states && states[id] == Marker(wf.id, id, Pending)
  }

  lemma RestartedStarts(wf: Workflow, first: map<string, States>, mid: map<string, States>, now: map<string, States>,
                        ids: seq<TaskId>, well: bool)
    requires Apart(wf.id, first, mid) && Within(mid, wf.id) == Restarted(wf, Within(first, wf.id), wf.tasks.Keys)
    requires Initial(wf, Within(mid, wf.id)) ==> StartsRoots(wf, mid, now, ids, well)
    ensures StartsRoots(wf, first, now, ids, well)
  {
    assert Initial(wf, Within(mid, wf.id));
    ApartThen(wf.id, first, mid, now);
  }

  // What submitting roots does to the records when nobody else writes.
  ghost predicate StartsRoots(wf: Workflow, first: map<string, States>, now: map<string, States>, ids: seq<TaskId>,
                              well: bool)
  {
    && Apart(wf.id, first, now) && Started(wf, Within(now, wf.id), ids)
    && (well ==> Queues(wf, Within(now, wf.id), ids))
  }

  lemma StartMore(wf: Workflow, first: map<string, States>, last: map<string, States>, now: map<string, States>,
                  ids: seq<TaskId>, well: bool, id: TaskId, more: seq<TaskId>)
    requires StartsRoots(wf, first, last, ids, well) && MarksRoot(wf, last, now, id, more, well)
    ensures StartsRoots(wf, first, now, ids + more, well)
  {
    ApartThen(wf.id, first, last, now);
    StartOne(wf, Within(last, wf.id), ids, Within(now, wf.id), id, more);
  }

  // And one root: it is marked at most if it is published, and both if all goes well.
  ghost predicate MarksRoot(wf: Workflow, last: map<string, States>, now: map<string, States>, id: TaskId,
                            more: seq<TaskId>, well: bool)
  {
    var (before, after) := (Within(last, wf.id), Within(now, wf.id));
    var marked := before[id := Marker(wf.id, id, Queued)];
    && Apart(wf.id, last, now) && (more == [] || more == [id])
    && (after == before || (more == [id] && after == marked))
    && (well ==> more == [id] && after == marked)
  }

  class Engine {
    const store: Store
    const pub: Publisher
    const routable: bool

    constructor (store: Store, pub: Publisher, routable: bool)
      ensures this.store == store && this.pub == pub && this.routable == routable
    {
      this.store, this.pub, this.routable := store, pub, routable;
    }

    ghost predicate AllGoesWell()
      reads this
    {
      store.reliable && pub.reliable && routable
    }

    // The machine of the engine agrees with the store.
    ghost predicate InStep(m: Machine)
      reads this, store, m
    {
      store.Shows(m) && m.side == OfEngine
    }

    // One root; an error is only logged.
    method SubmitRoot(wf: Workflow, task: Task, m: Machine) returns (ghost ids: seq<TaskId>)
      requires InStep(m) && m.wf == wf && task.id in wf.tasks && task == Stamped(wf, task.id)
      requires m.now.engine.Submitting? && task.id in m.now.engine.todo
      modifies store`states, m, pub`sent
      ensures InStep(m) && Keeps(old(m.now), m.now, OfEngine) && m.sent == old(m.sent) + ids
      ensures m.now.engine == Submitting(old(m.now.engine.todo) - {task.id})
      ensures Grown(old(m.own), m.own, WithinSubmission, AllGoesWell())
      ensures Adds(old(pub.sent), pub.sent, wf, ids) && (ids == [] || ids == [task.id])
      ensures AllGoesWell() ==> ids == [task.id]
      ensures m.alone ==> MarksRoot(wf, old(store.states), store.states, task.id, ids, AllGoesWell())
    {
      ghost var states := store.StatesOf(wf.id);
      ApartUpdate(wf.id, store.states, store.states, states[task.id := Marker(wf.id, task.id, Queued)]);
      assert Apart(wf.id, store.states, store.states);
      var sent, marked := PublishTask(store, pub, routable, task, m);
      ids := if sent then [task.id] else [];
    }

    method SubmitNext(wf: Workflow, roots: seq<Task>, i: nat, m: Machine) returns (ghost ids: seq<TaskId>)
      requires InStep(m) && m.wf == wf && Listed(wf, roots) && i < |roots|
      requires m.now.engine == Submitting(Rest(roots, i))
      modifies store`states, m, pub`sent
      ensures InStep(m) && Keeps(old(m.now), m.now, OfEngine) && m.sent == old(m.sent) + ids
      ensures m.now.engine == Submitting(Rest(roots, i + 1))
      ensures Grown(old(m.own), m.own, WithinSubmission, AllGoesWell())
      ensures Adds(old(pub.sent), pub.sent, wf, ids) && (ids == [] || ids == [roots[i].id])
      ensures AllGoesWell() ==> ids == [roots[i].id]
      ensures m.alone ==> MarksRoot(wf, old(store.states), store.states, roots[i].id, ids, AllGoesWell())
    {
      OneListed(wf, roots, i);
      ids := SubmitRoot(wf, roots[i], m);
    }

    method SubmitListed(wf: Workflow, roots: seq<Task>, m: Machine) returns (ghost ids: seq<TaskId>)
      requires InStep(m) && m.wf == wf && Listed(wf, roots) && m.now.engine == Submitting(Rest(roots, 0))
      requires SentSoFar(wf, roots, 0, [], pub.sent, pub.sent, AllGoesWell())
      modifies store`states, m, pub`sent
      ensures InStep(m) && Keeps(old(m.now), m.now, OfEngine) && m.sent == old(m.sent) + ids
      ensures m.now.engine == Submitting(Rest(roots, |roots|))
      ensures Grown(old(m.own), m.own, WithinSubmission, AllGoesWell())
      ensures SentSoFar(wf, roots, |roots|, ids, old(pub.sent), pub.sent, AllGoesWell())
      ensures m.alone && StartsRoots(wf, old(store.states), old(store.states), [], AllGoesWell()) ==>
                StartsRoots(wf, old(store.states), store.states, ids, AllGoesWell())
    {
      ids := [];
      for i := 0 to |roots|
        invariant InStep(m) && Keeps(old(m.now), m.now, OfEngine) && m.sent == old(m.sent) + ids
        invariant m.now.engine == Submitting(Rest(roots, i))
        invariant Grown(old(m.own), m.own, WithinSubmission, AllGoesWell())
        invariant SentSoFar(wf, roots, i, ids, old(pub.sent), pub.sent, AllGoesWell())
        invariant m.alone && StartsRoots(wf, old(store.states), old(store.states), [], AllGoesWell()) ==>
                    StartsRoots(wf, old(store.states), store.states, ids, AllGoesWell())
      {
        ghost var before, mine, last := pub.sent, m.own, store.states;
        ghost var more := SubmitNext(wf, roots, i, m);
        GrownMore(old(m.own), mine, m.own, WithinSubmission, AllGoesWell());
        SendMore(wf, roots, i, ids, more, old(pub.sent), before, pub.sent, AllGoesWell());
        if m.alone && StartsRoots(wf, old(store.states), old(store.states), [], AllGoesWell()) {
          StartMore(wf, old(store.states), last, store.states, ids, AllGoesWell(), roots[i].id, more);
        }
        ids := ids + more;
      }
    }

    // Publishes the roots, one by one.
    method SubmitRoots(wf: Workflow, m: Machine) returns (ghost ids: seq<TaskId>)
      requires InStep(m) && m.wf == wf && m.now.engine == Submitting(Roots(wf))
      modifies store`states, m, pub`sent
      ensures InStep(m) && Keeps(old(m.now), m.now, OfEngine) && m.sent == old(m.sent) + ids
      ensures m.now.engine == Submitting({}) && Grown(old(m.own), m.own, WithinSubmission, AllGoesWell())
      ensures Adds(old(pub.sent), pub.sent, wf, ids)
      ensures Distinct(ids) && forall id | id in ids :: id in Roots(wf)
      ensures AllGoesWell() ==> Enumerates(ids, Roots(wf))
      ensures m.alone && Initial(wf, old(store.StatesOf(wf.id))) ==>
                StartsRoots(wf, old(store.states), store.states, ids, AllGoesWell())
    {
      var roots := Dag.RootTasks(wf);
      SentNone(wf, roots, pub.sent, AllGoesWell());
      assert Apart(wf.id, store.states, store.states);
      ids := SubmitListed(wf, roots, m);
      SentAll(wf, roots, ids, old(pub.sent), pub.sent, AllGoesWell());
    }

    // A submission that is parsed and validated.
    static ghost predicate Submittable(raw: Option<Workflow>) {
      raw.Some? && raw.value.id != "" && Accepted(raw.value)
    }

    // Initialises an accepted workflow and submits its roots.
    method Begin(wf: Workflow, m: Machine) returns (ok: bool, ghost ids: seq<TaskId>)
      requires InStep(m) && m.wf == wf && m.now.engine == EngineIdle
      modifies store, m, pub`sent
      ensures InStep(m) && Keeps(old(m.now), m.now, OfEngine) && m.sent == old(m.sent) + ids
      ensures m.now.engine == EngineIdle && Adds(old(pub.sent), pub.sent, wf, ids)
      ensures if ok then Submits(old(m.own), m.own, AllGoesWell()) else GivesUp(old(m.own), m.own)
      ensures store.workflows == if ok then old(store.workflows)[wf.id := wf] else old(store.workflows)
      ensures store.reliable ==> ok
      ensures ok ==> wf.tasks.Keys <= m.now.status.Keys
      ensures !ok ==> ids == []
      ensures Distinct(ids) && forall id | id in ids :: id in Roots(wf)
      ensures AllGoesWell() ==> Enumerates(ids, Roots(wf))
      ensures m.alone ==>
                if ok then StartsRoots(wf, old(store.states), store.states, ids, AllGoesWell())
                else Undone(wf, old(store.states), store.states)
    {
      ids := [];
      ok := Open(wf, m);
      if !ok {
        return;
      }
      ghost var mine, mid := m.own, store.states;
      ids := Launch(wf, m);
      GrownMore(old(m.own) + [ByEngine(Submit)], mine, m.own, WithinSubmission, AllGoesWell());
      if m.alone {
        RestartedStarts(wf, old(store.states), mid, store.states, ids, AllGoesWell());
      }
    }

    // Initialises a workflow, or gives up.
    method Open(wf: Workflow, m: Machine) returns (ok: bool)
      requires InStep(m) && m.wf == wf && m.now.engine == EngineIdle
      modifies store, m
      ensures InStep(m) && Keeps(old(m.now), m.now, OfEngine) && m.sent == old(m.sent)
      ensures m.now.engine == if ok then Initialising({}) else EngineIdle
      ensures if ok then Submits(old(m.own), m.own, true) else GivesUp(old(m.own), m.own)
      ensures store.workflows == if ok then old(store.workflows)[wf.id := wf] else old(store.workflows)
      ensures store.reliable ==> ok
      ensures ok ==> wf.tasks.Keys <= m.now.status.Keys
      ensures m.alone ==>
                && Undone(wf, old(store.states), store.states)
                && (ok ==> store.StatesOf(wf.id) == Restarted(wf, old(store.StatesOf(wf.id)), wf.tasks.Keys))
    {
      m.Step(ByEngine(Submit));
      ghost var begun, reset := m.own, {};
      ok, reset := store.InitWorkflow(wf, m);
      InitialisesWithin(begun, m.own);
      if !ok {
        m.Step(ByFault(AbortSubmit));
        return;
      }
      assert wf.tasks.Keys - reset == {};
    }

    // Submits the roots of a workflow that is initialised.
    method Launch(wf: Workflow, m: Machine) returns (ghost ids: seq<TaskId>)
      requires InStep(m) && m.wf == wf && m.now.engine == Initialising({})
      modifies store`states, m, pub`sent
      ensures InStep(m) && Keeps(old(m.now), m.now, OfEngine) && m.sent == old(m.sent) + ids
      ensures m.now.engine == EngineIdle && Grown(old(m.own), m.own, WithinSubmission, AllGoesWell())
      ensures Adds(old(pub.sent), pub.sent, wf, ids)
      ensures Distinct(ids) && forall id | id in ids :: id in Roots(wf)
      ensures AllGoesWell() ==> Enumerates(ids, Roots(wf))
      ensures m.alone && Initial(wf, old(store.StatesOf(wf.id))) ==>
                StartsRoots(wf, old(store.states), store.states, ids, AllGoesWell())
    {
      ghost var mine := m.own;
      m.Step(ByEngine(StartSubmitting));
      GrownOne(mine, mine, ByEngine(StartSubmitting), WithinSubmission, AllGoesWell());
      ghost var begun := m.own;
      ids := SubmitRoots(wf, m);
      GrownMore(mine, begun, m.own, WithinSubmission, AllGoesWell());
      ghost var last := m.own;
      m.Step(ByEngine(EndSubmit));
      GrownOne(mine, last, ByEngine(EndSubmit), WithinSubmission, AllGoesWell());
    }

    // Takes one submission off the stream; None is a message that cannot be decoded.
    method HandleWorkflow(raw: Option<Workflow>, m: Machine) returns (acked: bool, ghost ids: seq<TaskId>)
      requires store.Valid()
      requires Submittable(raw) ==> InStep(m) && m.wf == raw.value && m.now.engine == EngineIdle
      modifies store, m, pub`sent
      ensures store.Valid()
      ensures acked ==> Submittable(raw)
      ensures store.reliable && Submittable(raw) ==> acked
      ensures !Submittable(raw) ==> store.states == old(store.states) && m.own == old(m.own)
      ensures Submittable(raw) ==>
                && InStep(m) && m.now.engine == EngineIdle && m.sent == old(m.sent) + ids
                && Adds(old(pub.sent), pub.sent, raw.value, ids)
                && Distinct(ids) && forall id | id in ids :: id in Roots(raw.value)
      ensures acked ==>
                && store.workflows == old(store.workflows)[raw.value.id := raw.value]
                && Submits(old(m.own), m.own, AllGoesWell()) && raw.value.tasks.Keys <= m.now.status.Keys
                && (AllGoesWell() ==> Enumerates(ids, Roots(raw.value)))
      ensures !acked ==> ids == [] && pub.sent == old(pub.sent) && store.workflows == old(store.workflows)
      ensures !acked && Submittable(raw) ==> GivesUp(old(m.own), m.own)
      ensures m.alone && Submittable(raw) ==>
                if acked then StartsRoots(raw.value, old(store.states), store.states, ids, AllGoesWell())
                else Undone(raw.value, old(store.states), store.states)
    {
      ids := [];
      if raw.None? {
        return false, ids;
      }
      var parsed := Dag.ParseWorkflow(raw.value);
      if parsed.Rejected? {
        return false, ids;
      }
      acked, ids := Begin(raw.value, m);
    }
  }

  // A submission that was given up may have set some tasks back to Pending.
  ghost predicate Undone(wf: Workflow, first: map<string, States>, now: map<string, States>) {
    && Apart(wf.id, first, now)
    && exists reset :: reset <= wf.tasks.Keys && Within(now, wf.id) == Restarted(wf, Within(first, wf.id), reset)
  }

  // ---------------------------------------------------------------------------
  // Cancelling

  class CancelHandler {
    const store: Store
    const pub: Publisher

    constructor (store: Store, pub: Publisher)
      ensures this.store == store && this.pub == pub
    {
      this.store, this.pub := store, pub;
    }

    // Marks the waiting tasks of a known workflow and tells the runners, who need not hear.
    method HandleCancel(raw: Option<string>, m: Machine) returns (acked: bool, ghost cancelled: seq<TaskId>)
      requires raw.Some? ==> store.Shows(m) && store.Knows(m) && m.side == OfCanceller && m.wf.id == raw.value
      modifies store`states, m, pub`cancels
      ensures acked ==> raw.Some? && raw.value in store.workflows
      ensures store.reliable && raw.Some? && raw.value in store.workflows ==> acked
      ensures !acked ==> store.states == old(store.states) && pub.cancels == old(pub.cancels) && m.own == old(m.own)
      ensures acked ==>
                && store.Shows(m) && m.own == old(m.own) + CancelSteps(cancelled)
                && Distinct(cancelled) && (forall id | id in cancelled :: id in m.wf.tasks)
                && (pub.cancels == old(pub.cancels) + [raw.value] || (!pub.reliable && pub.cancels == old(pub.cancels)))
      ensures acked && m.alone ==>
                CancelsSoFar(m.wf, old(store.states), store.states, cancelled, store.reliable, m.wf.tasks.Keys)
    {
      cancelled := [];
      if raw.None? {
        return false, cancelled;
      }
      acked, cancelled := store.CancelWorkflow(raw.value, m);
      if !acked {
        return;
      }
      var told := pub.PublishCancel(raw.value);
    }
  }

  ghost function Set(ids: seq<TaskId>): set<TaskId> {
    set id | id in ids
  }

  lemma SetOf(ids: seq<TaskId>)
    ensures forall id :: id in ids <==> id in Set(ids)
  {
  }

  // The roots from the i-th on are still to do.
  ghost function Rest(roots: seq<Task>, i: nat): set<TaskId>
    requires i <= |roots|
  {
    set j | i <= j < |roots| :: roots[j].id
  }

  ghost predicate Listed(wf: Workflow, roots: seq<Task>) {
    && (forall t :: t in roots <==> exists id :: IsRoot(wf, id) && t == Stamped(wf, id))
    && (forall i, j | 0 <= i < j < |roots| :: roots[i].id != roots[j].id)
  }

  // What has been published are roots that are no longer to do.
  // If all went well, they are all of those.
  ghost predicate Sifted(wf: Workflow, roots: seq<Task>, i: nat, ids: seq<TaskId>, well: bool)
    requires i <= |roots|
  {
    && Distinct(ids) && (forall id | id in ids :: id in Roots(wf) && id !in Rest(roots, i))
    && (well ==> Roots(wf) == Rest(roots, i) + Set(ids))
  }

  lemma AllListed(wf: Workflow, roots: seq<Task>)
    requires Listed(wf, roots)
    ensures Rest(roots, 0) == Roots(wf)
  {
    forall id | id in Roots(wf) ensures id in Rest(roots, 0) {
      assert IsRoot(wf, id);
      assert Stamped(wf, id) in roots;
    }
    forall id | id in Rest(roots, 0) ensures id in Roots(wf) {
      var j :| 0 <= j < |roots| && roots[j].id == id;
      assert roots[j] in roots;
    }
  }

  lemma OneListed(wf: Workflow, roots: seq<Task>, i: nat)
    requires Listed(wf, roots) && i < |roots|
    ensures roots[i].id in wf.tasks && roots[i] == Stamped(wf, roots[i].id) && roots[i].id in Roots(wf)
    ensures roots[i].id in Rest(roots, i) && Rest(roots, i + 1) == Rest(roots, i) - {roots[i].id}
  {
    assert roots[i] in roots;
    var id := roots[i].id;
    forall x | x in Rest(roots, i) - {id} ensures x in Rest(roots, i + 1) {
      var j :| i <= j < |roots| && roots[j].id == x;
    }
  }

  lemma SiftOne(wf: Workflow, roots: seq<Task>, i: nat, ids: seq<TaskId>, more: seq<TaskId>, well: bool)
    requires Listed(wf, roots) && i < |roots| && Sifted(wf, roots, i, ids, well)
    requires more == [] || more == [roots[i].id]
    requires well ==> more != []
    ensures Sifted(wf, roots, i + 1, ids + more, well)
  {
    OneListed(wf, roots, i);
    assert Set(ids + more) == Set(ids) + Set(more);
    assert more != [] ==> Set(more) == {roots[i].id};
  }

  // The messages of these tasks have been sent, and no others.
  ghost predicate SentSoFar(wf: Workflow, roots: seq<Task>, i: nat, ids: seq<TaskId>, before: seq<Message>,
                            now: seq<Message>, well: bool)
    requires i <= |roots|
  {
    Sifted(wf, roots, i, ids, well) && Adds(before, now, wf, ids)
  }

  lemma SentNone(wf: Workflow, roots: seq<Task>, before: seq<Message>, well: bool)
    requires Listed(wf, roots)
    ensures Rest(roots, 0) == Roots(wf) && SentSoFar(wf, roots, 0, [], before, before, well)
  {
    AllListed(wf, roots);
  }

  lemma SendMore(wf: Workflow, roots: seq<Task>, i: nat, ids: seq<TaskId>, more: seq<TaskId>, before: seq<Message>,
                 last: seq<Message>, now: seq<Message>, well: bool)
    requires Listed(wf, roots) && i < |roots| && SentSoFar(wf, roots, i, ids, before, last, well)
    requires more == [] || more == [roots[i].id]
    requires Adds(last, now, wf, more) && (well ==> more != [])
    ensures SentSoFar(wf, roots, i + 1, ids + more, before, now, well)
  {
    SiftOne(wf, roots, i, ids, more, well);
    AddMore(before, last, now, wf, ids, more);
  }

  lemma SentAll(wf: Workflow, roots: seq<Task>, ids: seq<TaskId>, before: seq<Message>, now: seq<Message>, well: bool)
    requires SentSoFar(wf, roots, |roots|, ids, before, now, well)
    ensures Rest(roots, |roots|) == {} && Adds(before, now, wf, ids)
    ensures Distinct(ids) && forall id | id in ids :: id in Roots(wf)
    ensures well ==> Enumerates(ids, Roots(wf))
  {
    assert Rest(roots, |roots|) == {};
    SetOf(ids);
  }
}
