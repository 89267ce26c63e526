// One participant of the protocol among all the others. A participant keeps a machine that is
// moved by its own steps and, before each access to something shared, by whatever the others
// did in the meantime.

module Interleaving {
  import opened Workflows
  import opened Protocol

  // Which participant it is. There is one engine and one result handler; of runners and
  // cancellers there are any number.
  datatype Side = OfEngine | OfHandler | OfRunner | OfCanceller

  predicate Ours(side: Side, l: Label) {
    match side
    case OfEngine => l.ByEngine? || (l.ByFault? && (l.f in {ForgetRoot, AbortSubmit} || l.f.SkipRoot?))
    case OfHandler => l.ByHandler? || (l.ByFault? && l.f in {ProbeError, SkipSend, ForgetMark, Abandon, AbandonReply})
    case OfRunner =>
      l.ByRunner? ||
      (l.ByFault? && (l.f.StartUnmarked? || l.f.FinishUnmarked? || l.f.Drop? || l.f.Retry? || l.f.Lose?))
    case OfCanceller => l.ByFault? && l.f.Cancel?
  }

  predicate Theirs(side: Side, l: Label) {
    side.OfRunner? || side.OfCanceller? || !Ours(side, l)
  }

  // What has been given to a runner, and nobody else takes: a task message, an execution, or
  // an outcome.
  datatype Hold = NoHold | OnMessage(id: TaskId) | OnExecution(id: TaskId) | OnOutcome(msg: Msg)

  predicate Kept(s: Sys, hold: Hold) {
    match hold
    case NoHold => true
    case OnMessage(id) => id in s.queue
    case OnExecution(id) => id in s.running
    case OnOutcome(m) => m in s.stored
  }

  // A runner works on what it holds.
  predicate Uses(hold: Hold, l: Label) {
    match l
    case ByRunner(Start(id)) => hold == OnMessage(id)
    case ByRunner(Finish(id, _)) => hold == OnExecution(id)
    case ByRunner(Post(m)) => hold == OnOutcome(m)
    case ByFault(StartUnmarked(id)) => hold == OnMessage(id)
    case ByFault(FinishUnmarked(id, _)) => hold == OnExecution(id)
    case ByFault(Drop(id)) => hold == OnMessage(id)
    case ByFault(Retry(m)) => hold == OnOutcome(m)
    case ByFault(Lose(m)) => hold == OnOutcome(m)
    case _ => false
  }

  function NextHold(hold: Hold, l: Label): Hold {
    match l
    case ByRunner(Start(id)) => OnExecution(id)
    case ByRunner(Finish(id, outcome)) => OnOutcome(Msg(id, outcome))
    case ByFault(StartUnmarked(id)) => OnExecution(id)
    case ByFault(FinishUnmarked(id, outcome)) => OnOutcome(Msg(id, outcome))
    case ByRunner(Post(_)) => NoHold
    case ByFault(Drop(_)) => NoHold
    case ByFault(Retry(_)) => NoHold
    case ByFault(Lose(_)) => NoHold
    case _ => hold
  }

  // Steps of others, all of them.
  predicate Leaves(wf: Workflow, s: Sys, ls: seq<Label>, side: Side, hold: Hold)
    decreases |ls|
  {
    ls != [] ==>
      && Enabled(wf, s, ls[0]) && Theirs(side, ls[0]) && Kept(Apply(wf, s, ls[0]), hold)
      && Leaves(wf, Apply(wf, s, ls[0]), ls[1..], side, hold)
  }

  // What others do not touch.
  ghost predicate Yields(a: Sys, b: Sys, side: Side) {
    && Keeps(a, b, side)
    && (side.OfHandler? ==> b.handler == a.handler && a.results <= b.results)
    && (side.OfEngine? ==> b.engine == a.engine)
  }

  // States are never removed, and nobody but the handler answers.
  ghost predicate Keeps(a: Sys, b: Sys, side: Side) {
    a.status.Keys <= b.status.Keys && (side.OfHandler? ==> b.replies == a.replies)
  }

  lemma TheirStep(wf: Workflow, s: Sys, l: Label, side: Side)
    requires Enabled(wf, s, l) && Theirs(side, l)
    ensures Yields(s, Apply(wf, s, l), side)
  {
    match l
    case ByEngine(e) => EngineYields(wf, s, e, side);
    case ByRunner(r) => RunnerYields(wf, s, r, side);
    case ByHandler(h) => HandlerYields(wf, s, h, side);
    case ByFault(f) => FaultYields(wf, s, f, side);
  }

  lemma EngineYields(wf: Workflow, s: Sys, e: EngineStep, side: Side)
    requires EngineCan(wf, s, e) && !side.OfEngine?
    ensures Yields(s, EngineDoes(wf, s, e), side)
  {
  }

  lemma RunnerYields(wf: Workflow, s: Sys, r: RunnerStep, side: Side)
    requires RunnerCan(s, r)
    ensures Yields(s, RunnerDoes(s, r), side)
  {
  }

  lemma HandlerYields(wf: Workflow, s: Sys, h: HandlerStep, side: Side)
    requires HandlerCan(wf, s, h) && !side.OfHandler?
    ensures Yields(s, HandlerDoes(wf, s, h), side)
  {
  }

  lemma FaultYields(wf: Workflow, s: Sys, f: Fault, side: Side)
    requires FaultCan(wf, s, f) && Theirs(side, ByFault(f))
    ensures Yields(s, FaultDoes(wf, s, f), side)
  {
  }

  // What happened stays recorded.
  lemma LogGrows(wf: Workflow, s: Sys, l: Label)
    requires Enabled(wf, s, l)
    ensures s.log <= Apply(wf, s, l).log
  {
  }

  ghost predicate Logged(sent: seq<TaskId>, log: seq<Event>) {
    forall i | 0 <= i < |sent| :: IsLogged(sent, log, i)
  }

  ghost predicate IsLogged(sent: seq<TaskId>, log: seq<Event>, i: nat)
    requires i < |sent|
  {
    Published(sent[i]) in log
  }

  lemma LoggedStep(wf: Workflow, s: Sys, l: Label, sent: seq<TaskId>)
    requires Enabled(wf, s, l) && Logged(sent, s.log)
    ensures Logged(sent + Sends(s, l), Apply(wf, s, l).log)
  {
    LogGrows(wf, s, l);
    forall i | 0 <= i < |sent + Sends(s, l)| ensures IsLogged(sent + Sends(s, l), Apply(wf, s, l).log, i) {
      if i < |sent| {
        assert IsLogged(sent, s.log, i);
      }
    }
  }

  lemma LoggedLater(sent: seq<TaskId>, log: seq<Event>, later: seq<Event>)
    requires Logged(sent, log) && log <= later
    ensures Logged(sent, later)
  {
    forall i | 0 <= i < |sent| ensures IsLogged(sent, later, i) {
      assert IsLogged(sent, log, i);
    }
  }

  // ---------------------------------------------------------------------------
  // Runs as paths

  ghost predicate Moves(wf: Workflow, path: seq<Sys>, steps: seq<Label>, i: nat)
    requires |path| == |steps| + 1 && i < |steps|
  {
    Enabled(wf, path[i], steps[i]) && path[i + 1] == Apply(wf, path[i], steps[i])
  }

  // A path has one state more than there are steps.
  ghost predicate Path(wf: Workflow, path: seq<Sys>, steps: seq<Label>) {
    |path| == |steps| + 1 && forall i: nat | i < |steps| :: Moves(wf, path, steps, i)
  }

  // A path is a run.
  lemma {:induction false} PathIsRun(wf: Workflow, path: seq<Sys>, steps: seq<Label>)
    requires Path(wf, path, steps)
    ensures Runs(wf, path[0], steps) && After(wf, path[0], steps) == path[|steps|]
    decreases |steps|
  {
    if steps != [] {
      assert Moves(wf, path, steps, 0);
      assert Path(wf, path[1..], steps[1..]) by {
        forall i: nat | i < |steps[1..]| ensures Moves(wf, path[1..], steps[1..], i) {
          assert Moves(wf, path, steps, i + 1);
        }
      }
      PathIsRun(wf, path[1..], steps[1..]);
    }
  }

  lemma PathStep(wf: Workflow, path: seq<Sys>, steps: seq<Label>, l: Label)
    requires Path(wf, path, steps) && Enabled(wf, path[|steps|], l)
    ensures Path(wf, path + [Apply(wf, path[|steps|], l)], steps + [l])
  {
    var more, next := path + [Apply(wf, path[|steps|], l)], steps + [l];
    forall i: nat | i < |next| ensures Moves(wf, more, next, i) {
      if i < |steps| {
        assert Moves(wf, path, steps, i);
      }
    }
  }

  // Steps of others prolong a path.
  lemma {:induction false} TheirPath(wf: Workflow, path: seq<Sys>, steps: seq<Label>, more: seq<Label>, side: Side,
                                     hold: Hold, s: Sys, t: Sys) returns (longer: seq<Sys>)
    requires Path(wf, path, steps) && path[|steps|] == s && Leaves(wf, s, more, side, hold) && Kept(s, hold)
    requires Runs(wf, s, more) && After(wf, s, more) == t
    ensures Path(wf, longer, steps + more) && path <= longer && longer[|steps + more|] == t
    ensures Yields(s, t, side) && Kept(t, hold) && s.log <= t.log
    decreases |more|
  {
    if more == [] {
      longer := path;
      assert steps + more == steps;
    } else {
      var next := Apply(wf, s, more[0]);
      TheirStep(wf, s, more[0], side);
      LogGrows(wf, s, more[0]);
      PathStep(wf, path, steps, more[0]);
      longer := TheirPath(wf, path + [next], steps + [more[0]], more[1..], side, hold, next, t);
      Shift(steps, more);
    }
  }

  lemma Shift(steps: seq<Label>, more: seq<Label>)
    requires more != []
    ensures steps + [more[0]] + more[1..] == steps + more
  {
  }

  lemma {:induction false} LeavesRuns(wf: Workflow, s: Sys, ls: seq<Label>, side: Side, hold: Hold)
    requires Leaves(wf, s, ls, side, hold)
    ensures Runs(wf, s, ls)
    ensures forall l | l in ls :: Theirs(side, l)
    decreases |ls|
  {
    if ls != [] {
      LeavesRuns(wf, Apply(wf, s, ls[0]), ls[1..], side, hold);
    }
  }

  // Our steps are at the given places, and all others are theirs.
  ghost predicate Placed(side: Side, steps: seq<Label>, own: seq<Label>, at: seq<nat>) {
    && |at| == |own| && (forall j: nat | j < |at| :: IsOurs(side, steps, own, at, j))
    && (forall i: nat | i < |steps| :: IsTheirs(side, steps, at, i))
  }

  ghost predicate IsOurs(side: Side, steps: seq<Label>, own: seq<Label>, at: seq<nat>, j: nat)
    requires |at| == |own| && j < |at|
  {
    at[j] < |steps| && steps[at[j]] == own[j] && Ours(side, own[j]) && (j > 0 ==> at[j - 1] < at[j])
  }

  ghost predicate IsTheirs(side: Side, steps: seq<Label>, at: seq<nat>, i: nat)
    requires i < |steps|
  {
    i !in at ==> Theirs(side, steps[i])
  }

  lemma PlaceOne(side: Side, steps: seq<Label>, own: seq<Label>, at: seq<nat>, l: Label)
    requires Placed(side, steps, own, at) && Ours(side, l)
    ensures Placed(side, steps + [l], own + [l], at + [|steps|])
  {
    forall j: nat | j < |at| + 1 ensures IsOurs(side, steps + [l], own + [l], at + [|steps|], j) {
      if j < |at| {
        assert IsOurs(side, steps, own, at, j);
      } else if j > 0 {
        assert IsOurs(side, steps, own, at, j - 1);
      }
    }
    forall i: nat | i < |steps| + 1 ensures IsTheirs(side, steps + [l], at + [|steps|], i) {
      if i < |steps| {
        assert IsTheirs(side, steps, at, i);
      }
    }
  }

  lemma PlaceTheirs(side: Side, steps: seq<Label>, own: seq<Label>, at: seq<nat>, more: seq<Label>)
    requires Placed(side, steps, own, at) && forall l | l in more :: Theirs(side, l)
    ensures Placed(side, steps + more, own, at)
  {
    forall j: nat | j < |at| ensures IsOurs(side, steps + more, own, at, j) {
      assert IsOurs(side, steps, own, at, j);
    }
    forall i: nat | i < |steps + more| ensures IsTheirs(side, steps + more, at, i) {
      if i < |steps| {
        assert IsTheirs(side, steps, at, i);
      } else {
        assert (steps + more)[i] in more;
      }
    }
  }

  // What a runner works on is its own afterwards.
  lemma StaysKept(wf: Workflow, s: Sys, l: Label, hold: Hold)
    requires Enabled(wf, s, l) && Uses(hold, l)
    ensures Kept(Apply(wf, s, l), NextHold(hold, l))
  {
  }

  // New steps of ours, each of the inner kind, and none a fault when all is well.
  ghost predicate Grown(before: seq<Label>, after: seq<Label>, inner: Label -> bool, well: bool) {
    before <= after && forall i | |before| <= i < |after| :: inner(after[i]) && (well ==> !after[i].ByFault?)
  }

  lemma GrownOne(a: seq<Label>, b: seq<Label>, l: Label, inner: Label -> bool, well: bool)
    requires Grown(a, b, inner, well) && inner(l) && (well ==> !l.ByFault?)
    ensures Grown(a, b + [l], inner, well)
  {
  }

  lemma GrownMore(a: seq<Label>, b: seq<Label>, c: seq<Label>, inner: Label -> bool, well: bool)
    requires Grown(a, b, inner, well) && Grown(b, c, inner, well)
    ensures Grown(a, c, inner, well)
  {
    forall i | |a| <= i < |c| ensures inner(c[i]) && (well ==> !c[i].ByFault?) {
      assert i < |b| ==> c[i] == b[i];
    }
  }

  // A kind within another one.
  lemma GrownWithin(a: seq<Label>, b: seq<Label>, kind: Label -> bool, inner: Label -> bool)
    requires Grown(a, b, kind, true) && forall l | kind(l) :: inner(l)
    ensures Grown(a, b, inner, true)
  {
  }

  // The task that a step publishes.
  function Sends(s: Sys, l: Label): seq<TaskId> {
    match l
    case ByEngine(SendRoot(id)) => [id]
    case ByHandler(Send) => if s.handler.Probing? then [s.handler.id] else []
    case _ => []
  }

  class Machine {
    const wf: Workflow
    const side: Side
    const alone: bool           // the others do nothing
    var now: Sys
    var hold: Hold
    ghost const start: Sys
    ghost var steps: seq<Label>
    ghost var path: seq<Sys>
    ghost var own: seq<Label>   // our steps
    ghost var at: seq<nat>      // and where they are
    ghost var sent: seq<TaskId> // what we published

    constructor (wf: Workflow, side: Side, alone: bool, now: Sys, hold: Hold)
      requires Kept(now, hold) && (!side.OfRunner? ==> hold == NoHold)
      ensures Valid() && this.wf == wf && this.side == side && this.alone == alone && this.now == now
      ensures this.hold == hold && start == now && steps == [] && own == [] && sent == []
    {
      this.wf, this.side, this.alone, this.now, this.hold := wf, side, alone, now, hold;
      start, steps, path, own, at, sent := now, [], [now], [], [], [];
    }

    // The state is the end of a run made of our steps and theirs.
    ghost predicate Valid()
      reads this
    {
      && Path(wf, path, steps) && path[0] == start && path[|steps|] == now
      && Placed(side, steps, own, at) && (alone ==> own == steps)
      && Kept(now, hold) && (!side.OfRunner? ==> hold == NoHold)
      && Logged(sent, now.log)
    }

    method Step(l: Label)
      requires Valid() && Enabled(wf, now, l) && Ours(side, l) && (side.OfRunner? ==> Uses(hold, l))
      modifies this
      ensures Valid() && now == Apply(wf, old(now), l) && steps == old(steps) + [l] && own == old(own) + [l]
      ensures sent == old(sent) + Sends(old(now), l)
      ensures hold == if side.OfRunner? then NextHold(old(hold), l) else old(hold)
    {
      PathStep(wf, path, steps, l);
      PlaceOne(side, steps, own, at, l);
      LoggedStep(wf, now, l, sent);
      sent := sent + Sends(now, l);
      if side.OfRunner? {
        StaysKept(wf, now, l, hold);
        hold := NextHold(hold, l);
      }
      now := Apply(wf, now, l);
      at, own, path, steps := at + [|steps|], own + [l], path + [now], steps + [l];
    }

    // The others go on for a while. All that a participant may rely on is what is ensured here.
    method Wait()
      requires Valid()
      modifies this`now, this`steps, this`path
      ensures Valid() && Yields(old(now), now, side) && old(steps) <= steps
      ensures alone ==> now == old(now) && steps == old(steps)
    {
      var more: seq<Label> := *;
      if alone || !Leaves(wf, now, more, side, hold) {
        return;
      }
      LeavesRuns(wf, now, more, side, hold);
      var next := After(wf, now, more);
      path := TheirPath(wf, path, steps, more, side, hold, now, next);
      PlaceTheirs(side, steps, own, at, more);
      LoggedLater(sent, now.log, next.log);
      now, steps := next, steps + more;
    }
  }
}
