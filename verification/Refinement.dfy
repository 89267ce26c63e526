// What was proved of the runs of the protocol holds of the handlers and runners as they are
// written. Their machines go through runs, made of their own steps and of those of the
// others; and when nothing fails, on either side, these are calm runs.

module Refinement {
  import opened Workflows
  import opened Protocol
  import opened Interleaving
  import opened Progress
  import opened CausalOrder
  import opened Orchestrator
  import opened Submission
  import opened Runners

  // The others stay calm.
  ghost predicate CalmOthers(m: Machine)
    reads m
  {
    forall i: nat | i < |m.steps| && i !in m.at :: Calm(m.steps[i])
  }

  // The machine went on from the end of a run.
  ghost predicate Resumes(m: Machine, first: Sys, front: seq<Label>)
    reads m
  {
    m.Valid() && Runs(m.wf, first, front) && After(m.wf, first, front) == m.start
  }

  // Whatever the others do, it has gone through a run; if they are calm and we are, a calm one.
  lemma MachineRuns(m: Machine, first: Sys, front: seq<Label>)
    requires Resumes(m, first, front)
    ensures Runs(m.wf, first, front + m.steps) && After(m.wf, first, front + m.steps) == m.now
    ensures AllCalm(front) && CalmOthers(m) && AllCalm(m.own) ==> AllCalm(front + m.steps)
  {
    PathIsRun(m.wf, m.path, m.steps);
    RunThen(m.wf, first, front, m.steps);
    if AllCalm(front) && CalmOthers(m) && AllCalm(m.own) {
      forall l | l in m.steps ensures Calm(l) {
        var i: nat :| i < |m.steps| && m.steps[i] == l;
        if i in m.at {
          var j: nat :| j < |m.at| && m.at[j] == i;
          assert IsOurs(m.side, m.steps, m.own, m.at, j) && m.own[j] in m.own;
        }
      }
    }
  }

  // Whatever goes wrong, a task that a handler publishes comes after everything it waits for.
  lemma SentAfterDependencies(m: Machine, front: seq<Label>, id: TaskId, walk: seq<TaskId>) returns (i: nat)
    requires Resumes(m, Nothing, front) && id in m.sent
    requires |walk| >= 2 && IsWalk(m.wf.dependencies, walk) && walk[0] == id
    ensures i < |m.now.log| && m.now.log[i] == Published(id) && Finished(walk[|walk| - 1]) in m.now.log[..i]
  {
    MachineRuns(m, Nothing, front);
    var k: nat :| k < |m.sent| && m.sent[k] == id;
    assert IsLogged(m.sent, m.now.log, k);
    i :| i < |m.now.log| && m.now.log[i] == Published(id);
    PublishedAfterDependencies(m.wf, front + m.steps, i, walk);
  }

  // When a calm run is quiet, the workflow is done exactly when no root was marked too late.
  lemma QuietMachineIsDoneIff(m: Machine, front: seq<Label>)
    requires Resumes(m, Fresh(m.wf), front) && AllCalm(front) && CalmOthers(m) && AllCalm(m.own)
    requires Accepted(m.wf) && Quiet(m.now)
    ensures Runs(m.wf, Fresh(m.wf), front + m.steps)
    ensures Done(m.wf, m.now) <==> Punctual(m.wf, Fresh(m.wf), front + m.steps)
  {
    MachineRuns(m, Fresh(m.wf), front);
    QuietIsDoneIff(m.wf, front + m.steps);
  }

  // ---------------------------------------------------------------------------
  // Our steps are calm when nothing fails

  // A calm run goes on calmly when the handler takes a result and nothing fails.
  lemma HandlingIsCalm(m: Machine, front: seq<Label>, msg: Msg)
    requires Resumes(m, Fresh(m.wf), front) && AllCalm(front) && CalmOthers(m) && Handles([], m.own, msg, true)
    ensures Runs(m.wf, Fresh(m.wf), front + m.steps) && After(m.wf, Fresh(m.wf), front + m.steps) == m.now
    ensures AllCalm(front + m.steps)
  {
    MachineRuns(m, Fresh(m.wf), front);
    var first := [] + [ByHandler(Take(msg))];
    forall l | l in m.own ensures Calm(l) {
      var i :| 0 <= i < |m.own| && m.own[i] == l;
      if i < |first| {
        assert m.own[i] == first[i];
      } else {
        assert Inner(m.own[i]) && !m.own[i].ByFault?;
      }
    }
  }

  // And when a runner completes a task and gets the result away.
  lemma RunningIsCalm(m: Machine, front: seq<Label>, result: TaskResult, messages: seq<TaskResult>)
    requires Resumes(m, Fresh(m.wf), front) && AllCalm(front) && CalmOthers(m)
    requires Deals([], m.own, result, true, true, messages, messages + [result]) && result.status == Completed
    ensures Runs(m.wf, Fresh(m.wf), front + m.steps) && After(m.wf, Fresh(m.wf), front + m.steps) == m.now
    ensures AllCalm(front + m.steps)
  {
    MachineRuns(m, Fresh(m.wf), front);
    assert messages + [result] != messages;
    var mid :| Executes([], mid, result, true) && m.own == mid + [ReportLabel(result, true, true)];
    var marked :| Ends([] + [StartLabel(result.taskId, marked)], mid, result, true) && marked;
    var ended :| mid == [] + [StartLabel(result.taskId, marked)] + [FinishLabel(result, ended)] && ended;
  }

  // A workflow that was never seen before is submitted: ours is the first step, and the rest is
  // a calm run from the fresh state. If nobody handles a result meanwhile, no root is marked too
  // late.
  lemma SubmissionIsCalm(m: Machine)
    requires m.Valid() && m.side == OfEngine && m.start == Nothing && Submits([], m.own, true) && CalmOthers(m)
    ensures m.steps != [] && m.steps[0] == ByEngine(Submit) && AllCalm(m.steps[1..])
    ensures Runs(m.wf, Fresh(m.wf), m.steps[1..]) && After(m.wf, Fresh(m.wf), m.steps[1..]) == m.now
    ensures Accepted(m.wf) && NoneTaken(m.steps) ==> Punctual(m.wf, Fresh(m.wf), m.steps[1..])
  {
    assert m.own[0] == ByEngine(Submit) by {
      assert ([] + [ByEngine(Submit)])[0] == m.own[0];
    }
    PathIsRun(m.wf, m.path, m.steps);
    assert IsOurs(m.side, m.steps, m.own, m.at, 0);
    assert Moves(m.wf, m.path, m.steps, 0);
    FirstIsSubmit(m.wf, m.steps[0]);
    assert IsTheirs(m.side, m.steps, m.at, 0);
    FirstIsFirst(m);
    assert Apply(m.wf, Nothing, ByEngine(Submit)) == Fresh(m.wf);
    forall l | l in m.steps[1..] ensures Calm(l) {
      var i: nat :| i < |m.steps[1..]| && m.steps[1..][i] == l;
      assert m.steps[i + 1] == l;
      if i + 1 in m.at {
        var j: nat :| j < |m.at| && m.at[j] == i + 1;
        assert IsOurs(m.side, m.steps, m.own, m.at, j);
        assert WithinSubmission(m.own[j]) && !m.own[j].ByFault?;
      }
    }
    if Accepted(m.wf) && NoneTaken(m.steps) {
      FreshIsSound(m.wf);
      assert forall l | l in m.steps[1..] :: l in m.steps;
      NoneTakenIsUnhurried(m.wf, Fresh(m.wf), m.steps[1..]);
      UnhurriedIsClean(m.wf, Fresh(m.wf), m.steps[1..]);
      PunctualIsClean(m.wf, Fresh(m.wf), m.steps[1..]);
    }
  }

  // If the first step is ours, it is the first of ours.
  lemma FirstIsFirst(m: Machine)
    requires m.Valid() && 0 in m.at
    ensures m.at[0] == 0
  {
    var j: nat :| j < |m.at| && m.at[j] == 0;
    assert IsOurs(m.side, m.steps, m.own, m.at, j);
  }

  ghost predicate NoneTaken(ls: seq<Label>) {
    forall l | l in ls :: !(l.ByHandler? && l.h.Take?)
  }

  lemma {:induction false} NoneTakenIsUnhurried(wf: Workflow, s: Sys, ls: seq<Label>)
    requires Runs(wf, s, ls) && NoneTaken(ls)
    ensures Unhurried(wf, s, ls)
    decreases |ls|
  {
    if ls != [] {
      assert ls[0] in ls && forall l | l in ls[1..] :: l in ls;
      NoneTakenIsUnhurried(wf, Apply(wf, s, ls[0]), ls[1..]);
    }
  }

  // Nothing else can happen to a workflow that was never seen.
  lemma FirstIsSubmit(wf: Workflow, l: Label)
    requires Enabled(wf, Nothing, l)
    ensures l == ByEngine(Submit) || l.ByFault?
  {
  }
}
