// Workflow definitions: tasks, their states and their dependency graph.

module Workflows {

  type TaskId = string

  // The dependency table of a workflow: each listed task waits for the tasks it maps to.
  type Dependencies = map<TaskId, seq<TaskId>>

  // Unset is the empty status string of a malformed result.
  datatype Status = Unset | Pending | Queued | Running | Completed | Failed | Cancelled | TimedOut

  datatype Task = Task(
    workflowId: string,
    id: TaskId,
    subject: string,
    tenant: string,
    processorId: string,
    processorVersion: string,
    sandboxed: bool,
    input: string)

  datatype Workflow = Workflow(
    id: string,
    tasks: map<TaskId, Task>,
    dependencies: Dependencies,
    replySubject: string)

  datatype TaskResult = TaskResult(
    workflowId: string,
    taskId: TaskId,
    processorId: string,
    status: Status,
    output: string,
    errorMessage: string)

  // A state record that carries nothing but a status.
  function Marker(workflowId: string, id: TaskId, status: Status): TaskResult {
    TaskResult(workflowId, id, "", status, "", "")
  }

  // Looking up a missing key of the table gives the empty list.
  function DepsOf(deps: Dependencies, id: TaskId): seq<TaskId> {
    if id in deps then deps[id] else []
  }

  predicate DependsOn(deps: Dependencies, id: TaskId, dep: TaskId) {
    dep in DepsOf(deps, id)
  }

  predicate IsRoot(wf: Workflow, id: TaskId) {
    id in wf.tasks && DepsOf(wf.dependencies, id) == []
  }

  // The copy of a task that is put on the wire carries its own id and its workflow's id.
  function Stamped(wf: Workflow, id: TaskId): Task
    requires id in wf.tasks
  {
    wf.tasks[id].(id := id, workflowId := wf.id)
  }

  // The i-th element of a walk waits for the next one.
  ghost predicate Hop(deps: Dependencies, p: seq<TaskId>, i: nat)
    requires i + 1 < |p|
  {
    DependsOn(deps, p[i], p[i + 1])
  }

  ghost predicate IsWalk(deps: Dependencies, p: seq<TaskId>) {
    p != [] && forall i: nat | i + 1 < |p| :: Hop(deps, p, i)
  }

  ghost predicate IsCycle(deps: Dependencies, c: seq<TaskId>) {
    |c| >= 2 && IsWalk(deps, c) && c[0] == c[|c| - 1]
  }

  ghost predicate Acyclic(deps: Dependencies) {
    forall c :: !IsCycle(deps, c)
  }

  // Every task mentioned by the dependency table is a task of the workflow.
  ghost predicate Closed(wf: Workflow) {
    && wf.dependencies.Keys <= wf.tasks.Keys
    && forall id, dep | DependsOn(wf.dependencies, id, dep) :: dep in wf.tasks
  }

  ghost predicate Accepted(wf: Workflow) {
    wf.tasks != map[] && Closed(wf) && Acyclic(wf.dependencies)
  }

  predicate Distinct<T(==)>(s: seq<T>) {
    forall i, j | 0 <= i < j < |s| :: s[i] != s[j]
  }

  // Everything the i-th task of the order depends on comes earlier.
  ghost predicate Settled(deps: Dependencies, order: seq<TaskId>, i: nat)
    requires i < |order|
  {
    forall d | DependsOn(deps, order[i], d) :: d in order[..i]
  }

  ghost predicate IsTopological(deps: Dependencies, order: seq<TaskId>) {
    Distinct(order) && forall i: nat | i < |order| :: Settled(deps, order, i)
  }

  ghost predicate Enumerates(order: seq<TaskId>, s: set<TaskId>) {
    Distinct(order) && (forall x :: x in order <==> x in s)
  }

  // An accepted workflow and an order of its tasks.
  ghost predicate Laid(wf: Workflow, order: seq<TaskId>) {
    Accepted(wf) && IsTopological(wf.dependencies, order) && Enumerates(order, wf.tasks.Keys)
  }
}
